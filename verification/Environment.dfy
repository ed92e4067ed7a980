/** runtime/x86_on_arm/environment.py: what of a caller's environment reaches the guest
    program. */
module Environment {
  import Shell
  import Transport

  type Env = map<string, string>

  const VM_ENVIRONMENT: set<string> := {
    "DISPLAY", "XAUTHORITY", "XDG_RUNTIME_DIR", "PULSE_SERVER", "WAYLAND_DISPLAY", "DBUS_SESSION_BUS_ADDRESS",
    "GTK_IM_MODULE", "QT_IM_MODULE", "XRE_PROFILE_PATH", "PIPEWIRE_RUNTIME_DIR", "PIPEWIRE_REMOTE", "X11_SOCKET"
  }

  const LOADER_ENVIRONMENT: set<string> := {
    "LD_LIBRARY_PATH", "LD_PRELOAD", "VK_DRIVER_FILES", "VK_ICD_FILENAMES", "LIBGL_DRIVERS_PATH",
    "__EGL_VENDOR_LIBRARY_DIRS", "__EGL_VENDOR_LIBRARY_FILENAMES", "LIBGL_VENDORS_PATH", "LOCPATH", "GCONV_PATH",
    "GI_TYPELIB_PATH", "GIO_EXTRA_MODULES", "GTK_PATH", "QT_PLUGIN_PATH", "QT_QPA_PLATFORM_PLUGIN_PATH",
    "QML2_IMPORT_PATH", "ALSA_PLUGIN_DIR", "GST_PLUGIN_PATH", "GST_PLUGIN_PATH_1_0", "MESA_LOADER_DRIVER_OVERRIDE",
    "LIBGL_ALWAYS_SOFTWARE", "GALLIUM_DRIVER"
  }

  datatype Backend = Fex | Muvm

  /** The settings file, with what `graphics` makes of it and of the host's drivers. */
  datatype Settings = Settings(rootfs: string, thunkConfig: string, environment: Env, mode: string, icds: string)

  function Omitted(backend: Backend): set<string> {
    LOADER_ENVIRONMENT + if backend.Muvm? then VM_ENVIRONMENT else {}
  }

  function Get(env: Env, key: string): string {
    if key in env then env[key] else ""
  }

  function Kept(source: Env, omitted: set<string>): Env {
    map key | key in source && key !in omitted :: source[key]
  }

  /** native_environment */
  function Native(source: Env): Env {
    Kept(source, LOADER_ENVIRONMENT)
  }

  const GUEST_PATH := "/usr/local/bin:/usr/bin:/bin:"
  const GUEST_DATA := "/usr/local/share:/usr/share:"

  /** Entries that every guest program gets. */
  function Common(settings: Settings, source: Env): Env {
    map[
      "PATH" := GUEST_PATH + Get(source, "PATH"),
      "LANG" := "C.UTF-8",
      "LC_ALL" := "C.UTF-8",
      "FEX_ROOTFS" := settings.rootfs,
      "FEX_THUNKCONFIG" := settings.thunkConfig,
      "XDG_DATA_DIRS" := GUEST_DATA + Get(source, "XDG_DATA_DIRS"),
      "SSL_CERT_FILE" := "/etc/ssl/certs/ca-bundle.crt",
      "LIBGL_DRIVERS_PATH" := "/run/opengl-driver/lib/dri:/run/opengl-driver-32/lib/dri",
      "__EGL_VENDOR_LIBRARY_DIRS" :=
        "/run/opengl-driver/share/glvnd/egl_vendor.d:/run/opengl-driver-32/share/glvnd/egl_vendor.d"
    ]
  }

  function Graphical(settings: Settings): Env {
    if settings.icds != "" then map["VK_DRIVER_FILES" := settings.icds] else map[]
  }

  /** Entries of the VM alone; `uid` is the caller's user id in decimal. */
  function OfVm(settings: Settings, uid: string): Env {
    map[
      "PULSE_SERVER" := "unix:/run/user/" + uid + "/pulse/native",
      "DBUS_SESSION_BUS_ADDRESS" := "unix:path=/run/user/" + uid + "/bus",
      "SDL_AUDIODRIVER" := "pulseaudio"
    ]
    + if settings.mode == "venus" then map["MESA_LOADER_DRIVER_OVERRIDE" := "zink"]
      else if settings.mode == "software" then
        map["MESA_LOADER_DRIVER_OVERRIDE" := "llvmpipe", "LIBGL_ALWAYS_SOFTWARE" := "1", "GALLIUM_DRIVER" := "llvmpipe"]
      else map[]
  }

  /** Everything that does not come from the caller, save for the two search paths. */
  function Layers(settings: Settings, source: Env, backend: Backend, uid: string): Env {
    Common(settings, source) + Graphical(settings)
    + (if backend.Muvm? then OfVm(settings, uid) else map[]) + settings.environment
  }

  /** The guest's environment: later layers win over earlier ones. */
  function Guest(settings: Settings, source: Env, backend: Backend, uid: string): Env {
    Kept(source, Omitted(backend)) + Layers(settings, source, backend, uid)
  }

  lemma PutLast(env: Env, layer: Env, key: string, value: string)
    ensures env + layer[key := value] == (env + layer)[key := value]
  {
  }

  lemma AddLast(env: Env, layer: Env, more: Env)
    ensures env + (layer + more) == env + layer + more
  {
  }

  /** The entries for the VM, one after the other. */
  method AddVm(start: Env, settings: Settings, uid: string) returns (env: Env)
    ensures env == start + OfVm(settings, uid)
  {
    ghost var layer: Env := map[];
    env := start;
    assert env == start + layer;
    env, layer := Put(start, env, layer, "PULSE_SERVER", "unix:/run/user/" + uid + "/pulse/native");
    env, layer := Put(start, env, layer, "DBUS_SESSION_BUS_ADDRESS", "unix:path=/run/user/" + uid + "/bus");
    env, layer := Put(start, env, layer, "SDL_AUDIODRIVER", "pulseaudio");
    ghost var base, display := layer, map[];
    var after := env;
    if settings.mode == "venus" {
      env, display := Put(after, env, display, "MESA_LOADER_DRIVER_OVERRIDE", "zink");
    } else if settings.mode == "software" {
      env, display := Put(after, env, display, "MESA_LOADER_DRIVER_OVERRIDE", "llvmpipe");
      env, display := Put(after, env, display, "LIBGL_ALWAYS_SOFTWARE", "1");
      env, display := Put(after, env, display, "GALLIUM_DRIVER", "llvmpipe");
    }
    AddLast(start, base, display);
    assert OfVm(settings, uid) == base + display;
  }

  /** env[key] = value, seen as the last entry of a layer over `start`. */
  method Put(ghost start: Env, env: Env, ghost layer: Env, key: string, value: string)
      returns (after: Env, ghost longer: Env)
    requires env == start + layer
    ensures after == env[key := value] && longer == layer[key := value] && after == start + longer
  {
    PutLast(start, layer, key, value);
    after, longer := env[key := value], layer[key := value];
  }

  /** guest_environment, updating one dictionary entry after entry. */
  method GuestEnvironment(settings: Settings, source: Env, backend: Backend, uid: string) returns (env: Env)
    ensures env == Guest(settings, source, backend, uid)
  {
    hide Common, OfVm, Omitted;
    var kept := Kept(source, Omitted(backend));
    env := kept + Common(settings, source);
    if settings.icds != "" {
      env := env["VK_DRIVER_FILES" := settings.icds];
    }
    assert env == kept + (Common(settings, source) + Graphical(settings));
    ghost var layers := Common(settings, source) + Graphical(settings);
    if backend.Muvm? {
      AddLast(kept, layers, OfVm(settings, uid));
      env := AddVm(env, settings, uid);
    }
    ghost var most := layers + if backend.Muvm? then OfVm(settings, uid) else map[];
    assert env == kept + most;
    AddLast(kept, most, settings.environment);
    env := env + settings.environment;
  }

  // ---- what the caller can influence

  /** Keys whose value in the guest the caller has no say in. */
  function Masked(settings: Settings, backend: Backend): set<string> {
    Omitted(backend) + {"LANG", "LC_ALL", "FEX_ROOTFS", "FEX_THUNKCONFIG", "SSL_CERT_FILE"}
    + (if backend.Muvm? then {"SDL_AUDIODRIVER"} else {}) + settings.environment.Keys
  }

  /** Two callers look the same at a key; an unset search path is an empty one. */
  predicate Agree(a: Env, b: Env, key: string) {
    if key == "PATH" || key == "XDG_DATA_DIRS" then Get(a, key) == Get(b, key)
    else (key in a <==> key in b) && Get(a, key) == Get(b, key)
  }

  ghost predicate AgreeOutside(a: Env, b: Env, masked: set<string>) {
    forall key :: key !in masked ==> Agree(a, b, key)
  }

  predicate Searched(key: string) {
    key == "PATH" || key == "XDG_DATA_DIRS"
  }

  function GuestPrefix(key: string): string {
    if key == "PATH" then GUEST_PATH else GUEST_DATA
  }

  /** The caller's only way into the common entries. */
  lemma CommonEntries(settings: Settings, source: Env, key: string)
    ensures Searched(key) ==>
              key in Common(settings, source) && Common(settings, source)[key] == GuestPrefix(key) + Get(source, key)
  {
    hide Get;
  }

  lemma CommonAlike(settings: Settings, a: Env, b: Env, key: string)
    requires !Searched(key)
    ensures key in Common(settings, a) <==> key in Common(settings, b)
    ensures key in Common(settings, a) ==> Common(settings, a)[key] == Common(settings, b)[key]
  {
    hide Get;
  }

  lemma CommonIsMasked(settings: Settings, source: Env, backend: Backend, key: string)
    requires !Searched(key) && key in Common(settings, source)
    ensures key in Masked(settings, backend)
  {
    hide Get;
  }

  lemma MaskedIsCommon(settings: Settings, source: Env, backend: Backend, key: string)
    requires key in Masked(settings, backend) && key !in Omitted(backend) && key !in settings.environment
    ensures key in Common(settings, source) || (backend.Muvm? && key == "SDL_AUDIODRIVER")
  {
    hide Get, Omitted;
  }

  lemma VmIsMasked(settings: Settings, backend: Backend, uid: string, key: string)
    ensures key in Graphical(settings) ==> key in LOADER_ENVIRONMENT
    ensures key in OfVm(settings, uid) ==> key in Omitted(Muvm) || key == "SDL_AUDIODRIVER"
    ensures "SDL_AUDIODRIVER" in OfVm(settings, uid)
  {
  }

  lemma SearchedIsFree(settings: Settings, backend: Backend, key: string)
    requires Searched(key)
    ensures key !in Omitted(backend) && key != "SDL_AUDIODRIVER"
    ensures key in Masked(settings, backend) <==> key in settings.environment
  {
    hide Omitted;
    SearchedComesThrough(backend, key);
  }

  lemma SearchedComesThrough(backend: Backend, key: string)
    requires Searched(key)
    ensures key !in Omitted(backend)
  {
  }

  /** What the guest sees under one key, by the layer that decides. */
  lemma GuestAt(settings: Settings, source: Env, backend: Backend, uid: string, key: string)
    ensures var env := Guest(settings, source, backend, uid);
            if key in settings.environment then key in env && env[key] == settings.environment[key]
            else if backend.Muvm? && key in OfVm(settings, uid) then key in env && env[key] == OfVm(settings, uid)[key]
            else if key in Graphical(settings) then key in env && env[key] == Graphical(settings)[key]
            else if key in Common(settings, source) then key in env && env[key] == Common(settings, source)[key]
            else (key in env <==> key in source && key !in Omitted(backend)) && (key in env ==> env[key] == source[key])
  {
    hide Common, OfVm, Graphical, Omitted;
  }

  // ---- the same, name by name

  /** Variables that point programs at libraries, drivers and plugins of the host. */
  predicate OfTheLoader(key: string) {
    key in {
      "LD_LIBRARY_PATH", "LD_PRELOAD", "VK_DRIVER_FILES", "VK_ICD_FILENAMES", "LIBGL_DRIVERS_PATH",
      "__EGL_VENDOR_LIBRARY_DIRS", "__EGL_VENDOR_LIBRARY_FILENAMES", "LIBGL_VENDORS_PATH", "LOCPATH", "GCONV_PATH",
      "GI_TYPELIB_PATH", "GIO_EXTRA_MODULES", "GTK_PATH", "QT_PLUGIN_PATH", "QT_QPA_PLATFORM_PLUGIN_PATH",
      "QML2_IMPORT_PATH", "ALSA_PLUGIN_DIR", "GST_PLUGIN_PATH", "GST_PLUGIN_PATH_1_0", "MESA_LOADER_DRIVER_OVERRIDE",
      "LIBGL_ALWAYS_SOFTWARE", "GALLIUM_DRIVER"
    }
  }

  /** The caller's display, sound, input and session. */
  predicate OfTheSession(key: string) {
    key in {
      "DISPLAY", "XAUTHORITY", "XDG_RUNTIME_DIR", "PULSE_SERVER", "WAYLAND_DISPLAY", "DBUS_SESSION_BUS_ADDRESS",
      "GTK_IM_MODULE", "QT_IM_MODULE", "XRE_PROFILE_PATH", "PIPEWIRE_RUNTIME_DIR", "PIPEWIRE_REMOTE", "X11_SOCKET"
    }
  }

  /** What the VM puts in the place of some of them. */
  predicate OfTheVm(settings: Settings, uid: string, key: string, value: string) {
    || (key == "PULSE_SERVER" && value == "unix:/run/user/" + uid + "/pulse/native")
    || (key == "DBUS_SESSION_BUS_ADDRESS" && value == "unix:path=/run/user/" + uid + "/bus")
    || (key == "SDL_AUDIODRIVER" && value == "pulseaudio")
    || (settings.mode == "venus" && key == "MESA_LOADER_DRIVER_OVERRIDE" && value == "zink")
    || (settings.mode == "software" && key == "MESA_LOADER_DRIVER_OVERRIDE" && value == "llvmpipe")
    || (settings.mode == "software" && key == "LIBGL_ALWAYS_SOFTWARE" && value == "1")
    || (settings.mode == "software" && key == "GALLIUM_DRIVER" && value == "llvmpipe")
  }

  predicate OfSearch(source: Env, key: string, value: string) {
    || (key == "PATH" && value == "/usr/local/bin:/usr/bin:/bin:" + Get(source, "PATH"))
    || (key == "XDG_DATA_DIRS" && value == "/usr/local/share:/usr/share:" + Get(source, "XDG_DATA_DIRS"))
  }

  predicate OfGraphics(key: string, value: string) {
    || (key == "LIBGL_DRIVERS_PATH" && value == "/run/opengl-driver/lib/dri:/run/opengl-driver-32/lib/dri")
    || (key == "__EGL_VENDOR_LIBRARY_DIRS"
        && value == "/run/opengl-driver/share/glvnd/egl_vendor.d:/run/opengl-driver-32/share/glvnd/egl_vendor.d")
  }

  predicate OfSystem(settings: Settings, key: string, value: string) {
    || (key == "LANG" && value == "C.UTF-8")
    || (key == "LC_ALL" && value == "C.UTF-8")
    || (key == "FEX_ROOTFS" && value == settings.rootfs)
    || (key == "FEX_THUNKCONFIG" && value == settings.thunkConfig)
    || (key == "SSL_CERT_FILE" && value == "/etc/ssl/certs/ca-bundle.crt")
  }

  predicate OfEveryGuest(settings: Settings, source: Env, key: string, value: string) {
    OfSearch(source, key, value) || OfGraphics(key, value) || OfSystem(settings, key, value)
  }

  lemma CommonHasSearch(settings: Settings, source: Env, key: string, value: string)
    requires OfSearch(source, key, value)
    ensures key in Common(settings, source) && Common(settings, source)[key] == value
  {
    hide Get;
  }

  lemma CommonHasGraphics(settings: Settings, source: Env, key: string, value: string)
    requires OfGraphics(key, value)
    ensures key in Common(settings, source) && Common(settings, source)[key] == value
  {
    hide Get;
  }

  lemma CommonHasSystem(settings: Settings, source: Env, key: string, value: string)
    requires OfSystem(settings, key, value)
    ensures key in Common(settings, source) && Common(settings, source)[key] == value
  {
    hide Get;
  }

  lemma CommonHas(settings: Settings, source: Env, key: string, value: string)
    requires OfEveryGuest(settings, source, key, value)
    ensures key in Common(settings, source) && Common(settings, source)[key] == value
  {
    hide Get, Common, OfSearch, OfGraphics, OfSystem;
    if OfSearch(source, key, value) {
      CommonHasSearch(settings, source, key, value);
    } else if OfGraphics(key, value) {
      CommonHasGraphics(settings, source, key, value);
    } else {
      CommonHasSystem(settings, source, key, value);
    }
  }

  lemma CommonHasOnly(settings: Settings, source: Env, key: string)
    requires key in Common(settings, source)
    ensures OfEveryGuest(settings, source, key, Common(settings, source)[key])
  {
    hide Get;
  }

  lemma VmHas(settings: Settings, uid: string, key: string, value: string)
    requires OfTheVm(settings, uid, key, value)
    ensures key in OfVm(settings, uid) && OfVm(settings, uid)[key] == value
  {
  }

  lemma VmHasOnly(settings: Settings, uid: string, key: string)
    requires key in OfVm(settings, uid)
    ensures OfTheVm(settings, uid, key, OfVm(settings, uid)[key])
  {
  }

  lemma OmittedNames(backend: Backend, key: string)
    ensures key in Omitted(backend) <==> OfTheLoader(key) || (backend.Muvm? && OfTheSession(key))
  {
  }

  /** The whole guest environment: for every name that the settings leave alone, which value it
      has if any. The caller's own value comes through only under a name that is neither the
      loader's nor, on muvm, the session's, and that nothing sets. */
  lemma GuestByName(settings: Settings, source: Env, backend: Backend, uid: string, key: string, value: string)
    requires key !in settings.environment
    ensures var env := Guest(settings, source, backend, uid);
            key in env && env[key] == value <==>
              if backend.Muvm? && exists v :: OfTheVm(settings, uid, key, v) then OfTheVm(settings, uid, key, value)
              else if key == "VK_DRIVER_FILES" && settings.icds != "" then value == settings.icds
              else if exists v :: OfEveryGuest(settings, source, key, v) then OfEveryGuest(settings, source, key, value)
              else
                key in source && source[key] == value
                && !OfTheLoader(key) && (backend.Muvm? ==> !OfTheSession(key))
  {
    hide Guest, Common, OfVm, Omitted, OfTheVm, OfEveryGuest, OfTheLoader, OfTheSession;
    GuestAt(settings, source, backend, uid, key);
    OmittedNames(backend, key);
    if key in OfVm(settings, uid) {
      VmHasOnly(settings, uid, key);
    }
    if key in Common(settings, source) {
      CommonHasOnly(settings, source, key);
    }
    forall v
      ensures OfTheVm(settings, uid, key, v) ==> key in OfVm(settings, uid) && OfVm(settings, uid)[key] == v
      ensures OfEveryGuest(settings, source, key, v) ==>
                key in Common(settings, source) && Common(settings, source)[key] == v
    {
      if OfTheVm(settings, uid, key, v) {
        VmHas(settings, uid, key, v);
      }
      if OfEveryGuest(settings, source, key, v) {
        CommonHas(settings, source, key, v);
      }
    }
  }

  lemma SameWhereMasked(settings: Settings, a: Env, b: Env, backend: Backend, uid: string, key: string)
    requires key in Masked(settings, backend)
    ensures var x, y := Guest(settings, a, backend, uid), Guest(settings, b, backend, uid);
            (key in x <==> key in y) && (key in x ==> x[key] == y[key])
  {
    hide Common, OfVm, Graphical, Omitted, Masked, Guest;
    GuestAt(settings, a, backend, uid, key);
    GuestAt(settings, b, backend, uid, key);
    if key !in settings.environment {
      if Searched(key) {
        SearchedIsFree(settings, backend, key);
      } else {
        CommonAlike(settings, a, b, key);
        if key !in Omitted(backend) {
          MaskedIsCommon(settings, a, backend, key);
          VmIsMasked(settings, backend, uid, key);
        }
      }
    }
  }

  lemma FreeAtOthers(settings: Settings, source: Env, backend: Backend, uid: string, key: string)
    requires key !in Masked(settings, backend) && !Searched(key)
    ensures var env := Guest(settings, source, backend, uid);
            (key in env <==> key in source) && (key in env ==> env[key] == source[key])
  {
    hide Common, OfVm, Graphical, Guest;
    GuestAt(settings, source, backend, uid, key);
    VmIsMasked(settings, backend, uid, key);
    assert key !in Common(settings, source) by {
      if key in Common(settings, source) {
        CommonIsMasked(settings, source, backend, key);
      }
    }
    MaskedHas(settings, backend);
  }

  lemma MaskedHas(settings: Settings, backend: Backend)
    ensures Omitted(backend) <= Masked(settings, backend) && settings.environment.Keys <= Masked(settings, backend)
    ensures LOADER_ENVIRONMENT <= Omitted(backend)
    ensures backend.Muvm? ==> "SDL_AUDIODRIVER" in Masked(settings, backend)
  {
  }

  lemma FreeAtSearched(settings: Settings, source: Env, backend: Backend, uid: string, key: string)
    requires key !in Masked(settings, backend) && Searched(key)
    ensures var env := Guest(settings, source, backend, uid);
            key in env && env[key] == GuestPrefix(key) + Get(source, key)
  {
    hide Common, OfVm, Graphical, Guest, Masked, Omitted;
    GuestAt(settings, source, backend, uid, key);
    VmIsMasked(settings, backend, uid, key);
    MaskedHas(settings, backend);
    SearchedIsFree(settings, backend, key);
    SearchedIsFree(settings, Muvm, key);
    SearchedIsFree(settings, Fex, key);
    CommonEntries(settings, source, key);
  }

  lemma SameAt(settings: Settings, a: Env, b: Env, backend: Backend, uid: string, key: string)
    ensures var x, y := Guest(settings, a, backend, uid), Guest(settings, b, backend, uid);
            (key in x <==> key in y) && (key in x ==> x[key] == y[key]) <==>
              key in Masked(settings, backend) || Agree(a, b, key)
  {
    hide Guest, Masked, Searched;
    if key in Masked(settings, backend) {
      SameWhereMasked(settings, a, b, backend, uid, key);
    } else if Searched(key) {
      FreeAtSearched(settings, a, backend, uid, key);
      FreeAtSearched(settings, b, backend, uid, key);
      PrefixCancels(GuestPrefix(key), Get(a, key), Get(b, key));
      SearchedAgree(a, b, key);
    } else {
      FreeAtOthers(settings, a, backend, uid, key);
      FreeAtOthers(settings, b, backend, uid, key);
      OthersAgree(a, b, key);
    }
  }

  lemma PrefixCancels(prefix: string, x: string, y: string)
    ensures prefix + x == prefix + y <==> x == y
  {
    assert (prefix + x)[|prefix|..] == x && (prefix + y)[|prefix|..] == y;
  }

  lemma SearchedAgree(a: Env, b: Env, key: string)
    requires Searched(key)
    ensures Agree(a, b, key) <==> Get(a, key) == Get(b, key)
  {
  }

  lemma OthersAgree(a: Env, b: Env, key: string)
    requires !Searched(key)
    ensures Agree(a, b, key) <==> (key in a <==> key in b) && (key in a && key in b ==> a[key] == b[key])
  {
  }

  /** Two callers get the same guest environment exactly when they agree outside the loader
      variables, on muvm outside the VM's as well, and outside what the fixed entries and
      the settings override. */
  lemma NonInterferenceIsExact(settings: Settings, a: Env, b: Env, backend: Backend, uid: string)
    ensures Guest(settings, a, backend, uid) == Guest(settings, b, backend, uid)
       <==> AgreeOutside(a, b, Masked(settings, backend))
  {
    hide Guest, Masked, Agree;
    forall key
      ensures var x, y := Guest(settings, a, backend, uid), Guest(settings, b, backend, uid);
              (key in x <==> key in y) && (key in x ==> x[key] == y[key]) <==>
                key in Masked(settings, backend) || Agree(a, b, key)
    {
      SameAt(settings, a, b, backend, uid, key);
    }
  }

  /** Filtering the loader variables first, as a launcher does for its host programs, changes
      nothing for the guest. */
  lemma NativeIsEnough(settings: Settings, source: Env, backend: Backend, uid: string)
    ensures Guest(settings, Native(source), backend, uid) == Guest(settings, source, backend, uid)
  {
    hide Guest, Masked, LOADER_ENVIRONMENT;
    NonInterferenceIsExact(settings, Native(source), source, backend, uid);
    forall key | key !in Masked(settings, backend)
      ensures Agree(Native(source), source, key)
    {
      MaskedHas(settings, backend);
    }
  }

  // ---- together with the command transport

  /** The same dictionary in some order. */
  ghost predicate Lists(dict: Transport.Dict, env: Env) {
    forall key, value :: (key, value) in dict <==> key in env && env[key] == value
  }

  lemma {:induction false} EntryOf(dict: Transport.Dict, key: string)
    requires key in Transport.EnvOf(dict)
    ensures (key, Transport.EnvOf(dict)[key]) in dict
  {
    if dict != [] {
      if key in Transport.EnvOf(dict[1..]) {
        EntryOf(dict[1..], key);
      } else {
        assert dict[0] == (key, Transport.EnvOf(dict)[key]);
      }
    }
  }

  lemma ListedEnv(dict: Transport.Dict, env: Env)
    requires Lists(dict, env)
    ensures Transport.EnvOf(dict) == env
  {
    hide Transport.EnvOf;
    var read := Transport.EnvOf(dict);
    forall key
      ensures (key in read <==> key in env) && (key in read ==> read[key] == env[key])
    {
      if key in read {
        EntryOf(dict, key);
      }
      if key in env {
        Transport.EnvOfKeys(dict, (key, env[key]));
      }
    }
  }

  lemma ListedAlike(da: Transport.Dict, db: Transport.Dict, env: Env)
    requires Lists(da, env) && Lists(db, env)
    ensures forall v :: v in da <==> v in db
  {
    forall v
      ensures v in da <==> v in db
    {
      assert v == (v.0, v.1);
    }
  }

  /** End to end: two such callers' scripts, each listing its environment in any order, run
      the same program with the same arguments in the same environment, given the same
      bridged values. */
  lemma CallersRunAlike(
    settings: Settings, a: Env, b: Env, backend: Backend, uid: string,
    program: string, argv0: string, arguments: seq<string>, cwd: string, bridge: bool,
    da: Transport.Dict, db: Transport.Dict, outerA: Env, outerB: Env)
    requires AgreeOutside(a, b, Masked(settings, backend))
    requires Lists(da, Guest(settings, a, backend, uid)) && Lists(db, Guest(settings, b, backend, uid))
    requires Transport.WithoutNul(program, argv0, arguments, da, cwd) && Transport.WithVariables(da)
    requires forall name :: Transport.OfSession(name) ==>
             Shell.ValueOrEmpty(outerA, name) == Shell.ValueOrEmpty(outerB, name)
    ensures var x := Transport.Run(Transport.CommandScript(program, argv0, arguments, da, cwd, bridge), outerA);
            var y := Transport.Run(Transport.CommandScript(program, argv0, arguments, db, cwd, bridge), outerB);
            x.Some? && x == y
  {
    hide Guest, Masked, Transport.Run, Transport.CommandScript, Transport.EnvOf, Transport.OfSession;
    var env := Guest(settings, a, backend, uid);
    NonInterferenceIsExact(settings, a, b, backend, uid);
    ListedAlike(da, db, env);
    ListedEnv(da, env);
    ListedEnv(db, env);
    Transport.RoundTrip(program, argv0, arguments, da, cwd, bridge, outerA);
    Transport.RoundTrip(program, argv0, arguments, db, cwd, bridge, outerB);
    var x := Transport.Run(Transport.CommandScript(program, argv0, arguments, da, cwd, bridge), outerA);
    var y := Transport.Run(Transport.CommandScript(program, argv0, arguments, db, cwd, bridge), outerB);
    assert x.value.env == y.value.env;
  }
}
