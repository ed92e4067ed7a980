/** The thunk database: the builder that extends upstream's library paths to the guest's
    directories, and the image check that demands an entry for every file of a mapped
    family. */
module Overlay {
  import Paths

  const PREFIX: string := "@PREFIX_LIB@/"

  /** What a directory holds, by its name. */
  type Listing = map<string, set<string>>

  predicate IsLibrary(name: string) {
    |name| >= 3 && name[|name| - 3..] == ".so"
  }

  /** The stem itself or a version of it. */
  predicate OfFamily(name: string, stem: string) {
    name == stem || stem + "." <= name
  }

  function Within(directory: string, name: string): string {
    directory + "/" + name
  }

  /** The sonames that the database lists under the library prefix. */
  function Listed(overlay: seq<string>): set<string> {
    set path | path in overlay && PREFIX <= path :: path[|PREFIX|..]
  }

  function Families(names: set<string>): set<string> {
    set name | name in names && IsLibrary(name)
  }

  predicate InFamilies(name: string, families: set<string>) {
    exists stem :: stem in families && OfFamily(name, stem)
  }

  /** The sonames to map: those listed, and every file of their families. */
  predicate Mapped(name: string, overlay: seq<string>, paths: seq<string>, listing: Listing) {
    || name in Listed(overlay)
    || (InFamilies(name, Families(Listed(overlay)))
        && exists directory :: directory in paths && directory in listing && name in listing[directory])
  }

  const LIB32: seq<string> := ["/usr/lib32", "/lib32"]

  /** Where a soname is mapped: under the prefix, in the given directories, in the FHS
      view's directories for i386. */
  predicate PlaceOf(path: string, name: string, paths: seq<string>) {
    path == PREFIX + name || exists directory :: directory in paths + LIB32 && path == Within(directory, name)
  }

  ghost predicate Added(path: string, overlay: seq<string>, paths: seq<string>, listing: Listing) {
    exists name :: Mapped(name, overlay, paths, listing) && PlaceOf(path, name, paths)
  }

  /** The builder's promise for one entry of the database. */
  ghost predicate Extended(before: seq<string>, after: seq<string>, paths: seq<string>, listing: Listing) {
    && before <= after
    && forall path :: path in after <==> path in before || Added(path, before, paths, listing)
  }

  // ---- the builder

  /** One of the three `extend`s: entries for all sonames under one directory. */
  method ExtendWith(overlay: seq<string>, start: string, sonames: set<string>, skipKnown: bool)
      returns (longer: seq<string>)
    ensures overlay <= longer
    ensures forall path :: path in longer <==> path in overlay || exists name :: name in sonames && path == start + name
  {
    longer := overlay;
    var todo := sonames;
    while todo != {}
      invariant todo <= sonames && overlay <= longer
      invariant forall path :: path in longer <==>
                  path in overlay || exists name :: name in sonames - todo && path == start + name
    {
      var name :| name in todo;
      ghost var was := longer;
      if !(skipKnown && start + name in overlay) {
        longer := longer + [start + name];
      }
      assert sonames - (todo - {name}) == sonames - todo + {name};
      assert forall path :: path in longer <==> path in was || path == start + name;
      todo := todo - {name};
    }
    assert sonames - {} == sonames;
  }

  /** The same under several directories. */
  method ExtendAll(overlay: seq<string>, directories: seq<string>, sonames: set<string>) returns (longer: seq<string>)
    ensures overlay <= longer
    ensures forall path :: path in longer <==>
              path in overlay || exists directory, name ::
                directory in directories && name in sonames && path == Within(directory, name)
  {
    longer := overlay;
    for i := 0 to |directories|
      invariant overlay <= longer
      invariant forall path :: path in longer <==>
                  path in overlay
                  || exists directory, name ::
                     directory in directories[..i] && name in sonames && path == Within(directory, name)
    {
      ghost var was := longer;
      longer := ExtendWith(longer, directories[i] + "/", sonames, false);
      assert directories[..i + 1] == directories[..i] + [directories[i]];
      assert forall path :: path in longer <==>
             path in was || exists name :: name in sonames && path == Within(directories[i], name);
    }
    assert directories[..|directories|] == directories;
  }

  class Database {
    var overlays: map<string, seq<string>>

    constructor (overlays: map<string, seq<string>>)
      ensures this.overlays == overlays
    {
      this.overlays := overlays;
    }

    /** The body of the builder's loop. A name without an entry is an error in the source,
        as is a directory that cannot be listed. */
    method Extend(name: string, paths: seq<string>, listing: Listing)
      requires name in overlays && forall directory :: directory in paths ==> directory in listing
      modifies this
      ensures name in overlays && overlays == old(overlays)[name := overlays[name]]
      ensures Extended(old(overlays[name]), overlays[name], paths, listing)
      ensures old(overlays[name]) <= overlays[name]
    {
      var before := overlays[name];
      var sonames: set<string> := {};
      for i := 0 to |before|
        invariant sonames == Listed(before[..i])
      {
        assert before[..i + 1] == before[..i] + [before[i]];
        if PREFIX <= before[i] {
          sonames := sonames + {before[i][|PREFIX|..]};
        }
      }
      assert before[..|before|] == before;
      var families := set soname | soname in sonames && IsLibrary(soname);
      for i := 0 to |paths|
        invariant forall soname :: soname in sonames <==>
                    soname in Listed(before)
                    || (InFamilies(soname, families) && exists directory ::
                       directory in paths[..i] && soname in listing[directory])
      {
        assert paths[..i + 1] == paths[..i] + [paths[i]];
        sonames := sonames + set file | file in listing[paths[i]] && InFamilies(file, families);
      }
      assert paths[..|paths|] == paths;
      assert forall soname :: soname in sonames <==> Mapped(soname, before, paths, listing);
      var first := ExtendWith(before, PREFIX, sonames, true);
      var second := ExtendAll(first, paths, sonames);
      var third := ExtendAll(second, LIB32, sonames);
      EntriesAreAdded(before, first, second, third, paths, listing, sonames);
      overlays := overlays[name := third];
    }

    /** The whole builder. */
    method ExtendAllNames(directories: map<string, seq<string>>, listing: Listing)
      requires forall name :: name in directories ==>
                 name in overlays && forall directory :: directory in directories[name] ==> directory in listing
      modifies this
      ensures overlays.Keys == old(overlays.Keys)
      ensures forall name :: name in overlays ==>
                if name in directories then Extended(old(overlays)[name], overlays[name], directories[name], listing)
                else overlays[name] == old(overlays)[name]
    {
      var todo := directories.Keys;
      while todo != {}
        invariant todo <= directories.Keys && overlays.Keys == old(overlays.Keys)
        invariant forall name :: name in overlays ==>
                    if name in directories && name !in todo
                    then Extended(old(overlays)[name], overlays[name], directories[name], listing)
                    else overlays[name] == old(overlays)[name]
      {
        var name :| name in todo;
        Extend(name, directories[name], listing);
        todo := todo - {name};
      }
    }
  }

  lemma EntriesAreAdded(
    before: seq<string>, first: seq<string>, second: seq<string>, third: seq<string>,
    paths: seq<string>, listing: Listing, sonames: set<string>)
    requires before <= first <= second <= third
    requires forall soname :: soname in sonames <==> Mapped(soname, before, paths, listing)
    requires forall path :: path in first <==> path in before || exists name :: name in sonames && path == PREFIX + name
    requires forall path :: path in second <==>
               path in first || exists directory, name ::
                 directory in paths && name in sonames && path == Within(directory, name)
    requires forall path :: path in third <==>
               path in second || exists directory, name ::
                 directory in LIB32 && name in sonames && path == Within(directory, name)
    ensures Extended(before, third, paths, listing)
  {
    hide Mapped, Within;
    forall path
      ensures path in third <==> path in before || Added(path, before, paths, listing)
    {
      if Added(path, before, paths, listing) {
        var name :| Mapped(name, before, paths, listing) && PlaceOf(path, name, paths);
        assert name in sonames;
      }
      if path in third && path !in before {
        var name :| name in sonames && PlaceOf(path, name, paths);
        assert Mapped(name, before, paths, listing);
      }
    }
  }

  /** What the extension is for: a listed library, and every version of it that some directory
      of the guest holds, is mapped under the library prefix, in every directory of the guest
      and in both directories for i386. */
  lemma VersionsAreMapped(
    before: seq<string>, after: seq<string>, paths: seq<string>, listing: Listing, stem: string, file: string,
      shelf: string)
    requires Extended(before, after, paths, listing)
    requires "@PREFIX_LIB@/" + stem + ".so" in before
    requires || file == stem + ".so"
             || (shelf in paths && shelf in listing && file in listing[shelf] && stem + ".so." <= file)
    ensures "@PREFIX_LIB@/" + file in after && "/usr/lib32/" + file in after && "/lib32/" + file in after
    ensures forall directory :: directory in paths ==> directory + "/" + file in after
  {
    hide Added;
    var library := stem + ".so";
    IsListed(before, library);
    assert IsLibrary(library) && "@PREFIX_LIB@/" + library == "@PREFIX_LIB@/" + stem + ".so";
    assert Mapped(file, before, paths, listing) by {
      if file != library {
        assert library in Families(Listed(before)) && OfFamily(file, library);
      }
    }
    MappedIsPlaced(before, after, paths, listing, file);
  }

  lemma IsListed(overlay: seq<string>, name: string)
    ensures "@PREFIX_LIB@/" + name in overlay <==> name in Listed(overlay)
  {
    assert ("@PREFIX_LIB@/" + name)[|PREFIX|..] == name;
    assert forall path: string :: PREFIX <= path ==> path == PREFIX + path[|PREFIX|..];
  }

  lemma MappedIsPlaced(
    before: seq<string>, after: seq<string>, paths: seq<string>, listing: Listing, file: string)
    requires Extended(before, after, paths, listing) && Mapped(file, before, paths, listing)
    ensures "@PREFIX_LIB@/" + file in after && "/usr/lib32/" + file in after && "/lib32/" + file in after
    ensures forall directory :: directory in paths ==> directory + "/" + file in after
  {
    hide Mapped;
    assert PlaceOf(PREFIX + file, file, paths);
    assert Within("/usr/lib32", file) == "/usr/lib32/" + file && PlaceOf(Within("/usr/lib32", file), file, paths);
    assert Within("/lib32", file) == "/lib32/" + file && PlaceOf(Within("/lib32", file), file, paths);
    forall directory | directory in paths
      ensures directory + "/" + file in after
    {
      assert PlaceOf(Within(directory, file), file, paths);
    }
  }

  /** And nothing else: whatever is added maps a listed soname or a version of a listed
      library that is there, to one of those places. */
  lemma OnlyVersionsAreMapped(
    before: seq<string>, after: seq<string>, paths: seq<string>, listing: Listing, path: string)
      returns (file: string, directory: string)
    requires Extended(before, after, paths, listing) && path in after && path !in before
    ensures path == directory + "/" + file
    ensures directory in paths || directory in {"@PREFIX_LIB@", "/usr/lib32", "/lib32"}
    ensures || "@PREFIX_LIB@/" + file in before
            || ((exists shelf :: shelf in paths && shelf in listing && file in listing[shelf])
                && (exists stem: string :: "@PREFIX_LIB@/" + stem in before
                      && |stem| >= 3 && stem[|stem| - 3..] == ".so" && (file == stem || stem + "." <= file)))
  {
    file :| Mapped(file, before, paths, listing) && PlaceOf(path, file, paths);
    if path == PREFIX + file {
      directory := "@PREFIX_LIB@";
      assert PREFIX + file == "@PREFIX_LIB@" + "/" + file;
    } else {
      directory :| directory in paths + LIB32 && path == Within(directory, file);
    }
    IsListed(before, file);
    if file !in Listed(before) {
      var stem :| stem in Families(Listed(before)) && OfFamily(file, stem);
      IsListed(before, stem);
    }
  }

  // ---- the image check

  /** pathlib's `name`. */
  function FileName(path: string): string {
    var components := Paths.Components(path);
    if components == [] then "" else components[|components| - 1]
  }

  function Under(directory: string, overlay: seq<string>): set<string> {
    set path | path in overlay && directory + "/" <= path :: FileName(path)
  }

  /** What checks/image.py demands of one entry and one directory. */
  predicate Accepts(overlay: seq<string>, directory: string, listing: Listing)
    requires directory in listing
  {
    && Under(directory, overlay) != {}
    && forall file :: file in listing[directory] && InFamilies(file, Families(Under(directory, overlay))) ==>
         Within(directory, file) in overlay
  }

  lemma {:induction false} KeptAppends(a: seq<string>, b: seq<string>)
    ensures Paths.Kept(a + b) == Paths.Kept(a) + Paths.Kept(b)
  {
    if a == [] {
      assert a + b == b;
    } else {
      assert (a + b)[1..] == a[1..] + b;
      KeptAppends(a[1..], b);
    }
  }

  lemma {:induction false} SplitAppends(a: string, b: string)
    ensures Paths.Split(a + "/" + b) == Paths.Split(a) + Paths.Split(b)
  {
    if a == "" {
      Paths.SplitCons("", b);
      assert "" + "/" + b == "" + ("/" + b);
    } else {
      assert (a + "/" + b)[1..] == a[1..] + "/" + b;
      SplitAppends(a[1..], b);
    }
  }

  /** Whether a soname has a last component at all; "" and "." have none. */
  predicate Named(name: string) {
    Paths.Components(name) != []
  }

  /** The check goes by the last component of a soname, or by that of the directory where the
      soname has none. */
  lemma FileNameWithin(directory: string, name: string)
    ensures FileName(Within(directory, name)) == if Named(name) then FileName(name) else FileName(directory)
  {
    SplitAppends(directory, name);
    KeptAppends(Paths.Split(directory), Paths.Split(name));
    assert Paths.Components(Within(directory, name)) == Paths.Components(directory) + Paths.Components(name);
  }

  lemma FlatName(name: string)
    requires Paths.Component(name)
    ensures Named(name) && FileName(name) == name
  {
    Paths.SplitCons(name, "");
    Paths.KeptIsIdentity([name]);
  }

  /** A version of a version is a version. */
  lemma FamiliesNest(file: string, stem: string, root: string)
    requires OfFamily(file, stem) && OfFamily(stem, root)
    ensures OfFamily(file, root)
  {
  }

  /** The prefix rule closes over larger sets of families: whatever belongs to the family of
      a mapped library belongs to a family that was listed. */
  lemma MappedFamilies(file: string, stem: string, overlay: seq<string>, paths: seq<string>, listing: Listing)
    requires Mapped(stem, overlay, paths, listing) && IsLibrary(stem) && OfFamily(file, stem)
    ensures InFamilies(file, Families(Listed(overlay)))
  {
    if stem in Listed(overlay) {
      assert stem in Families(Listed(overlay));
    } else {
      var root :| root in Families(Listed(overlay)) && OfFamily(stem, root);
      FamiliesNest(file, stem, root);
    }
  }

  /** Sonames are flat names; no upstream entry lies below a directory of the guest, except
      under a name that is mapped anyway. */
  predicate Flat(overlay: seq<string>, paths: seq<string>, listing: Listing) {
    && (forall name :: name in Listed(overlay) ==> Paths.Component(name))
    && (forall directory :: directory in paths && directory in listing ==>
          forall name :: name in listing[directory] ==> Paths.Component(name))
    && (forall path, directory :: path in overlay && directory in paths && directory + "/" <= path ==>
          Mapped(FileName(path), overlay, paths, listing))
  }

  lemma MappedIsFlat(name: string, overlay: seq<string>, paths: seq<string>, listing: Listing)
    requires Flat(overlay, paths, listing) && Mapped(name, overlay, paths, listing)
    ensures Paths.Component(name)
  {
  }

  // ---- when the check passes

  const LIBRARIES := "@PREFIX_LIB@"

  predicate Below(path: string, directory: string) {
    directory + "/" <= path
  }

  /** Last components that the check finds below a directory: of upstream's own entries there,
      and of mapped sonames. */
  predicate OldStem(stem: string, directory: string, overlay: seq<string>) {
    exists path :: path in overlay && Below(path, directory) && FileName(path) == stem
  }

  predicate StemOf(stem: string, name: string, directory: string, paths: seq<string>) {
    if Named(name) then FileName(name) == stem
    else exists d :: d in paths + LIB32 + [LIBRARIES] && Below(Within(d, name), directory) && FileName(d) == stem
  }

  ghost predicate NewStem(stem: string, directory: string, overlay: seq<string>, paths: seq<string>, listing: Listing) {
    exists name :: Mapped(name, overlay, paths, listing) && StemOf(stem, name, directory, paths)
  }

  /** An entry for the file is there already or is added for some soname. */
  ghost predicate Provided(
    file: string, directory: string, overlay: seq<string>, paths: seq<string>, listing: Listing)
  {
    Within(directory, file) in overlay || Added(Within(directory, file), overlay, paths, listing)
  }

  lemma PlaceIsWithin(path: string, name: string, paths: seq<string>) returns (d: string)
    requires PlaceOf(path, name, paths)
    ensures d in paths + LIB32 + [LIBRARIES] && path == Within(d, name)
  {
    if path == PREFIX + name {
      d := LIBRARIES;
      assert PREFIX + name == Within(LIBRARIES, name);
    } else {
      d :| d in paths + LIB32 && path == Within(d, name);
    }
  }

  lemma WithinIsPlace(d: string, name: string, paths: seq<string>)
    requires d in paths + LIB32 + [LIBRARIES]
    ensures PlaceOf(Within(d, name), name, paths)
  {
    assert PREFIX + name == Within(LIBRARIES, name);
  }

  lemma NewStemIsUnder(
    stem: string, name: string, directory: string,
    before: seq<string>, after: seq<string>, paths: seq<string>, listing: Listing)
    requires Extended(before, after, paths, listing) && directory in paths
    requires Mapped(name, before, paths, listing) && StemOf(stem, name, directory, paths)
    ensures stem in Under(directory, after)
  {
    hide Mapped, FileName, PlaceOf, Named;
    var d := directory;
    if !Named(name) {
      d :| d in paths + LIB32 + [LIBRARIES] && Below(Within(d, name), directory) && FileName(d) == stem;
    }
    WithinIsPlace(d, name, paths);
    assert Added(Within(d, name), before, paths, listing);
    FileNameWithin(d, name);
    assert Below(Within(d, name), directory);
  }

  lemma AddedHasNewStem(
    path: string, directory: string, before: seq<string>, after: seq<string>, paths: seq<string>, listing: Listing)
    requires Extended(before, after, paths, listing) && directory in paths
    requires path in after && path !in before && Below(path, directory)
    ensures NewStem(FileName(path), directory, before, paths, listing)
    ensures Listed(before) != {}
  {
    hide FileName, PlaceOf, Named;
    var name :| Mapped(name, before, paths, listing) && PlaceOf(path, name, paths);
    var d := PlaceIsWithin(path, name, paths);
    FileNameWithin(d, name);
    assert StemOf(FileName(path), name, directory, paths);
    MappedMeansListed(name, before, paths, listing);
  }

  lemma ListedNameIsMapped(name: string, overlay: seq<string>, paths: seq<string>, listing: Listing)
    requires name in Listed(overlay)
    ensures Mapped(name, overlay, paths, listing)
  {
  }

  lemma MappedMeansListed(name: string, overlay: seq<string>, paths: seq<string>, listing: Listing)
    requires Mapped(name, overlay, paths, listing)
    ensures Listed(overlay) != {}
  {
    if name !in Listed(overlay) {
      var stem :| stem in Families(Listed(overlay)) && OfFamily(name, stem);
      assert stem in Listed(overlay);
    }
  }

  lemma StemsUnder(
    stem: string, directory: string, before: seq<string>, after: seq<string>, paths: seq<string>, listing: Listing)
    requires Extended(before, after, paths, listing) && directory in paths
    ensures stem in Under(directory, after) <==>
              OldStem(stem, directory, before) || NewStem(stem, directory, before, paths, listing)
  {
    hide FileName, Mapped, StemOf;
    if stem in Under(directory, after) {
      var path :| path in after && directory + "/" <= path && FileName(path) == stem;
      assert Below(path, directory);
      if path !in before {
        AddedHasNewStem(path, directory, before, after, paths, listing);
      }
    }
    if NewStem(stem, directory, before, paths, listing) {
      var name :| Mapped(name, before, paths, listing) && StemOf(stem, name, directory, paths);
      NewStemIsUnder(stem, name, directory, before, after, paths, listing);
    }
  }

  /** The check has something to look at in the directory. */
  ghost predicate Reached(directory: string, overlay: seq<string>) {
    Listed(overlay) != {} || exists path :: path in overlay && Below(path, directory)
  }

  lemma ReachedExactly(directory: string, before: seq<string>, after: seq<string>, paths: seq<string>, listing: Listing)
    requires Extended(before, after, paths, listing) && directory in paths
    ensures Under(directory, after) != {} <==> Reached(directory, before)
  {
    hide FileName, Mapped, NewStem;
    if Under(directory, after) != {} {
      var stem :| stem in Under(directory, after);
      var path :| path in after && directory + "/" <= path && FileName(path) == stem;
      assert Below(path, directory);
      if path !in before {
        AddedHasNewStem(path, directory, before, after, paths, listing);
      }
    }
    if soname :| soname in Listed(before) {
      ListedNameIsMapped(soname, before, paths, listing);
      AddedWithin(soname, before, after, paths, listing, directory);
      assert FileName(Within(directory, soname)) in Under(directory, after);
    }
    if path :| path in before && Below(path, directory) {
      assert FileName(path) in Under(directory, after);
    }
  }

  /** For every entry, soname and directory: the builder's output passes the check if and only
      if it reaches the directory at all, and every file there that belongs to the family of
      a library under a name that is not itself mapped is nevertheless provided for. */
  lemma CheckPassesExactly(
    before: seq<string>, after: seq<string>, paths: seq<string>, listing: Listing, directory: string)
    requires Extended(before, after, paths, listing) && directory in paths && directory in listing
    ensures Accepts(after, directory, listing) <==>
              && Reached(directory, before)
              && forall file, stem ::
                   file in listing[directory] && OfFamily(file, stem) && IsLibrary(stem)
                   && !Mapped(stem, before, paths, listing)
                   && (OldStem(stem, directory, before) || NewStem(stem, directory, before, paths, listing)) ==>
                     Provided(file, directory, before, paths, listing)
  {
    hide FileName, IsLibrary, OfFamily, OldStem, NewStem, Mapped, Under, Reached, Added;
    ReachedExactly(directory, before, after, paths, listing);
    forall file, stem | file in listing[directory] && OfFamily(file, stem) && IsLibrary(stem)
      ensures stem in Families(Under(directory, after)) <==>
                OldStem(stem, directory, before) || NewStem(stem, directory, before, paths, listing)
      ensures Mapped(stem, before, paths, listing) ==> Provided(file, directory, before, paths, listing)
    {
      StemsUnder(stem, directory, before, after, paths, listing);
      if Mapped(stem, before, paths, listing) {
        FamilyIsProvided(file, stem, before, after, paths, listing, directory);
      }
    }
  }

  lemma FamilyIsProvided(
    file: string, stem: string, before: seq<string>, after: seq<string>, paths: seq<string>, listing: Listing,
      directory: string)
    requires Extended(before, after, paths, listing) && directory in paths && directory in listing
    requires file in listing[directory] && OfFamily(file, stem) && IsLibrary(stem)
             && Mapped(stem, before, paths, listing)
    ensures Provided(file, directory, before, paths, listing)
  {
    hide OfFamily, IsLibrary, Within;
    MappedFamilies(file, stem, before, paths, listing);
    AddedWithin(file, before, after, paths, listing, directory);
  }

  /** For flat sonames every such name is mapped, so that the extended entry passes the check
      for any contents of the directories, as soon as upstream lists one soname at all. */
  lemma BuilderSatisfiesCheck(
    before: seq<string>, after: seq<string>, paths: seq<string>, listing: Listing, directory: string)
    requires Flat(before, paths, listing) && Extended(before, after, paths, listing)
    requires directory in paths && directory in listing && Listed(before) != {}
    ensures Accepts(after, directory, listing)
  {
    hide Accepts, Extended, FileName, Mapped, IsLibrary, OfFamily, Paths.Component, Named;
    CheckPassesExactly(before, after, paths, listing, directory);
    forall stem | OldStem(stem, directory, before) || NewStem(stem, directory, before, paths, listing)
      ensures Mapped(stem, before, paths, listing)
    {
      if NewStem(stem, directory, before, paths, listing) {
        var name :| Mapped(name, before, paths, listing) && StemOf(stem, name, directory, paths);
        MappedIsFlat(name, before, paths, listing);
        FlatName(name);
      }
    }
  }

  lemma AddedWithin(name: string, before: seq<string>, after: seq<string>, paths: seq<string>, listing: Listing,
      directory: string)
    requires Extended(before, after, paths, listing) && directory in paths && Mapped(name, before, paths, listing)
    ensures Within(directory, name) in after
  {
    assert PlaceOf(Within(directory, name), name, paths);
    assert Added(Within(directory, name), before, paths, listing);
  }

  // ---- extending twice

  predicate Absolute(paths: seq<string>) {
    forall directory :: directory in paths ==> Paths.IsAbsolute(directory)
  }

  lemma ListedOnce(name: string, before: seq<string>, once: seq<string>, paths: seq<string>, listing: Listing)
    requires Absolute(paths) && Extended(before, once, paths, listing) && name in Listed(once)
    ensures Mapped(name, before, paths, listing)
  {
    hide Mapped;
    var path :| path in once && PREFIX <= path && path[|PREFIX|..] == name;
    if path in before {
      ListedNameIsMapped(path[|PREFIX|..], before, paths, listing);
    } else {
      var other :| Mapped(other, before, paths, listing) && PlaceOf(path, other, paths);
      assert path[0] == '@' && forall directory :: directory in paths + LIB32 ==> Within(directory, other)[0] == '/';
      assert path[|PREFIX|..] == other;
    }
  }

  /** Running the builder on its own output adds nothing, although more libraries are listed
      then than upstream listed. */
  lemma BuilderIsIdempotent(before: seq<string>, once: seq<string>, twice: seq<string>, paths: seq<string>,
      listing: Listing)
    requires Absolute(paths) && Extended(before, once, paths, listing) && Extended(once, twice, paths, listing)
    ensures forall path :: path in twice <==> path in once
  {
    hide Mapped, PlaceOf;
    forall path, name | Mapped(name, once, paths, listing) && PlaceOf(path, name, paths)
      ensures path in once
    {
      MappedOnce(name, before, once, paths, listing);
      assert Added(path, before, paths, listing);
    }
  }

  lemma MappedOnce(name: string, before: seq<string>, once: seq<string>, paths: seq<string>, listing: Listing)
    requires Absolute(paths) && Extended(before, once, paths, listing) && Mapped(name, once, paths, listing)
    ensures Mapped(name, before, paths, listing)
  {
    if name in Listed(once) {
      ListedOnce(name, before, once, paths, listing);
    } else {
      var stem :| stem in Families(Listed(once)) && OfFamily(name, stem);
      ListedOnce(stem, before, once, paths, listing);
      MappedFamilies(name, stem, before, paths, listing);
    }
  }

  // ---- why sonames must be flat

  const NESTED: seq<string> := ["@PREFIX_LIB@/sub/libx.so"]
  const SHELF: Listing := map["/l" := {"libx.so.1"}]

  /** A listed library in a subdirectory makes the check look for versions beside it that
      the builder never looks for: here it passes only if there are none. */
  lemma NestedSonameFails(after: seq<string>)
    requires Extended(NESTED, after, ["/l"], SHELF)
    ensures !Accepts(after, "/l", SHELF)
  {
    hide Accepts, Extended, FileName, Mapped, Paths.Component, Named, Within, Added;
    CheckPassesExactly(NESTED, after, ["/l"], SHELF, "/l");
    NestedIsAlone();
    NestedStem();
    assert OfFamily("libx.so.1", "libx.so") && IsLibrary("libx.so");
    NothingBeside();
  }

  lemma NestedStem()
    ensures Mapped("sub/libx.so", NESTED, ["/l"], SHELF) && StemOf("libx.so", "sub/libx.so", "/l", ["/l"])
  {
    hide FileName, Paths.Component, Named;
    ListedNameIsMapped(NESTED[0][|PREFIX|..], NESTED, ["/l"], SHELF);
    assert NESTED[0][|PREFIX|..] == "sub/libx.so" == Within("sub", "libx.so");
    FlatExample();
    FlatName("libx.so");
    FileNameWithin("sub", "libx.so");
    NestedNamed();
  }

  lemma NestedNamed()
    ensures Named("sub/libx.so")
  {
    SplitAppends("sub", "libx.so");
    KeptAppends(Paths.Split("sub"), Paths.Split("libx.so"));
    assert "sub/libx.so" == "sub" + "/" + "libx.so";
    FlatExample();
    FlatName("libx.so");
  }

  lemma FlatExample()
    ensures Paths.Component("libx.so")
  {
  }

  lemma NestedIsAlone()
    ensures forall name :: Mapped(name, NESTED, ["/l"], SHELF) ==> name == "sub/libx.so"
  {
  }

  lemma NothingBeside()
    ensures !Provided("libx.so.1", "/l", NESTED, ["/l"], SHELF)
  {
    hide Mapped;
    NestedIsAlone();
    assert forall path :: PlaceOf(path, "sub/libx.so", ["/l"]) ==> |path| > |Within("/l", "libx.so.1")|;
    assert |NESTED[0]| > |Within("/l", "libx.so.1")|;
  }
}
