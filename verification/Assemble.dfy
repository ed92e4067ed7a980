/** The last step of guest/assemble.py as it runs: a walk over the real directories of
    the image that replaces links in place. */
module Assemble {
  import opened Paths
  import opened Image
  import opened Relocate
  import opened Walks

  function Base(p: Path): string
    requires p != []
  {
    p[|p| - 1]
  }

  /** The entries of `dir` with a name in `names`. */
  ghost predicate Within(p: Path, dir: Path, names: set<string>) {
    p != [] && Parent(p) == dir && Base(p) in names
  }

  /** `t` after the links of `dir` with a name in `names` have been rewritten. */
  ghost function Pass(root: Path, dir: Path, names: set<string>, t: Tree): Tree {
    map p | p in t :: if Within(p, dir, names) then RelinkedEntry(root, p, t[p]) else t[p]
  }

  lemma OnlyPath(p: Path, dir: Path, name: string)
    ensures p != [] && Parent(p) == dir && Base(p) == name <==> p == dir + [name]
  {
    if p != [] && Parent(p) == dir && Base(p) == name {
      assert p == Parent(p) + [Base(p)];
    }
  }

  lemma PassStep(root: Path, dir: Path, names: set<string>, name: string, t: Tree)
    requires dir + [name] in t && name !in names
    ensures Pass(root, dir, names, t)[dir + [name]] == t[dir + [name]]
    ensures Pass(root, dir, names + {name}, t)
         == Pass(root, dir, names, t)[dir + [name] := RelinkedEntry(root, dir + [name], t[dir + [name]])]
  {
    hide RelinkedEntry;
    forall p | p in t
      ensures Within(p, dir, names + {name}) <==> Within(p, dir, names) || p == dir + [name]
      ensures p == dir + [name] ==> !Within(p, dir, names)
    {
      OnlyPath(p, dir, name);
    }
  }

  lemma PassNone(root: Path, dir: Path, t: Tree)
    ensures Pass(root, dir, {}, t) == t
  {
  }

  /** The same for one directory, entry by entry. */
  lemma PassStoreLinks(root: Path, dir: Path, names: set<string>, t: Tree)
    requires Lists(names, dir, t)
    ensures var a := Pass(root, dir, names, t);
            forall name :: name in names ==>
              var p := dir + [name];
              p in a && p in t
              && if t[p].Link? && "/nix/store/" <= t[p].target
                 then a[p].Link? && (Names(root + dir) ==> !IsAbsolute(a[p].target)) else a[p] == t[p]
  {
    hide Relinked;
    forall name | name in names
      ensures var p := dir + [name];
              var a := Pass(root, dir, names, t);
              p in a && p in t
              && if t[p].Link? && "/nix/store/" <= t[p].target
                 then a[p].Link? && (Names(root + dir) ==> !IsAbsolute(a[p].target)) else a[p] == t[p]
    {
      var p := dir + [name];
      OnlyPath(p, dir, name);
      if t[p].Link? {
        StoreLinkText(root, dir, t[p].target);
      }
    }
  }

  lemma StoreLinkText(root: Path, dir: Path, target: string)
    ensures "/nix/store/" <= target && Names(root + dir) ==> !IsAbsolute(Relinked(root, dir, target))
    ensures !("/nix/store/" <= target) ==> Relinked(root, dir, target) == target
  {
    hide Spelled, Between, RelativeString, RelPath;
    if "/nix/store/" <= target && Names(root + dir) {
      assert forall c :: c in root ==> c in root + dir;
      assert forall c :: c in dir ==> c in root + dir;
      RelinkedParts(root, dir, target);
    }
  }

  ghost predicate Lists(names: set<string>, dir: Path, t: Tree) {
    forall n :: n in names <==> dir + [n] in t
  }

  /** The image under construction. */
  class Building {
    var entries: Tree

    constructor (entries: Tree)
      ensures this.entries == entries
    {
      this.entries := entries;
    }

    /** The names os.walk reports for one directory, links to directories included. */
    method Listing(dir: Path) returns (names: set<string>)
      ensures Lists(names, dir, entries)
    {
      names := set p | p in entries && p != [] && Parent(p) == dir :: Base(p);
      forall n
        ensures n in names <==> dir + [n] in entries
      {
        OnlyPath(dir + [n], dir, n);
        if n in names {
          var p :| p in entries && p != [] && Parent(p) == dir && Base(p) == n;
          OnlyPath(p, dir, n);
        }
      }
    }

    /** The body of the outer loop: every link in `dir` that points into the store is
        removed and created again. */
    method RelinkDirectory(root: Path, dir: Path, names: set<string>)
      requires Lists(names, dir, entries)
      modifies this
      ensures entries == Pass(root, dir, names, old(entries))
      ensures forall name :: name in names ==>
                var p := dir + [name];
                p in entries && p in old(entries)
                && if old(entries)[p].Link? && "/nix/store/" <= old(entries)[p].target
                   then entries[p].Link? && (Names(root + dir) ==> !IsAbsolute(entries[p].target))
                   else entries[p] == old(entries)[p]
    {
      hide RelPath, RelativeString, Components;
      var todo := names;
      PassNone(root, dir, entries);
      while todo != {}
        invariant todo <= names
        invariant entries == Pass(root, dir, names - todo, old(entries))
        decreases todo
      {
        var name :| name in todo;
        PassStep(root, dir, names - todo, name, old(entries));
        assert names - todo + {name} == names - (todo - {name});
        todo := todo - {name};
        var path := dir + [name];
        OnlyPath(path, dir, name);
        if entries[path].Link? {
          var target := entries[path].target;
          if IntoStore(target) {
            entries := entries - {path};
            entries := entries[path := Link(RelativeString(RelPath(root + Components(target[1..]), root + dir)))];
          }
        }
      }
      assert names - todo == names;
      PassStoreLinks(root, dir, names, old(entries));
    }

    /** The names os.walk descends into: directories that are not links. */
    method Subdirectories(dir: Path, names: set<string>) returns (paths: seq<Path>)
      requires Lists(names, dir, entries)
      ensures forall p :: p in paths <==> Within(p, dir, names) && IsDir(entries, p)
      ensures forall i, j :: 0 <= i < j < |paths| ==> paths[i] != paths[j]
    {
      paths := [];
      var todo := names;
      while todo != {}
        invariant todo <= names
        invariant forall p :: p in paths <==> Within(p, dir, names - todo) && IsDir(entries, p)
        invariant forall i, j :: 0 <= i < j < |paths| ==> paths[i] != paths[j]
        decreases todo
      {
        var name :| name in todo;
        var path := dir + [name];
        forall p
          ensures Within(p, dir, names - (todo - {name})) <==> Within(p, dir, names - todo) || p == path
        {
          OnlyPath(p, dir, name);
        }
        OnlyPath(path, dir, name);
        assert path !in paths;
        todo := todo - {name};
        if entries[path].Dir? {
          paths := paths + [path];
        }
      }
      assert names - todo == names;
    }

    /** The whole walk. It ends, meets every directory once, and leaves exactly the
        assembled tree behind. */
    method Relink(root: Path)
      requires Wf(entries)
      modifies this
      ensures entries == Assembled(root, old(entries))
      ensures Names(root) ==> OnlyStoreLinksRewritten(old(entries), entries)
    {
      ghost var t := entries;
      ghost var dirs := set p | p in t && t[p].Dir?;
      ghost var done: set<Path> := {};
      var pending: seq<Path> := [[]];
      while pending != []
        invariant done <= dirs && Frontier(t, done, pending) && entries == Halfway(root, t, done)
        decreases dirs - done
      {
        var dir := pending[|pending| - 1];
        var names := Listing(dir);
        RelinkDirectory(root, dir, names);
        HalfwayStep(root, t, done, dir, names);
        var below := Subdirectories(dir, names);
        FrontierStep(t, done, pending, names, below);
        pending := pending[..|pending| - 1] + below;
        done := done + {dir};
      }
      EverythingReached(root, t, done);
      if Names(root) {
        AssembledStoreLinks(root, t);
      }
    }
  }

  /** What the walk has seen (`done`) and what it still has to list (`pending`): the
      directories below a seen one are exactly those that are seen or waiting. */
  ghost predicate Frontier(t: Tree, done: set<Path>, pending: seq<Path>) {
    && (forall i, j :: 0 <= i < j < |pending| ==> pending[i] != pending[j])
    && (forall d :: d in pending ==> IsDir(t, d) && d !in done)
    && ([] in done || [] in pending)
    && (forall d {:trigger Parent(d)} :: d != [] && IsDir(t, d) ==> (d in done || d in pending <==> Parent(d) in done))
  }

  /** The tree in which the entries of the directories in `done` have been rewritten. */
  ghost function Halfway(root: Path, t: Tree, done: set<Path>): Tree {
    map p | p in t :: if p != [] && Parent(p) in done then RelinkedEntry(root, p, t[p]) else t[p]
  }

  lemma HalfwayStep(root: Path, t: Tree, done: set<Path>, dir: Path, names: set<string>)
    requires dir !in done && Lists(names, dir, t)
    ensures Pass(root, dir, names, Halfway(root, t, done)) == Halfway(root, t, done + {dir})
  {
    hide RelinkedEntry;
    forall p | p in t && p != [] && Parent(p) == dir
      ensures Base(p) in names
    {
      OnlyPath(p, dir, Base(p));
    }
  }

  lemma JoinedDistinct(a: seq<Path>, b: seq<Path>)
    requires forall i, j :: 0 <= i < j < |a| ==> a[i] != a[j]
    requires forall i, j :: 0 <= i < j < |b| ==> b[i] != b[j]
    requires forall p :: p in a ==> p !in b
    ensures forall i, j :: 0 <= i < j < |a + b| ==> (a + b)[i] != (a + b)[j]
  {
    forall i, j | 0 <= i < j < |a + b|
      ensures (a + b)[i] != (a + b)[j]
    {
      assert i < |a| <= j ==> a[i] in a && b[j - |a|] in b;
    }
  }

  lemma FrontierStep(t: Tree, done: set<Path>, pending: seq<Path>, names: set<string>, below: seq<Path>)
    requires Wf(t) && pending != [] && Frontier(t, done, pending)
    requires var dir := pending[|pending| - 1];
             Lists(names, dir, t) && forall p :: p in below <==> Within(p, dir, names) && IsDir(t, p)
    requires forall i, j :: 0 <= i < j < |below| ==> below[i] != below[j]
    ensures Frontier(t, done + {pending[|pending| - 1]}, pending[..|pending| - 1] + below)
  {
    var dir := pending[|pending| - 1];
    var rest := pending[..|pending| - 1];
    var now := rest + below;
    assert forall d :: d in pending <==> d in rest || d == dir;
    assert dir in pending;
    forall d | d in below
      ensures Parent(d) == dir && d !in done && d !in pending
    {
    }
    assert forall i :: 0 <= i < |rest| ==> rest[i] == pending[i];
    JoinedDistinct(rest, below);
    forall d {:trigger Parent(d)} | d != [] && IsDir(t, d)
      ensures d in done + {dir} || d in now <==> Parent(d) in done + {dir}
    {
      OnlyPath(d, Parent(d), Base(d));
    }
  }

  lemma {:induction false} Reached(t: Tree, done: set<Path>, d: Path)
    requires Wf(t) && Frontier(t, done, []) && IsDir(t, d)
    ensures d in done
    decreases |d|
  {
    if d != [] {
      Reached(t, done, Parent(d));
    }
  }

  lemma EverythingReached(root: Path, t: Tree, done: set<Path>)
    requires Wf(t) && Frontier(t, done, [])
    ensures Halfway(root, t, done) == Assembled(root, t)
  {
    forall p | p in t && p != []
      ensures Parent(p) in done
    {
      Reached(t, done, Parent(p));
    }
  }

  // ---- why the ".." condition is there

  const TARGET := STORE + "a/.."
  const STORE_DIR: Path := ["nix", "store"]

  /** nix/store/a is a link to its own directory; `l` goes through it and then back. */
  ghost predicate Looped(t: Tree) {
    && Wf(t)
    && STORE_DIR + ["a"] in t && t[STORE_DIR + ["a"]] == Link(".")
    && ["l"] in t && t[["l"]] == Link(TARGET)
  }

  lemma TargetSplit()
    ensures Split(TARGET) == ["", "nix", "store", "a", UP]
  {
    hide Split;
    var s3 := "a/..";
    var s2 := "store" + ("/" + s3);
    var s1 := "nix" + ("/" + s2);
    assert s3 == "a" + ("/" + UP);
    SplitCons(UP, "");
    SplitCons("a", UP);
    SplitCons("store", s3);
    SplitCons("nix", s2);
    SplitCons("", s1);
    assert STORE == "/nix/store/";
    assert TARGET == "" + ("/" + s1);
  }

  lemma TargetComponents()
    ensures Components(TARGET) == ["nix", "store", "a", UP] && Parts(TARGET) == ["/", "nix", "store", "a", UP]
    ensures IntoStore(TARGET) && Parts(".") == []
  {
    hide Split;
    TargetSplit();
    var cs := ["nix", "store", "a", UP];
    assert ([""] + cs)[1..] == cs;
    KeptIsIdentity(cs);
    assert TARGET[0] == STORE[0];
    ReadingUndoesPrinting([]);
  }

  /** In the original tree the link means nix, the parent of the place `a` leads to. */
  lemma LoopedOriginal(t: Tree)
    requires Looped(t)
    ensures Walk(t, [], ["l"], 2).end == Found(["nix"])
  {
    hide Components, Parts;
    TargetComponents();
    var back := [UP];
    var down := STORE_DIR + ["a", UP];
    assert [] + ["l"] == ["l"] && ["l"][1..] == [];
    assert Walk(t, [], ["l"], 2).end == Walk(t, [], Parts(TARGET) + [], 1).end;
    assert Parts(TARGET) + [] == ["/"] + down && (["/"] + down)[1..] == down;
    assert Walk(t, [], ["/"] + down, 1) == Walk(t, [], down, 1);
    assert Parent(STORE_DIR + ["a"]) == STORE_DIR && Parent(STORE_DIR) == ["nix"];
    WalkDownFromTop(t, STORE_DIR, ["a", UP], 1);
    assert ["a", UP][1..] == back && Parts(".") + back == back && back[1..] == [];
    assert Walk(t, STORE_DIR, ["a", UP], 1).end == Walk(t, STORE_DIR, back, 0).end;
    assert Walk(t, STORE_DIR, back, 0) == Walk(t, ["nix"], [], 0);
  }

  lemma RelinkedTarget()
    ensures Parts(Relinked([], [], TARGET)) == STORE_DIR
  {
    hide Components, Parts;
    TargetComponents();
    DroppingTheSlash(TARGET);
    var cs := ["nix", "store", "a", UP];
    var a := ["nix", "store", "a"];
    assert cs == a + [UP] && [] + a == a && a[..2] == STORE_DIR && [UP][1..] == [];
    NormalizedFromPrefix([], a, [UP]);
    assert [] + cs == cs;
    assert Normalized([], cs) == STORE_DIR;
    assert Between(STORE_DIR, []) == STORE_DIR;
    ReadingUndoesPrinting(STORE_DIR);
  }

  /** In the assembled tree it means nix/store, which is what its text spells: a ".."
      behind a link is outside what the rewriting preserves. */
  lemma LoopedAssembled(t: Tree, host: Tree, at: Path)
    requires Looped(t) && Mounted(host, at, Assembled([], t))
    ensures Walk(host, at, ["l"], 2).end == Found(at + STORE_DIR)
  {
    hide Relinked, Parts;
    RelinkedTarget();
    var image := Assembled([], t);
    assert Parent(["l"]) == [] && ["l"][1..] == [] && at + [] == at;
    assert Parent(STORE_DIR + ["a"]) == STORE_DIR && Parent(STORE_DIR) == ["nix"];
    assert [] in image && ["nix"] in image && STORE_DIR in image && ["l"] in image;
    assert host[at + ["l"]] == Link(Relinked([], [], TARGET));
    assert STORE_DIR + [] == STORE_DIR;
    assert Walk(host, at, ["l"], 2).end == Walk(host, at, STORE_DIR, 1).end;
    assert STORE_DIR[1..] == ["store"] && ["store"][1..] == [] && at + ["nix"] + ["store"] == at + STORE_DIR;
  }
}
