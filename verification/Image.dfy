/** Directory trees with symbolic links, pathname resolution inside them, and the
    image check's own resolver. */
module Image {
  import opened Options
  import opened Paths

  datatype Entry = Dir | File(id: nat) | Link(target: string)

  /** A tree gives the entry at every path from its top, without following links. */
  type Tree = map<Path, Entry>

  function Parent(p: Path): Path
    requires p != []
  {
    p[..|p| - 1]
  }

  predicate IsDir(t: Tree, p: Path) {
    p in t && t[p].Dir?
  }

  predicate IsLink(t: Tree, p: Path) {
    p in t && t[p].Link?
  }

  ghost predicate Wf(t: Tree) {
    && IsDir(t, [])
    && (forall p {:trigger Parent(p)} :: p in t && p != [] ==> IsDir(t, Parent(p)) && Name(p[|p| - 1]))
  }

  datatype Outcome = Found(at: Path) | Missing | NotDirectory | Climbs | TooManyLinks

  /** Where a resolution ends and which links it goes through. */
  datatype Walked = Walked(end: Outcome, links: set<Path>)

  /** Pathname resolution, section 4.13 of POSIX.1-2017 Base Definitions, rooted at the
      top of `t`: `cur` is the place reached, `budget` the links that may still be
      followed. Stepping above the root is reported instead of being ignored. */
  function Walk(t: Tree, cur: Path, parts: seq<string>, budget: nat): (w: Walked)
    ensures forall l :: l in w.links ==> IsLink(t, l)
    decreases budget, |parts|
  {
    if parts == [] then Walked(Found(cur), {})
    else if parts[0] == "/" then Walk(t, [], parts[1..], budget)
    else if !IsDir(t, cur) then Walked(NotDirectory, {})
    else if parts[0] == UP then
      if cur == [] then Walked(Climbs, {}) else Walk(t, Parent(cur), parts[1..], budget)
    else
      var next := cur + [parts[0]];
      if next !in t then Walked(Missing, {})
      else if !t[next].Link? then Walk(t, next, parts[1..], budget)
      else if budget == 0 then Walked(TooManyLinks, {})
      else
        var w := Walk(t, cur, Parts(t[next].target) + parts[1..], budget - 1);
        Walked(w.end, {next} + w.links)
  }

  /** What checks/image.py's resolve computes; None stands for a failed assertion. */
  function Resolved(t: Tree, cur: Path, parts: seq<string>, budget: nat): Option<Path>
    decreases budget, |parts|
  {
    if parts == [] then if cur in t then Some(cur) else None
    else if parts[0] == "/" then Resolved(t, [], parts[1..], budget)
    else if parts[0] == UP then
      if cur == [] then None else Resolved(t, Parent(cur), parts[1..], budget)
    else
      var next := cur + [parts[0]];
      if !IsLink(t, next) then Resolved(t, next, parts[1..], budget)
      else if budget == 0 then None
      else Resolved(t, cur, Parts(t[next].target) + parts[1..], budget - 1)
  }

  /** Every step backwards on the resolver's way leaves from a directory of the tree. */
  predicate BacksFromDirectories(t: Tree, cur: Path, parts: seq<string>, budget: nat)
    decreases budget, |parts|
  {
    if parts == [] then true
    else if parts[0] == "/" then cur in t && BacksFromDirectories(t, [], parts[1..], budget)
    else if parts[0] == UP then
      IsDir(t, cur) && (cur != [] ==> BacksFromDirectories(t, Parent(cur), parts[1..], budget))
    else
      var next := cur + [parts[0]];
      if !IsLink(t, next) then BacksFromDirectories(t, next, parts[1..], budget)
      else if budget == 0 then true
      else BacksFromDirectories(t, cur, Parts(t[next].target) + parts[1..], budget - 1)
  }

  ghost predicate Mounted(host: Tree, at: Path, t: Tree) {
    forall p :: (p in t <==> at + p in host) && (p in t ==> host[at + p] == t[p])
  }

  /** No prefix of `p` is a link, so that the lexical parent is the physical one. */
  ghost predicate LinkFree(t: Tree, p: Path) {
    forall i :: 0 <= i <= |p| ==> !IsLink(t, p[..i])
  }

  const MAX_LINKS: nat := 99

  function UnderRoot(root: Path, r: Option<Path>): Option<Path> {
    if r.Some? then Some(root + r.value) else None
  }

  /** resolve: the deque of pending parts is consumed against a file system `host` that
      holds the image at `root`. */
  method Resolve(host: Tree, root: Path, path: string, ghost t: Tree) returns (r: Option<Path>)
    requires Wf(t) && Mounted(host, root, t)
    ensures r == UnderRoot(root, Resolved(t, [], Parts(path), 99))
    ensures r.Some? ==> exists p :: r.value == root + p && p in t && LinkFree(t, p)
  {
    var parts := Parts(path);
    var result := root;
    var links := 0;
    ghost var cur: Path := [];
    while parts != []
      invariant links <= MAX_LINKS && result == root + cur && LinkFree(t, cur)
      invariant Resolved(t, [], Parts(path), MAX_LINKS) == Resolved(t, cur, parts, MAX_LINKS - links)
      decreases MAX_LINKS - links, |parts|
    {
      var part := parts[0];
      parts := parts[1..];
      if part == "/" {
        result := root;
        cur := [];
      } else if part == UP {
        if result == root {
          assert cur == [];
          return None;
        }
        result := Parent(result);
        LinkFreeParent(t, cur);
        cur := Parent(cur);
      } else {
        ghost var next := cur + [part];
        result := result + [part];
        assert result == root + next;
        if result in host && host[result].Link? {
          assert IsLink(t, next);
          links := links + 1;
          if links >= 100 {
            return None;
          }
          parts := Parts(host[result].target) + parts;
          result := Parent(result);
        } else {
          assert !IsLink(t, next);
          LinkFreeChild(t, cur, part);
          cur := next;
        }
      }
    }
    return if result in host then Some(result) else None;
  }

  lemma LinkFreeParent(t: Tree, cur: Path)
    requires LinkFree(t, cur) && cur != []
    ensures LinkFree(t, Parent(cur))
  {
    forall i | 0 <= i <= |cur| - 1
      ensures !IsLink(t, Parent(cur)[..i])
    {
      assert Parent(cur)[..i] == cur[..i];
    }
  }

  lemma LinkFreeChild(t: Tree, cur: Path, name: string)
    requires LinkFree(t, cur) && !IsLink(t, cur + [name])
    ensures LinkFree(t, cur + [name])
  {
    var next := cur + [name];
    forall i | 0 <= i <= |next|
      ensures !IsLink(t, next[..i])
    {
      assert next[..i] == if i == |next| then next else cur[..i];
    }
  }

  lemma {:induction false} FoundIsResolved(t: Tree, cur: Path, parts: seq<string>, budget: nat)
    requires Wf(t) && cur in t && Walk(t, cur, parts, budget).end.Found?
    ensures Walk(t, cur, parts, budget).end.at in t
    ensures Resolved(t, cur, parts, budget) == Some(Walk(t, cur, parts, budget).end.at)
    ensures BacksFromDirectories(t, cur, parts, budget)
    decreases budget, |parts|
  {
    if parts != [] {
      if parts[0] == "/" {
        FoundIsResolved(t, [], parts[1..], budget);
      } else if parts[0] == UP {
        FoundIsResolved(t, Parent(cur), parts[1..], budget);
      } else if IsLink(t, cur + [parts[0]]) {
        FoundIsResolved(t, cur, Parts(t[cur + [parts[0]]].target) + parts[1..], budget - 1);
      } else {
        FoundIsResolved(t, cur + [parts[0]], parts[1..], budget);
      }
    }
  }

  /** Outside the tree there is no way back except by a step from a non-directory. */
  lemma {:induction false} NothingBelowMissing(t: Tree, cur: Path, parts: seq<string>, budget: nat)
    requires Wf(t) && cur !in t && BacksFromDirectories(t, cur, parts, budget)
    ensures Resolved(t, cur, parts, budget).None?
    decreases |parts|
  {
    if parts != [] && parts[0] != "/" && parts[0] != UP {
      assert Parent(cur + [parts[0]]) == cur;
      NothingBelowMissing(t, cur + [parts[0]], parts[1..], budget);
    }
  }

  lemma {:induction false} ResolvedIsFound(t: Tree, cur: Path, parts: seq<string>, budget: nat)
    requires Wf(t) && cur in t && Resolved(t, cur, parts, budget).Some?
    requires BacksFromDirectories(t, cur, parts, budget)
    ensures Walk(t, cur, parts, budget).end.Found?
    decreases budget, |parts|
  {
    if parts != [] {
      var next := cur + [parts[0]];
      if parts[0] == "/" {
        ResolvedIsFound(t, [], parts[1..], budget);
      } else if parts[0] == UP {
        ResolvedIsFound(t, Parent(cur), parts[1..], budget);
      } else if next !in t {
        NothingBelowMissing(t, next, parts[1..], budget);
      } else {
        assert Parent(next) == cur;
        if IsLink(t, next) {
          ResolvedIsFound(t, cur, Parts(t[next].target) + parts[1..], budget - 1);
        } else {
          ResolvedIsFound(t, next, parts[1..], budget);
        }
      }
    }
  }

  /** The resolver returns what POSIX resolution finds, and the only paths it accepts
      beyond that step back from something that is not a directory. */
  lemma ResolverMeetsPosix(t: Tree, path: string)
    requires Wf(t)
    ensures Walk(t, [], Parts(path), 99).end.Found?
       <==> Resolved(t, [], Parts(path), 99).Some? && BacksFromDirectories(t, [], Parts(path), 99)
    ensures Walk(t, [], Parts(path), 99).end.Found? ==>
              Resolved(t, [], Parts(path), 99) == Some(Walk(t, [], Parts(path), 99).end.at)
  {
    if Walk(t, [], Parts(path), MAX_LINKS).end.Found? {
      FoundIsResolved(t, [], Parts(path), MAX_LINKS);
    }
    if Resolved(t, [], Parts(path), MAX_LINKS).Some? && BacksFromDirectories(t, [], Parts(path), MAX_LINKS) {
      ResolvedIsFound(t, [], Parts(path), MAX_LINKS);
    }
  }

  /** An input in the gap: the resolver steps back from a name that does not exist. */
  lemma ResolverAcceptsMore()
    ensures var t: Tree := map[[] := Dir];
            Wf(t) && Resolved(t, [], ["gone", UP], MAX_LINKS) == Some([])
              && Walk(t, [], ["gone", UP], MAX_LINKS).end == Missing
  {
    var t: Tree := map[[] := Dir];
    var next: Path := [] + ["gone"];
    assert ["gone", UP][1..] == [UP] && [UP][1..] == [];
    assert Parent(next) == [] && next !in t;
    assert Resolved(t, next, [UP], MAX_LINKS) == Resolved(t, [], [], MAX_LINKS);
  }
}
