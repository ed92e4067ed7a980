/** How pathname resolution composes: through real directories, in pieces, and with more
    links to spare. */
module Walks {
  import opened Paths
  import opened Image

  ghost predicate Plain(parts: seq<string>) {
    forall p :: p in parts ==> Component(p)
  }

  ghost predicate Names(parts: seq<string>) {
    forall p :: p in parts ==> Name(p)
  }

  // ---- real directories

  lemma {:induction false} PathsAreNames(t: Tree, p: Path)
    requires Wf(t) && p in t
    ensures Names(p)
    ensures forall i :: 0 <= i < |p| ==> IsDir(t, p[..i])
    decreases |p|
  {
    if p != [] {
      PathsAreNames(t, Parent(p));
      assert p == Parent(p) + [p[|p| - 1]];
      forall i | 0 <= i < |p|
        ensures IsDir(t, p[..i])
      {
        assert i < |p| - 1 ==> p[..i] == Parent(p)[..i];
        assert i == |p| - 1 ==> p[..i] == Parent(p);
      }
    }
  }

  /** Walking down through real directories consumes their names and nothing else. */
  lemma {:induction false} WalkDown(t: Tree, cur: Path, names: seq<string>, rest: seq<string>, budget: nat)
    requires Names(names)
    requires forall i :: 0 <= i <= |names| ==> IsDir(t, cur + names[..i])
    ensures Walk(t, cur, names + rest, budget) == Walk(t, cur + names, rest, budget)
    decreases |names|
  {
    if names == [] {
      assert names + rest == rest && cur + names == cur;
    } else {
      var next := cur + [names[0]];
      assert names[0] in names;
      assert cur + names[..0] == cur && cur + names[..1] == next;
      assert (names + rest)[0] == names[0] && (names + rest)[1..] == names[1..] + rest;
      forall i | 0 <= i <= |names[1..]|
        ensures IsDir(t, next + names[1..][..i])
      {
        assert next + names[1..][..i] == cur + names[..i + 1];
      }
      WalkDown(t, next, names[1..], rest, budget);
      assert next + names[1..] == cur + names;
    }
  }

  lemma WalkDownFromTop(t: Tree, d: Path, rest: seq<string>, budget: nat)
    requires Wf(t) && IsDir(t, d)
    ensures Walk(t, [], d + rest, budget) == Walk(t, d, rest, budget)
  {
    PathsAreNames(t, d);
    forall i | 0 <= i <= |d|
      ensures IsDir(t, [] + d[..i])
    {
      assert [] + d[..i] == d[..i];
      assert i == |d| ==> d[..i] == d;
    }
    WalkDown(t, [], d, rest, budget);
    assert [] + d == d;
  }

  /** Walking up from a real directory lands on its ancestor. */
  lemma {:induction false} WalkUp(t: Tree, at: Path, d: Path, k: nat, rest: seq<string>, budget: nat)
    requires k <= |d| && forall i :: |d| - k <= i <= |d| ==> IsDir(t, at + d[..i])
    ensures Walk(t, at + d, Ups(k) + rest, budget) == Walk(t, at + d[..|d| - k], rest, budget)
    decreases k
  {
    if k == 0 {
      assert Ups(0) + rest == rest && d[..|d|] == d;
    } else {
      assert (Ups(k) + rest)[0] == UP && (Ups(k) + rest)[1..] == Ups(k - 1) + rest;
      assert d[..|d|] == d && Parent(at + d) == at + Parent(d);
      forall i | |d| - k <= i <= |d| - 1
        ensures IsDir(t, at + Parent(d)[..i])
      {
        assert Parent(d)[..i] == d[..i];
      }
      WalkUp(t, at, Parent(d), k - 1, rest, budget);
      assert Parent(d)[..|d| - k] == d[..|d| - k];
    }
  }

  lemma StepBack(t: Tree, d: Path, rest: seq<string>, budget: nat)
    requires Wf(t) && IsDir(t, d) && d != []
    ensures Walk(t, [], d + ([UP] + rest), budget) == Walk(t, [], Parent(d) + rest, budget)
  {
    WalkDownFromTop(t, d, [UP] + rest, budget);
    WalkDownFromTop(t, Parent(d), rest, budget);
    assert ([UP] + rest)[1..] == rest;
  }

  /** More dots than directories. */
  lemma {:induction false} WalkOut(t: Tree, d: Path, k: nat, rest: seq<string>, budget: nat)
    requires Wf(t) && IsDir(t, d) && k > |d|
    ensures Walk(t, d, Ups(k) + rest, budget) == Walked(Climbs, {})
    decreases k
  {
    assert (Ups(k) + rest)[0] == UP && (Ups(k) + rest)[1..] == Ups(k - 1) + rest;
    if d != [] {
      WalkOut(t, Parent(d), k - 1, rest, budget);
    }
  }

  lemma AbsoluteReset(t: Tree, dir: Path, target: string, rest: seq<string>, budget: nat)
    requires IsAbsolute(target)
    ensures Walk(t, dir, Parts(target) + rest, budget) == Walk(t, [], Components(target) + rest, budget)
  {
    var cs := Components(target);
    assert Parts(target) + rest == ["/"] + (cs + rest);
    assert (["/"] + (cs + rest))[1..] == cs + rest;
  }

  // ---- links to spare

  /** A resolution that does not run out of links is the same with more of them. */
  lemma {:induction false} Monotone(t: Tree, cur: Path, parts: seq<string>, budget: nat, more: nat)
    requires budget <= more && !Walk(t, cur, parts, budget).end.TooManyLinks?
    ensures Walk(t, cur, parts, more) == Walk(t, cur, parts, budget)
    decreases budget, |parts|
  {
    if parts != [] {
      var rest := parts[1..];
      var next := cur + [parts[0]];
      if parts[0] == "/" {
        Monotone(t, [], rest, budget, more);
      } else if IsDir(t, cur) {
        if parts[0] == UP {
          if cur != [] {
            Monotone(t, Parent(cur), rest, budget, more);
          }
        } else if next in t {
          if t[next].Link? {
            Monotone(t, cur, Parts(t[next].target) + rest, budget - 1, more - 1);
          } else {
            Monotone(t, next, rest, budget, more);
          }
        }
      }
    }
  }

  /** How many links a resolution follows. */
  function Spent(t: Tree, cur: Path, parts: seq<string>, budget: nat): (n: nat)
    ensures n <= budget
    decreases budget, |parts|
  {
    if parts == [] then 0
    else if parts[0] == "/" then Spent(t, [], parts[1..], budget)
    else if !IsDir(t, cur) then 0
    else if parts[0] == UP then if cur == [] then 0 else Spent(t, Parent(cur), parts[1..], budget)
    else
      var next := cur + [parts[0]];
      if next !in t then 0
      else if !t[next].Link? then Spent(t, next, parts[1..], budget)
      else if budget == 0 then 0
      else 1 + Spent(t, cur, Parts(t[next].target) + parts[1..], budget - 1)
  }

  /** What `w` is when the resolution of the first part is `u` and goes on as `v`. */
  function Joined(u: Walked, v: Walked): Walked {
    if u.end.Found? then Walked(v.end, u.links + v.links) else u
  }

  function Onward(t: Tree, cur: Path, a: seq<string>, c: seq<string>, budget: nat): Walked {
    var u := Walk(t, cur, a, budget);
    Walk(t, if u.end.Found? then u.end.at else [], c, budget - Spent(t, cur, a, budget))
  }

  /** Resolving a path is resolving its first part and going on from there with the links
      that are left. */
  lemma {:induction false} GoesOn(t: Tree, cur: Path, a: seq<string>, c: seq<string>, budget: nat)
    ensures Walk(t, cur, a + c, budget) == Joined(Walk(t, cur, a, budget), Onward(t, cur, a, c, budget))
    ensures Spent(t, cur, a, budget) <= Spent(t, cur, a + c, budget)
    decreases budget, |a|
  {
    if a == [] {
      assert a + c == c;
      assert {} + Walk(t, cur, c, budget).links == Walk(t, cur, c, budget).links;
    } else {
      assert (a + c)[0] == a[0] && (a + c)[1..] == a[1..] + c;
      var next := cur + [a[0]];
      if a[0] == "/" {
        GoesOn(t, [], a[1..], c, budget);
      } else if IsDir(t, cur) {
        if a[0] == UP {
          if cur != [] {
            GoesOn(t, Parent(cur), a[1..], c, budget);
          }
        } else if next in t {
          if !t[next].Link? {
            GoesOn(t, next, a[1..], c, budget);
          } else if budget > 0 {
            var text := Parts(t[next].target);
            assert text + (a[1..] + c) == text + a[1..] + c;
            GoesOn(t, cur, text + a[1..], c, budget - 1);
          }
        }
      }
    }
  }
}
