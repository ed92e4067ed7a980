/** What a path of an image means when the image is mounted somewhere in a larger tree. */
module Mount {
  import opened Options
  import opened Paths
  import opened Image
  import opened Walks

  function Lifted(at: Path, o: Outcome): Outcome {
    if o.Found? then Found(at + o.at) else o
  }

  /** None of the links is absolute. */
  ghost predicate RelativeOnly(a: Tree, links: set<Path>) {
    forall l :: l in links ==> IsLink(a, l) && !IsAbsolute(a[l].target)
  }

  // ---- relative links stay inside

  /** A resolution that follows relative links only is the same at every mount point. */
  lemma {:induction false} RelativeMoves(a: Tree, host: Tree, at: Path, cur: Path, parts: seq<string>, budget: nat)
    requires Wf(a) && cur in a && Mounted(host, at, a) && Plain(parts)
    requires RelativeOnly(a, Walk(a, cur, parts, budget).links) && !Walk(a, cur, parts, budget).end.Climbs?
    ensures Walk(host, at + cur, parts, budget).end == Lifted(at, Walk(a, cur, parts, budget).end)
    decreases budget, |parts|
  {
    if parts != [] {
      var rest := parts[1..];
      assert parts[0] in parts && Plain(rest);
      if IsDir(a, cur) {
        if parts[0] == UP {
          assert Parent(at + cur) == at + Parent(cur);
          RelativeMoves(a, host, at, Parent(cur), rest, budget);
        } else {
          var next := cur + [parts[0]];
          assert at + cur + [parts[0]] == at + next;
          if next in a && a[next].Link? && budget > 0 {
            RelativeStep(a, cur, parts, budget);
            RelativeMoves(a, host, at, cur, Parts(a[next].target) + rest, budget - 1);
          } else if next in a && !a[next].Link? {
            RelativeMoves(a, host, at, next, rest, budget);
          }
        }
      }
    }
  }

  lemma RelativeStep(a: Tree, cur: Path, parts: seq<string>, budget: nat)
    requires IsDir(a, cur) && Plain(parts) && parts != [] && parts[0] != UP && budget > 0 && IsLink(a, cur + [parts[0]])
    requires RelativeOnly(a, Walk(a, cur, parts, budget).links)
    ensures var target := a[cur + [parts[0]]].target; var parts' := Parts(target) + parts[1..];
            !IsAbsolute(target) && Plain(parts') && RelativeOnly(a, Walk(a, cur, parts', budget - 1).links)
            && Walk(a, cur, parts', budget - 1).end == Walk(a, cur, parts, budget).end
  {
    hide Components;
    var next := cur + [parts[0]];
    assert parts[0] in parts;
    var w := Walk(a, cur, Parts(a[next].target) + parts[1..], budget - 1);
    assert Walk(a, cur, parts, budget) == Walked(w.end, {next} + w.links);
    assert next in {next} + w.links;
    ComponentsAreComponents(a[next].target);
  }

  // ---- absolute links leave

  /** What is still to be resolved, from the top, when a resolution follows its first absolute
      link, and with how many links to spare. */
  function Exit(a: Tree, cur: Path, parts: seq<string>, budget: nat): Option<(seq<string>, nat)>
    decreases budget, |parts|
  {
    if parts == [] || parts[0] == "/" || !IsDir(a, cur) then None
    else if parts[0] == UP then if cur == [] then None else Exit(a, Parent(cur), parts[1..], budget)
    else
      var next := cur + [parts[0]];
      if next !in a then None
      else if !a[next].Link? then Exit(a, next, parts[1..], budget)
      else if budget == 0 then None
      else if IsAbsolute(a[next].target) then Some((Components(a[next].target) + parts[1..], budget - 1))
      else Exit(a, cur, Parts(a[next].target) + parts[1..], budget - 1)
  }

  lemma {:induction false} ExitIsTaken(a: Tree, cur: Path, parts: seq<string>, budget: nat)
    requires Plain(parts) && !RelativeOnly(a, Walk(a, cur, parts, budget).links)
    ensures Exit(a, cur, parts, budget).Some? && Plain(Exit(a, cur, parts, budget).value.0)
    decreases budget, |parts|
  {
    hide Components;
    assert parts != [] ==> parts[0] in parts && Plain(parts[1..]);
    var next := cur + [parts[0]];
    if parts[0] == UP {
      ExitIsTaken(a, Parent(cur), parts[1..], budget);
    } else if a[next].Link? {
      ComponentsAreComponents(a[next].target);
      if !IsAbsolute(a[next].target) {
        ExitIsTaken(a, cur, Parts(a[next].target) + parts[1..], budget - 1);
      }
    } else {
      ExitIsTaken(a, next, parts[1..], budget);
    }
  }

  /** Wherever the image is mounted, the rest is resolved from the top of the host. */
  lemma {:induction false} ExitLeaves(a: Tree, host: Tree, at: Path, cur: Path, parts: seq<string>, budget: nat)
    requires Mounted(host, at, a) && Exit(a, cur, parts, budget).Some?
    ensures var e := Exit(a, cur, parts, budget).value;
            Walk(host, at + cur, parts, budget).end == Walk(host, [], e.0, e.1).end
    decreases budget, |parts|
  {
    if parts[0] == UP {
      assert Parent(at + cur) == at + Parent(cur);
      ExitLeaves(a, host, at, Parent(cur), parts[1..], budget);
    } else {
      var next := cur + [parts[0]];
      assert at + cur + [parts[0]] == at + next;
      if !a[next].Link? {
        ExitLeaves(a, host, at, next, parts[1..], budget);
      } else if IsAbsolute(a[next].target) {
        AbsoluteReset(host, at + cur, a[next].target, parts[1..], budget - 1);
      } else {
        ExitLeaves(a, host, at, cur, Parts(a[next].target) + parts[1..], budget - 1);
      }
    }
  }

  // ---- hosts that tell the difference

  /** A host with nothing in it but the image, under the one name `f`. */
  ghost function Pocket(a: Tree, f: string): Tree {
    map p | p in (set q | q in a :: [f] + q) + {[]} :: if p == [] then Dir else a[p[1..]]
  }

  lemma PocketAt(a: Tree, f: string, p: Path)
    ensures p in a <==> [f] + p in Pocket(a, f)
    ensures p in a ==> Pocket(a, f)[[f] + p] == a[p]
  {
    assert ([f] + p)[1..] == p;
    if [f] + p in Pocket(a, f) {
      var q :| q in a && [f] + q == [f] + p;
      assert ([f] + q)[1..] == q;
    }
  }

  lemma PocketParent(a: Tree, f: string, q: Path)
    requires Wf(a) && Name(f) && q in a
    ensures IsDir(Pocket(a, f), Parent([f] + q)) && Name(([f] + q)[|q|])
  {
    if q == [] {
      assert Parent([f] + q) == [];
    } else {
      assert Parent([f] + q) == [f] + Parent(q);
      PocketAt(a, f, Parent(q));
    }
  }

  /** The pocket, with a file beside the image if `g` is another name. */
  ghost function Beside(a: Tree, f: string, g: Option<string>): Tree {
    if g.Some? then Pocket(a, f)[[g.value] := File(0)] else Pocket(a, f)
  }

  lemma BesideHoldsImage(a: Tree, f: string, g: Option<string>)
    requires Wf(a) && Name(f) && (g.Some? ==> Name(g.value) && g.value != f)
    ensures Wf(Beside(a, f, g)) && Mounted(Beside(a, f, g), [f], a)
    ensures forall n: string {:trigger [n] in Beside(a, f, g)} :: n != f ==> ([n] in Beside(a, f, g) <==> g == Some(n))
  {
    var host := Beside(a, f, g);
    forall p
      ensures p in a <==> [f] + p in host
      ensures p in a ==> host[[f] + p] == a[p]
    {
      PocketAt(a, f, p);
      assert ([f] + p)[0] == f;
    }
    forall p {:trigger Parent(p)} | p in host && p != []
      ensures IsDir(host, Parent(p)) && Name(p[|p| - 1])
    {
      if p in Pocket(a, f) {
        var q :| q in a && [f] + q == p;
        PocketParent(a, f, q);
        assert g.Some? ==> Parent(p) != [g.value];
      }
    }
    forall n: string | n != f
      ensures [n] in host <==> g == Some(n)
    {
      assert forall q :: q in a ==> ([f] + q)[0] == f;
    }
  }

  /** A name that does not occur in a list of components. */
  lemma {:induction false} Fresh(parts: seq<string>, size: nat) returns (f: string)
    ensures Name(f) && f !in parts && |f| > size + 1
    decreases |parts|
  {
    if parts == [] {
      f := seq(size + 2, _ => 'x');
      assert f[0] == 'x' && |f| >= 2;
    } else {
      f := Fresh(parts[1..], if |parts[0]| > size then |parts[0]| else size);
      assert parts == [parts[0]] + parts[1..];
    }
  }

  /** The host in which the rest of an escaped resolution ends differently from `e`. */
  lemma EscapeShows(a: Tree, f: string, parts: seq<string>, budget: nat, e: Outcome) returns (host: Tree)
    requires Wf(a) && Name(f) && f !in parts && Plain(parts) && !e.Climbs?
    ensures Wf(host) && Mounted(host, [f], a) && Walk(host, [], parts, budget).end != Lifted([f], e)
  {
    var g := if e.Missing? && parts != [] && parts[0] != UP then Some(parts[0]) else None;
    assert parts != [] ==> parts[0] in parts;
    host := Beside(a, f, g);
    BesideHoldsImage(a, f, g);
    if parts == [] {
      assert e.Found? ==> |[f] + e.at| > 0;
    } else if parts[0] != UP {
      assert [] + [parts[0]] == [parts[0]];
      if g.Some? {
        assert Walk(host, [], parts, budget) == Walk(host, [parts[0]], parts[1..], budget);
        assert |parts| > 1 ==> parts[1] in parts;
      }
    }
  }

  // ---- the theorem

  lemma MountPoint(a: Tree, host: Tree, at: Path, cs: seq<string>, budget: nat)
    requires Wf(a) && Wf(host) && Mounted(host, at, a)
    ensures Walk(host, [], at + cs, budget) == Walk(host, at + [], cs, budget)
  {
    assert [] in a && at + [] == at;
    WalkDownFromTop(host, at, cs, budget);
  }

  /** At every mount point of every host the path ends at the place that corresponds to `e`, or
      in the failure `e`. */
  ghost predicate SameEverywhere(a: Tree, cs: seq<string>, budget: nat, e: Outcome) {
    forall host, at :: Wf(host) && Mounted(host, at, a) ==> Walk(host, [], at + cs, budget).end == Lifted(at, e)
  }

  /** A path that does not leave the image at its top ends at the corresponding place, or in
      the same failure, at every mount point of every host, if and only if its resolution in
      the image alone follows no absolute link. */
  lemma MountsExactly(a: Tree, cs: seq<string>, budget: nat)
    requires Wf(a) && Plain(cs) && !Walk(a, [], cs, budget).end.Climbs?
    ensures SameEverywhere(a, cs, budget, Walk(a, [], cs, budget).end)
       <==> RelativeOnly(a, Walk(a, [], cs, budget).links)
  {
    var w := Walk(a, [], cs, budget);
    if RelativeOnly(a, w.links) {
      forall host, at | Wf(host) && Mounted(host, at, a)
        ensures Walk(host, [], at + cs, budget).end == Lifted(at, w.end)
      {
        MountPoint(a, host, at, cs, budget);
        RelativeMoves(a, host, at, [], cs, budget);
      }
    } else {
      ExitIsTaken(a, [], cs, budget);
      var e := Exit(a, [], cs, budget).value;
      var f := Fresh(e.0, 0);
      var host := EscapeShows(a, f, e.0, e.1, w.end);
      ExitLeaves(a, host, [f], [], cs, budget);
      MountPoint(a, host, [f], cs, budget);
      assert Walk(host, [], [f] + cs, budget).end != Lifted([f], w.end);
    }
  }

  /** The image is a host of itself. */
  lemma MountedOnItself(a: Tree)
    ensures Mounted(a, [], a)
  {
    forall p: Path
      ensures [] + p == p
    {
    }
  }

  lemma SameOnItself(a: Tree, cs: seq<string>, budget: nat, e: Outcome)
    requires Wf(a) && SameEverywhere(a, cs, budget, e)
    ensures Walk(a, [], cs, budget).end == e
  {
    hide Walk, Mounted;
    MountedOnItself(a);
    assert [] + cs == cs && Walk(a, [], [] + cs, budget).end == Lifted([], e);
    assert e.Found? ==> [] + e.at == e.at;
  }

  /** From directory `dir` of the image the text leads to `p`, wherever the image is mounted. */
  ghost predicate LeadsEverywhere(a: Tree, dir: Path, text: seq<string>, budget: nat, p: Path) {
    forall host, at :: Mounted(host, at, a) ==> Walk(host, at + dir, text, budget).end == Found(at + p)
  }

  /** It does if and only if it leads there in the image alone and follows no absolute link. */
  lemma LeadsExactly(a: Tree, dir: Path, text: seq<string>, budget: nat, p: Path)
    requires Wf(a) && IsDir(a, dir) && Plain(text)
    ensures LeadsEverywhere(a, dir, text, budget, p)
       <==> Walk(a, dir, text, budget).end == Found(p) && RelativeOnly(a, Walk(a, dir, text, budget).links)
  {
    hide Walk, Mounted, RelativeOnly, Exit;
    var w := Walk(a, dir, text, budget);
    MountedOnItself(a);
    assert [] + dir == dir && [] + p == p;
    if !RelativeOnly(a, w.links) {
      ExitIsTaken(a, dir, text, budget);
      var e := Exit(a, dir, text, budget).value;
      var f := Fresh(e.0, 0);
      var host := EscapeShows(a, f, e.0, e.1, Found(p));
      ExitLeaves(a, host, [f], dir, text, budget);
    } else if w.end == Found(p) {
      forall host, at | Mounted(host, at, a)
        ensures Walk(host, at + dir, text, budget).end == Found(at + p)
      {
        RelativeMoves(a, host, at, dir, text, budget);
      }
    }
  }
}
