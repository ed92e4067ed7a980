/** guest/assemble.py: every absolute link into the store becomes a relative one, and
    the image resolves the same way wherever it is mounted. */
module Relocate {
  import opened Paths
  import opened Image
  import opened Walks
  import opened Mount

  const STORE := "/nix/store/"

  predicate IntoStore(target: string) {
    STORE <= target
  }

  /** The text assemble writes into a link in directory `dir` of an image being built at
      `root`. */
  function Relinked(root: Path, dir: Path, target: string): string {
    if IntoStore(target) then RelativeString(RelPath(root + Components(target[1..]), root + dir))
    else target
  }

  function RelinkedEntry(root: Path, p: Path, e: Entry): Entry {
    if e.Link? && p != [] then Link(Relinked(root, Parent(p), e.target)) else e
  }

  ghost function Assembled(root: Path, t: Tree): Tree {
    map p | p in t :: RelinkedEntry(root, p, t[p])
  }

  /** Where a path leads from the top, given links enough. */
  ghost predicate LeadsTo(t: Tree, path: seq<string>, q: Path) {
    exists n: nat :: Walk(t, [], path, n).end == Found(q)
  }

  /** The place that the names on the stack lead to is a directory, and one step back from it
      is where the names without the last one lead. */
  ghost predicate StepsBack(t: Tree, stack: seq<string>, q: Path) {
    stack != [] && q != [] && IsDir(t, q) && LeadsTo(t, stack, q) && LeadsTo(t, Parent(stack), Parent(q))
  }

  /** Read from the top of `t`, every ".." of the target steps back to where it does by its
      spelling, through links or not. */
  ghost predicate DotsAgree(t: Tree, stack: Path, cs: seq<string>)
    decreases |cs|
  {
    if cs == [] then true
    else if cs[0] == UP then (exists q :: StepsBack(t, stack, q)) && DotsAgree(t, Parent(stack), cs[1..])
    else DotsAgree(t, stack + [cs[0]], cs[1..])
  }

  /** The common case: every ".." of the target steps back from a directory of the tree. */
  predicate DotsLeaveDirectories(t: Tree, stack: Path, cs: seq<string>)
    decreases |cs|
  {
    if cs == [] then true
    else if cs[0] == UP then
      stack != [] && IsDir(t, stack) && DotsLeaveDirectories(t, Parent(stack), cs[1..])
    else DotsLeaveDirectories(t, stack + [cs[0]], cs[1..])
  }

  predicate Foreign(target: string) {
    IsAbsolute(target) && !IntoStore(target)
  }

  /** The link can be moved with the image: it is relative already, or it points into the
      store and its ".." components, if any, mean what they spell. */
  ghost predicate Portable(t: Tree, target: string) {
    IsAbsolute(target) ==> IntoStore(target) && DotsAgree(t, [], Components(target))
  }

  predicate Strict(t: Tree, target: string) {
    IntoStore(target) ==> DotsLeaveDirectories(t, [], Components(target))
  }

  ghost predicate AllPortable(t: Tree, links: set<Path>) {
    forall l :: l in links ==> IsLink(t, l) && Portable(t, t[l].target)
  }

  ghost predicate PortableOrForeign(t: Tree, links: set<Path>) {
    forall l :: l in links ==> IsLink(t, l) && (Portable(t, t[l].target) || Foreign(t[l].target))
  }

  ghost predicate AllStrict(t: Tree, links: set<Path>) {
    forall l :: l in links ==> IsLink(t, l) && Strict(t, t[l].target)
  }

  ghost predicate SomeForeign(t: Tree, links: set<Path>) {
    exists l :: l in links && IsLink(t, l) && Foreign(t[l].target)
  }

  // ---- lexical normalisation and the walk

  /** If every ".." leaves a directory the normalised spelling resolves like the original. */
  lemma {:induction false} NormalizedWalk(t: Tree, stack: Path, cs: seq<string>, rest: seq<string>, budget: nat)
    requires Wf(t) && DotsLeaveDirectories(t, stack, cs)
    ensures Walk(t, [], stack + (cs + rest), budget) == Walk(t, [], Normalized(stack, cs) + rest, budget)
    decreases |cs|
  {
    if cs == [] {
      assert cs + rest == rest;
    } else if cs[0] == UP {
      assert cs + rest == [UP] + (cs[1..] + rest);
      StepBack(t, stack, cs[1..] + rest, budget);
      NormalizedWalk(t, Parent(stack), cs[1..], rest, budget);
    } else {
      assert stack + (cs + rest) == stack + [cs[0]] + (cs[1..] + rest);
      NormalizedWalk(t, stack + [cs[0]], cs[1..], rest, budget);
    }
  }

  lemma LeadsOnce(t: Tree, path: seq<string>, q: Path, budget: nat)
    requires LeadsTo(t, path, q) && !Walk(t, [], path, budget).end.TooManyLinks?
    ensures Walk(t, [], path, budget).end == Found(q)
  {
    var n: nat :| Walk(t, [], path, n).end == Found(q);
    if n <= budget {
      Monotone(t, [], path, n, budget);
    } else {
      Monotone(t, [], path, budget, n);
    }
  }

  /** Leaving out a detour that steps back to where it began ends the same way and follows no
      other links, if the links sufficed for the detour. */
  lemma DetourLeftOut(t: Tree, stack: Path, q: Path, rest: seq<string>, budget: nat)
    requires StepsBack(t, stack, q)
    ensures var w := Walk(t, [], stack + ([UP] + rest), budget);
            var g := Walk(t, [], Parent(stack) + rest, budget);
            w.end.TooManyLinks? || (g.end == w.end && g.links <= w.links)
  {
    hide Walk, Spent;
    var w := Walk(t, [], stack + ([UP] + rest), budget);
    var last := [stack[|stack| - 1]];
    var back := Parent(stack);
    assert stack == back + last;
    GoesOn(t, [], stack, [UP] + rest, budget);
    GoesOn(t, [], back, last, budget);
    GoesOn(t, [], back, rest, budget);
    if !w.end.TooManyLinks? {
      LeadsOnce(t, stack, q, budget);
      LeadsOnce(t, back, Parent(q), budget);
      var spent, less := Spent(t, [], stack, budget), Spent(t, [], back, budget);
      OneStepBack(t, q, rest, budget - spent);
      Monotone(t, Parent(q), rest, budget - spent, budget - less);
    }
  }

  lemma OneStepBack(t: Tree, q: Path, rest: seq<string>, budget: nat)
    requires q != [] && IsDir(t, q)
    ensures Walk(t, q, [UP] + rest, budget) == Walk(t, Parent(q), rest, budget)
  {
    assert ([UP] + rest)[1..] == rest;
  }

  /** Under DotsAgree the normalised spelling ends where the original does, unless that runs out
      of links, and follows none but its links. */
  lemma {:induction false} DotsAgreeWalk(t: Tree, stack: Path, cs: seq<string>, rest: seq<string>, budget: nat)
    requires DotsAgree(t, stack, cs)
    ensures var w := Walk(t, [], stack + (cs + rest), budget);
            var g := Walk(t, [], Normalized(stack, cs) + rest, budget);
            w.end.TooManyLinks? || (g.end == w.end && g.links <= w.links)
    decreases |cs|
  {
    hide Walk;
    if cs == [] {
      assert cs + rest == rest;
    } else if cs[0] == UP {
      assert cs + rest == [UP] + (cs[1..] + rest);
      var q :| StepsBack(t, stack, q);
      DetourLeftOut(t, stack, q, cs[1..] + rest, budget);
      DotsAgreeWalk(t, Parent(stack), cs[1..], rest, budget);
    } else {
      assert stack + (cs + rest) == stack + [cs[0]] + (cs[1..] + rest);
      DotsAgreeWalk(t, stack + [cs[0]], cs[1..], rest, budget);
    }
  }

  lemma LeadsToItself(t: Tree, d: Path)
    requires Wf(t) && IsDir(t, d)
    ensures LeadsTo(t, d, d)
  {
    WalkDownFromTop(t, d, [], 0);
    assert d + [] == d;
    assert Walk(t, [], d, 0).end == Found(d);
  }

  lemma {:induction false} DirectoriesAgree(t: Tree, stack: Path, cs: seq<string>)
    requires Wf(t) && DotsLeaveDirectories(t, stack, cs)
    ensures DotsAgree(t, stack, cs)
    decreases |cs|
  {
    if cs != [] {
      if cs[0] == UP {
        LeadsToItself(t, stack);
        LeadsToItself(t, Parent(stack));
        assert StepsBack(t, stack, stack);
        DirectoriesAgree(t, Parent(stack), cs[1..]);
      } else {
        DirectoriesAgree(t, stack + [cs[0]], cs[1..]);
      }
    }
  }

  // ---- the text of a rewritten link

  /** Where the target of a link points by its spelling, in an image built at `root`. */
  function Spelled(root: Path, target: string): Path {
    Normalized([], root + Components(target))
  }

  predicate Inside(root: Path, target: string) {
    root <= Spelled(root, target)
  }

  function Goal(root: Path, target: string): Path
    requires Inside(root, target)
  {
    Spelled(root, target)[|root|..]
  }

  /** Resolution in the original tree by spelling: like `Walk`, but a link into the store is
      followed to where its target points by its spelling. */
  function Spelt(root: Path, t: Tree, cur: Path, parts: seq<string>, budget: nat): (w: Walked)
    ensures forall l :: l in w.links ==> IsLink(t, l)
    decreases budget, |parts|
  {
    if parts == [] then Walked(Found(cur), {})
    else if !IsDir(t, cur) then Walked(NotDirectory, {})
    else if parts[0] == UP then
      if cur == [] then Walked(Climbs, {}) else Spelt(root, t, Parent(cur), parts[1..], budget)
    else
      var next := cur + [parts[0]];
      if next !in t then Walked(Missing, {})
      else if !t[next].Link? then Spelt(root, t, next, parts[1..], budget)
      else if budget == 0 then Walked(TooManyLinks, {})
      else
        var w := FollowedBySpelling(root, t, cur, t[next].target, parts[1..], budget - 1);
        Walked(w.end, {next} + w.links)
  }

  function FollowedBySpelling(
    root: Path, t: Tree, dir: Path, target: string, rest: seq<string>, budget: nat): (w: Walked)
    ensures forall l :: l in w.links ==> IsLink(t, l)
    decreases budget + 1, 0
  {
    if IntoStore(target) then
      if Inside(root, target) then Spelt(root, t, [], Goal(root, target) + rest, budget) else Walked(Climbs, {})
    else if IsAbsolute(target) then Spelt(root, t, [], Components(target) + rest, budget)
    else Spelt(root, t, dir, Components(target) + rest, budget)
  }

  lemma {:induction false} NormalizedUnderRoot(root: Path, t: Tree, stack: Path, cs: seq<string>)
    requires DotsAgree(t, stack, cs)
    ensures Normalized(root + stack, cs) == root + Normalized(stack, cs)
    decreases |cs|
  {
    if cs != [] {
      if cs[0] == UP {
        assert (root + stack)[..|root + stack| - 1] == root + Parent(stack);
        NormalizedUnderRoot(root, t, Parent(stack), cs[1..]);
      } else {
        assert root + stack + [cs[0]] == root + (stack + [cs[0]]);
        NormalizedUnderRoot(root, t, stack + [cs[0]], cs[1..]);
      }
    }
  }

  /** Then the spelling stays inside the image, wherever that is built. */
  lemma PortableIsInside(root: Path, t: Tree, target: string)
    requires Names(root) && DotsAgree(t, [], Components(target))
    ensures Inside(root, target) && Goal(root, target) == Normalized([], Components(target))
  {
    NormalizedFromPrefix([], root, Components(target));
    assert [] + root == root && root + [] == root;
    NormalizedUnderRoot(root, t, [], Components(target));
  }

  lemma {:induction false} NormalizedNames(stack: Path, cs: seq<string>)
    requires Names(stack) && Plain(cs)
    ensures Names(Normalized(stack, cs))
    decreases |cs|
  {
    if cs != [] {
      assert cs[0] in cs && Plain(cs[1..]);
      if cs[0] == UP {
        NormalizedNames(if stack == [] then [] else Parent(stack), cs[1..]);
      } else {
        NormalizedNames(stack + [cs[0]], cs[1..]);
      }
    }
  }

  lemma SpelledNames(root: Path, target: string)
    requires Names(root)
    ensures Names(Spelled(root, target))
  {
    ComponentsAreComponents(target);
    NormalizedNames([], root + Components(target));
  }

  lemma DroppingTheSlash(target: string)
    requires IsAbsolute(target)
    ensures Components(target[1..]) == Components(target)
  {
    assert ([""] + Split(target[1..]))[1..] == Split(target[1..]);
  }

  lemma NamesAreNormal(names: Path)
    requires Names(names)
    ensures Normalized([], names) == names
  {
    NormalizedFromPrefix([], names, []);
    assert names + [] == names && [] + names == names;
  }

  lemma StoreIsAbsolute(target: string)
    ensures IntoStore(target) ==> IsAbsolute(target)
  {
    if IntoStore(target) {
      assert target[0] == STORE[0];
    }
  }

  lemma OthersUntouched(root: Path, dir: Path, target: string)
    ensures !IntoStore(target) ==> Relinked(root, dir, target) == target
    ensures !IsAbsolute(target) ==> Relinked(root, dir, target) == target
  {
    StoreIsAbsolute(target);
  }

  lemma BetweenIsPlain(goal: Path, dir: Path)
    requires Plain(goal)
    ensures Plain(Between(goal, dir))
  {
    var n := CommonPrefix(goal, dir);
    assert forall p :: p in goal[n..] ==> p in goal;
  }

  lemma RelinkedParts(root: Path, dir: Path, target: string)
    requires Names(root) && Names(dir) && IntoStore(target)
    ensures Parts(Relinked(root, dir, target)) == Between(Spelled(root, target), root + dir)
    ensures Plain(Between(Spelled(root, target), root + dir)) && !IsAbsolute(Relinked(root, dir, target))
  {
    StoreIsAbsolute(target);
    DroppingTheSlash(target);
    NamesAreNormal(root + dir);
    SpelledNames(root, target);
    BetweenIsPlain(Spelled(root, target), root + dir);
    ReadingUndoesPrinting(Between(Spelled(root, target), root + dir));
  }

  /** Inside the image, the link text does not depend on where the image was built. */
  lemma InsideParts(root: Path, dir: Path, target: string)
    requires Names(root) && Names(dir) && IntoStore(target) && Inside(root, target)
    ensures Parts(Relinked(root, dir, target)) == Between(Goal(root, target), dir)
  {
    RelinkedParts(root, dir, target);
    assert Spelled(root, target) == root + Goal(root, target);
    BetweenUnderRoot(root, Goal(root, target), dir);
  }

  // ---- the rewritten tree

  lemma AssembledIsWf(root: Path, t: Tree)
    requires Wf(t)
    ensures Wf(Assembled(root, t))
    ensures forall p :: IsDir(t, p) <==> IsDir(Assembled(root, t), p)
    ensures forall p :: p in t <==> p in Assembled(root, t)
  {
    hide Relinked;
    var a := Assembled(root, t);
    forall p {:trigger Parent(p)} | p in a && p != []
      ensures IsDir(a, Parent(p)) && Name(p[|p| - 1])
    {
      assert p in t && IsDir(t, Parent(p));
    }
  }

  /** From a directory, the text of a rewritten link leads to what the target spells. */
  lemma TextFromTop(root: Path, t: Tree, dir: Path, target: string, rest: seq<string>, budget: nat)
    requires Wf(t) && IsDir(t, dir) && Names(root) && IntoStore(target) && Inside(root, target)
    ensures var a := Assembled(root, t);
            Walk(a, dir, Parts(Relinked(root, dir, target)) + rest, budget) ==
              Walk(a, [], Goal(root, target) + rest, budget)
  {
    hide Walk, Relinked, RelinkedEntry, Spelled, Goal, Parts;
    var a := Assembled(root, t);
    AssembledIsWf(root, t);
    PathsAreNames(t, dir);
    InsideParts(root, dir, target);
    var goal := Goal(root, target);
    var n := CommonPrefix(goal, dir);
    assert Between(goal, dir) + rest == Ups(|dir| - n) + (goal[n..] + rest);
    UpFromTop(a, dir, n, goal[n..] + rest, budget);
    assert dir[..n] + (goal[n..] + rest) == goal + rest;
  }

  lemma UpFromTop(a: Tree, dir: Path, n: nat, rest: seq<string>, budget: nat)
    requires Wf(a) && IsDir(a, dir) && n <= |dir|
    ensures Walk(a, dir, Ups(|dir| - n) + rest, budget) == Walk(a, [], dir[..n] + rest, budget)
  {
    PathsAreNames(a, dir);
    forall i | n <= i <= |dir|
      ensures IsDir(a, [] + dir[..i])
    {
      assert [] + dir[..i] == dir[..i] && dir[..|dir|] == dir;
    }
    assert [] + dir == dir && [] + dir[..n] == dir[..n];
    WalkUp(a, [], dir, |dir| - n, rest, budget);
    WalkDownFromTop(a, dir[..n], rest, budget);
  }

  /** What the resolution in the rewritten tree has to do with the one in the original: it
      ends the same way and follows none but its links, all of them if every ".." leaves a
      directory. Only a resolution that runs out of links on a detour may get further. */
  ghost predicate Agrees(t: Tree, w: Walked, v: Walked) {
    && (AllStrict(t, w.links) ==> v == w)
    && (w.end.TooManyLinks? || (v.end == w.end && v.links <= w.links))
  }

  /** Meeting a link, both resolutions replace it by its text. */
  lemma LinkExpands(root: Path, t: Tree, cur: Path, parts: seq<string>, budget: nat)
    requires Wf(t) && IsDir(t, cur) && Plain(parts)
    requires parts != [] && parts[0] != UP && IsLink(t, cur + [parts[0]]) && budget > 0
    ensures var next, a := cur + [parts[0]], Assembled(root, t);
            var w := Walk(t, cur, Parts(t[next].target) + parts[1..], budget - 1);
            var v := Walk(a, cur, Parts(Relinked(root, cur, t[next].target)) + parts[1..], budget - 1);
            Walk(t, cur, parts, budget) == Walked(w.end, {next} + w.links)
            && Walk(a, cur, parts, budget) == Walked(v.end, {next} + v.links)
  {
    hide Relinked;
    var next := cur + [parts[0]];
    assert parts[0] in parts && Parent(next) == cur;
    AssembledIsWf(root, t);
    assert Assembled(root, t)[next] == Link(Relinked(root, cur, t[next].target));
  }

  lemma LinkAgrees(t: Tree, next: Path, w: Walked, v: Walked)
    requires IsLink(t, next) && Agrees(t, w, v)
    ensures Agrees(t, Walked(w.end, {next} + w.links), Walked(v.end, {next} + v.links))
  {
  }

  /** Resolution in the rewritten tree agrees with resolution in the original one, for every
      path whose links are relative, foreign, or portable. */
  lemma {:induction false} RewritingAgrees(root: Path, t: Tree, cur: Path, parts: seq<string>, budget: nat)
    requires Wf(t) && cur in t && Names(root) && Plain(parts)
    requires PortableOrForeign(t, Walk(t, cur, parts, budget).links)
    ensures Agrees(t, Walk(t, cur, parts, budget), Walk(Assembled(root, t), cur, parts, budget))
    decreases budget, |parts|, 1
  {
    hide Agrees, Relinked, DotsAgree, DotsLeaveDirectories;
    AssembledIsWf(root, t);
    if parts == [] {
      SameAgrees(t, Walk(t, cur, parts, budget));
    } else {
      var rest := parts[1..];
      assert parts[0] in parts && Plain(rest);
      var next := cur + [parts[0]];
      if !IsDir(t, cur) || (parts[0] == UP && cur == []) || (parts[0] != UP && next !in t) {
        SameAgrees(t, Walk(t, cur, parts, budget));
      } else if parts[0] == UP {
        RewritingAgrees(root, t, Parent(cur), rest, budget);
      } else if !t[next].Link? {
        RewritingAgrees(root, t, next, rest, budget);
      } else if budget == 0 {
        SameAgrees(t, Walk(t, cur, parts, budget));
      } else {
        RewrittenLinkAgrees(root, t, cur, parts, budget);
      }
    }
  }

  lemma SameAgrees(t: Tree, w: Walked)
    ensures Agrees(t, w, w)
  {
  }

  lemma {:induction false} RewrittenLinkAgrees(root: Path, t: Tree, cur: Path, parts: seq<string>, budget: nat)
    requires Wf(t) && IsDir(t, cur) && Names(root) && Plain(parts)
    requires parts != [] && parts[0] != UP && IsLink(t, cur + [parts[0]]) && budget > 0
    requires PortableOrForeign(t, Walk(t, cur, parts, budget).links)
    ensures Agrees(t, Walk(t, cur, parts, budget), Walk(Assembled(root, t), cur, parts, budget))
    decreases budget, |parts|, 0
  {
    hide Walk, Agrees, Relinked, RelinkedEntry, DotsAgree, DotsLeaveDirectories, Components;
    var a, next, rest := Assembled(root, t), cur + [parts[0]], parts[1..];
    var target := t[next].target;
    var text := Relinked(root, cur, target);
    assert Plain(rest);
    LinkExpands(root, t, cur, parts, budget);
    var w := Walk(t, cur, Parts(target) + rest, budget - 1);
    var v := Walk(a, cur, Parts(text) + rest, budget - 1);
    assert PortableOrForeign(t, w.links) && PortableOrForeign(t, {next});
    ComponentsAreComponents(target);
    if IntoStore(target) {
      StoreIsAbsolute(target);
      StoreLinkAgrees(root, t, cur, target, rest, budget - 1);
    } else {
      OthersUntouched(root, cur, target);
      if IsAbsolute(target) {
        AbsoluteReset(t, cur, target, rest, budget - 1);
        AbsoluteReset(a, cur, target, rest, budget - 1);
        RewritingAgrees(root, t, [], Components(target) + rest, budget - 1);
      } else {
        RewritingAgrees(root, t, cur, Parts(target) + rest, budget - 1);
      }
    }
    if IntoStore(target) && !Strict(t, target) {
      DetourAgrees(t, next, w, v);
    } else {
      LinkAgrees(t, next, w, v);
    }
  }

  lemma {:induction false} StoreLinkAgrees(root: Path, t: Tree, dir: Path, target: string, rest: seq<string>,
      budget: nat)
    requires Wf(t) && IsDir(t, dir) && Names(root) && Plain(rest)
    requires IntoStore(target) && IsAbsolute(target) && DotsAgree(t, [], Components(target))
    requires PortableOrForeign(t, Walk(t, dir, Parts(target) + rest, budget).links)
    ensures var w := Walk(t, dir, Parts(target) + rest, budget);
            var v := Walk(Assembled(root, t), dir, Parts(Relinked(root, dir, target)) + rest, budget);
            if Strict(t, target) then Agrees(t, w, v)
            else w.end.TooManyLinks? || (v.end == w.end && v.links <= w.links)
    decreases budget + 1, 0, 0
  {
    hide Walk, Agrees, Relinked, DotsAgree, DotsLeaveDirectories, Components, Normalized, Inside, Goal;
    var cs := Components(target);
    PortableIsInside(root, t, target);
    var goal := Goal(root, target);
    GoalIsPlain(root, t, target, rest);
    AbsoluteReset(t, dir, target, rest, budget);
    assert [] + (cs + rest) == cs + rest;
    DotsAgreeWalk(t, [], cs, rest, budget);
    TextFromTop(root, t, dir, target, rest, budget);
    var w := Walk(t, dir, Parts(target) + rest, budget);
    var g := Walk(t, [], goal + rest, budget);
    if Strict(t, target) {
      NormalizedWalk(t, [], cs, rest, budget);
      RewritingAgrees(root, t, [], goal + rest, budget);
    } else if !w.end.TooManyLinks? {
      assert PortableOrForeign(t, g.links);
      RewritingAgrees(root, t, [], goal + rest, budget);
      AgreesInside(t, w, g, Walk(Assembled(root, t), [], goal + rest, budget));
    }
  }

  lemma AgreesInside(t: Tree, w: Walked, g: Walked, v: Walked)
    requires g.end == w.end && !w.end.TooManyLinks? && g.links <= w.links && Agrees(t, g, v)
    ensures v.end == w.end && v.links <= w.links
  {
  }

  lemma DetourAgrees(t: Tree, next: Path, w: Walked, v: Walked)
    requires IsLink(t, next) && !Strict(t, t[next].target)
    requires w.end.TooManyLinks? || (v.end == w.end && v.links <= w.links)
    ensures Agrees(t, Walked(w.end, {next} + w.links), Walked(v.end, {next} + v.links))
  {
    assert next in {next} + w.links;
  }

  lemma GoalIsPlain(root: Path, t: Tree, target: string, rest: seq<string>)
    requires Names(root) && DotsAgree(t, [], Components(target)) && Plain(rest)
    ensures Inside(root, target) && Plain(Goal(root, target) + rest)
  {
    PortableIsInside(root, t, target);
    ComponentsAreComponents(target);
    NormalizedNames([], Components(target));
  }

  // ---- the theorems

  lemma RewrittenEntry(root: Path, t: Tree, l: Path)
    requires Wf(t) && Names(root) && IsLink(t, l)
    ensures var a := Assembled(root, t); IsLink(a, l) && (IsAbsolute(a[l].target) <==> Foreign(t[l].target))
  {
    hide Relinked;
    var dir := Parent(l);
    PathsAreNames(t, dir);
    StoreIsAbsolute(t[l].target);
    OthersUntouched(root, dir, t[l].target);
    if IntoStore(t[l].target) {
      RelinkedParts(root, dir, t[l].target);
    }
  }

  /** What is rewritten: the links whose text begins with "/nix/store/", which become relative,
      and nothing else. */
  ghost predicate OnlyStoreLinksRewritten(t: Tree, a: Tree) {
    && a.Keys == t.Keys
    && forall p :: p in t ==>
         if t[p].Link? && "/nix/store/" <= t[p].target then a[p].Link? && !IsAbsolute(a[p].target) else a[p] == t[p]
  }

  lemma AssembledStoreLinks(root: Path, t: Tree)
    requires Wf(t) && Names(root)
    ensures OnlyStoreLinksRewritten(t, Assembled(root, t))
  {
    hide RelPath, RelativeString, Components;
    var a := Assembled(root, t);
    forall p | p in t
      ensures if t[p].Link? && "/nix/store/" <= t[p].target then a[p].Link? && !IsAbsolute(a[p].target)
              else a[p] == t[p]
    {
      if t[p].Link? {
        PathsAreNames(t, Parent(p));
        if IntoStore(t[p].target) {
          RelinkedParts(root, Parent(p), t[p].target);
        }
      }
    }
  }

  /** An image whose absolute links all point into the store has none left. */
  lemma NoAbsoluteLinkIsLeft(root: Path, t: Tree)
    requires Wf(t) && Names(root)
    requires forall p :: IsLink(t, p) && IsAbsolute(t[p].target) ==> "/nix/store/" <= t[p].target
    ensures forall p :: IsLink(Assembled(root, t), p) ==> !IsAbsolute(Assembled(root, t)[p].target)
  {
    hide Assembled;
    AssembledStoreLinks(root, t);
  }

  lemma RewrittenLinks(root: Path, t: Tree, links: set<Path>)
    requires Wf(t) && Names(root) && forall l :: l in links ==> IsLink(t, l)
    ensures RelativeOnly(Assembled(root, t), links) <==> !SomeForeign(t, links)
  {
    hide Relinked, RelinkedEntry;
    forall l | l in links
      ensures IsLink(Assembled(root, t), l) && (IsAbsolute(Assembled(root, t)[l].target) <==> Foreign(t[l].target))
    {
      RewrittenEntry(root, t, l);
    }
  }

  lemma PortableIsNotForeign(t: Tree, links: set<Path>)
    requires AllPortable(t, links)
    ensures PortableOrForeign(t, links) && !SomeForeign(t, links)
  {
  }

  /** Resolution in the rewritten image, wherever it is mounted, is resolution in the original
      tree: same place, same failure, and same number of links if every ".." leaves a
      directory; where it leaves a link the detour's links are saved. */
  lemma RelocationPreservesMeaning(
    root: Path, t: Tree, host: Tree, at: Path, cur: Path, parts: seq<string>, budget: nat)
    requires Wf(t) && cur in t && Names(root) && Mounted(host, at, Assembled(root, t)) && Plain(parts)
    requires AllPortable(t, Walk(t, cur, parts, budget).links)
    requires !Walk(t, cur, parts, budget).end.Climbs?
    ensures var w := Walk(t, cur, parts, budget);
            || Walk(host, at + cur, parts, budget).end == Lifted(at, w.end)
            || (w.end.TooManyLinks? && !AllStrict(t, w.links))
  {
    hide Walk, Portable, Assembled, Strict;
    var a := Assembled(root, t);
    var w, v := Walk(t, cur, parts, budget), Walk(a, cur, parts, budget);
    PortableIsNotForeign(t, w.links);
    RewritingAgrees(root, t, cur, parts, budget);
    AssembledIsWf(root, t);
    RewrittenLinks(root, t, w.links);
    if v.end == w.end && v.links <= w.links {
      RelativeMoves(a, host, at, cur, parts, budget);
    }
  }

  // ---- resolution by spelling is resolution in the rewritten tree

  /** A text that climbs out of the image does so whatever follows it. */
  lemma OutsideLink(root: Path, t: Tree, dir: Path, target: string, rest: seq<string>, budget: nat)
    requires Wf(t) && IsDir(t, dir) && Names(root) && IntoStore(target) && !Inside(root, target)
    ensures Walk(Assembled(root, t), dir, Parts(Relinked(root, dir, target)) + rest, budget) == Walked(Climbs, {})
  {
    hide Walk, Relinked, Spelled, Parts;
    var n := CommonPrefix(Spelled(root, target), root + dir);
    PathsAreNames(t, dir);
    RelinkedParts(root, dir, target);
    AssembledIsWf(root, t);
    SharedPrefix(root, dir, Spelled(root, target));
    var k := |root + dir| - n;
    assert Between(Spelled(root, target), root + dir) + rest == Ups(k) + (Spelled(root, target)[n..] + rest);
    WalkOut(Assembled(root, t), dir, k, Spelled(root, target)[n..] + rest, budget);
  }

  lemma SharedPrefix(root: Path, dir: Path, s: Path)
    ensures CommonPrefix(s, root + dir) >= |root| ==> root <= s
  {
    var n := CommonPrefix(s, root + dir);
    if n >= |root| {
      assert s[..n][..|root|] == (root + dir)[..n][..|root|];
    }
  }

  lemma GoalParts(root: Path, target: string, rest: seq<string>)
    requires Names(root) && Inside(root, target) && Plain(rest)
    ensures Plain(Goal(root, target) + rest)
  {
    SpelledNames(root, target);
    assert forall p :: p in Goal(root, target) ==> p in Spelled(root, target);
  }

  /** With no condition on the links: what a path does in the rewritten tree can be told from the
      original one. */
  lemma {:induction false} RewrittenIsSpelt(root: Path, t: Tree, cur: Path, parts: seq<string>, budget: nat)
    requires Wf(t) && cur in t && Names(root) && Plain(parts)
    ensures Walk(Assembled(root, t), cur, parts, budget) == Spelt(root, t, cur, parts, budget)
    decreases budget, |parts|
  {
    hide Relinked, RelinkedEntry, FollowedBySpelling;
    AssembledIsWf(root, t);
    assert parts != [] ==> parts[0] in parts && Plain(parts[1..]);
    if parts != [] && IsDir(t, cur) {
      var next := cur + [parts[0]];
      if parts[0] == UP {
        if cur != [] {
          RewrittenIsSpelt(root, t, Parent(cur), parts[1..], budget);
        }
      } else if next in t {
        if !t[next].Link? {
          SameKind(root, t, next);
          RewrittenIsSpelt(root, t, next, parts[1..], budget);
        } else {
          SameKind(root, t, next);
          if budget > 0 {
            LinkExpands(root, t, cur, parts, budget);
            TextIsSpelt(root, t, cur, t[next].target, parts[1..], budget - 1);
          }
        }
      }
    }
  }

  lemma SameKind(root: Path, t: Tree, p: Path)
    requires Wf(t) && p in t
    ensures p in Assembled(root, t) && (IsLink(Assembled(root, t), p) <==> IsLink(t, p))
  {
    hide Relinked;
  }

  lemma {:induction false} TextIsSpelt(
    root: Path, t: Tree, dir: Path, target: string, rest: seq<string>, budget: nat)
    requires Wf(t) && IsDir(t, dir) && Names(root) && Plain(rest)
    ensures Walk(Assembled(root, t), dir, Parts(Relinked(root, dir, target)) + rest, budget)
            == FollowedBySpelling(root, t, dir, target, rest, budget)
    decreases budget + 1, 0
  {
    hide Walk, Spelt, Relinked, Spelled, Goal, Components;
    OthersUntouched(root, dir, target);
    ComponentsAreComponents(target);
    if IntoStore(target) {
      if Inside(root, target) {
        TextFromTop(root, t, dir, target, rest, budget);
        GoalParts(root, target, rest);
        RewrittenIsSpelt(root, t, [], Goal(root, target) + rest, budget);
      } else {
        OutsideLink(root, t, dir, target, rest, budget);
      }
    } else if IsAbsolute(target) {
      AbsoluteReset(Assembled(root, t), dir, target, rest, budget);
      RewrittenIsSpelt(root, t, [], Components(target) + rest, budget);
    } else {
      RewrittenIsSpelt(root, t, dir, Components(target) + rest, budget);
    }
  }

  /** For every tree, and every path that does not leave it at its top, whatever links it meets:
      its end, place or failure, is the corresponding one at every mount point of the rewritten
      image if and only if, in the original tree, resolution by spelling has the same end and
      follows no absolute link from outside the store. */
  lemma RelocatableExactlyWhenClosed(root: Path, t: Tree, path: string, budget: nat)
    requires Wf(t) && Names(root) && !Walk(t, [], Parts(path), budget).end.Climbs?
    ensures var w := Walk(t, [], Parts(path), budget);
            var s := Spelt(root, t, [], Components(path), budget);
            SameEverywhere(Assembled(root, t), Components(path), budget, w.end)
            <==> s.end == w.end && !SomeForeign(t, s.links)
  {
    hide Walk, Spelt, Assembled, Components, SameEverywhere, RelativeOnly, SomeForeign;
    var a, cs := Assembled(root, t), Components(path);
    var w, s := Walk(t, [], Parts(path), budget), Spelt(root, t, [], cs, budget);
    ComponentsAreComponents(path);
    AssembledIsWf(root, t);
    RewrittenIsSpelt(root, t, [], cs, budget);
    RewrittenLinks(root, t, s.links);
    if SameEverywhere(a, cs, budget, w.end) {
      SameOnItself(a, cs, budget, w.end);
    }
    if s.end == w.end {
      MountsExactly(a, cs, budget);
    }
  }

  /** In particular, where every ".." leaves a directory: if and only if no absolute link from
      outside the store is followed in the original tree. */
  lemma ClosedExactlyWithoutForeign(root: Path, t: Tree, path: string, budget: nat)
    requires Wf(t) && Names(root) && !Walk(t, [], Parts(path), budget).end.Climbs?
    requires AllStrict(t, Walk(t, [], Parts(path), budget).links)
    ensures var w := Walk(t, [], Parts(path), budget);
            SameEverywhere(Assembled(root, t), Components(path), budget, w.end) <==> !SomeForeign(t, w.links)
  {
    hide Assembled, DotsAgree, DotsLeaveDirectories, Components, Spelt;
    var cs := Components(path);
    var w := Walk(t, [], Parts(path), budget);
    assert Parts(path) != cs ==> Parts(path)[1..] == cs;
    assert w == Walk(t, [], cs, budget);
    ComponentsAreComponents(path);
    StrictIsPortable(t, w.links);
    RewritingAgrees(root, t, [], cs, budget);
    RewrittenIsSpelt(root, t, [], cs, budget);
    RelocatableExactlyWhenClosed(root, t, path, budget);
  }

  lemma StrictIsPortable(t: Tree, links: set<Path>)
    requires Wf(t) && AllStrict(t, links)
    ensures PortableOrForeign(t, links)
  {
    hide DotsAgree, DotsLeaveDirectories, Components;
    forall l | l in links && IntoStore(t[l].target)
      ensures Portable(t, t[l].target)
    {
      DirectoriesAgree(t, [], Components(t[l].target));
    }
  }

  // ---- one link

  /** The text of one rewritten link leads to `p`, with the links there are, at every mount
      point of the rewritten image, if and only if the spelling of its target stays inside the
      image, and resolution by spelling leads from there to `p` in the original tree and follows
      no absolute link from outside the store. */
  lemma StoreLinkKeptExactly(root: Path, t: Tree, dir: Path, target: string, p: Path, budget: nat)
    requires Wf(t) && IsDir(t, dir) && Names(root) && IntoStore(target)
    ensures LeadsEverywhere(Assembled(root, t), dir, Parts(Relinked(root, dir, target)), budget, p)
       <==> && Inside(root, target)
            && var s := Spelt(root, t, [], Goal(root, target), budget);
               s.end == Found(p) && !SomeForeign(t, s.links)
  {
    hide Walk, Spelt, Assembled, Relinked, Spelled, Parts, LeadsEverywhere, RelativeOnly, SomeForeign, Goal;
    var a := Assembled(root, t);
    var text := Parts(Relinked(root, dir, target));
    AssembledIsWf(root, t);
    PathsAreNames(t, dir);
    RelinkedParts(root, dir, target);
    LeadsExactly(a, dir, text, budget, p);
    TextIsSpelt(root, t, dir, target, [], budget);
    assert text + [] == text;
    if Inside(root, target) {
      var goal := Goal(root, target);
      assert goal + [] == goal;
      RewrittenLinks(root, t, Spelt(root, t, [], goal, budget).links);
    }
  }

  /** Among portable links the spelling may be resolved like any path. */
  lemma StoreLinkAmongPortable(root: Path, t: Tree, dir: Path, target: string, p: Path, budget: nat)
    requires Wf(t) && IsDir(t, dir) && Names(root) && IntoStore(target)
    requires Inside(root, target) ==>
               var g := Walk(t, [], Goal(root, target), budget);
               AllPortable(t, g.links) && !g.end.TooManyLinks?
    ensures LeadsEverywhere(Assembled(root, t), dir, Parts(Relinked(root, dir, target)), budget, p)
       <==> Inside(root, target) && Walk(t, [], Goal(root, target), budget).end == Found(p)
  {
    hide Walk, Spelt, Assembled, Relinked, Spelled, Parts, LeadsEverywhere, Portable, Goal;
    StoreLinkKeptExactly(root, t, dir, target, p, budget);
    if Inside(root, target) {
      var goal := Goal(root, target);
      var g := Walk(t, [], goal, budget);
      GoalParts(root, target, []);
      assert goal + [] == goal;
      PortableIsNotForeign(t, g.links);
      RewritingAgrees(root, t, [], goal, budget);
      RewrittenIsSpelt(root, t, [], goal, budget);
    }
  }

  /** Where a portable link leads, its spelling leads, so that the condition is met. */
  lemma PortableIsKept(root: Path, t: Tree, target: string, p: Path, budget: nat)
    requires Names(root) && DotsAgree(t, [], Components(target))
    requires Walk(t, [], Components(target), budget).end == Found(p)
    ensures Inside(root, target) && Walk(t, [], Goal(root, target), budget).end == Found(p)
  {
    hide Walk, DotsAgree, Components, Inside, Goal;
    var cs := Components(target);
    PortableIsInside(root, t, target);
    assert [] + (cs + []) == cs;
    DotsAgreeWalk(t, [], cs, [], budget);
    assert Normalized([], cs) + [] == Normalized([], cs);
  }

  /** The dots of a target may leave a link: one to a directory beside it is harmless. */
  lemma SiblingLinksAgree(t: Tree, d: Path, a: string, b: string, cs: seq<string>)
    requires Wf(t) && IsDir(t, d) && Name(a) && Name(b)
    requires IsLink(t, d + [a]) && t[d + [a]].target == b && IsDir(t, d + [b])
    ensures DotsAgree(t, d, [a, UP] + cs) <==> DotsAgree(t, d, cs)
  {
    var q := d + [b];
    assert Parent(d + [a]) == d && Parent(q) == d;
    assert ([a, UP] + cs)[1..] == [UP] + cs && ([UP] + cs)[1..] == cs;
    LeadsToItself(t, d);
    SiblingLeads(t, d, a, b);
    assert StepsBack(t, d + [a], q);
  }

  lemma SiblingLeads(t: Tree, d: Path, a: string, b: string)
    requires Wf(t) && IsDir(t, d) && Name(a) && Name(b)
    requires IsLink(t, d + [a]) && t[d + [a]].target == b && IsDir(t, d + [b])
    ensures LeadsTo(t, d + [a], d + [b])
  {
    SplitCons(b, "");
    KeptIsIdentity([b]);
    assert !IsAbsolute(b) by {
      assert b[0] in b;
    }
    assert Parts(b) == [b] && [b] + [] == [b] && [a][1..] == [] && [b][1..] == [];
    WalkDownFromTop(t, d, [a], 1);
    assert Walk(t, d, [a], 1).end == Walk(t, d, [b], 0).end == Found(d + [b]);
    assert Walk(t, [], d + [a], 1).end == Found(d + [b]);
  }
}
