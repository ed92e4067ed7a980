/** The cgroup of a request holds exactly the descendants of its leader: membership is
    taken before the command is executed and inherited by every fork. */
module Kinship {
  import opened Options
  import opened Processes
  import opened Request

  /** Stages in which the leader has not run any code of the application. */
  predicate Early(stage: Stage) {
    stage.Entering? || stage.Executing?
  }

  /** Stages behind a successful exec. */
  predicate Executed(stage: Stage) {
    stage.Running? || stage.Listing? || stage.Signalling? || stage.Grace? || stage.Killed?
    || stage.Emptying? || stage.Retiring? || stage.Retired?
  }

  predicate WellStaged(q: Request) {
    && (q.stage.Created? <==> q.leader.None?)
    && (q.stage.Created? || q.stage.Entering? ==> !q.entered)
    && (q.stage.Executing? || Executed(q.stage) ==> q.entered)
  }

  ghost predicate Leads(s: State, r: nat, l: nat) {
    r < |s.reqs| && s.reqs[r].leader == Some(l)
  }

  ghost predicate Tree(s: State) {
    && Consistent(s.procs)
    && s.procs != [] && s.procs[0].forker.None? && s.procs[0].life.Alive? && s.procs[0].group.None?
    && (forall r :: 0 <= r < |s.reqs| ==> WellStaged(s.reqs[r]))
    && (forall r: nat, l: nat :: Leads(s, r, l) ==> 0 < l < |s.procs| && s.procs[l].forker == Some(0))
    && (forall r: nat, q: nat, l: nat :: Leads(s, r, l) && Leads(s, q, l) ==> r == q)
  }

  /** In the cgroup if and only if descended from the leader. */
  ghost predicate Membership(s: State) {
    && (forall i :: 0 <= i < |s.procs| && s.procs[i].group.Some? ==>
          var g := s.procs[i].group.value;
          g < |s.reqs| && s.reqs[g].entered && s.reqs[g].leader.Some? && Descends(s.procs, i, s.reqs[g].leader.value))
    && (forall i: nat, r: nat, l: nat ::
       i < |s.procs| && Leads(s, r, l) && s.reqs[r].entered && Descends(s.procs, i, l) ==>
          s.procs[i].group == Some(r))
  }

  /** Before the command runs, the leader has no descendants but itself. */
  ghost predicate Childless(s: State) {
    forall i: nat, r: nat, l: nat ::
      i < |s.procs| && Leads(s, r, l) && Early(s.reqs[r].stage) && Descends(s.procs, i, l) ==> i == l
  }

  ghost predicate Kin(s: State) {
    Tree(s) && Membership(s) && Childless(s)
  }

  /** A step that forks nothing, moves nobody between cgroups and names no new leader. */
  ghost predicate OnlyLives(s: State, t: State) {
    SameIdentity(s.procs, t.procs) && SameRoles(s.reqs, t.reqs)
  }

  ghost predicate SameRoles(before: seq<Request>, after: seq<Request>) {
    && |after| == |before|
    && forall r :: 0 <= r < |before| ==>
         after[r].leader == before[r].leader && after[r].entered == before[r].entered
         && WellStaged(after[r]) && (Early(after[r].stage) ==> Early(before[r].stage))
  }

  lemma SameDescent(t: Table, u: Table)
    requires SameBirths(t, u)
    ensures forall i: nat, l: nat :: i < |t| ==> (Descends(t, i, l) <==> Descends(u, i, l))
  {
    forall i: nat, l: nat | i < |t|
      ensures Descends(t, i, l) <==> Descends(u, i, l)
    {
      DescendsFrame(t, u, i, l);
    }
  }

  lemma OnlyLivesKeepsTree(s: State, t: State)
    requires Tree(s) && OnlyLives(s, t) && t.procs[0].life.Alive?
    ensures Tree(t) && forall r: nat, l: nat :: Leads(t, r, l) <==> Leads(s, r, l)
  {
    forall r: nat, l: nat
      ensures Leads(t, r, l) <==> Leads(s, r, l)
    {
    }
    assert Consistent(t.procs);
  }

  lemma OnlyLivesKeepsMembership(s: State, t: State)
    requires Membership(s) && OnlyLives(s, t)
    ensures Membership(t)
  {
    hide WellStaged, Descends;
    SameDescent(s.procs, t.procs);
    forall i: nat, r: nat, l: nat | i < |t.procs| && Leads(t, r, l) && t.reqs[r].entered && Descends(t.procs, i, l)
      ensures t.procs[i].group == Some(r)
    {
      assert Leads(s, r, l) && Descends(s.procs, i, l);
    }
  }

  lemma OnlyLivesKeepsChildless(s: State, t: State)
    requires Childless(s) && OnlyLives(s, t)
    ensures Childless(t)
  {
    hide WellStaged, Descends;
    SameDescent(s.procs, t.procs);
    forall i: nat, r: nat, l: nat | i < |t.procs| && Leads(t, r, l) && Early(t.reqs[r].stage) && Descends(t.procs, i, l)
      ensures i == l
    {
      assert Leads(s, r, l) && Descends(s.procs, i, l);
    }
  }

  lemma OnlyLivesKeepsKin(s: State, t: State)
    requires Kin(s) && OnlyLives(s, t) && t.procs[0].life.Alive?
    ensures Kin(t)
  {
    OnlyLivesKeepsTree(s, t);
    OnlyLivesKeepsMembership(s, t);
    OnlyLivesKeepsChildless(s, t);
  }

  // ---- forks

  /** A new instance descends from itself and from whatever its creator descends from. */
  lemma ForkedDescent(t: Table, parent: nat, pid: nat)
    requires Consistent(t) && parent < |t|
    ensures var u := Forked(t, parent, pid);
            SameBirths(t, u) && forall l: nat :: Descends(u, |t|, l) <==> l == |t| || Descends(t, parent, l)
  {
    var u := Forked(t, parent, pid);
    SameDescent(t, u);
    forall l: nat
      ensures Descends(u, |t|, l) <==> l == |t| || Descends(t, parent, l)
    {
      assert u[|t|].forker == Some(parent);
      assert Descends(t, parent, l) <==> Descends(u, parent, l);
    }
  }

  lemma ForkKeepsTree(s: State, t: State, parent: nat, pid: nat)
    requires Tree(s) && parent < |s.procs| && Holder(s.procs, pid).None?
    requires t == s.(procs := Forked(s.procs, parent, pid))
    ensures Tree(t) && forall r: nat, l: nat :: Leads(t, r, l) <==> Leads(s, r, l)
  {
    ForkKeepsConsistent(s.procs, parent, pid);
    forall r: nat, l: nat
      ensures Leads(t, r, l) <==> Leads(s, r, l)
    {
    }
  }

  lemma ForkKeepsMembership(s: State, t: State, parent: nat, pid: nat)
    requires Tree(s) && Membership(s) && parent < |s.procs|
    requires t == s.(procs := Forked(s.procs, parent, pid))
    ensures Membership(t)
  {
    hide WellStaged, Descends;
    var n := |s.procs|;
    ForkedDescent(s.procs, parent, pid);
    SameDescent(s.procs, t.procs);
    forall i: nat, r: nat, l: nat | i < |t.procs| && Leads(t, r, l) && t.reqs[r].entered && Descends(t.procs, i, l)
      ensures t.procs[i].group == Some(r)
    {
      assert Leads(s, r, l);
      assert Descends(s.procs, if i < n then i else parent, l);
    }
    forall i: nat | i < |t.procs| && t.procs[i].group.Some?
      ensures var g := t.procs[i].group.value;
              g < |t.reqs| && t.reqs[g].entered && t.reqs[g].leader.Some?
                && Descends(t.procs, i, t.reqs[g].leader.value)
    {
      var j := if i < n then i else parent;
      assert s.procs[j].group == t.procs[i].group;
    }
  }

  lemma ForkKeepsChildless(s: State, t: State, parent: nat, pid: nat)
    requires Tree(s) && Childless(s) && parent < |s.procs| && !BeforeExec(s, parent)
    requires t == s.(procs := Forked(s.procs, parent, pid))
    ensures Childless(t)
  {
    hide WellStaged, Descends;
    ForkedDescent(s.procs, parent, pid);
    SameDescent(s.procs, t.procs);
    forall i: nat, r: nat, l: nat | i < |t.procs| && Leads(t, r, l) && Early(t.reqs[r].stage) && Descends(t.procs, i, l)
      ensures i == l
    {
      assert Leads(s, r, l);
      assert BeforeExec(s, l);
      assert parent != l && !Descends(s.procs, parent, l);
    }
  }

  lemma ForkKeepsKin(s: State, parent: nat, pid: nat)
    requires Kin(s) && Enabled(s, Fork(parent, pid))
    ensures Kin(Apply(s, Fork(parent, pid)))
  {
    var t := Apply(s, Fork(parent, pid));
    ForkKeepsTree(s, t, parent, pid);
    ForkKeepsMembership(s, t, parent, pid);
    ForkKeepsChildless(s, t, parent, pid);
  }

  // ---- the launch of a request

  /** Spawn, seen as a fork by the worker followed by naming the new instance leader. */
  ghost predicate Named(u: State, t: State, r: nat, n: nat) {
    && r < |u.reqs| && t.procs == u.procs && |u.procs| == n + 1 && |t.reqs| == |u.reqs|
    && u.reqs[r].stage.Created? && t.reqs[r] == u.reqs[r].(stage := Entering, leader := Some(n))
    && (forall q :: 0 <= q < |u.reqs| && q != r ==> t.reqs[q] == u.reqs[q])
  }

  lemma NamedKeepsTree(u: State, t: State, r: nat, n: nat)
    requires Tree(u) && Named(u, t, r, n) && 0 < n && u.procs[n].forker == Some(0)
    requires forall q: nat, l: nat :: Leads(u, q, l) ==> l != n
    ensures Tree(t) && forall q: nat, l: nat :: Leads(t, q, l) <==> Leads(u, q, l) || (q == r && l == n)
  {
    forall q: nat, l: nat
      ensures Leads(t, q, l) <==> Leads(u, q, l) || (q == r && l == n)
    {
    }
  }

  lemma NamedKeepsRest(u: State, t: State, r: nat, n: nat)
    requires Tree(u) && Membership(u) && Childless(u) && Named(u, t, r, n)
    requires forall q: nat, l: nat :: Leads(t, q, l) <==> Leads(u, q, l) || (q == r && l == n)
    requires forall i: nat :: i < n ==> !Descends(u.procs, i, n)
    ensures Membership(t) && Childless(t)
  {
    hide Descends;
    assert !u.reqs[r].entered;
    forall i: nat, q: nat, l: nat | i < |t.procs| && Leads(t, q, l) && t.reqs[q].entered && Descends(t.procs, i, l)
      ensures t.procs[i].group == Some(q)
    {
      assert Leads(u, q, l) && u.reqs[q].entered;
    }
    forall i: nat, q: nat, l: nat | i < |t.procs| && Leads(t, q, l) && Early(t.reqs[q].stage) && Descends(t.procs, i, l)
      ensures i == l
    {
      assert q != r ==> Leads(u, q, l) && Early(u.reqs[q].stage);
    }
  }

  lemma WorkerIsNoLeader(s: State)
    requires Tree(s)
    ensures !BeforeExec(s, 0)
  {
    assert forall r: nat :: r < |s.reqs| && s.reqs[r].leader.Some? ==> Leads(s, r, s.reqs[r].leader.value);
  }

  lemma YoungDescend(t: Table, n: nat)
    requires |t| == n + 1
    ensures forall i: nat :: i < n ==> !Descends(t, i, n)
  {
    forall i: nat | i < n
      ensures !Descends(t, i, n)
    {
      if Descends(t, i, n) {
        DescendsUpwards(t, i, n);
      }
    }
  }

  lemma SpawnKeepsKin(s: State, r: nat, pid: nat)
    requires Kin(s) && Enabled(s, Globally(r, Spawn(pid)))
    ensures Kin(Apply(s, Globally(r, Spawn(pid))))
  {
    hide Tree, Membership, Childless, Descends;
    var n := |s.procs|;
    var u := s.(procs := Forked(s.procs, 0, pid));
    var t := Apply(s, Globally(r, Spawn(pid)));
    WorkerIsNoLeader(s);
    ForkKeepsTree(s, u, 0, pid);
    ForkKeepsMembership(s, u, 0, pid);
    ForkKeepsChildless(s, u, 0, pid);
    YoungDescend(u.procs, n);
    NoLeaderYet(s, u, n);
    NamedKeepsTree(u, t, r, n);
    NamedKeepsRest(u, t, r, n);
  }

  lemma NoLeaderYet(s: State, u: State, n: nat)
    requires Tree(s) && n == |s.procs| && forall r: nat, l: nat :: Leads(u, r, l) <==> Leads(s, r, l)
    ensures forall q: nat, l: nat :: Leads(u, q, l) ==> l != n
  {
  }

  lemma EnterKeepsTree(s: State, r: nat)
    requires Tree(s) && Enabled(s, Globally(r, Enter))
    ensures var t := Apply(s, Globally(r, Enter));
            Tree(t) && SameBirths(s.procs, t.procs) && forall q: nat, l: nat :: Leads(t, q, l) <==> Leads(s, q, l)
  {
    var t := Apply(s, Globally(r, Enter));
    forall q: nat, l: nat
      ensures Leads(t, q, l) <==> Leads(s, q, l)
    {
    }
    assert Leads(s, r, s.reqs[r].leader.value);
  }

  lemma EnterKeepsMembership(s: State, r: nat)
    requires Kin(s) && Enabled(s, Globally(r, Enter))
    ensures Membership(Apply(s, Globally(r, Enter))) && Childless(Apply(s, Globally(r, Enter)))
  {
    hide Descends;
    var t := Apply(s, Globally(r, Enter));
    var leader := s.reqs[r].leader.value;
    EnterKeepsTree(s, r);
    SameDescent(s.procs, t.procs);
    assert Leads(s, r, leader);
    LeadersApart(s, r, leader);
    forall i: nat, q: nat, l: nat | i < |t.procs| && Leads(t, q, l) && t.reqs[q].entered && Descends(t.procs, i, l)
      ensures t.procs[i].group == Some(q)
    {
      assert Leads(s, q, l) && Descends(s.procs, i, l);
    }
    assert Descends(t.procs, leader, leader) by { SelfDescends(t.procs, leader); }
    forall i: nat, q: nat, l: nat | i < |t.procs| && Leads(t, q, l) && Early(t.reqs[q].stage) && Descends(t.procs, i, l)
      ensures i == l
    {
      assert Leads(s, q, l) && Descends(s.procs, i, l) && Early(s.reqs[q].stage);
    }
  }

  lemma SelfDescends(t: Table, i: nat)
    ensures Descends(t, i, i)
  {
  }

  /** A leader is created by the worker, so it descends from no other leader. */
  lemma LeadersApart(s: State, r: nat, leader: nat)
    requires Tree(s) && Leads(s, r, leader)
    ensures forall q: nat, l: nat :: Leads(s, q, l) && Descends(s.procs, leader, l) ==> q == r
  {
    forall q: nat, l: nat | Leads(s, q, l) && Descends(s.procs, leader, l)
      ensures q == r
    {
      assert l != 0 && s.procs[leader].forker == Some(0);
      assert Descends(s.procs, leader, l) <==> leader == l || Descends(s.procs, 0, l);
      assert !Descends(s.procs, 0, l);
    }
  }

  // ---- every step

  lemma LocalKeepsStage(q: Request, act: Local)
    requires WellStaged(q) && LocalEnabled(q, act)
    ensures var q' := Moved(q, act);
            WellStaged(q') && q'.leader == q.leader && q'.entered == q.entered && (Early(q'.stage) ==> Early(q.stage))
  {
  }

  lemma StepKeepsKin(s: State, step: Step)
    requires Kin(s) && Enabled(s, step)
    ensures Kin(Apply(s, step))
  {
    hide Tree, Membership, Childless;
    var t := Apply(s, step);
    match step
    case Fork(parent, pid) => ForkKeepsKin(s, parent, pid);
    case Create => CreateKeepsKin(s);
    case Locally(r, act) => LocalKeepsKin(s, r, act);
    case Globally(r, deed) =>
      if deed.Spawn? {
        SpawnKeepsKin(s, r, deed.pid);
      } else if deed.Enter? {
        EnterKeepsTree(s, r);
        EnterKeepsMembership(s, r);
      } else {
        GlobalKeepsKin(s, r, deed);
      }
    case _ => ProcessKeepsKin(s, step);
  }

  lemma SameReqs(s: State)
    requires Tree(s)
    ensures SameRoles(s.reqs, s.reqs)
  {
  }

  lemma ProcessKeepsKin(s: State, step: Step)
    requires Kin(s) && Enabled(s, step) && (step.SetSession? || step.End? || step.Reap?)
    ensures Kin(Apply(s, step))
  {
    SameReqs(s);
    OnlyLivesKeepsKin(s, Apply(s, step));
  }

  lemma LocalKeepsKin(s: State, r: nat, act: Local)
    requires Kin(s) && Enabled(s, Locally(r, act))
    ensures Kin(Apply(s, Locally(r, act)))
  {
    var t := Apply(s, Locally(r, act));
    assert OnlyLives(s, t) by {
      hide Membership, Childless, Consistent, Moved, LocalEnabled;
      LocalKeepsStage(s.reqs[r], act);
    }
    OnlyLivesKeepsKin(s, t);
  }

  lemma OutsideKeepsIdentity(s: State, r: nat, deed: Global)
    requires Tree(s) && r < |s.reqs| && GlobalEnabled(s, r, deed) && !deed.Spawn? && !deed.Enter?
    ensures var t := Outside(s, r, deed);
            t.reqs == s.reqs && SameIdentity(s.procs, t.procs) && t.procs[0].life.Alive?
  {
    assert s.reqs[r].leader.Some? ==> Leads(s, r, s.reqs[r].leader.value);
    if deed.Kill? {
      assert GroupKilled(s.procs, r)[0] == s.procs[0];
    }
  }

  lemma GlobalKeepsStage(s: State, r: nat, deed: Global)
    requires r < |s.reqs| && WellStaged(s.reqs[r]) && GlobalEnabled(s, r, deed) && !deed.Spawn? && !deed.Enter?
    ensures var q, q' := s.reqs[r], RequestAfter(s, r, deed);
            WellStaged(q') && q'.leader == q.leader && q'.entered == q.entered && (Early(q'.stage) ==> Early(q.stage))
  {
  }

  lemma GlobalKeepsKin(s: State, r: nat, deed: Global)
    requires Kin(s) && Enabled(s, Globally(r, deed)) && !deed.Spawn? && !deed.Enter?
    ensures Kin(Apply(s, Globally(r, deed)))
  {
    var t := Apply(s, Globally(r, deed));
    assert OnlyLives(s, t) && t.procs[0].life.Alive? by {
      hide Membership, Childless, Consistent, WellStaged, Outside, RequestAfter;
      OutsideKeepsIdentity(s, r, deed);
      GlobalKeepsStage(s, r, deed);
    }
    OnlyLivesKeepsKin(s, t);
  }

  lemma CreateKeepsKin(s: State)
    requires Kin(s)
    ensures Kin(Apply(s, Create))
  {
    hide Descends;
    var t := Apply(s, Create);
    forall r: nat, l: nat
      ensures Leads(t, r, l) <==> Leads(s, r, l)
    {
    }
  }

  lemma InitialKin()
    ensures Kin(Initial())
  {
  }

  lemma {:induction false} RunKeepsKin(s: State, steps: seq<Step>)
    requires Kin(s) && Possible(s, steps)
    ensures Kin(After(s, steps))
    decreases |steps|
  {
    hide Kin;
    if steps != [] {
      StepKeepsKin(s, steps[0]);
      RunKeepsKin(Apply(s, steps[0]), steps[1..]);
    }
  }
}
