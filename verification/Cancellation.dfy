/** What cancelling a request does and does not do, over every run of the whole system. */
module Cancellation {
  import opened Options
  import opened Processes
  import opened Request
  import opened Kinship

  /** Stages in which no member of the request's cgroup is alive any more. */
  predicate Silent(q: Request) {
    q.stage.Killed? || q.stage.SpawnFailed? || q.stage.Dropped? || q.stage.Retiring? || q.stage.Retired?
    || (q.stage.Emptying? && q.cancelled)
  }

  predicate Settled(stage: Stage) {
    stage.Emptying? || stage.Retiring? || stage.Retired?
  }

  predicate Terminating(stage: Stage) {
    stage.Listing? || stage.Signalling? || stage.Grace? || stage.Killed?
  }

  /** The record of one request: cancellation and normal completion exclude each other, and
      the latter needs the acknowledgement. */
  predicate Honest(q: Request) {
    && !q.stage.RemoveFailed?
    && (q.cancelled ==> Terminating(q.stage) || Settled(q.stage))
    && (Terminating(q.stage) ==> q.cancelled)
    && (Settled(q.stage) && !q.cancelled ==> q.taken == Some(ACK))
    && (q.stage.Running? ==> q.taken.None? || q.taken == Some(ACK))
    && (q.stage.Created? || Early(q.stage) ==> q.taken.None?)
  }

  /** A pinned instance had the PID that is being looked at; a checked one is a member, or
      it is gone and its pidfd leads nowhere. */
  predicate PinHolds(t: Table, r: nat, stage: Stage) {
    match stage
    case Signalling(todo, pin) =>
      (match pin
       case Unpinned => true
       case Pinned(id) => todo != [] && id < |t| && t[id].pid == todo[0]
       case Checked(id) => todo != [] && id < |t| && (t[id].life.Reaped? || t[id].group == Some(r)))
    case _ => true
  }

  ghost predicate Logged(s: State, log: set<(nat, nat)>) {
    forall e :: e in log ==>
      e.0 < |s.reqs| && e.1 < |s.procs| && s.procs[e.1].group == Some(e.0) && s.reqs[e.0].cancelled
  }

  ghost predicate Safe(s: State) {
    && (forall r :: 0 <= r < |s.reqs| ==> Honest(s.reqs[r]))
    && (forall r :: 0 <= r < |s.reqs| ==> PinHolds(s.procs, r, s.reqs[r].stage))
    && (forall r :: 0 <= r < |s.reqs| && Silent(s.reqs[r]) ==> Quiet(s.procs, r))
    && Logged(s, s.termed) && Logged(s, s.killed)
  }

  // ---- a quiet cgroup stays quiet

  lemma QuietStays(s: State, step: Step, g: nat)
    requires Kin(s) && Enabled(s, step) && g < |s.reqs| && Quiet(s.procs, g)
    requires !s.reqs[g].stage.Created? && !s.reqs[g].stage.Entering?
    ensures Quiet(Apply(s, step).procs, g)
  {
    hide Membership, Childless, Consistent;
    var t := Apply(s, step);
    match step
    case Fork(parent, pid) => assert s.procs[parent].group != Some(g);
    case Globally(r, deed) =>
      if !deed.Spawn? && !deed.Enter? {
        OutsideKeepsIdentity(s, r, deed);
      }
    case _ =>
  }

  /** A leader that dies before exec leaves an empty cgroup behind. */
  lemma FailedSpawnIsQuiet(s: State, r: nat)
    requires Kin(s) && Enabled(s, Globally(r, SpawnFail))
    ensures Quiet(Apply(s, Globally(r, SpawnFail)).procs, r)
  {
    hide Descends;
    var l := s.reqs[r].leader.value;
    assert Leads(s, r, l);
  }

  // ---- the parts of Safe, step by step

  lemma AckIsHonest(q: Request)
    requires Honest(q) && LocalEnabled(q, ReadAck)
    ensures Honest(Moved(q, ReadAck)) && (q.cancelled ==> Moved(q, ReadAck).cancelled)
  {
  }

  lemma LocalIsHonest(q: Request, act: Local)
    requires Honest(q) && LocalEnabled(q, act)
    ensures Honest(Moved(q, act)) && (q.cancelled ==> Moved(q, act).cancelled)
  {
    if act.ReadAck? {
      AckIsHonest(q);
    } else {
      assert Moved(q, act).taken == q.taken;
    }
  }

  lemma LocalStaysSilent(q: Request, act: Local)
    requires Honest(q) && LocalEnabled(q, act)
    ensures Silent(Moved(q, act)) ==> Silent(q)
    ensures Moved(q, act).stage.Signalling? ==> Moved(q, act).stage == q.stage
  {
  }

  lemma GlobalIsHonest(s: State, r: nat, deed: Global)
    requires r < |s.reqs| && Honest(s.reqs[r]) && GlobalEnabled(s, r, deed)
    requires Silent(s.reqs[r]) ==> Quiet(s.procs, r)
    ensures Honest(RequestAfter(s, r, deed)) && RequestAfter(s, r, deed).cancelled == s.reqs[r].cancelled
    ensures Silent(RequestAfter(s, r, deed)) ==>
              Silent(s.reqs[r]) || deed.SpawnFail? || deed.Kill? || (deed.SeeEmpty? && Quiet(s.procs, r))
  {
  }

  lemma PinStays(t: Table, u: Table, r: nat, stage: Stage)
    requires PinHolds(t, r, stage) && |t| <= |u|
    requires forall i :: 0 <= i < |t| ==>
               u[i].pid == t[i].pid && (t[i].group.Some? ==> u[i].group == t[i].group)
                 && (t[i].life.Reaped? ==> u[i].life.Reaped?)
    ensures PinHolds(u, r, stage)
  {
  }

  /** The recycled-PID argument: if the check reads membership under a PID whose pinned
      holder has not been reaped, it has read the pinned instance's own membership. */
  lemma CheckIsAboutThePinned(s: State, r: nat)
    requires Consistent(s.procs) && r < |s.reqs| && GlobalEnabled(s, r, Check) && PinHolds(s.procs, r, s.reqs[r].stage)
    ensures PinHolds(s.procs, r, StageAfter(s, r, Check))
  {
    var todo, id := s.reqs[r].stage.todo, s.reqs[r].stage.pin.id;
    var h := Holder(s.procs, todo[0]);
    if h.Some? && !s.procs[id].life.Reaped? {
      assert h.value == id;
    }
  }

  lemma GlobalPins(s: State, r: nat, deed: Global)
    requires Consistent(s.procs) && r < |s.reqs| && GlobalEnabled(s, r, deed) && PinHolds(s.procs, r, s.reqs[r].stage)
    ensures PinHolds(s.procs, r, StageAfter(s, r, deed))
  {
    if deed.Check? {
      CheckIsAboutThePinned(s, r);
    }
  }

  /** What a step leaves of every instance: its number, its cgroup once it has one, and
      the fact of being gone. */
  ghost predicate Persistent(t: Table, u: Table) {
    && |t| <= |u|
    && forall i :: 0 <= i < |t| ==>
         u[i].pid == t[i].pid && (t[i].group.Some? ==> u[i].group == t[i].group)
           && (t[i].life.Reaped? ==> u[i].life.Reaped?)
  }

  lemma StepIsPersistent(s: State, step: Step)
    requires Kin(s) && Enabled(s, step)
    ensures Persistent(s.procs, Apply(s, step).procs) && |s.reqs| <= |Apply(s, step).reqs|
  {
    hide Childless, Consistent;
    match step
    case Globally(r, deed) =>
      if deed.Enter? {
        var l := s.reqs[r].leader.value;
        assert Leads(s, r, l);
        EntrantIsGroupless(s, r, l);
      } else if !deed.Spawn? {
        OutsideKeepsIdentity(s, r, deed);
      }
    case _ =>
  }

  lemma EntrantIsGroupless(s: State, r: nat, l: nat)
    requires Tree(s) && Membership(s) && Leads(s, r, l) && !s.reqs[r].entered
    ensures s.procs[l].group.None?
  {
    if s.procs[l].group.Some? {
      var g := s.procs[l].group.value;
      var m := s.reqs[g].leader.value;
      assert Leads(s, g, m) && Descends(s.procs, l, m);
      LeadersApart(s, r, l);
    }
  }

  // ---- every step

  lemma LogStays(s: State, t: State, log: set<(nat, nat)>)
    requires Logged(s, log) && Persistent(s.procs, t.procs) && |s.reqs| <= |t.reqs|
    requires forall r :: 0 <= r < |s.reqs| && s.reqs[r].cancelled ==> t.reqs[r].cancelled
    ensures Logged(t, log)
  {
  }

  /** The requests of `t` are those of `s`, save possibly for one. */
  ghost predicate OneChanged(s: State, t: State, r: nat) {
    && r < |s.reqs| && |t.reqs| == |s.reqs|
    && forall q :: 0 <= q < |s.reqs| && q != r ==> t.reqs[q] == s.reqs[q]
  }

  lemma OneChangedIsSafe(s: State, step: Step, r: nat)
    requires Kin(s) && Safe(s) && Enabled(s, step) && OneChanged(s, Apply(s, step), r)
    requires var t := Apply(s, step);
             Honest(t.reqs[r]) && PinHolds(t.procs, r, t.reqs[r].stage) && (Silent(t.reqs[r]) ==> Quiet(t.procs, r))
             && (s.reqs[r].cancelled ==> t.reqs[r].cancelled)
             && Logged(t, t.termed - s.termed) && Logged(t, t.killed - s.killed)
    ensures Safe(Apply(s, step))
  {
    hide Kin, Apply, Enabled, Quiet, PinHolds, Honest;
    var t := Apply(s, step);
    StepIsPersistent(s, step);
    LogStays(s, t, s.termed);
    LogStays(s, t, s.killed);
    forall q | 0 <= q < |t.reqs|
      ensures Honest(t.reqs[q]) && PinHolds(t.procs, q, t.reqs[q].stage) && (Silent(t.reqs[q]) ==> Quiet(t.procs, q))
    {
      if q != r {
        PinStays(s.procs, t.procs, q, s.reqs[q].stage);
        if Silent(s.reqs[q]) {
          QuietStays(s, step, q);
        }
      }
    }
  }

  lemma LocalIsSafe(s: State, r: nat, act: Local)
    requires Kin(s) && Safe(s) && Enabled(s, Locally(r, act))
    ensures Safe(Apply(s, Locally(r, act)))
  {
    hide Kin, Honest, LocalEnabled, Moved, Quiet;
    LocalIsHonest(s.reqs[r], act);
    LocalStaysSilent(s.reqs[r], act);
    OneChangedIsSafe(s, Locally(r, act), r);
  }

  lemma GlobalIsSafe(s: State, r: nat, deed: Global)
    requires Kin(s) && Safe(s) && Enabled(s, Globally(r, deed))
    ensures Safe(Apply(s, Globally(r, deed)))
  {
    hide Honest, Quiet, Tree, Membership, Childless;
    var t := Apply(s, Globally(r, deed));
    GlobalIsHonest(s, r, deed);
    ConsistentKin(s);
    GlobalPins(s, r, deed);
    StepIsPersistent(s, Globally(r, deed));
    PinStays(s.procs, t.procs, r, t.reqs[r].stage);
    if Silent(t.reqs[r]) {
      SilenceIsQuiet(s, r, deed);
    }
    NewEntries(s, r, deed);
    OneChangedIsSafe(s, Globally(r, deed), r);
  }

  lemma ConsistentKin(s: State)
    requires Kin(s)
    ensures Consistent(s.procs)
  {
  }

  lemma SilenceIsQuiet(s: State, r: nat, deed: Global)
    requires Kin(s) && Safe(s) && Enabled(s, Globally(r, deed)) && Silent(RequestAfter(s, r, deed))
    ensures Quiet(Apply(s, Globally(r, deed)).procs, r)
  {
    hide Honest, Kin;
    if deed.SpawnFail? {
      FailedSpawnIsQuiet(s, r);
    } else if !deed.Kill? {
      GlobalIsHonest(s, r, deed);
      QuietStays(s, Globally(r, deed), r);
    }
  }

  /** What SendTerm and Kill write down: members only, and only for a cancelled request. */
  lemma NewEntries(s: State, r: nat, deed: Global)
    requires Safe(s) && Enabled(s, Globally(r, deed))
    ensures var t := Apply(s, Globally(r, deed));
            Logged(t, t.termed - s.termed) && Logged(t, t.killed - s.killed)
  {
    hide Quiet;
    var t := Apply(s, Globally(r, deed));
    if deed.SendTerm? {
      assert PinHolds(s.procs, r, s.reqs[r].stage) && Honest(s.reqs[r]);
    } else if deed.Kill? {
      assert Honest(s.reqs[r]);
    }
  }

  lemma OtherIsSafe(s: State, step: Step)
    requires Kin(s) && Safe(s) && Enabled(s, step) && !step.Locally? && !step.Globally?
    ensures Safe(Apply(s, step))
  {
    hide Kin, Quiet, PinHolds, Holder;
    var t := Apply(s, step);
    StepIsPersistent(s, step);
    LogStays(s, t, s.termed);
    LogStays(s, t, s.killed);
    forall q | 0 <= q < |t.reqs|
      ensures Honest(t.reqs[q]) && PinHolds(t.procs, q, t.reqs[q].stage) && (Silent(t.reqs[q]) ==> Quiet(t.procs, q))
    {
      if q < |s.reqs| {
        assert t.reqs[q] == s.reqs[q];
        PinStays(s.procs, t.procs, q, s.reqs[q].stage);
        if Silent(s.reqs[q]) {
          QuietStays(s, step, q);
        }
      } else {
        assert t.reqs[q] == NewRequest();
        NoPin(t.procs, q);
      }
    }
  }

  lemma NoPin(t: Table, r: nat)
    ensures PinHolds(t, r, Created)
  {
  }

  lemma StepIsSafe(s: State, step: Step)
    requires Kin(s) && Safe(s) && Enabled(s, step)
    ensures Safe(Apply(s, step))
  {
    hide Kin, Safe, Apply, Enabled;
    match step
    case Locally(r, act) => LocalIsSafe(s, r, act);
    case Globally(r, deed) => GlobalIsSafe(s, r, deed);
    case _ => OtherIsSafe(s, step);
  }

  lemma {:induction false} RunIsSafe(s: State, steps: seq<Step>)
    requires Kin(s) && Safe(s) && Possible(s, steps)
    ensures Kin(After(s, steps)) && Safe(After(s, steps))
    decreases |steps|
  {
    hide Kin, Safe, Apply, Enabled;
    if steps != [] {
      StepKeepsKin(s, steps[0]);
      StepIsSafe(s, steps[0]);
      RunIsSafe(Apply(s, steps[0]), steps[1..]);
    }
  }

  lemma Reachable(steps: seq<Step>)
    requires Possible(Initial(), steps)
    ensures Kin(After(Initial(), steps)) && Safe(After(Initial(), steps))
  {
    InitialKin();
    RunIsSafe(Initial(), steps);
  }

  // ---- the theorems

  lemma QuietMeansNoDescendant(s: State, r: nat)
    requires Membership(s) && r < |s.reqs| && s.reqs[r].leader.Some? && s.reqs[r].entered && Quiet(s.procs, r)
    ensures forall i :: 0 <= i < |s.procs| && Descends(s.procs, i, s.reqs[r].leader.value) ==> !s.procs[i].life.Alive?
  {
    assert Leads(s, r, s.reqs[r].leader.value);
  }

  /** In every run, for every request: once cgroup.kill has been written no descendant of
      the leader is alive, whenever it was forked, whatever its session and parent have
      become; and a request whose task got past the join without the byte 1 is cancelled,
      so that this is its only way out. */
  lemma CancellationKillsEverything(steps: seq<Step>, r: nat)
    requires Possible(Initial(), steps) && r < |After(Initial(), steps).reqs|
    ensures var s := After(Initial(), steps); var q := s.reqs[r];
            && (q.stage.Killed? || (Settled(q.stage) && q.cancelled) ==>
                  q.leader.Some? && forall i :: 0 <= i < |s.procs| && Descends(s.procs, i, q.leader.value) ==>
                    !s.procs[i].life.Alive?)
            && (Settled(q.stage) && q.taken != Some(ACK) ==> q.cancelled)
  {
    var s := After(Initial(), steps);
    Reachable(steps);
    var q := s.reqs[r];
    assert WellStaged(q) && Honest(q);
    if q.stage.Killed? || (Settled(q.stage) && q.cancelled) {
      QuietMeansNoDescendant(s, r);
    }
  }

  /** And nothing else: whatever a request's task signalled or killed was a descendant of
      that request's leader, of no other leader, and the request was being cancelled. A PID
      that was recycled between reading, pinning and checking changes nothing. */
  lemma CancellationSparesOthers(steps: seq<Step>, r: nat, i: nat)
    requires Possible(Initial(), steps)
    requires var s := After(Initial(), steps); (r, i) in s.termed + s.killed
    ensures var s := After(Initial(), steps);
            && r < |s.reqs| && s.reqs[r].cancelled && i < |s.procs|
            && s.reqs[r].leader.Some? && Descends(s.procs, i, s.reqs[r].leader.value)
            && forall q: nat, l: nat :: Leads(s, q, l) && s.reqs[q].entered && Descends(s.procs, i, l) ==> q == r
  {
    hide Apply, Enabled, Possible, After, Descends, Childless, Tree, PinHolds, Honest;
    Reachable(steps);
    MembersAreOfOneRequest(After(Initial(), steps), r, i);
  }

  lemma MembersAreOfOneRequest(s: State, r: nat, i: nat)
    requires Membership(s) && i < |s.procs| && s.procs[i].group == Some(r)
    ensures r < |s.reqs| && s.reqs[r].leader.Some? && Descends(s.procs, i, s.reqs[r].leader.value)
    ensures forall q: nat, l: nat :: Leads(s, q, l) && s.reqs[q].entered && Descends(s.procs, i, l) ==> q == r
  {
    hide Descends;
  }

  /** rmdir never meets a live member, and after it there is no descendant left. */
  lemma RemovedOnlyWhenEmpty(steps: seq<Step>, r: nat)
    requires Possible(Initial(), steps) && r < |After(Initial(), steps).reqs|
    ensures var s := After(Initial(), steps); var q := s.reqs[r];
            && !q.stage.RemoveFailed?
            && (q.stage.Retired? ==>
                  q.leader.Some? && forall i :: 0 <= i < |s.procs| && Descends(s.procs, i, q.leader.value) ==>
                    !s.procs[i].life.Alive?)
  {
    var s := After(Initial(), steps);
    Reachable(steps);
    assert WellStaged(s.reqs[r]) && Honest(s.reqs[r]);
    if s.reqs[r].stage.Retired? {
      QuietMeansNoDescendant(s, r);
    }
  }

  // ---- cancellation is prompt and ends

  predicate BeforeJoin(stage: Stage) {
    stage.Created? || Early(stage) || stage.SpawnFailed? || stage.Dropped? || stage.Running?
  }

  /** The connection ended, or delivered another byte, before the acknowledgement. */
  predicate AckFails(q: Request) {
    BeforeJoin(q.stage) && q.taken.None? && (if q.inbox == [] then q.closed else q.inbox[0] != ACK)
  }

  /** Whatever the leader, its output and the I/O thread are doing, the worker's next look
      at the control connection cancels the request. */
  lemma DisconnectCancels(s: State, r: nat)
    requires r < |s.reqs| && AckFails(s.reqs[r]) && s.reqs[r].stage.Running?
    ensures Enabled(s, Locally(r, ReadAck))
    ensures Apply(s, Locally(r, ReadAck)).reqs[r].stage.Listing? && Apply(s, Locally(r, ReadAck)).reqs[r].cancelled
  {
  }

  lemma LocalKeepsFailing(q: Request, act: Local)
    requires AckFails(q) && LocalEnabled(q, act)
    ensures AckFails(Moved(q, act)) || Moved(q, act).cancelled
  {
  }

  lemma GlobalKeepsFailing(s: State, r: nat, deed: Global)
    requires r < |s.reqs| && AckFails(s.reqs[r]) && GlobalEnabled(s, r, deed)
    requires !StageAfter(s, r, deed).RemoveFailed?
    ensures AckFails(RequestAfter(s, r, deed))
  {
    hide Quiet, Holder, LeaderLife;
  }

  predicate FailsOrCancelled(s: State, r: nat) {
    r < |s.reqs| && (AckFails(s.reqs[r]) || s.reqs[r].cancelled)
  }

  lemma StepKeepsFailing(s: State, step: Step, r: nat)
    requires Kin(s) && Safe(s) && FailsOrCancelled(s, r) && Enabled(s, step)
    ensures FailsOrCancelled(Apply(s, step), r)
  {
    hide Kin, Safe, AckFails, LocalEnabled, GlobalEnabled, Moved, StageAfter, Outside;
    match step
    case Locally(q, act) =>
      LocalIsHonestStep(s, q, act);
      if q == r && AckFails(s.reqs[r]) {
        LocalKeepsFailing(s.reqs[r], act);
      }
    case Globally(q, deed) =>
      StepIsSafe(s, step);
      if q == r && AckFails(s.reqs[r]) {
        StaysRemovable(Apply(s, step), r);
        GlobalKeepsFailing(s, r, deed);
      }
    case _ =>
  }

  lemma StaysRemovable(s: State, r: nat)
    requires Safe(s) && r < |s.reqs|
    ensures !s.reqs[r].stage.RemoveFailed?
  {
    assert Honest(s.reqs[r]);
  }

  lemma LocalIsHonestStep(s: State, r: nat, act: Local)
    requires Safe(s) && r < |s.reqs| && LocalEnabled(s.reqs[r], act)
    ensures s.reqs[r].cancelled ==> Moved(s.reqs[r], act).cancelled
  {
    hide PinHolds, Quiet, Logged;
    LocalIsHonest(s.reqs[r], act);
  }

  lemma {:induction false} RunKeepsFailing(s: State, steps: seq<Step>, r: nat)
    requires Kin(s) && Safe(s) && FailsOrCancelled(s, r) && Possible(s, steps)
    ensures FailsOrCancelled(After(s, steps), r) && Safe(After(s, steps))
    decreases |steps|
  {
    hide Kin, Safe, FailsOrCancelled, Apply, Enabled;
    if steps != [] {
      StepKeepsKin(s, steps[0]);
      StepIsSafe(s, steps[0]);
      StepKeepsFailing(s, steps[0], r);
      RunKeepsFailing(Apply(s, steps[0]), steps[1..], r);
    }
  }

  /** Once the connection has ended, or carries another byte first, before the command is even
      executed or while it runs, no continuation of the run completes the request: it stays as
      it is or is cancelled, whatever leader, output, I/O thread and client do. As soon as the
      command runs the worker can cancel it by its next look. */
  lemma DisconnectedNeverCompletes(steps: seq<Step>, more: seq<Step>, r: nat)
    requires Possible(Initial(), steps) && r < |After(Initial(), steps).reqs|
    requires AckFails(After(Initial(), steps).reqs[r]) && Possible(After(Initial(), steps), more)
    ensures var t := After(After(Initial(), steps), more);
            && r < |t.reqs| && (AckFails(t.reqs[r]) || t.reqs[r].cancelled)
            && (Settled(t.reqs[r].stage) ==> t.reqs[r].cancelled)
            && (t.reqs[r].stage.Running? ==>
                  Enabled(t, Locally(r, ReadAck)) && Apply(t, Locally(r, ReadAck)).reqs[r].cancelled)
  {
    hide Kin, Possible, After, PinHolds, Quiet, Logged;
    Reachable(steps);
    RunKeepsFailing(After(Initial(), steps), more, r);
    var t := After(After(Initial(), steps), more);
    assert Honest(t.reqs[r]);
    if t.reqs[r].stage.Running? {
      DisconnectCancels(t, r);
    }
  }

  function Phase(stage: Stage): nat {
    match stage
    case Listing => 6
    case Signalling(_, _) => 5
    case Grace => 4
    case Killed => 3
    case Emptying => 2
    case Retiring => 1
    case _ => 0
  }

  function Remaining(stage: Stage): nat {
    match stage
    case Signalling(todo, pin) => 3 * |todo| + (match pin case Unpinned => 2 case Pinned(_) => 1 case Checked(_) => 0)
    case _ => 0
  }

  predicate Closer(after: Stage, before: Stage) {
    Phase(after) < Phase(before) || (Phase(after) == Phase(before) && Remaining(after) < Remaining(before))
  }

  /** The worker's own next step. */
  function NextOwn(q: Request, r: nat): Step {
    match q.stage
    case Listing => Globally(r, List([]))
    case Signalling(todo, pin) =>
      if todo == [] then Locally(r, PassOver)
      else (match pin
            case Unpinned => Globally(r, Open)
            case Pinned(_) => Globally(r, Check)
            case Checked(_) => Globally(r, SendTerm))
    case Grace => Globally(r, Kill)
    case Killed => Globally(r, TakeCodeAgain)
    case Emptying => Globally(r, SeeEmpty)
    case _ => Globally(r, RemoveDir)
  }

  /** A cancelled request can always take its next step and comes closer to its end by it;
      no step of anybody else puts it back. So it is retired after finitely many of its own
      steps, however the rest of the system interleaves. */
  lemma CancellationEnds(steps: seq<Step>, r: nat)
    requires Possible(Initial(), steps) && r < |After(Initial(), steps).reqs|
    requires After(Initial(), steps).reqs[r].cancelled && !After(Initial(), steps).reqs[r].stage.Retired?
    ensures var s := After(Initial(), steps); var own := NextOwn(s.reqs[r], r);
            Enabled(s, own) && Closer(Apply(s, own).reqs[r].stage, s.reqs[r].stage)
    ensures var s := After(Initial(), steps);
            forall step :: Enabled(s, step) ==>
              var stage := Apply(s, step).reqs[r].stage;
              stage == s.reqs[r].stage || Closer(stage, s.reqs[r].stage)
  {
    hide Kin, Safe, Closer, NextOwn, After, Possible;
    var s := After(Initial(), steps);
    Reachable(steps);
    var q := s.reqs[r];
    OwnStepHelps(s, r);
    forall step | Enabled(s, step)
      ensures var stage := Apply(s, step).reqs[r].stage; stage == q.stage || Closer(stage, q.stage)
    {
      NoStepHinders(s, r, step);
    }
  }

  lemma LocalComesCloser(q: Request, act: Local)
    requires Terminating(q.stage) || Settled(q.stage)
    requires LocalEnabled(q, act)
    ensures Moved(q, act).stage == q.stage || Closer(Moved(q, act).stage, q.stage)
  {
    if act.PassOver? {
      assert Phase(Moved(q, act).stage) < Phase(q.stage);
    } else {
      assert Moved(q, act).stage == q.stage;
    }
  }

  lemma GlobalComesCloser(s: State, r: nat, deed: Global)
    requires r < |s.reqs| && (Terminating(s.reqs[r].stage) || Settled(s.reqs[r].stage))
    requires GlobalEnabled(s, r, deed) && !StageAfter(s, r, deed).RemoveFailed?
    ensures Closer(StageAfter(s, r, deed), s.reqs[r].stage)
  {
    hide Holder, Quiet, CodeOf, LeaderLife;
  }

  /** The worker waits for nothing but the end of a leader that cgroup.kill has reached. */
  lemma OwnStepIsEnabled(s: State, r: nat)
    requires Kin(s) && Safe(s) && r < |s.reqs| && s.reqs[r].cancelled && !s.reqs[r].stage.Retired?
    ensures Enabled(s, NextOwn(s.reqs[r], r))
  {
    hide Childless, Consistent, Descends, PinHolds, Logged;
    var q := s.reqs[r];
    assert WellStaged(q) && Honest(q);
    if q.stage.Killed? {
      var l := q.leader.value;
      assert Leads(s, r, l);
      SelfDescends(s.procs, l);
    }
  }

  lemma DeedComesCloser(s: State, r: nat, deed: Global)
    requires Kin(s) && Safe(s) && Enabled(s, Globally(r, deed)) && s.reqs[r].cancelled
    ensures Closer(Apply(s, Globally(r, deed)).reqs[r].stage, s.reqs[r].stage)
  {
    hide Kin, GlobalEnabled, StageAfter, Outside, PinHolds, Logged, Closer;
    StepIsSafe(s, Globally(r, deed));
    assert Honest(s.reqs[r]) && Honest(Apply(s, Globally(r, deed)).reqs[r]);
    GlobalComesCloser(s, r, deed);
  }

  lemma OwnStepHelps(s: State, r: nat)
    requires Kin(s) && Safe(s) && r < |s.reqs| && s.reqs[r].cancelled && !s.reqs[r].stage.Retired?
    ensures var own := NextOwn(s.reqs[r], r); Enabled(s, own) && Closer(Apply(s, own).reqs[r].stage, s.reqs[r].stage)
  {
    hide Kin, Safe, GlobalEnabled, StageAfter, Outside;
    OwnStepIsEnabled(s, r);
    match NextOwn(s.reqs[r], r)
    case Locally(_, act) =>
    case Globally(_, deed) => DeedComesCloser(s, r, deed);
  }

  lemma NoStepHinders(s: State, r: nat, step: Step)
    requires Kin(s) && Safe(s) && r < |s.reqs| && s.reqs[r].cancelled && Enabled(s, step)
    ensures var stage := Apply(s, step).reqs[r].stage; stage == s.reqs[r].stage || Closer(stage, s.reqs[r].stage)
  {
    hide Kin, GlobalEnabled, LocalEnabled, StageAfter, Outside, Moved, PinHolds, Logged, Closer;
    assert Honest(s.reqs[r]);
    match step
    case Locally(q, act) =>
      if q == r {
        LocalComesCloser(s.reqs[r], act);
      }
    case Globally(q, deed) =>
      if q == r {
        DeedComesCloser(s, r, deed);
      }
    case _ =>
  }
}
