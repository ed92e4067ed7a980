/** An ordinary request completes: unless its client hangs up or its I/O fails it is never
    cancelled, and once its leader has ended somebody can always bring it nearer to the end. */
module Completion {
  import opened Options
  import opened Processes
  import opened Wire
  import opened Request
  import opened Kinship
  import opened Cancellation
  import opened Acknowledgement

  /** Neither does the client of request `r` hang up nor its I/O thread fail. */
  predicate Undisturbed(step: Step, r: nat) {
    step != Locally(r, Close) && step != Locally(r, IoFail)
  }

  predicate Undamaged(s: State, r: nat) {
    r < |s.reqs| ==> !s.reqs[r].closed && (s.reqs[r].ioAlive || s.reqs[r].exitFrame.Some?)
  }

  lemma LocalUndamaged(q: Request, act: Local)
    requires LocalEnabled(q, act) && !act.Close? && !act.IoFail?
    requires !q.closed && (q.ioAlive || q.exitFrame.Some?)
    ensures !Moved(q, act).closed && (Moved(q, act).ioAlive || Moved(q, act).exitFrame.Some?)
  {
    hide Command, NumberOf;
    match act
    case Send(_) =>
    case ReadExit =>
    case Report =>
    case SendExit =>
    case ReadAck =>
    case _ =>
  }

  lemma StepUndamaged(s: State, step: Step, r: nat)
    requires Enabled(s, step) && Undisturbed(step, r) && Undamaged(s, r)
    ensures Undamaged(Apply(s, step), r)
  {
    hide StageAfter, Outside, LocalEnabled, GlobalEnabled, Moved;
    match step
    case Locally(q, act) =>
      if q == r {
        LocalUndamaged(s.reqs[r], act);
      }
    case _ =>
  }

  lemma {:induction false} RunUndamaged(s: State, steps: seq<Step>, r: nat)
    requires Possible(s, steps) && Undamaged(s, r) && forall step :: step in steps ==> Undisturbed(step, r)
    ensures Undamaged(After(s, steps), r)
    decreases |steps|
  {
    hide Undamaged, Undisturbed, Apply, Enabled;
    if steps != [] {
      assert steps[0] in steps && forall step :: step in steps[1..] ==> step in steps;
      StepUndamaged(s, steps[0], r);
      RunUndamaged(Apply(s, steps[0]), steps[1..], r);
    }
  }

  /** Until it has been awaited the leader has not been reaped. */
  predicate ToAwait(stage: Stage) {
    stage.Entering? || stage.Executing? || (stage.Running? && stage.done.Awaiting?)
  }

  ghost predicate Unreaped(s: State) {
    forall r: nat, l: nat :: Leads(s, r, l) && ToAwait(s.reqs[r].stage) ==>
      l < |s.procs| && !s.procs[l].life.Reaped?
  }

  lemma LocalToAwait(q: Request, act: Local)
    requires LocalEnabled(q, act) && ToAwait(Moved(q, act).stage)
    ensures ToAwait(q.stage) && Moved(q, act).leader == q.leader
  {
    hide Command, NumberOf;
    match act
    case Send(_) =>
    case Close =>
    case ReadExit =>
    case Report =>
    case SendExit =>
    case IoFail =>
    case ReadAck =>
    case _ =>
  }

  lemma GlobalToAwait(s: State, r: nat, deed: Global)
    requires r < |s.reqs| && GlobalEnabled(s, r, deed) && ToAwait(StageAfter(s, r, deed))
    ensures deed.Spawn? || (deed.Enter? && ToAwait(s.reqs[r].stage))
  {
    hide Quiet, Holder, CodeOf, LeaderLife;
  }

  /** Who is reaped by a deed is the request's own leader. */
  lemma OnlyOwnLeader(s: State, r: nat, deed: Global, l: nat)
    requires Kin(s) && Enabled(s, Globally(r, deed)) && l < |s.procs| && !s.procs[l].life.Reaped?
    requires s.reqs[r].leader != Some(l) || deed.Enter? || deed.Spawn?
    ensures var u := Outside(s, r, deed).procs; l < |u| && !u[l].life.Reaped?
  {
    hide Membership, Childless, Consistent;
    assert s.reqs[r].leader.Some? ==> Leads(s, r, s.reqs[r].leader.value);
  }

  lemma GlobalUnreaped(s: State, r: nat, deed: Global)
    requires Kin(s) && Unreaped(s) && Enabled(s, Globally(r, deed))
    ensures Unreaped(Apply(s, Globally(r, deed)))
  {
    hide Membership, Childless, Consistent, StageAfter, Outside, GlobalEnabled, ToAwait;
    var t := Apply(s, Globally(r, deed));
    forall q: nat, l: nat | Leads(t, q, l) && ToAwait(t.reqs[q].stage)
      ensures l < |t.procs| && !t.procs[l].life.Reaped?
    {
      if q == r {
        GlobalToAwait(s, r, deed);
        if deed.Spawn? {
          SpawnedIsAlive(s, r, deed);
        } else {
          assert Leads(s, r, l);
          OnlyOwnLeader(s, r, deed, l);
        }
      } else {
        assert Leads(s, q, l);
        assert s.reqs[r].leader == Some(l) ==> Leads(s, r, l);
        OnlyOwnLeader(s, r, deed, l);
      }
    }
  }

  lemma SpawnedIsAlive(s: State, r: nat, deed: Global)
    requires Enabled(s, Globally(r, deed)) && deed.Spawn?
    ensures var u := Outside(s, r, deed).procs; |u| == |s.procs| + 1 && u[|s.procs|].life.Alive?
  {
  }

  lemma StepUnreaped(s: State, step: Step)
    requires Kin(s) && Unreaped(s) && Enabled(s, step)
    ensures Unreaped(Apply(s, step))
  {
    match step
    case Globally(r, deed) =>
      GlobalUnreaped(s, r, deed);
    case _ => OtherUnreaped(s, step);
  }

  lemma OtherUnreaped(s: State, step: Step)
    requires Kin(s) && Unreaped(s) && Enabled(s, step) && !step.Globally?
    ensures Unreaped(Apply(s, step))
  {
    hide Kin, LocalEnabled, Moved, ToAwait;
    var t := Apply(s, step);
    forall q: nat, l: nat | Leads(t, q, l) && ToAwait(t.reqs[q].stage)
      ensures l < |t.procs| && !t.procs[l].life.Reaped?
    {
      if step.Locally? && step.r == q {
        LocalToAwait(s.reqs[q], step.act);
      }
      assert q < |s.reqs| ==> Leads(s, q, l);
    }
  }

  lemma {:induction false} RunUnreaped(s: State, steps: seq<Step>)
    requires Kin(s) && Unreaped(s) && Possible(s, steps)
    ensures Unreaped(After(s, steps))
    decreases |steps|
  {
    hide Kin, Unreaped, Apply, Enabled;
    if steps != [] {
      StepKeepsKin(s, steps[0]);
      StepUnreaped(s, steps[0]);
      RunUnreaped(Apply(s, steps[0]), steps[1..]);
    }
  }

  /** A run in which clients keep their side and nobody disturbs request `r`. */
  ghost predicate Ordinary(steps: seq<Step>, r: nat) {
    && Possible(Initial(), steps) && PoliteRun(Initial(), steps)
    && (forall step :: step in steps ==> Undisturbed(step, r))
    && r < |After(Initial(), steps).reqs|
  }

  lemma OrdinaryState(steps: seq<Step>, r: nat)
    requires Ordinary(steps, r)
    ensures var s := After(Initial(), steps); Kin(s) && Safe(s) && Orderly(s) && Undamaged(s, r) && Unreaped(s)
  {
    hide Kin, Safe, Orderly, Possible, PoliteRun, After;
    InitialIsOrderly();
    RunUnreaped(Initial(), steps);
    RunIsOrderly(Initial(), steps);
    RunUndamaged(Initial(), steps, r);
  }

  /** Nothing but the client's hanging up or a failure of the I/O cancels a request, and
      nothing is ever signalled or killed for one that is not cancelled. */
  lemma CancelledForACause(steps: seq<Step>, r: nat)
    requires Ordinary(steps, r)
    ensures var s := After(Initial(), steps);
            !s.reqs[r].cancelled && !Terminating(s.reqs[r].stage) && (forall i :: (r, i) !in s.termed + s.killed)
  {
    hide Kin, Possible, PoliteRun, After, Quiet, PinHolds;
    OrdinaryState(steps, r);
    var q := After(Initial(), steps).reqs[r];
    assert Accounted(q) && Honest(q);
  }

  // ---- and nothing completes whose output has not been reported

  predicate ReportedIfDone(q: Request) {
    q.stage == Running(Drained) || (Settled(q.stage) && !q.cancelled) ==> q.reported
  }

  lemma LocalReported(q: Request, act: Local)
    requires LocalEnabled(q, act) && ReportedIfDone(q)
    ensures ReportedIfDone(Moved(q, act))
  {
    hide Command, NumberOf;
  }

  lemma GlobalReported(s: State, r: nat, deed: Global)
    requires r < |s.reqs| && GlobalEnabled(s, r, deed) && ReportedIfDone(s.reqs[r]) && Honest(s.reqs[r])
    ensures ReportedIfDone(RequestAfter(s, r, deed))
  {
    hide Quiet, Holder, CodeOf, LeaderLife;
  }

  ghost predicate AllReported(s: State) {
    forall r :: 0 <= r < |s.reqs| ==> ReportedIfDone(s.reqs[r])
  }

  lemma StepReported(s: State, step: Step)
    requires Safe(s) && AllReported(s) && Enabled(s, step)
    ensures AllReported(Apply(s, step))
  {
    hide PinHolds, Logged, Quiet, LocalEnabled, GlobalEnabled, Moved, RequestAfter, Outside, ReportedIfDone, Honest;
    NewIsReported();
    match step
    case Locally(r, act) => LocalReported(s.reqs[r], act);
    case Globally(r, deed) => GlobalReported(s, r, deed);
    case _ =>
  }

  lemma NewIsReported()
    ensures ReportedIfDone(NewRequest())
  {
  }

  lemma {:induction false} RunReported(s: State, steps: seq<Step>)
    requires Kin(s) && Safe(s) && AllReported(s) && Possible(s, steps)
    ensures AllReported(After(s, steps))
    decreases |steps|
  {
    hide Kin, Safe, AllReported, Apply, Enabled;
    if steps != [] {
      StepKeepsKin(s, steps[0]);
      StepIsSafe(s, steps[0]);
      StepReported(s, steps[0]);
      RunReported(Apply(s, steps[0]), steps[1..]);
    }
  }

  /** In every run, polite or not: a request that completes, or that waits for nothing but the
      byte any more, has had its output reported finished; and a failure of its I/O before the
      report cancels it as soon as the worker gets there. */
  lemma CompletedIsReported(steps: seq<Step>, r: nat)
    requires Possible(Initial(), steps) && r < |After(Initial(), steps).reqs|
    ensures var q := After(Initial(), steps).reqs[r];
            && (q.stage == Running(Drained) || (Settled(q.stage) && !q.cancelled) ==> q.reported)
            && (q.stage.Running? && q.stage.done.CodeTaken? && !q.ioAlive ==>
                  LocalEnabled(q, WriteCode) && Moved(q, WriteCode) == q.(stage := Listing, cancelled := true))
            && (q.stage == Running(CodeWritten) && !q.ioAlive && !q.reported ==>
                  LocalEnabled(q, AwaitIo) && Moved(q, AwaitIo) == q.(stage := Listing, cancelled := true))
  {
    hide Possible, After, Safe;
    InitialIsOrderly();
    RunReported(Initial(), steps);
  }

  // ---- once the leader has ended

  /** What stands between a running request and the join. */
  function ToGo(q: Request): nat {
    (match q.stage
     case Running(Awaiting) => 4
     case Running(CodeTaken(_)) => 3
     case Running(CodeWritten) => 2
     case Running(Drained) => 1
     case _ => 0)
    + (if q.reported then 0 else 1) + (if q.exitFrame.Some? then 0 else 1) + (if q.seen.Some? then 0 else 1)
    + (if q.acked then 0 else 1) + (if q.taken.Some? then 0 else 1)
  }

  /** Whose turn it is: the worker's task, the I/O thread or the client. */
  function Turn(q: Request, r: nat): Step
    requires q.stage.Running?
  {
    match q.stage.done
    case Awaiting => Globally(r, TakeCode)
    case CodeTaken(_) => Locally(r, WriteCode)
    case CodeWritten => Locally(r, if q.reported then AwaitIo else Report)
    case Drained =>
      Locally(r, if !q.reported then Report else if q.exitFrame.None? then SendExit else if q.seen.None? then ReadExit
                 else if !q.acked then Send(1) else if q.taken.None? then ReadAck else Join)
  }

  lemma TurnIsLocal(t: Table, q: Request, r: nat)
    requires q.stage.Running? && !q.stage.done.Awaiting?
    requires Chained(t, q) && Accounted(q) && Honest(q) && !q.closed && (q.ioAlive || q.exitFrame.Some?)
    ensures var turn := Turn(q, r); turn == Locally(r, turn.act) && LocalEnabled(q, turn.act) && !turn.act.Exec?
    ensures var next := Moved(q, Turn(q, r).act);
            ToGo(next) < ToGo(q) && (next.stage.Running? || next.stage.Emptying?)
    ensures var act := Turn(q, r).act; act.Send? ==> q.seen.Some? && !q.acked && act.byte == ACK
  {
    hide CodeIs, Command, NumberOf;
  }

  lemma AwaitingTurn(s: State, r: nat)
    requires Kin(s) && Unreaped(s) && r < |s.reqs| && s.reqs[r].stage == Running(Awaiting)
    requires !LeaderLife(s, s.reqs[r]).Alive?
    ensures Enabled(s, Globally(r, TakeCode))
    ensures var q := Apply(s, Globally(r, TakeCode)).reqs[r]; ToGo(q) < ToGo(s.reqs[r]) && q.stage.Running?
  {
    hide Consistent, Childless, Membership, CodeOf;
    assert WellStaged(s.reqs[r]);
    assert Leads(s, r, s.reqs[r].leader.value);
  }

  /** In every ordinary run: once the leader of a running request has ended, a polite step of
      the worker, the I/O thread or the client is enabled and brings it nearer to the join,
      within nine such steps; the code that the client reads on the way is the leader's. */
  lemma OrdinaryCompletes(steps: seq<Step>, r: nat)
    requires Ordinary(steps, r)
    requires var s := After(Initial(), steps);
             s.reqs[r].stage.Running? && !LeaderLife(s, s.reqs[r]).Alive?
    ensures var s := After(Initial(), steps); var turn := Turn(s.reqs[r], r);
            && Enabled(s, turn) && Polite(s, turn) && Undisturbed(turn, r)
            && var q := Apply(s, turn).reqs[r];
               ToGo(q) < ToGo(s.reqs[r]) <= 9 && (q.stage.Running? || q.stage.Emptying?)
  {
    hide Kin, Possible, PoliteRun, After, Quiet, PinHolds, Logged, CodeIs, Outside, StageAfter, LeaderLife;
    OrdinaryState(steps, r);
    var s := After(Initial(), steps);
    var q := s.reqs[r];
    assert Chained(s.procs, q) && Accounted(q) && Honest(q);
    if q.stage.done.Awaiting? {
      AwaitingTurn(s, r);
    } else {
      TurnIsLocal(s.procs, q, r);
    }
  }

  lemma LocalToGo(q: Request, act: Local)
    requires LocalEnabled(q, act) && q.stage.Running? && !Moved(q, act).cancelled
    ensures ToGo(Moved(q, act)) <= ToGo(q) && (Moved(q, act).stage.Running? || Moved(q, act).stage.Emptying?)
  {
    hide Command, NumberOf;
    if act.Send? || act.Close? || act.ReadExit? || act.Report? || act.SendExit? || act.IoFail? {
      assert Moved(q, act).stage == q.stage;
    }
  }

  /** Nobody sets it back: in an ordinary run a running request goes on running, no further
      from the join, or has joined; and a leader that has ended stays so. */
  lemma NothingSetsBack(steps: seq<Step>, step: Step, r: nat)
    requires Ordinary(steps, r) && Enabled(After(Initial(), steps), step)
    requires Polite(After(Initial(), steps), step) && Undisturbed(step, r)
    requires After(Initial(), steps).reqs[r].stage.Running?
    ensures var s := After(Initial(), steps); var t := Apply(s, step);
            && r < |t.reqs| && (t.reqs[r].stage.Running? || t.reqs[r].stage.Emptying?)
            && !t.reqs[r].cancelled && ToGo(t.reqs[r]) <= ToGo(s.reqs[r])
            && (!LeaderLife(s, s.reqs[r]).Alive? ==> !LeaderLife(t, t.reqs[r]).Alive?)
  {
    hide Kin, Safe, Orderly, Possible, PoliteRun, After, Polite, Undisturbed, Apply, Enabled, LeaderLife, ToGo;
    OrdinaryState(steps, r);
    var s := After(Initial(), steps);
    StepUndamaged(s, step, r);
    StepIsPersistent(s, step);
    StepIsOrderly(s, step);
    StepIsSafe(s, step);
    NotCancelled(Apply(s, step), r);
    RunningToGo(s, step, r);
    if !LeaderLife(s, s.reqs[r]).Alive? {
      LeaderStaysDown(s, step, r);
    }
  }

  lemma NotCancelled(s: State, r: nat)
    requires Orderly(s) && Undamaged(s, r) && r < |s.reqs|
    ensures !s.reqs[r].cancelled
  {
    assert Accounted(s.reqs[r]);
  }

  lemma RunningToGo(s: State, step: Step, r: nat)
    requires r < |s.reqs| && s.reqs[r].stage.Running? && Enabled(s, step)
    requires r < |Apply(s, step).reqs| && !Apply(s, step).reqs[r].cancelled
    ensures var q := Apply(s, step).reqs[r];
            (q.stage.Running? || q.stage.Emptying?) && ToGo(q) <= ToGo(s.reqs[r]) && q.leader == s.reqs[r].leader
  {
    hide Outside, Moved, LocalEnabled, CodeOf, LeaderLife;
    match step
    case Locally(q, act) =>
      if q == r {
        LocalToGo(s.reqs[r], act);
        SameLeader(s.reqs[r], act);
      }
    case _ =>
  }

  lemma SameLeader(q: Request, act: Local)
    requires LocalEnabled(q, act)
    ensures Moved(q, act).leader == q.leader
  {
    hide Command, NumberOf;
    match act
    case Send(_) =>
    case Close =>
    case ReadExit =>
    case Report =>
    case SendExit =>
    case IoFail =>
    case ReadAck =>
    case _ =>
  }

  lemma LeaderStaysDown(s: State, step: Step, r: nat)
    requires Kin(s) && r < |s.reqs| && s.reqs[r].stage.Running? && Enabled(s, step)
    requires r < |Apply(s, step).reqs| && Apply(s, step).reqs[r].leader == s.reqs[r].leader
    requires !LeaderLife(s, s.reqs[r]).Alive?
    ensures !LeaderLife(Apply(s, step), Apply(s, step).reqs[r]).Alive?
  {
    hide Consistent, Childless, Membership, StageAfter, Moved, LocalEnabled;
    assert WellStaged(s.reqs[r]);
    assert Leads(s, r, s.reqs[r].leader.value);
  }
}
