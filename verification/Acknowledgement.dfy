/** What the byte 1 on the control connection means, when the client writes it once and only
    after reading the exit frame. */
module Acknowledgement {
  import opened Options
  import opened Processes
  import opened Wire
  import opened Request
  import opened Kinship
  import opened Cancellation

  /** The client's side of the agreement; it may close the connection whenever it likes. */
  predicate Polite(s: State, step: Step) {
    step.Locally? && step.act.Send? && step.r < |s.reqs| ==>
      s.reqs[step.r].seen.Some? && !s.reqs[step.r].acked && step.act.byte == ACK
  }

  predicate PoliteRun(s: State, steps: seq<Step>)
    requires Possible(s, steps)
    decreases |steps|
  {
    if steps == [] then true else Polite(s, steps[0]) && PoliteRun(Apply(s, steps[0]), steps[1..])
  }

  /** The leader has been awaited and this is its code. */
  predicate CodeIs(t: Table, leader: Option<nat>, code: Byte) {
    leader.Some? && leader.value < |t| && t[leader.value].life.Reaped? && code == CodeOf(t[leader.value].ending)
  }

  predicate BeforeCode(stage: Stage) {
    stage.Created? || Early(stage) || stage.SpawnFailed? || stage.Dropped?
    || (stage.Running? && stage.done.Awaiting?)
  }

  /** Leader, stop pipe, report, exit frame and the client's copy, each after the one before. */
  predicate Chained(t: Table, q: Request) {
    && (BeforeCode(q.stage) ==> q.put.None?)
    && (q.stage.Running? && q.stage.done.CodeTaken? ==> q.put.None? && CodeIs(t, q.leader, q.stage.done.code))
    && (q.stage.Running? && (q.stage.done.CodeWritten? || q.stage.done.Drained?) ==> q.put.Some?)
    && (q.put.Some? ==> CodeIs(t, q.leader, q.put.value))
    && (q.reported ==> q.put.Some?)
    && (q.exitFrame.Some? ==> q.reported && q.exitFrame.value == Command(CMD_EXIT, q.put.value))
    && (q.seen.Some? ==> q.exitFrame.Some? && q.seen.value == NumberOf(q.exitFrame.value))
  }

  /** The control connection carries the acknowledgement and nothing else. */
  predicate Accounted(q: Request) {
    && (q.acked ==> q.seen.Some? && !q.cancelled && (q.stage.Running? || Settled(q.stage)))
    && (q.acked && q.taken.None? ==> q.inbox == [ACK])
    && (q.acked && q.taken.Some? ==> q.inbox == [] && q.taken == Some(ACK))
    && (!q.acked ==> q.inbox == [] && q.taken.None?)
    && (q.cancelled ==> q.closed || (!q.ioAlive && q.exitFrame.None?))
  }

  ghost predicate Orderly(s: State) {
    forall r :: 0 <= r < |s.reqs| ==> Chained(s.procs, s.reqs[r]) && Accounted(s.reqs[r])
  }

  // ---- every step

  lemma CodeStays(s: State, step: Step, leader: Option<nat>, code: Byte)
    requires Kin(s) && Enabled(s, step) && CodeIs(s.procs, leader, code)
    ensures CodeIs(Apply(s, step).procs, leader, code)
  {
    hide Membership, Childless, Consistent, Descends;
    match step
    case Globally(r, deed) => ReapedStays(s, r, deed, leader.value);
    case _ =>
  }

  lemma ReapedStays(s: State, r: nat, deed: Global, l: nat)
    requires Tree(s) && r < |s.reqs| && GlobalEnabled(s, r, deed) && l < |s.procs| && s.procs[l].life.Reaped?
    ensures var u := Outside(s, r, deed).procs; l < |u| && u[l].life.Reaped? && u[l].ending == s.procs[l].ending
  {
    hide Consistent;
    assert s.reqs[r].leader.Some? ==> Leads(s, r, s.reqs[r].leader.value);
  }

  lemma ChainedStays(s: State, step: Step, q: Request)
    requires Kin(s) && Enabled(s, step) && Chained(s.procs, q)
    ensures Chained(Apply(s, step).procs, q)
  {
    hide Kin, Apply, Enabled, CodeIs;
    if q.put.Some? {
      CodeStays(s, step, q.leader, q.put.value);
    }
    if q.stage.Running? && q.stage.done.CodeTaken? {
      CodeStays(s, step, q.leader, q.stage.done.code);
    }
  }

  lemma CodeWrittenKeepsChain(t: Table, q: Request)
    requires Chained(t, q) && LocalEnabled(q, WriteCode)
    ensures Chained(t, Moved(q, WriteCode))
  {
    hide CodeIs;
  }

  /** What Chained looks at, with a stage that promises no more than before. */
  ghost predicate NoNewPromise(q: Request, q': Request) {
    && q'.leader == q.leader && q'.put == q.put && q'.reported == q.reported
    && q'.exitFrame == q.exitFrame && q'.seen == q.seen
    && (q'.stage == q.stage
        || (!q'.stage.Running? && (BeforeCode(q'.stage) ==> BeforeCode(q.stage)))
        || (q'.stage.Running? && q'.stage.done.Awaiting? && BeforeCode(q.stage))
        || (q'.stage.Running? && q'.stage.done.Drained? && q.stage.Running? && q.stage.done.CodeWritten?))
  }

  lemma NoNewPromiseKeepsChain(t: Table, q: Request, q': Request)
    requires Chained(t, q) && NoNewPromise(q, q')
    ensures Chained(t, q')
  {
    hide CodeIs;
  }

  lemma WorkerKeepsChain(t: Table, q: Request, act: Local)
    requires Chained(t, q) && LocalEnabled(q, act)
             && (act.Exec? || act.AwaitIo? || act.ReadAck? || act.Join? || act.PassOver?)
    ensures Chained(t, Moved(q, act))
  {
    hide Chained;
    if act.Exec? {
      NoNewPromiseKeepsChain(t, q, Moved(q, Exec));
    } else if act.AwaitIo? {
      NoNewPromiseKeepsChain(t, q, Moved(q, AwaitIo));
    } else if act.ReadAck? {
      NoNewPromiseKeepsChain(t, q, Moved(q, ReadAck));
    } else if act.Join? {
      NoNewPromiseKeepsChain(t, q, Moved(q, Join));
    } else {
      NoNewPromiseKeepsChain(t, q, Moved(q, act));
    }
  }

  lemma OthersKeepChain(t: Table, q: Request, act: Local)
    requires Chained(t, q) && LocalEnabled(q, act)
    requires act.Send? || act.Close? || act.ReadExit? || act.Report? || act.SendExit? || act.IoFail?
    ensures Chained(t, Moved(q, act))
  {
    hide CodeIs;
    assert Moved(q, act).stage == q.stage && Moved(q, act).put == q.put;
  }

  lemma LocalKeepsChain(t: Table, q: Request, act: Local)
    requires Chained(t, q) && LocalEnabled(q, act)
    ensures Chained(t, Moved(q, act))
  {
    hide Chained, LocalEnabled, Moved;
    if act.Send? || act.Close? || act.ReadExit? || act.Report? || act.SendExit? || act.IoFail? {
      OthersKeepChain(t, q, act);
    } else if act.WriteCode? {
      CodeWrittenKeepsChain(t, q);
    } else {
      WorkerKeepsChain(t, q, act);
    }
  }

  lemma LocalKeepsAccount(q: Request, act: Local)
    requires Accounted(q) && Honest(q) && LocalEnabled(q, act)
    requires act.Send? ==> q.seen.Some? && !q.acked && act.byte == ACK
    requires q.seen.Some? ==> q.exitFrame.Some?
    requires q.exitFrame.Some? ==> q.reported && q.put.Some?
    requires q.put.Some? ==> !BeforeCode(q.stage) && !(q.stage.Running? && q.stage.done.CodeTaken?)
    ensures Accounted(Moved(q, act))
  {
    hide Command, NumberOf;
  }

  lemma GlobalKeepsAccount(s: State, r: nat, deed: Global)
    requires r < |s.reqs| && Accounted(s.reqs[r]) && Honest(s.reqs[r]) && GlobalEnabled(s, r, deed)
    requires s.reqs[r].seen.Some? ==> !BeforeCode(s.reqs[r].stage)
    requires Honest(RequestAfter(s, r, deed))
    ensures Accounted(RequestAfter(s, r, deed))
  {
    hide Quiet, Holder, CodeOf, LeaderLife;
  }

  lemma DeedStages(s: State, r: nat, deed: Global)
    requires r < |s.reqs| && GlobalEnabled(s, r, deed) && !deed.Spawn? && !deed.TakeCode?
    ensures var stage := StageAfter(s, r, deed);
            !stage.Running? && (BeforeCode(stage) ==> BeforeCode(s.reqs[r].stage))
  {
    hide Quiet, Holder, CodeOf, LeaderLife;
  }

  lemma StageChangeKeepsChain(t: Table, q: Request, stage: Stage, entered: bool)
    requires Chained(t, q) && !stage.Running? && (BeforeCode(stage) ==> BeforeCode(q.stage))
    ensures Chained(t, q.(stage := stage, entered := entered))
  {
    hide CodeIs;
  }

  lemma SpawnKeepsChain(t: Table, q: Request, leader: nat)
    requires Chained(t, q) && q.stage.Created?
    ensures Chained(t, q.(stage := Entering, leader := Some(leader)))
  {
  }

  lemma TakeCodeKeepsChain(t: Table, q: Request, code: Byte)
    requires Chained(t, q) && q.stage == Running(Awaiting) && CodeIs(t, q.leader, code)
    ensures Chained(t, q.(stage := Running(CodeTaken(code))))
  {
  }

  /** Taking the code reaps the leader, and no other deed reaches back into the chain. */
  lemma GlobalKeepsChain(s: State, r: nat, deed: Global)
    requires Kin(s) && Enabled(s, Globally(r, deed)) && Chained(s.procs, s.reqs[r])
    ensures var t := Apply(s, Globally(r, deed)); Chained(t.procs, t.reqs[r])
  {
    hide Kin, CodeIs, Chained, StageAfter, Outside;
    var step := Globally(r, deed);
    var t, q := Apply(s, step).procs, s.reqs[r];
    ChainedStays(s, step, q);
    if deed.Spawn? {
      assert RequestAfter(s, r, deed) == q.(stage := Entering, leader := Some(|s.procs|)) by { SpawnStage(s, r, deed); }
      SpawnKeepsChain(t, q, |s.procs|);
    } else if deed.TakeCode? {
      CodeTakenIsCode(s, r);
      TakeCodeKeepsChain(t, q, CodeOf(s.procs[q.leader.value].ending));
    } else {
      DeedStages(s, r, deed);
      StageChangeKeepsChain(t, q, StageAfter(s, r, deed), q.entered || deed.Enter?);
    }
  }

  lemma SpawnStage(s: State, r: nat, deed: Global)
    requires r < |s.reqs| && GlobalEnabled(s, r, deed) && deed.Spawn?
    ensures StageAfter(s, r, deed) == Entering && s.reqs[r].stage.Created?
  {
  }

  lemma CodeTakenIsCode(s: State, r: nat)
    requires Kin(s) && Enabled(s, Globally(r, TakeCode))
    ensures var t, q, l := Apply(s, Globally(r, TakeCode)), s.reqs[r], s.reqs[r].leader.value;
            && CodeIs(t.procs, q.leader, CodeOf(s.procs[l].ending))
            && t.reqs[r] == q.(stage := Running(CodeTaken(CodeOf(s.procs[l].ending))))
  {
    assert Leads(s, r, s.reqs[r].leader.value);
  }

  /** The requests of `t` are those of `s`, save possibly for one. */
  lemma OneChangedIsOrderly(s: State, step: Step, r: nat)
    requires Kin(s) && Orderly(s) && Enabled(s, step) && OneChanged(s, Apply(s, step), r)
    requires var t := Apply(s, step); Chained(t.procs, t.reqs[r]) && Accounted(t.reqs[r])
    ensures Orderly(Apply(s, step))
  {
    hide Kin, Enabled, Apply, Chained, Accounted;
    var t := Apply(s, step);
    forall q | 0 <= q < |t.reqs|
      ensures Chained(t.procs, t.reqs[q]) && Accounted(t.reqs[q])
    {
      if q != r {
        ChainedStays(s, step, s.reqs[q]);
      }
    }
  }

  lemma StepIsOrderly(s: State, step: Step)
    requires Kin(s) && Safe(s) && Orderly(s) && Enabled(s, step) && Polite(s, step)
    ensures Orderly(Apply(s, step))
  {
    hide Kin, PinHolds, Logged, Quiet, Accounted, CodeIs;
    match step
    case Locally(r, act) =>
      LocalKeepsChain(s.procs, s.reqs[r], act);
      LocalKeepsAccount(s.reqs[r], act);
      OneChangedIsOrderly(s, step, r);
    case Globally(r, deed) =>
      GlobalKeepsChain(s, r, deed);
      StepIsSafe(s, step);
      assert Honest(Apply(s, step).reqs[r]);
      GlobalKeepsAccount(s, r, deed);
      OneChangedIsOrderly(s, step, r);
    case _ => OtherIsOrderly(s, step);
  }

  lemma OtherIsOrderly(s: State, step: Step)
    requires Kin(s) && Orderly(s) && Enabled(s, step) && !step.Locally? && !step.Globally?
    ensures Orderly(Apply(s, step))
  {
    hide Kin, Enabled, Chained, Accounted;
    var t := Apply(s, step);
    forall q | 0 <= q < |t.reqs|
      ensures Chained(t.procs, t.reqs[q]) && Accounted(t.reqs[q])
    {
      if q < |s.reqs| {
        ChainedStays(s, step, s.reqs[q]);
      } else {
        NewIsOrderly(t.procs);
      }
    }
  }

  lemma NewIsOrderly(t: Table)
    ensures Chained(t, NewRequest()) && Accounted(NewRequest())
  {
  }

  lemma {:induction false} RunIsOrderly(s: State, steps: seq<Step>)
    requires Kin(s) && Safe(s) && Orderly(s) && Possible(s, steps) && PoliteRun(s, steps)
    ensures Kin(After(s, steps)) && Safe(After(s, steps)) && Orderly(After(s, steps))
    decreases |steps|
  {
    hide Kin, Safe, Orderly, Apply, Enabled, Polite;
    if steps != [] {
      StepKeepsKin(s, steps[0]);
      StepIsSafe(s, steps[0]);
      StepIsOrderly(s, steps[0]);
      RunIsOrderly(Apply(s, steps[0]), steps[1..]);
    }
  }

  lemma InitialIsOrderly()
    ensures Kin(Initial()) && Safe(Initial()) && Orderly(Initial())
  {
    InitialKin();
  }

  // ---- the theorems

  /** Whenever the byte has been written, in every run: the leader has ended and been
      awaited, I/O has been reported finished, the code the client read is the leader's own
      (below 256, or 128 plus its signal), and the request is not cancelled and never was:
      its task has signalled and killed nobody, its detached children included. */
  lemma AcknowledgementMeansDone(steps: seq<Step>, r: nat)
    requires Possible(Initial(), steps) && PoliteRun(Initial(), steps)
    requires r < |After(Initial(), steps).reqs| && After(Initial(), steps).reqs[r].acked
    ensures var s := After(Initial(), steps); var q := s.reqs[r];
            && q.leader.Some? && q.leader.value < |s.procs| && s.procs[q.leader.value].life.Reaped?
            && q.reported && q.put.Some? && q.seen == Some(q.put.value)
            && (match s.procs[q.leader.value].ending
                case Exited(code) => code < 256 ==> q.seen.value == code
                case Signalled(signal) => signal < 128 ==> q.seen.value == 128 + signal)
            && !q.cancelled && (forall i :: (r, i) !in s.termed + s.killed)
  {
    hide Kin, Possible, PoliteRun, After, Apply, PinHolds;
    InitialIsOrderly();
    RunIsOrderly(Initial(), steps);
    var q := After(Initial(), steps).reqs[r];
    assert Chained(After(Initial(), steps).procs, q) && Accounted(q);
    HeaderIsExact(CMD_EXIT, q.put.value);
  }

  /** And from there the worker can only finish: until it has passed the join one of its own
      steps is enabled, and neither leads to termination. */
  lemma AcknowledgedCompletes(steps: seq<Step>, r: nat)
    requires Possible(Initial(), steps) && PoliteRun(Initial(), steps)
    requires r < |After(Initial(), steps).reqs| && After(Initial(), steps).reqs[r].acked
    ensures var s := After(Initial(), steps); var q := s.reqs[r];
            || Settled(q.stage)
            || (q.stage == Running(CodeWritten) && LocalEnabled(q, AwaitIo)
               && Moved(q, AwaitIo).stage == Running(Drained))
            || (q.stage == Running(Drained) && q.taken.None? && LocalEnabled(q, ReadAck)
               && Moved(q, ReadAck) == q.(taken := Some(ACK), inbox := []))
            || (q.stage == Running(Drained) && LocalEnabled(q, Join) && Moved(q, Join).stage.Emptying?)
  {
    hide Kin, Safe, Possible, PoliteRun, After, Apply, CodeIs;
    InitialIsOrderly();
    RunIsOrderly(Initial(), steps);
    var q := After(Initial(), steps).reqs[r];
    assert Chained(After(Initial(), steps).procs, q) && Accounted(q);
  }
}
