/** Starting the shared VM: any number of launchers call `ensure` at once, one file lock
    between them. */
module Startup {
  import opened Options

  datatype Vm = Off | Booting | Answering

  /** A call of `ensure`: before the lock, before its first probe, about to issue
      systemd-run, polling with so many rounds left until the deadline, done. */
  datatype Caller = Arriving | Probing | Launching | Polling(left: nat) | Returned | Raised

  /** `launches` counts the times systemd-run was issued, `deaths` how often the VM went
      away, `failures` the starters that raised, `glitches` the first probes that an
      answering VM left unanswered. */
  datatype Count = Count(launches: nat, deaths: nat, failures: nat, glitches: nat)

  datatype State = State(vm: Vm, lock: Option<nat>, callers: seq<Caller>, count: Count)

  datatype Step = Boot | Die | Of(i: nat, act: Act)

  datatype Act =
    | NoKvm | TakeLock | Probe(glitch: bool)
    | Launch(rounds: nat) | LaunchFails
    | Poll(glitch: bool) | SeeInactive | TimeOut

  /** 45 seconds, with a pause of a tenth of a second in every round. */
  const ROUNDS: nat := 450

  function Initial(callers: nat): State {
    State(Off, None, seq(callers, i => Arriving), Count(0, 0, 0, 0))
  }

  /** A probe can be answered only by an answering VM, and even then it may time out. */
  predicate Answers(vm: Vm, glitch: bool) {
    vm.Answering? && !glitch
  }

  predicate ActEnabled(vm: Vm, lock: Option<nat>, i: nat, caller: Caller, act: Act) {
    match act
    case NoKvm => caller.Arriving?
    case TakeLock => caller.Arriving? && lock.None?
    case Probe(glitch) => caller.Probing? && (glitch ==> vm.Answering?)
    case Launch(rounds) => caller.Launching? && vm.Off? && rounds <= ROUNDS
    case LaunchFails => caller.Launching?
    case Poll(glitch) => caller.Polling? && caller.left > 0 && (glitch ==> vm.Answering?)
    case SeeInactive => caller.Polling? && vm.Off?
    case TimeOut => caller == Polling(0)
  }

  predicate Enabled(s: State, step: Step) {
    match step
    case Boot => s.vm.Booting?
    case Die => !s.vm.Off?
    case Of(i, act) => i < |s.callers| && ActEnabled(s.vm, s.lock, i, s.callers[i], act)
  }

  function CallerAfter(vm: Vm, caller: Caller, act: Act): Caller {
    match act
    case NoKvm => Raised
    case TakeLock => Probing
    case Probe(glitch) => if Answers(vm, glitch) then Returned else Launching
    case Launch(rounds) => Polling(rounds)
    case LaunchFails => Raised
    case Poll(glitch) =>
      if Answers(vm, glitch) then Returned
      else if caller.Polling? && caller.left > 0 then Polling(caller.left - 1) else Raised
    case SeeInactive => Raised
    case TimeOut => Raised
  }

  /** The lock is held from TakeLock until the call returns or raises. */
  function LockAfter(lock: Option<nat>, i: nat, act: Act, after: Caller): Option<nat> {
    if act.NoKvm? then lock else if after.Returned? || after.Raised? then None else Some(i)
  }

  function CountAfter(count: Count, act: Act): Count {
    match act
    case Probe(true) => count.(glitches := count.glitches + 1)
    case Launch(_) => count.(launches := count.launches + 1)
    case LaunchFails => count.(launches := count.launches + 1, failures := count.failures + 1)
    case SeeInactive => count.(failures := count.failures + 1)
    case TimeOut => count.(failures := count.failures + 1)
    case _ => count
  }

  function Apply(s: State, step: Step): State
    requires Enabled(s, step)
  {
    match step
    case Boot => s.(vm := Answering)
    case Die => s.(vm := Off, count := s.count.(deaths := s.count.deaths + 1))
    case Of(i, act) =>
      var after := CallerAfter(s.vm, s.callers[i], act);
      State(if act.Launch? then Booting else s.vm, LockAfter(s.lock, i, act, after),
            s.callers[i := after], CountAfter(s.count, act))
  }

  predicate Possible(s: State, steps: seq<Step>)
    decreases |steps|
  {
    if steps == [] then true else Enabled(s, steps[0]) && Possible(Apply(s, steps[0]), steps[1..])
  }

  function After(s: State, steps: seq<Step>): State
    requires Possible(s, steps)
    decreases |steps|
  {
    if steps == [] then s else After(Apply(s, steps[0]), steps[1..])
  }

  // ---- one start

  predicate Inside(caller: Caller) {
    caller.Probing? || caller.Launching? || caller.Polling?
  }

  predicate Locked(s: State) {
    && (s.lock.Some? ==> s.lock.value < |s.callers|)
    && forall i :: 0 <= i < |s.callers| ==> (Inside(s.callers[i]) <==> s.lock == Some(i))
  }

  /** What excuses a start: a VM that went away, a starter that gave up, an answer lost. */
  function Excuses(c: Count): nat {
    c.deaths + c.failures + c.glitches
  }

  /** Starts are excused but for one, which is the VM that answers or the one that the
      holder of the lock is waiting for; a holder that found nothing has none in hand. */
  predicate Excused(s: State) {
    var one := if s.vm.Answering? then 1 else 0;
    if s.lock.Some? && s.lock.value < |s.callers| && s.callers[s.lock.value].Launching? then
      s.count.launches <= Excuses(s.count)
    else if s.lock.Some? && s.lock.value < |s.callers| && s.callers[s.lock.value].Polling? then
      s.count.launches <= Excuses(s.count) + 1
    else s.count.launches <= Excuses(s.count) + one
  }

  lemma StepKeeps(s: State, step: Step)
    requires Locked(s) && Excused(s) && Enabled(s, step)
    ensures Locked(Apply(s, step)) && Excused(Apply(s, step))
  {
    match step
    case Of(i, act) => assert Inside(s.callers[i]) <==> s.lock == Some(i);
    case _ =>
  }

  lemma {:induction false} RunKeeps(s: State, steps: seq<Step>)
    requires Locked(s) && Excused(s) && Possible(s, steps)
    ensures Locked(After(s, steps)) && Excused(After(s, steps))
    decreases |steps|
  {
    hide Locked, Excused, Enabled, Apply;
    if steps != [] {
      StepKeeps(s, steps[0]);
      RunKeeps(Apply(s, steps[0]), steps[1..]);
    }
  }

  /** For any number of callers in any interleaving: systemd-run is issued once at most,
      and once more for every VM that went away, every starter that raised and every
      first probe that was lost; and nobody is inside without the lock. */
  lemma SingleStart(callers: nat, steps: seq<Step>)
    requires Possible(Initial(callers), steps)
    ensures var s := After(Initial(callers), steps);
            s.count.launches <= 1 + s.count.deaths + s.count.failures + s.count.glitches
            && forall i, j ::
               0 <= i < |s.callers| && 0 <= j < |s.callers| && Inside(s.callers[i]) && Inside(s.callers[j]) ==> i == j
  {
    RunKeeps(Initial(callers), steps);
  }

  // ---- what the counts count

  function Tally(steps: seq<Step>): Count {
    if steps == [] then Count(0, 0, 0, 0)
    else
      var c := Tally(steps[..|steps| - 1]);
      match steps[|steps| - 1]
      case Boot => c
      case Die => c.(deaths := c.deaths + 1)
      case Of(_, act) =>
        Count(c.launches + (if act.Launch? || act.LaunchFails? then 1 else 0), c.deaths,
              c.failures + (if act.LaunchFails? || act.SeeInactive? || act.TimeOut? then 1 else 0),
              c.glitches + (if act == Probe(true) then 1 else 0))
  }

  /** The counts are those of the run: systemd-run issued, the VM gone, starters that raised,
      first probes lost. */
  lemma {:induction false} CountsAreExact(callers: nat, steps: seq<Step>)
    requires Possible(Initial(callers), steps)
    ensures After(Initial(callers), steps).count == Tally(steps)
    decreases |steps|
  {
    hide Possible, After, Enabled;
    if steps == [] {
      NothingYet(Initial(callers));
    } else {
      AfterLast(Initial(callers), steps);
      CountsAreExact(callers, steps[..|steps| - 1]);
    }
  }

  // ---- a normal return

  lemma {:induction false} AfterLast(s: State, steps: seq<Step>)
    requires Possible(s, steps) && steps != []
    ensures var k := |steps| - 1;
            Possible(s, steps[..k]) && Enabled(After(s, steps[..k]), steps[k])
            && After(s, steps) == Apply(After(s, steps[..k]), steps[k])
    decreases |steps|
  {
    hide Enabled, Apply;
    var k := |steps| - 1;
    if k > 0 {
      AfterLast(Apply(s, steps[0]), steps[1..]);
      assert steps[1..][..k - 1] == steps[..k][1..];
    }
  }

  /** At step k the caller, holding the lock, got its answer. */
  ghost predicate SawReady(start: State, steps: seq<Step>, i: nat, k: nat) {
    && k < |steps| && Possible(start, steps[..k])
    && After(start, steps[..k]).lock == Some(i) && After(start, steps[..k]).vm.Answering?
    && (steps[k] == Of(i, Probe(false)) || steps[k] == Of(i, Poll(false)))
  }

  /** Every caller that returns normally has seen the VM ready while holding the lock. */
  lemma {:induction false} ReturnedSawReady(callers: nat, steps: seq<Step>, i: nat)
    requires Possible(Initial(callers), steps) && i < |After(Initial(callers), steps).callers|
    requires After(Initial(callers), steps).callers[i].Returned?
    ensures exists k: nat :: SawReady(Initial(callers), steps, i, k)
    decreases |steps|
  {
    hide Possible, After;
    var start := Initial(callers);
    if steps == [] {
      NothingYet(start);
    } else {
      var k := |steps| - 1;
      AfterLast(start, steps);
      var s := After(start, steps[..k]);
      RunKeeps(start, steps[..k]);
      if i < |s.callers| && s.callers[i].Returned? {
        ReturnedSawReady(callers, steps[..k], i);
        var j: nat :| SawReady(start, steps[..k], i, j);
        assert steps[..k][..j] == steps[..j];
        assert SawReady(start, steps, i, j);
      } else {
        assert Inside(s.callers[i]) <==> s.lock == Some(i);
        assert SawReady(start, steps, i, k);
      }
    }
  }

  lemma NothingYet(s: State)
    ensures After(s, []) == s
  {
  }

  /** At step k the caller gave up: no KVM, no unit, the VM seen to be off, or no round left. */
  ghost predicate GaveUp(start: State, steps: seq<Step>, i: nat, k: nat) {
    && k < |steps| && Possible(start, steps[..k]) && Enabled(After(start, steps[..k]), steps[k])
    && (steps[k] == Of(i, NoKvm) || steps[k] == Of(i, LaunchFails)
        || (steps[k] == Of(i, SeeInactive) && After(start, steps[..k]).vm.Off?)
        || (steps[k] == Of(i, TimeOut) && After(start, steps[..k]).callers[i] == Polling(0)))
  }

  lemma OnlyThenRaised(s: State, step: Step, i: nat)
    requires Enabled(s, step) && i < |s.callers| && !s.callers[i].Raised? && Apply(s, step).callers[i].Raised?
    ensures step == Of(i, NoKvm) || step == Of(i, LaunchFails) || (step == Of(i, SeeInactive) && s.vm.Off?)
            || (step == Of(i, TimeOut) && s.callers[i] == Polling(0))
  {
  }

  /** The converse: every caller that raises took one of the four steps that give up; no
      probe and no poll makes it raise. */
  lemma {:induction false} RaisedGaveUp(callers: nat, steps: seq<Step>, i: nat)
    requires Possible(Initial(callers), steps) && i < |After(Initial(callers), steps).callers|
    requires After(Initial(callers), steps).callers[i].Raised?
    ensures exists k: nat :: GaveUp(Initial(callers), steps, i, k)
    decreases |steps|
  {
    hide Possible, After, Enabled, Apply;
    var start := Initial(callers);
    if steps == [] {
      NothingYet(start);
    } else {
      var k := |steps| - 1;
      AfterLast(start, steps);
      var s := After(start, steps[..k]);
      SameCallers(s, steps[k]);
      if s.callers[i].Raised? {
        RaisedGaveUp(callers, steps[..k], i);
        var j: nat :| GaveUp(start, steps[..k], i, j);
        assert steps[..k][..j] == steps[..j];
        assert GaveUp(start, steps, i, j);
      } else {
        OnlyThenRaised(s, steps[k], i);
        assert GaveUp(start, steps, i, k);
      }
    }
  }

  lemma SameCallers(s: State, step: Step)
    requires Enabled(s, step)
    ensures |Apply(s, step).callers| == |s.callers|
  {
  }

  /** Whenever the VM answers a caller's probe or poll, in whatever state that may be, the
      caller returns and the lock is free; and what it has not answered makes a caller with
      rounds left try once more. */
  lemma AnswerReturns(s: State, i: nat, act: Act)
    requires Enabled(s, Of(i, act)) && act in {Probe(false), Poll(false), Poll(true)}
    ensures var t := Apply(s, Of(i, act));
            && t.vm == s.vm
            && (s.vm.Answering? && act != Poll(true) ==> t.callers[i].Returned? && t.lock.None?)
            && (!s.vm.Answering? || act == Poll(true) ==>
                  t.callers[i] == (if act.Probe? then Launching else Polling(s.callers[i].left - 1)))
  {
  }

  /** The VM stays up and answers this caller, which finds KVM. */
  predicate Served(step: Step, i: nat) {
    !step.Die? && step != Of(i, NoKvm) && step != Of(i, Probe(true)) && step != Of(i, Poll(true))
  }

  /** The steps of its own that a caller needs when the VM answers; none once it returned. */
  function Needed(caller: Caller): nat {
    if caller.Returned? then 0 else if caller.Arriving? then 2 else 1
  }

  predicate InTime(caller: Caller) {
    caller.Arriving? || caller.Probing? || caller.Returned? || (caller.Polling? && caller.left > 0)
  }

  lemma StepServes(s: State, step: Step, i: nat)
    requires Enabled(s, step) && Served(step, i) && s.vm.Answering? && i < |s.callers| && InTime(s.callers[i])
    ensures var t := Apply(s, step);
            && t.vm.Answering? && i < |t.callers| && InTime(t.callers[i])
            && Needed(t.callers[i]) + (if step.Of? && step.i == i then 1 else 0) <= Needed(s.callers[i])
  {
    if step.Of? && step.i == i && (step.act.Probe? || step.act.Poll?) {
      AnswerReturns(s, i, step.act);
    }
  }

  function StepsOf(steps: seq<Step>, i: nat): nat {
    if steps == [] then 0 else (if steps[0].Of? && steps[0].i == i then 1 else 0) + StepsOf(steps[1..], i)
  }

  /** From any state in which the VM answers: as long as it stays up and its answers arrive, a
      caller that has a round left, or has yet to probe, cannot raise, whatever the others
      do; after two steps of its own at most it has returned. */
  lemma {:induction false} AnsweringVmServes(s: State, steps: seq<Step>, i: nat)
    requires Possible(s, steps) && s.vm.Answering? && i < |s.callers| && InTime(s.callers[i])
    requires forall step :: step in steps ==> Served(step, i)
    ensures var t := After(s, steps);
            && i < |t.callers| && !t.callers[i].Raised? && !t.callers[i].Launching?
            && StepsOf(steps, i) <= Needed(s.callers[i]) <= 2
            && (StepsOf(steps, i) == Needed(s.callers[i]) ==> t.callers[i].Returned?)
            && InTime(t.callers[i]) && Needed(t.callers[i]) + StepsOf(steps, i) <= Needed(s.callers[i])
    decreases |steps|
  {
    hide Enabled, Apply, Served;
    if steps != [] {
      assert steps[0] in steps && forall step :: step in steps[1..] ==> step in steps;
      StepServes(s, steps[0], i);
      AnsweringVmServes(Apply(s, steps[0]), steps[1..], i);
    }
  }

  /** What the VM does: it answers at some time after it has been started, may go away at any
      time, and can be started again then. */
  lemma VmComesAndGoes(s: State, i: nat, rounds: nat)
    ensures s.vm.Booting? ==> Enabled(s, Boot) && Apply(s, Boot) == s.(vm := Answering)
    ensures !s.vm.Off? ==> Enabled(s, Die) && Apply(s, Die).vm.Off? && Apply(s, Die).callers == s.callers
    ensures i < |s.callers| && s.callers[i].Launching? && s.vm.Off? && rounds <= 450 ==>
              Enabled(s, Of(i, Launch(rounds))) && Apply(s, Of(i, Launch(rounds))).vm.Booting?
    ensures i < |s.callers| && s.callers[i].Launching? ==>
              Enabled(s, Of(i, LaunchFails)) && Apply(s, Of(i, LaunchFails)).callers == s.callers[i := Raised]
    ensures i < |s.callers| && s.callers[i].Polling? && s.vm.Off? ==>
              Enabled(s, Of(i, SeeInactive)) && Apply(s, Of(i, SeeInactive)).callers == s.callers[i := Raised]
              && Apply(s, Of(i, SeeInactive)).lock.None?
    ensures i < |s.callers| && s.callers[i].Arriving? ==>
              Enabled(s, Of(i, NoKvm)) && Apply(s, Of(i, NoKvm)) == s.(callers := s.callers[i := Raised])
  {
  }

  lemma Prepended(s: State, step: Step, rest: seq<Step>)
    requires Enabled(s, step) && Possible(Apply(s, step), rest)
    ensures Possible(s, [step] + rest) && After(s, [step] + rest) == After(Apply(s, step), rest)
  {
    hide Enabled, Apply;
    assert ([step] + rest)[1..] == rest;
  }

  /** A cold start: whenever the lock is free and the VM off, a caller that arrives can take the
      lock, start the VM and return when it answers, the lock free again. */
  lemma ColdStart(s: State, i: nat) returns (steps: seq<Step>)
    requires s.lock.None? && s.vm.Off? && i < |s.callers| && s.callers[i].Arriving?
    ensures Possible(s, steps) && |steps| == 5
    ensures var t := After(s, steps);
            t.vm.Answering? && t.lock.None? && t.callers == s.callers[i := Returned]
            && t.count.failures == s.count.failures && t.count.launches == s.count.launches + 1
  {
    var a, b, c, d, e := Of(i, TakeLock), Of(i, Probe(false)), Of(i, Launch(450)), Boot, Of(i, Poll(false));
    var s1 := Apply(s, a);
    var s2 := Apply(s1, b);
    var s3 := Apply(s2, c);
    var s4 := Apply(s3, d);
    var s5 := Apply(s4, e);
    Prepended(s4, e, []);
    Prepended(s3, d, [e] + []);
    Prepended(s2, c, [d] + ([e] + []));
    Prepended(s1, b, [c] + ([d] + ([e] + [])));
    Prepended(s, a, [b] + ([c] + ([d] + ([e] + []))));
    steps := [a] + ([b] + ([c] + ([d] + ([e] + []))));
    assert s5.callers == s.callers[i := Returned];
  }

  // ---- every call ends

  function Rank(caller: Caller): nat {
    match caller
    case Arriving => ROUNDS + 4
    case Probing => ROUNDS + 3
    case Launching => ROUNDS + 2
    case Polling(left) => left + 1
    case _ => 0
  }

  function Ranks(callers: seq<Caller>): nat {
    if callers == [] then 0 else Rank(callers[0]) + Ranks(callers[1..])
  }

  lemma {:induction false} RankReplaced(callers: seq<Caller>, i: nat, after: Caller)
    requires i < |callers|
    ensures Ranks(callers[i := after]) == Ranks(callers) - Rank(callers[i]) + Rank(after)
    decreases |callers|
  {
    hide Rank;
    if i == 0 {
      assert callers[0 := after][1..] == callers[1..];
    } else {
      assert callers[i := after][1..] == callers[1..][i - 1 := after];
      RankReplaced(callers[1..], i - 1, after);
    }
  }

  function OfCallers(steps: seq<Step>): nat {
    if steps == [] then 0 else (if steps[0].Of? then 1 else 0) + OfCallers(steps[1..])
  }

  lemma StepSinks(s: State, step: Step)
    requires Enabled(s, step)
    ensures Ranks(Apply(s, step).callers) + (if step.Of? then 1 else 0) <= Ranks(s.callers)
  {
    match step
    case Of(i, act) => RankReplaced(s.callers, i, CallerAfter(s.vm, s.callers[i], act));
    case _ =>
  }

  lemma {:induction false} RunSinks(s: State, steps: seq<Step>)
    requires Possible(s, steps)
    ensures Ranks(After(s, steps).callers) + OfCallers(steps) <= Ranks(s.callers)
    decreases |steps|
  {
    hide Enabled, Apply, Ranks;
    if steps != [] {
      StepSinks(s, steps[0]);
      RunSinks(Apply(s, steps[0]), steps[1..]);
    }
  }

  lemma {:induction false} ArrivingRanks(callers: seq<Caller>)
    requires forall i :: 0 <= i < |callers| ==> callers[i].Arriving?
    ensures Ranks(callers) == (ROUNDS + 4) * |callers|
    decreases |callers|
  {
    if callers != [] {
      ArrivingRanks(callers[1..]);
    }
  }

  predicate Finished(caller: Caller) {
    caller.Returned? || caller.Raised?
  }

  /** A caller's step that needs no failure: neither a missing KVM nor a systemd-run that
      fails although its unit is free. */
  predicate Ordinary(s: State, step: Step) {
    step.Of? && Enabled(s, step) && !step.act.NoKvm? && (step.act.LaunchFails? ==> !s.vm.Off?)
  }

  /** The polling loops and the lock keep nobody for ever: all calls together take a bounded
      number of steps, whatever the VM does, and as long as one is unfinished one of them
      can take a step, or the holder of the lock can. */
  lemma EveryCallEnds(callers: nat, steps: seq<Step>)
    requires Possible(Initial(callers), steps)
    ensures OfCallers(steps) <= 454 * callers
    ensures var s := After(Initial(callers), steps);
            (forall i :: 0 <= i < |s.callers| ==> Finished(s.callers[i])) || exists step :: Ordinary(s, step)
  {
    var start := Initial(callers);
    ArrivingRanks(start.callers);
    RunSinks(start, steps);
    RunKeeps(start, steps);
    var s := After(start, steps);
    if i :| 0 <= i < |s.callers| && !Finished(s.callers[i]) {
      SomebodyMoves(s, i);
    }
  }

  lemma SomebodyMoves(s: State, i: nat)
    requires Locked(s) && i < |s.callers| && !Finished(s.callers[i])
    ensures exists step :: Ordinary(s, step)
  {
    var j := if s.lock.Some? then s.lock.value else i;
    assert Inside(s.callers[j]) <==> s.lock.Some?;
    var act := match s.callers[j]
      case Probing => Probe(false)
      case Launching => if s.vm.Off? then Launch(ROUNDS) else LaunchFails
      case Polling(left) => if left == 0 then TimeOut else Poll(false)
      case _ => TakeLock;
    assert Ordinary(s, Of(j, act));
  }
}
