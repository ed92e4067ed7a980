/** run_process of runtime/x86_on_arm/execution.py: signals that reach the launcher are
    passed to the child. The handler may fire between any two steps of the main program
    and of itself. */
module RunProcess {
  datatype Signal = Int | Term | Hup | Quit

  /** The signals are handled in this order. */
  function Index(s: Signal): nat {
    match s case Int => 0 case Term => 1 case Hup => 2 case Quit => 3
  }

  const SIGNALS: nat := 4

  function Nth(n: nat): (s: Signal)
    requires n < SIGNALS
    ensures Index(s) == n
  {
    if n == 0 then Int else if n == 1 then Term else if n == 2 then Hup else Quit
  }

  datatype Handler = Forward | Previous(id: int) | Unset

  /** A handler for each of the four signals. */
  datatype Table = Table(onInt: Handler, onTerm: Handler, onHup: Handler, onQuit: Handler) {
    function Get(s: Signal): Handler {
      match s case Int => onInt case Term => onTerm case Hup => onHup case Quit => onQuit
    }

    function Set(s: Signal, h: Handler): Table {
      match s
      case Int => this.(onInt := h)
      case Term => this.(onTerm := h)
      case Hup => this.(onHup := h)
      case Quit => this.(onQuit := h)
    }
  }

  const NOTHING := Table(Unset, Unset, Unset, Unset)

  const ALL_FORWARD := Table(Forward, Forward, Forward, Forward)

  /** Where the main program stands; `n` counts the finished rounds of the loop it is in. */
  datatype Main = Installing(n: nat) | Starting | Flushing(n: nat) | Waiting | Restoring(n: nat) | Left

  /** One activation of the handler: before the test of `process`, or past it. */
  datatype Stage = Testing | Appending | Sending

  /** The activation for invocation number `id`. */
  datatype Frame = Frame(id: nat, stage: Stage)

  /** `invoked` are the signals of the handler's invocations in order. Elsewhere an invocation
      goes by its number, so that equal signals stay apart: `sent` are the send_signal calls
      made on the child, in order, `flushed` counts the entries of `pending` sent on. */
  datatype State = State(
    main: Main, frames: seq<Frame>, started: bool, pending: seq<nat>, flushed: nat,
    table: Table, saved: Table, sent: seq<nat>, invoked: seq<Signal>)

  datatype Step = Fire(signal: Signal) | Handle | Advance | Raise

  function Initial(table: Table): State {
    State(Installing(0), [], false, [], 0, table, NOTHING, [], [])
  }

  function Top(s: State): Frame
    requires s.frames != []
  {
    s.frames[|s.frames| - 1]
  }

  /** The main program only moves while no handler is active: a handler runs on top of it. */
  predicate Enabled(s: State, step: Step) {
    match step
    case Fire(signal) => s.table.Get(signal) == Forward
    case Handle => s.frames != []
    case Advance => s.frames == [] && !s.main.Left?
    case Raise => s.frames == [] && (s.main.Starting? || s.main.Flushing? || s.main.Waiting?)
  }

  function Handled(s: State): State
    requires s.frames != []
  {
    var f := Top(s);
    var below := s.frames[..|s.frames| - 1];
    match f.stage
    case Testing => s.(frames := below + [Frame(f.id, if s.started then Sending else Appending)])
    case Appending => s.(frames := below, pending := s.pending + [f.id])
    case Sending => s.(frames := below, sent := s.sent + [f.id])
  }

  function Advanced(s: State): State
  {
    match s.main
    case Installing(n) =>
      if n < SIGNALS then
        var signal := Nth(n);
        s.(main := Installing(n + 1), saved := s.saved.Set(signal, s.table.Get(signal)),
          table := s.table.Set(signal, Forward))
      else s.(main := Starting)
    case Starting => s.(main := Flushing(0), started := true)
    case Flushing(n) =>
      if n < |s.pending| then s.(main := Flushing(n + 1), flushed := n + 1, sent := s.sent + [s.pending[n]])
      else s.(main := Waiting)
    case Waiting => s.(main := Restoring(0))
    case Restoring(n) =>
      if n < SIGNALS then
        var signal := Nth(n);
        s.(main := Restoring(n + 1), table := s.table.Set(signal, s.saved.Get(signal)))
      else s.(main := Left)
    case Left => s
  }

  function Apply(s: State, step: Step): State
    requires Enabled(s, step)
  {
    match step
    case Fire(signal) => s.(frames := s.frames + [Frame(|s.invoked|, Testing)], invoked := s.invoked + [signal])
    case Handle => Handled(s)
    case Advance => Advanced(s)
    case Raise => s.(main := Restoring(0))
  }

  /** The steps can be taken one after the other from `s`. */
  predicate Possible(s: State, steps: seq<Step>)
    decreases |steps|
  {
    if steps == [] then true
    else Enabled(s, steps[0]) && Possible(Apply(s, steps[0]), steps[1..])
  }

  function After(s: State, steps: seq<Step>): State
    requires Possible(s, steps)
    decreases |steps|
  {
    if steps == [] then s else After(Apply(s, steps[0]), steps[1..])
  }

  // ---- it comes to its end

  /** Rounds that are left of `n`. */
  function RoundsLeft(n: nat, all: nat): nat {
    if n < all then all - n else 0
  }

  function MainWork(main: Main, pending: nat): nat {
    match main
    case Installing(n) => 9 + pending + RoundsLeft(n, 4)
    case Starting => 8 + pending
    case Flushing(n) => 7 + RoundsLeft(n, pending)
    case Waiting => 6
    case Restoring(n) => 1 + RoundsLeft(n, 4)
    case Left => 0
  }

  /** A handler has three steps to go at most. */
  function FrameWork(frames: seq<Frame>): nat {
    if frames == [] then 0
    else FrameWork(frames[..|frames| - 1]) + match frames[|frames| - 1].stage
      case Testing => 3
      case Appending => 2
      case Sending => 1
  }

  function Work(s: State): nat {
    MainWork(s.main, |s.pending|) + FrameWork(s.frames)
  }

  lemma FramePushed(frames: seq<Frame>, f: Frame)
    ensures FrameWork(frames + [f]) == FrameWork(frames) + match f.stage
      case Testing => 3
      case Appending => 2
      case Sending => 1
  {
    assert (frames + [f])[..|frames|] == frames;
  }

  lemma StepWorks(s: State, step: Step)
    requires Enabled(s, step)
    ensures Work(Apply(s, step)) + (if step.Fire? then 0 else 1) <= Work(s) + (if step.Fire? then 3 else 0)
  {
    hide FrameWork, MainWork, Handled, Advanced;
    match step
    case Fire(signal) => FramePushed(s.frames, Frame(|s.invoked|, Testing));
    case Handle => HandlerWorks(s);
    case Advance => MainWorks(s);
    case Raise => RaisingWorks(s.main, |s.pending|);
  }

  lemma HandlerWorks(s: State)
    requires s.frames != []
    ensures Work(Handled(s)) < Work(s)
  {
    hide FrameWork;
    var below := s.frames[..|s.frames| - 1];
    assert s.frames == below + [Top(s)];
    FramePushed(below, Top(s));
    FramePushed(below, Frame(Top(s).id, if s.started then Sending else Appending));
  }

  lemma MainWorks(s: State)
    requires s.frames == [] && !s.main.Left?
    ensures Work(Advanced(s)) < Work(s)
  {
  }

  lemma RaisingWorks(main: Main, pending: nat)
    requires main.Starting? || main.Flushing? || main.Waiting?
    ensures MainWork(Restoring(0), pending) < MainWork(main, pending)
  {
  }

  function Fires(steps: seq<Step>): nat {
    if steps == [] then 0 else (if steps[0].Fire? then 1 else 0) + Fires(steps[1..])
  }

  lemma {:induction false} RunWorks(s: State, steps: seq<Step>)
    requires Possible(s, steps)
    ensures Work(After(s, steps)) + (|steps| - Fires(steps)) <= Work(s) + 3 * Fires(steps)
    decreases |steps|
  {
    hide Enabled, Apply, Work;
    if steps != [] {
      StepWorks(s, steps[0]);
      RunWorks(Apply(s, steps[0]), steps[1..]);
    }
  }

  /** It ends, if the child does: main program and handlers take at most thirteen steps and
      three for every signal, and until the main program has left and no handler is active
      one of them has a step. */
  lemma RunProcessEnds(entry: Table, steps: seq<Step>)
    requires Possible(Initial(entry), steps)
    ensures |steps| - Fires(steps) <= 13 + 3 * Fires(steps)
    ensures var s := After(Initial(entry), steps);
            (s.main == Main.Left && s.frames == []) || Enabled(s, Handle) || Enabled(s, Advance)
  {
    RunWorks(Initial(entry), steps);
  }

  // ---- what every step keeps

  /** The active invocations; the innermost handler finishes first. */
  function Unwound(frames: seq<Frame>): seq<nat> {
    if frames == [] then [] else [frames[|frames| - 1].id] + Unwound(frames[..|frames| - 1])
  }

  function Queue(s: State): seq<nat> {
    if s.flushed <= |s.pending| then s.pending[s.flushed..] else []
  }

  /** All invocations in the order in which they are sent if no more arrive: before the child
      is started handlers append to the queue, afterwards they overtake it. */
  function Line(s: State): seq<nat> {
    if s.started then s.sent + (Unwound(s.frames) + Queue(s)) else s.sent + Queue(s) + Unwound(s.frames)
  }

  /** Every number below `n` exactly once. */
  predicate Complete(line: seq<nat>, n: nat) {
    && |line| == n
    && (forall i, j :: 0 <= i < j < |line| ==> line[i] != line[j])
    && (forall id :: id in line ==> id < n)
    && (forall id: nat :: id < n ==> id in line)
  }

  predicate Accounted(s: State) {
    s.flushed <= |s.pending| && Complete(Line(s), |s.invoked|)
  }

  predicate Staged(s: State) {
    && (s.started ==> forall f :: f in s.frames ==> !f.stage.Appending?)
    && (!s.started ==> s.sent == [] && s.flushed == 0 && forall f :: f in s.frames ==> !f.stage.Sending?)
    && (s.main.Installing? || s.main.Starting? ==> !s.started)
    && (s.main.Flushing? ==> s.started && s.main.n == s.flushed <= |s.pending|)
    && (s.main.Waiting? ==> s.started && s.flushed == |s.pending|)
  }

  /** Signals before the `n`-th have handler `now`, the others `later`. */
  predicate Split(table: Table, now: Table, later: Table, n: nat) {
    forall s: Signal :: table.Get(s) == if Index(s) < n then now.Get(s) else later.Get(s)
  }

  predicate Tables(s: State, entry: Table) {
    match s.main
    case Installing(n) => n <= SIGNALS && Split(s.saved, entry, NOTHING, n) && Split(s.table, ALL_FORWARD, entry, n)
    case Restoring(n) => n <= SIGNALS && s.saved == entry && Split(s.table, entry, ALL_FORWARD, n)
    case Left => s.table == entry
    case _ => s.saved == entry && s.table == ALL_FORWARD
  }

  predicate Invariant(s: State, entry: Table) {
    Accounted(s) && Staged(s) && Tables(s, entry)
  }

  lemma UnwoundPush(frames: seq<Frame>, f: Frame)
    ensures Unwound(frames + [f]) == [f.id] + Unwound(frames)
  {
    assert (frames + [f])[..|frames|] == frames;
  }

  lemma HandledKeepsLine(s: State)
    requires Staged(s) && s.flushed <= |s.pending| && s.frames != []
    ensures Line(Handled(s)) == Line(s)
  {
    hide Unwound;
    var f := Top(s);
    var below := s.frames[..|s.frames| - 1];
    assert s.frames == below + [f] && f in s.frames;
    UnwoundPush(below, f);
    var t := Handled(s);
    match f.stage
    case Testing => UnwoundPush(below, Top(t));
    case Appending =>
      assert t.pending[s.flushed..] == s.pending[s.flushed..] + [f.id];
      assert s.sent + (Queue(s) + [f.id]) + Unwound(below) == s.sent + Queue(s) + ([f.id] + Unwound(below));
    case Sending =>
      assert s.sent + [f.id] + (Unwound(below) + Queue(s)) == s.sent + ([f.id] + Unwound(below) + Queue(s));
  }

  lemma HandledStages(s: State)
    requires Staged(s) && s.flushed <= |s.pending| && s.frames != []
    ensures Staged(Handled(s))
  {
    var t := Handled(s);
    assert Top(s) in s.frames;
    assert forall x :: x in t.frames ==> x in s.frames || (Top(s).stage.Testing? && x == Top(t));
  }

  lemma HandledKeeps(s: State, entry: Table)
    requires Invariant(s, entry) && s.frames != []
    ensures Invariant(Handled(s), entry)
  {
    hide Line, Complete;
    HandledKeepsLine(s);
    HandledStages(s);
    TablesOnlyReadTables(s, Handled(s), entry);
  }

  lemma TablesOnlyReadTables(s: State, t: State, entry: Table)
    requires Tables(s, entry) && t.main == s.main && t.table == s.table && t.saved == s.saved
    ensures Tables(t, entry)
  {
  }

  lemma AdvancedStages(s: State)
    requires Staged(s) && s.flushed <= |s.pending| && s.frames == [] && !s.main.Left?
    ensures var t := Advanced(s);
            Staged(t) && t.flushed <= |t.pending| && t.frames == [] && t.invoked == s.invoked
  {
  }

  lemma AdvancedKeepsLine(s: State)
    requires Staged(s) && s.flushed <= |s.pending| && s.frames == [] && !s.main.Left?
    ensures Line(Advanced(s)) == Line(s)
  {
    hide Line;
    LineAtRest(s);
    AdvancedStages(s);
    LineAtRest(Advanced(s));
    if s.main.Flushing? && s.main.n < |s.pending| {
      NextInQueue(s.sent, s.pending, s.flushed);
    } else {
      assert Advanced(s).sent == s.sent && Queue(Advanced(s)) == Queue(s);
    }
  }

  lemma NextInQueue(sent: seq<nat>, pending: seq<nat>, n: nat)
    requires n < |pending|
    ensures sent + [pending[n]] + pending[n + 1..] == sent + pending[n..]
  {
  }

  lemma LineAtRest(s: State)
    requires s.frames == []
    ensures Line(s) == s.sent + Queue(s)
  {
    assert [] + Queue(s) == Queue(s) && s.sent + Queue(s) + [] == s.sent + Queue(s);
  }

  lemma AdvancedTables(s: State, entry: Table)
    requires Tables(s, entry)
    ensures Tables(Advanced(s), entry)
  {
    if s.main.Installing? && s.main.n == SIGNALS {
      SplitWhole(s.table, ALL_FORWARD, entry);
      SplitWhole(s.saved, entry, NOTHING);
    } else if s.main.Restoring? && s.main.n == SIGNALS {
      SplitWhole(s.table, entry, ALL_FORWARD);
    }
  }

  lemma SplitWhole(table: Table, now: Table, later: Table)
    requires Split(table, now, later, SIGNALS)
    ensures table == now
  {
    assert table.Get(Int) == now.Get(Int) && table.Get(Term) == now.Get(Term);
    assert table.Get(Hup) == now.Get(Hup) && table.Get(Quit) == now.Get(Quit);
  }

  lemma InsertedIsComplete(a: seq<nat>, b: seq<nat>, n: nat)
    requires Complete(a + b, n)
    ensures Complete(a + [n] + b, n + 1)
  {
    var line, longer := a + b, a + [n] + b;
    assert forall id :: id in line ==> id in longer;
    assert longer[|a|] == n && n in longer;
    forall id: nat | id < n + 1
      ensures id in longer
    {
      if id < n {
        assert id in line;
      }
    }
    assert forall id :: id in longer ==> id in line || id == n;
    assert forall i :: 0 <= i < |longer| ==>
             longer[i] == if i < |a| then line[i] else if i == |a| then n else line[i - 1];
    forall i, j | 0 <= i < j < |longer|
      ensures longer[i] != longer[j]
    {
      var k := if i < |a| then i else i - 1;
      if i == |a| {
        assert line[j - 1] in line;
      } else if j == |a| {
        assert line[k] in line;
      } else {
        assert line[k] != line[if j < |a| then j else j - 1];
      }
    }
  }

  /** An invocation goes in front of everything that is still to be sent after it. */
  lemma FireInserts(s: State, signal: Signal) returns (a: seq<nat>, b: seq<nat>)
    requires s.flushed <= |s.pending| && Enabled(s, Fire(signal))
    ensures Line(s) == a + b && Line(Apply(s, Fire(signal))) == a + [|s.invoked|] + b
    ensures b == [] <==> s.frames == [] && (s.started ==> s.flushed == |s.pending|)
  {
    UnwoundPush(s.frames, Frame(|s.invoked|, Testing));
    a := if s.started then s.sent else s.sent + Queue(s);
    b := if s.started then Unwound(s.frames) + Queue(s) else Unwound(s.frames);
    assert s.started ==> a + ([|s.invoked|] + Unwound(s.frames) + Queue(s)) == a + [|s.invoked|] + b;
    assert !s.started ==> a + ([|s.invoked|] + Unwound(s.frames)) == a + [|s.invoked|] + b;
  }

  lemma FireStages(s: State, signal: Signal)
    requires Staged(s) && s.flushed <= |s.pending| && Enabled(s, Fire(signal))
    ensures Staged(Apply(s, Fire(signal)))
  {
    var t := Apply(s, Fire(signal));
    assert forall x :: x in t.frames ==> x in s.frames || x == Frame(|s.invoked|, Testing);
  }

  lemma FireKeeps(s: State, signal: Signal, entry: Table)
    requires Invariant(s, entry) && Enabled(s, Fire(signal))
    ensures Invariant(Apply(s, Fire(signal)), entry)
  {
    hide Line, Complete;
    var a, b := FireInserts(s, signal);
    InsertedIsComplete(a, b, |s.invoked|);
    FireStages(s, signal);
    TablesOnlyReadTables(s, Apply(s, Fire(signal)), entry);
  }

  lemma RaiseKeeps(s: State, entry: Table)
    requires Invariant(s, entry) && Enabled(s, Raise)
    ensures Invariant(Apply(s, Raise), entry) && Line(Apply(s, Raise)) == Line(s)
  {
  }

  lemma StepKeeps(s: State, step: Step, entry: Table)
    requires Invariant(s, entry) && Enabled(s, step)
    ensures Invariant(Apply(s, step), entry)
  {
    hide Handled, Advanced, Line, Complete;
    match step
    case Fire(signal) => FireKeeps(s, signal, entry);
    case Handle => HandledKeeps(s, entry);
    case Advance =>
      AdvancedStages(s);
      AdvancedKeepsLine(s);
      AdvancedTables(s, entry);
    case Raise => RaiseKeeps(s, entry);
  }

  lemma {:induction false} RunKeeps(s: State, steps: seq<Step>, entry: Table)
    requires Invariant(s, entry) && Possible(s, steps)
    ensures Invariant(After(s, steps), entry)
    decreases |steps|
  {
    if steps != [] {
      StepKeeps(s, steps[0], entry);
      RunKeeps(Apply(s, steps[0]), steps[1..], entry);
    }
  }

  /** The signals of the send_signal calls, in order. */
  function Calls(s: State): seq<Signal>
    requires forall k :: 0 <= k < |s.sent| ==> s.sent[k] < |s.invoked|
  {
    seq(|s.sent|, k requires 0 <= k < |s.sent| => s.invoked[s.sent[k]])
  }

  /** In every state of every run: each invocation is exactly once among the calls made on
      the child, the queue, and the active handlers, so that none is lost and none doubled;
      the queue is flushed before the wait; and on leaving, by whatever way, the handlers
      found on entry are back in place. */
  lemma NoSignalLostOrDoubled(entry: Table, steps: seq<Step>)
    requires Possible(Initial(entry), steps)
    ensures var s := After(Initial(entry), steps);
            && Complete(Line(s), |s.invoked|)
            && (forall i, j :: 0 <= i < j < |s.sent| ==> s.sent[i] != s.sent[j])
            && (forall k :: 0 <= k < |s.sent| ==> s.sent[k] < |s.invoked|)
            && (s.started && s.frames == [] && s.flushed == |s.pending| ==> Complete(s.sent, |s.invoked|))
            && (s.main.Waiting? ==> s.started && s.flushed == |s.pending|)
            && (s.main.Left? ==> s.table == entry)
  {
    var s := After(Initial(entry), steps);
    RunKeeps(Initial(entry), steps, entry);
    SentLeads(s);
  }

  /** From before the child is started until the handlers are put back, each of the four signals
      is caught, whenever it comes. */
  lemma EverySignalIsCaught(entry: Table, steps: seq<Step>, signal: Signal)
    requires Possible(Initial(entry), steps)
    requires var s := After(Initial(entry), steps); s.main.Starting? || s.main.Flushing? || s.main.Waiting?
    ensures var s := After(Initial(entry), steps);
            && Enabled(s, Fire(signal))
            && Apply(s, Fire(signal)).invoked == s.invoked + [signal]
            && Apply(s, Fire(signal)).frames == s.frames + [Frame(|s.invoked|, Testing)]
  {
    hide Possible, After;
    RunKeeps(Initial(entry), steps, entry);
  }

  lemma SentLeads(s: State)
    ensures s.sent <= Line(s)
    ensures s.started && s.frames == [] && s.flushed == |s.pending| ==> Line(s) == s.sent
    ensures forall k :: 0 <= k < |s.sent| ==> s.sent[k] in Line(s)
  {
  }

  /** Nothing is queued any more once the child is started. */
  lemma {:induction false} FlushedStays(s: State, steps: seq<Step>)
    requires Staged(s) && s.started && s.flushed == |s.pending| && !s.main.Flushing? && Possible(s, steps)
    ensures var t := After(s, steps); t.started && t.flushed == |t.pending|
    decreases |steps|
  {
    if steps != [] {
      FlushedStep(s, steps[0]);
      FlushedStays(Apply(s, steps[0]), steps[1..]);
    }
  }

  lemma FlushedStep(s: State, step: Step)
    requires Staged(s) && s.started && s.flushed == |s.pending| && !s.main.Flushing? && Enabled(s, step)
    ensures var t := Apply(s, step); Staged(t) && t.started && t.flushed == |t.pending| && !t.main.Flushing?
  {
    match step
    case Fire(signal) => FireStages(s, signal);
    case Handle =>
      HandledStages(s);
      assert Top(s) in s.frames;
    case Advance => AdvancedStages(s);
    case Raise =>
  }

  /** After a run that came to the wait, normal exit included, every invocation has been sent
      but for those whose handlers are still active. */
  lemma AllSentAfterWait(entry: Table, steps: seq<Step>, more: seq<Step>)
    requires Possible(Initial(entry), steps) && After(Initial(entry), steps).main.Waiting?
    requires Possible(After(Initial(entry), steps), more)
    ensures var t := After(After(Initial(entry), steps), more);
            Complete(t.sent + Unwound(t.frames), |t.invoked|)
  {
    var s := After(Initial(entry), steps);
    RunKeeps(Initial(entry), steps, entry);
    FlushedStays(s, more);
    RunKeeps(s, more, entry);
    var t := After(s, more);
    assert Unwound(t.frames) + [] == Unwound(t.frames);
  }

  // ---- when the order is kept

  predicate InOrder(line: seq<nat>) {
    forall k :: 0 <= k < |line| ==> line[k] == k
  }

  /** A signal comes in turn when no handler is active and nothing waits for the child. */
  predicate InTurn(s: State, step: Step) {
    step.Fire? ==> s.frames == [] && (s.started ==> s.flushed == |s.pending|)
  }

  predicate RunInTurn(s: State, steps: seq<Step>)
    requires Possible(s, steps)
    decreases |steps|
  {
    if steps == [] then true else InTurn(s, steps[0]) && RunInTurn(Apply(s, steps[0]), steps[1..])
  }

  lemma StepOrders(s: State, step: Step, entry: Table)
    requires Invariant(s, entry) && Enabled(s, step)
    ensures InOrder(Line(Apply(s, step))) <==> InOrder(Line(s)) && InTurn(s, step)
  {
    hide Line, Handled, Advanced;
    match step
    case Fire(signal) =>
      var a, b := FireInserts(s, signal);
      InsertedInOrder(a, b, |s.invoked|);
    case Handle => HandledKeepsLine(s);
    case Advance => AdvancedKeepsLine(s);
    case Raise => RaiseKeeps(s, entry);
  }

  lemma InsertedInOrder(a: seq<nat>, b: seq<nat>, n: nat)
    requires |a + b| == n
    ensures InOrder(a + [n] + b) <==> InOrder(a + b) && b == []
  {
    var longer := a + [n] + b;
    assert longer[|a|] == n;
    if b == [] {
      assert a + b == a && longer == a + [n];
      assert forall k :: 0 <= k < n ==> longer[k] == a[k];
    }
  }

  lemma {:induction false} RunOrders(s: State, steps: seq<Step>, entry: Table)
    requires Invariant(s, entry) && Possible(s, steps)
    ensures InOrder(Line(After(s, steps))) <==> InOrder(Line(s)) && RunInTurn(s, steps)
    decreases |steps|
  {
    hide Invariant, Line, InOrder, InTurn, Enabled, Apply;
    if steps != [] {
      StepKeeps(s, steps[0], entry);
      StepOrders(s, steps[0], entry);
      RunOrders(Apply(s, steps[0]), steps[1..], entry);
    }
  }

  /** The order in which invocations are or will be sent is the order in which they came, if
      and only if each of them came in turn; no later step repairs or spoils it. Once all
      have been handed on, that is to say: the calls are the invocations one by one. */
  lemma OrderKeptExactlyInTurn(entry: Table, steps: seq<Step>)
    requires Possible(Initial(entry), steps)
    ensures var s := After(Initial(entry), steps);
            && (InOrder(Line(s)) <==> RunInTurn(Initial(entry), steps))
            && (s.started && s.frames == [] && s.flushed == |s.pending| ==>
                  (InOrder(s.sent) <==> RunInTurn(Initial(entry), steps)))
  {
    hide Line, InOrder, InTurn, Enabled, Apply, Complete;
    StartsInOrder(entry);
    RunOrders(Initial(entry), steps, entry);
    SentLeads(After(Initial(entry), steps));
  }

  lemma StartsInOrder(entry: Table)
    ensures Invariant(Initial(entry), entry) && InOrder(Line(Initial(entry)))
  {
  }

  /** In a run in turn the calls are at every moment a beginning of the invocations. */
  lemma InTurnIsFaithful(entry: Table, steps: seq<Step>)
    requires Possible(Initial(entry), steps) && RunInTurn(Initial(entry), steps)
    ensures var s := After(Initial(entry), steps);
            (forall k :: 0 <= k < |s.sent| ==> s.sent[k] < |s.invoked|) && Calls(s) <= s.invoked
  {
    var s := After(Initial(entry), steps);
    NoSignalLostOrDoubled(entry, steps);
    OrderKeptExactlyInTurn(entry, steps);
    SentLeads(s);
    assert forall k :: 0 <= k < |s.sent| ==> Calls(s)[k] == s.invoked[k];
  }

  lemma Prepend(s: State, step: Step, rest: seq<Step>)
    requires Enabled(s, step) && Possible(Apply(s, step), rest)
    ensures Possible(s, [step] + rest) && After(s, [step] + rest) == After(Apply(s, step), rest)
  {
    assert ([step] + rest)[1..] == rest;
  }

  lemma Installed(entry: Table, rest: seq<Step>) returns (steps: seq<Step>)
    requires Possible(State(Starting, [], false, [], 0, ALL_FORWARD, entry, [], []), rest)
    ensures Possible(Initial(entry), steps)
    ensures After(Initial(entry), steps) == After(State(Starting, [], false, [], 0, ALL_FORWARD, entry, [], []), rest)
  {
    var s0 := Initial(entry);
    var s1 := Apply(s0, Advance);
    var s2 := Apply(s1, Advance);
    var s3 := Apply(s2, Advance);
    var s4 := Apply(s3, Advance);
    assert Apply(s4, Advance) == State(Starting, [], false, [], 0, ALL_FORWARD, entry, [], []);
    Prepend(s4, Advance, rest);
    Prepend(s3, Advance, [Advance] + rest);
    Prepend(s2, Advance, [Advance] + ([Advance] + rest));
    Prepend(s1, Advance, [Advance] + ([Advance] + ([Advance] + rest)));
    steps := [Advance] + ([Advance] + ([Advance] + ([Advance] + ([Advance] + rest))));
    Prepend(s0, Advance, [Advance] + ([Advance] + ([Advance] + ([Advance] + rest))));
  }

  /** A signal is queued before the child exists. */
  lemma Queued(entry: Table, rest: seq<Step>) returns (steps: seq<Step>)
    requires Possible(State(Starting, [], false, [0], 0, ALL_FORWARD, entry, [], [Term]), rest)
    ensures var s0 := State(Starting, [], false, [], 0, ALL_FORWARD, entry, [], []);
            Possible(s0, steps)
            && After(s0, steps) == After(State(Starting, [], false, [0], 0, ALL_FORWARD, entry, [], [Term]), rest)
  {
    hide Possible, After;
    var s0 := State(Starting, [], false, [], 0, ALL_FORWARD, entry, [], []);
    var s1 := s0.(frames := [Frame(0, Testing)], invoked := [Term]);
    var s2 := s1.(frames := [Frame(0, Appending)]);
    assert Apply(s0, Fire(Term)) == s1;
    assert Apply(s1, Handle) == s2;
    assert Apply(s2, Handle) == State(Starting, [], false, [0], 0, ALL_FORWARD, entry, [], [Term]);
    Prepend(s2, Handle, rest);
    Prepend(s1, Handle, [Handle] + rest);
    steps := [Fire(Term)] + ([Handle] + ([Handle] + rest));
    Prepend(s0, Fire(Term), [Handle] + ([Handle] + rest));
  }

  /** Another is sent directly while the first still waits in the queue. */
  lemma Overtaken(entry: Table) returns (steps: seq<Step>)
    ensures var s3 := State(Starting, [], false, [0], 0, ALL_FORWARD, entry, [], [Term]);
            Possible(s3, steps)
            && After(s3, steps) == State(Flushing(1), [], true, [0], 1, ALL_FORWARD, entry, [1, 0], [Term, Int])
  {
    hide Possible, After;
    var s3 := State(Starting, [], false, [0], 0, ALL_FORWARD, entry, [], [Term]);
    var s4 := s3.(main := Flushing(0), started := true);
    var s5 := s4.(frames := [Frame(1, Testing)], invoked := [Term, Int]);
    var s6 := s5.(frames := [Frame(1, Sending)]);
    var s7 := s6.(frames := [], sent := [1]);
    var s8 := State(Flushing(1), [], true, [0], 1, ALL_FORWARD, entry, [1, 0], [Term, Int]);
    assert Apply(s3, Advance) == s4;
    assert Apply(s4, Fire(Int)) == s5;
    assert Apply(s5, Handle) == s6;
    assert Apply(s6, Handle) == s7;
    assert Apply(s7, Advance) == s8;
    AtRest(s8);
    Prepend(s7, Advance, []);
    var t7 := [Advance] + [];
    Prepend(s6, Handle, t7);
    Prepend(s5, Handle, [Handle] + t7);
    var t5 := [Handle] + ([Handle] + t7);
    Prepend(s4, Fire(Int), t5);
    steps := [Advance] + ([Fire(Int)] + t5);
    Prepend(s3, Advance, [Fire(Int)] + t5);
  }

  /** A run out of turn: a signal that arrives while the queue is being flushed overtakes one
      that came before the child existed. */
  lemma OrderMayChange(entry: Table) returns (steps: seq<Step>)
    ensures Possible(Initial(entry), steps) && !RunInTurn(Initial(entry), steps)
    ensures var s := After(Initial(entry), steps);
            s.main.Flushing? && s.frames == [] && s.invoked == [Term, Int] && s.sent == [1, 0]
              && Calls(s) == [Int, Term]
  {
    hide Possible, After, RunInTurn;
    steps := Overtaken(entry);
    steps := Queued(entry, steps);
    steps := Installed(entry, steps);
    OrderKeptExactlyInTurn(entry, steps);
    assert After(Initial(entry), steps).sent[0] == 1;
    assert Calls(After(Initial(entry), steps)) == [Int, Term];
  }

  lemma AtRest(s: State)
    ensures Possible(s, []) && After(s, []) == s
  {
  }
}
