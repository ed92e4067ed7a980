/** One request with its I/O in full: the worker and the processes of `Request`, the guest's
    output loop of `Output`, and the launcher, acting on the same stop pipe, report, stream and
    exit frame. */
module Delivery {
  import opened Options
  import opened Wire
  import R = Request
  import O = Output
  import A = Acknowledgement
  import K = Kinship

  /** Which request it is, and what `Output` leaves open about its loop. */
  datatype Setup = Setup(r: nat, tty: bool, ops: O.Ops, buffer: nat)

  /** `arrived` is what the launcher has read of the stream. */
  datatype World = World(s: R.State, io: O.System, arrived: Bytes)

  /** Around: the rest of the system, and the request's own steps without I/O. Guest: writing
      processes, and rounds of the loop after which it goes on. The others are shared. */
  datatype Step =
    | Around(step: R.Step)
    | Guest(turn: O.Step)
    | WriteCode
    | DropPipe
    | Fail(turn: O.Step)
    | Conclude(e: O.Event)
    | Arrive(n: nat)
    | ReadExit

  function Initial(c: Setup): World {
    World(R.Initial(), O.Initial(c.tty), [])
  }

  /** What the launcher has made of the bytes that have arrived. */
  function Client(w: World, c: Setup): O.Client {
    O.AllShown(O.Client([], [], None), Parse(ToHost, w.arrived), c.ops)
  }

  /** Steps of the request that are steps of its I/O as well. */
  predicate Shared(s: R.State, step: R.Step, r: nat) {
    step.Locally? && step.r == r && r < |s.reqs|
    && (step.act.Report? || step.act.SendExit? || step.act.IoFail? || step.act.ReadExit?
        || (step.act.WriteCode? && s.reqs[r].ioAlive))
  }

  /** The worker has the write end of the stop pipe until it has written, or the request is
      cancelled before. */
  predicate HoldsPipe(stage: R.Stage) {
    stage.Created? || stage.Entering? || stage.Executing?
    || (stage.Running? && (stage.done.Awaiting? || stage.done.CodeTaken?))
  }

  /** The I/O thread is started when the command is. */
  predicate Started(w: World, c: Setup) {
    c.r < |w.s.reqs| && K.Executed(w.s.reqs[c.r].stage)
  }

  predicate GuestEnabled(w: World, step: O.Step, c: Setup) {
    O.Enabled(w.io, step, c.buffer) && (step.Poll? || step.Break? ==> Started(w, c))
  }

  function StatusAfter(w: World, step: O.Step, c: Setup): O.Status {
    O.Apply(w.io, step, c.ops).io.status
  }

  predicate Enabled(w: World, step: Step, c: Setup) {
    match step
    case Around(x) => R.Enabled(w.s, x) && !Shared(w.s, x, c.r)
    case Guest(x) =>
      GuestEnabled(w, x, c)
      && (x.Write? || x.LastWriterGone? || (x.Poll? && StatusAfter(w, x, c).Running?))
    case WriteCode =>
      R.Enabled(w.s, R.Locally(c.r, R.WriteCode)) && w.s.reqs[c.r].ioAlive
      && O.Enabled(w.io, O.PutCode(w.s.reqs[c.r].stage.done.code), c.buffer)
    case DropPipe => c.r < |w.s.reqs| && !HoldsPipe(w.s.reqs[c.r].stage) && O.Enabled(w.io, O.WorkerGone, c.buffer)
    case Fail(x) =>
      GuestEnabled(w, x, c) && (x.Break? || (x.Poll? && StatusAfter(w, x, c).NoStatus?))
      && R.Enabled(w.s, R.Locally(c.r, R.IoFail))
    case Conclude(e) =>
      GuestEnabled(w, O.Poll(e), c) && StatusAfter(w, O.Poll(e), c).Done?
      && R.Enabled(w.s, R.Locally(c.r, R.Report))
    case Arrive(n) => Client(w, c).code.None? && |w.arrived| + n <= |EncodeAll(w.io.io.sent)|
    case ReadExit => Client(w, c).code.Some? && R.Enabled(w.s, R.Locally(c.r, R.ReadExit))
  }

  /** The share of the worker, the processes and the client. */
  function RequestSteps(step: Step, c: Setup): seq<R.Step> {
    match step
    case Around(x) => [x]
    case WriteCode => [R.Locally(c.r, R.WriteCode)]
    case Fail(_) => [R.Locally(c.r, R.IoFail)]
    case Conclude(_) => [R.Locally(c.r, R.Report), R.Locally(c.r, R.SendExit)]
    case ReadExit => [R.Locally(c.r, R.ReadExit)]
    case _ => []
  }

  /** The share of the guest's loop and its pipes. */
  function OutputSteps(w: World, step: Step, c: Setup): seq<O.Step>
    requires Enabled(w, step, c)
  {
    match step
    case Guest(x) => [x]
    case WriteCode => [O.PutCode(w.s.reqs[c.r].stage.done.code)]
    case DropPipe => [O.WorkerGone]
    case Fail(x) => [x]
    case Conclude(e) => [O.Poll(e)]
    case _ => []
  }

  function Apply(w: World, step: Step, c: Setup): World
    requires Enabled(w, step, c)
  {
    match step
    case Around(x) => w.(s := R.Apply(w.s, x))
    case Guest(x) => w.(io := O.Apply(w.io, x, c.ops))
    case WriteCode =>
      World(R.Apply(w.s, R.Locally(c.r, R.WriteCode)),
            O.Apply(w.io, O.PutCode(w.s.reqs[c.r].stage.done.code), c.ops), w.arrived)
    case DropPipe => w.(io := O.Apply(w.io, O.WorkerGone, c.ops))
    case Fail(x) => World(R.Apply(w.s, R.Locally(c.r, R.IoFail)), O.Apply(w.io, x, c.ops), w.arrived)
    case Conclude(e) =>
      var reported := R.Apply(w.s, R.Locally(c.r, R.Report));
      World(R.Apply(reported, R.Locally(c.r, R.SendExit)), O.Apply(w.io, O.Poll(e), c.ops), w.arrived)
    case Arrive(n) => w.(arrived := EncodeAll(w.io.io.sent)[..|w.arrived| + n])
    case ReadExit => w.(s := R.Apply(w.s, R.Locally(c.r, R.ReadExit)))
  }

  predicate Possible(w: World, steps: seq<Step>, c: Setup)
    decreases |steps|
  {
    if steps == [] then true else Enabled(w, steps[0], c) && Possible(Apply(w, steps[0], c), steps[1..], c)
  }

  function After(w: World, steps: seq<Step>, c: Setup): World
    requires Possible(w, steps, c)
    decreases |steps|
  {
    if steps == [] then w else After(Apply(w, steps[0], c), steps[1..], c)
  }

  /** Every client keeps its side, as in `Acknowledgement`. */
  predicate PoliteRun(w: World, steps: seq<Step>, c: Setup)
    requires Possible(w, steps, c)
    decreases |steps|
  {
    if steps == [] then true
    else (steps[0].Around? ==> A.Polite(w.s, steps[0].step)) && PoliteRun(Apply(w, steps[0], c), steps[1..], c)
  }

  // ---- every run is a run of either part

  lemma RequestFirst(s: R.State, step: R.Step, rest: seq<R.Step>)
    requires R.Enabled(s, step) && R.Possible(R.Apply(s, step), rest)
    ensures R.Possible(s, [step] + rest) && R.After(s, [step] + rest) == R.After(R.Apply(s, step), rest)
    ensures A.PoliteRun(s, [step] + rest) <==> A.Polite(s, step) && A.PoliteRun(R.Apply(s, step), rest)
  {
    hide R.Enabled, R.Apply, A.Polite;
    assert ([step] + rest)[1..] == rest;
  }

  lemma OutputFirst(io: O.System, step: O.Step, rest: seq<O.Step>, c: Setup)
    requires O.Enabled(io, step, c.buffer) && O.Possible(O.Apply(io, step, c.ops), rest, c.ops, c.buffer)
    ensures O.Possible(io, [step] + rest, c.ops, c.buffer)
    ensures O.After(io, [step] + rest, c.ops, c.buffer) == O.After(O.Apply(io, step, c.ops), rest, c.ops, c.buffer)
  {
    hide O.Enabled, O.Apply;
    assert ([step] + rest)[1..] == rest;
  }

  lemma RequestShare(w: World, step: Step, rest: seq<R.Step>, c: Setup)
    requires Enabled(w, step, c) && R.Possible(Apply(w, step, c).s, rest)
    ensures var all := RequestSteps(step, c) + rest;
            R.Possible(w.s, all) && R.After(w.s, all) == R.After(Apply(w, step, c).s, rest)
            && (A.PoliteRun(w.s, all) <==>
                  (step.Around? ==> A.Polite(w.s, step.step)) && A.PoliteRun(Apply(w, step, c).s, rest))
  {
    hide R.Possible, R.After, A.PoliteRun, R.GlobalEnabled, R.Outside, R.StageAfter, R.RequestAfter, O.Enabled, O.Apply;
    match step
    case Around(x) => RequestFirst(w.s, x, rest);
    case WriteCode => RequestFirst(w.s, R.Locally(c.r, R.WriteCode), rest);
    case Fail(_) => RequestFirst(w.s, R.Locally(c.r, R.IoFail), rest);
    case Conclude(_) =>
      var report, exit := R.Locally(c.r, R.Report), R.Locally(c.r, R.SendExit);
      RequestFirst(R.Apply(w.s, report), exit, rest);
      RequestFirst(w.s, report, [exit] + rest);
      assert [report, exit] + rest == [report] + ([exit] + rest);
    case ReadExit => RequestFirst(w.s, R.Locally(c.r, R.ReadExit), rest);
    case _ => assert [] + rest == rest;
  }

  lemma OutputShare(w: World, step: Step, rest: seq<O.Step>, c: Setup)
    requires Enabled(w, step, c) && O.Possible(Apply(w, step, c).io, rest, c.ops, c.buffer)
    ensures var all := OutputSteps(w, step, c) + rest;
            O.Possible(w.io, all, c.ops, c.buffer)
            && O.After(w.io, all, c.ops, c.buffer) == O.After(Apply(w, step, c).io, rest, c.ops, c.buffer)
  {
    hide O.Possible, O.After, O.Enabled, O.Apply, R.GlobalEnabled, R.Apply;
    match step
    case Guest(x) => OutputFirst(w.io, x, rest, c);
    case WriteCode => OutputFirst(w.io, O.PutCode(w.s.reqs[c.r].stage.done.code), rest, c);
    case DropPipe => OutputFirst(w.io, O.WorkerGone, rest, c);
    case Fail(x) => OutputFirst(w.io, x, rest, c);
    case Conclude(e) => OutputFirst(w.io, O.Poll(e), rest, c);
    case _ => assert [] + rest == rest;
  }

  /** Every run of the whole is a run of the requests and a run of the output loop; polite if
      it is polite. */
  lemma {:induction false} Projects(w: World, steps: seq<Step>, c: Setup) returns (rs: seq<R.Step>, os: seq<O.Step>)
    requires Possible(w, steps, c)
    ensures R.Possible(w.s, rs) && R.After(w.s, rs) == After(w, steps, c).s
    ensures O.Possible(w.io, os, c.ops, c.buffer) && O.After(w.io, os, c.ops, c.buffer) == After(w, steps, c).io
    ensures PoliteRun(w, steps, c) <==> A.PoliteRun(w.s, rs)
    decreases |steps|
  {
    hide Enabled, Apply, RequestSteps, OutputSteps, A.Polite;
    if steps == [] {
      rs, os := [], [];
    } else {
      rs, os := Projects(Apply(w, steps[0], c), steps[1..], c);
      RequestShare(w, steps[0], rs, c);
      OutputShare(w, steps[0], os, c);
      rs, os := RequestSteps(steps[0], c) + rs, OutputSteps(w, steps[0], c) + os;
    }
  }

  // ---- the two parts agree on what they share

  /** Stop pipe, report and exit frame are the same on both sides, and what the client has seen
      is what has arrived. */
  predicate Linked(w: World, c: Setup) {
    && w.arrived <= EncodeAll(w.io.io.sent)
    && (c.r < |w.s.reqs| ==> LinkedTo(w.s.reqs[c.r], w, c))
    && (c.r >= |w.s.reqs| ==> w.io.stop == O.Channel(None, None, true) && w.io.io.status.Running?)
  }

  predicate LinkedTo(q: R.Request, w: World, c: Setup) {
    && w.io.stop.put == q.put
    && (q.ioAlive <==> w.io.io.status.Running?)
    && (q.reported <==> w.io.io.status.Done?)
    && (q.exitFrame.Some? <==> w.io.io.status.Done?)
    && (q.seen.Some? ==> Client(w, c).code.Some?)
    && (HoldsPipe(q.stage) ==> w.io.stop.writer && q.put.None?)
  }

  /** The rest of the system leaves the request's I/O alone. */
  lemma AroundLeaves(s: R.State, step: R.Step, r: nat)
    requires R.Enabled(s, step) && !Shared(s, step, r) && r < |s.reqs|
    ensures var t := R.Apply(s, step);
            && r < |t.reqs| && t.reqs[r].put == s.reqs[r].put && t.reqs[r].ioAlive == s.reqs[r].ioAlive
            && t.reqs[r].reported == s.reqs[r].reported && t.reqs[r].exitFrame == s.reqs[r].exitFrame
            && t.reqs[r].seen == s.reqs[r].seen && (HoldsPipe(t.reqs[r].stage) ==> HoldsPipe(s.reqs[r].stage))
  {
    match step
    case Locally(q, act) =>
      if q == r {
        LocalLeaves(s.reqs[r], act);
      }
    case Globally(q, deed) =>
      if q == r {
        GlobalLeaves(s, r, deed);
      }
    case _ =>
  }

  lemma LocalLeaves(q: R.Request, act: R.Local)
    requires R.LocalEnabled(q, act)
    requires !act.Report? && !act.SendExit? && !act.IoFail? && !act.ReadExit? && (act.WriteCode? ==> !q.ioAlive)
    ensures var q' := R.Moved(q, act);
            && q'.put == q.put && q'.ioAlive == q.ioAlive && q'.reported == q.reported
            && q'.exitFrame == q.exitFrame && q'.seen == q.seen && (HoldsPipe(q'.stage) ==> HoldsPipe(q.stage))
  {
    LocalKeepsPipe(q, act);
    if act.ReadAck? {
      AckLeaves(q);
    } else {
      assert R.Moved(q, act).put == q.put;
    }
  }

  lemma LocalKeepsPipe(q: R.Request, act: R.Local)
    requires R.LocalEnabled(q, act)
    ensures HoldsPipe(R.Moved(q, act).stage) ==> HoldsPipe(q.stage)
  {
  }

  lemma AckLeaves(q: R.Request)
    requires R.LocalEnabled(q, R.ReadAck)
    ensures var q' := R.Moved(q, R.ReadAck);
            && q'.put == q.put && q'.ioAlive == q.ioAlive && q'.reported == q.reported
            && q'.exitFrame == q.exitFrame && q'.seen == q.seen
  {
  }

  lemma GlobalLeaves(s: R.State, r: nat, deed: R.Global)
    requires r < |s.reqs| && R.GlobalEnabled(s, r, deed)
    ensures HoldsPipe(R.StageAfter(s, r, deed)) ==> HoldsPipe(s.reqs[r].stage)
  {
  }

  lemma AroundStaysLinked(w: World, step: R.Step, c: Setup)
    requires Linked(w, c) && Enabled(w, Around(step), c)
    ensures Linked(Apply(w, Around(step), c), c)
  {
    hide R.GlobalEnabled, R.LocalEnabled, R.Moved, R.StageAfter, R.Outside, Shared;
    if c.r < |w.s.reqs| {
      AroundLeaves(w.s, step, c.r);
    }
  }

  lemma SentGrows(io: O.System, step: O.Step, c: Setup)
    requires O.Enabled(io, step, c.buffer)
    ensures EncodeAll(io.io.sent) <= EncodeAll(O.Apply(io, step, c.ops).io.sent)
  {
    hide EncodeAll, Encode;
    if step.Poll? {
      var mid := O.Reacted(io.io, c.ops, step.e);
      PacketsAppended(io.io.sent, mid.sent);
      PacketsAppended(mid.sent, O.Concluded(mid).sent);
    }
  }

  lemma PacketsAppended(ps: seq<Packet>, qs: seq<Packet>)
    requires qs == ps || (|qs| == |ps| + 1 && qs[..|ps|] == ps)
    ensures EncodeAll(ps) <= EncodeAll(qs)
  {
    if qs != ps {
      assert qs == ps + [qs[|ps|]];
      EncodeAllAppend(ps, qs[|ps|]);
    }
  }

  lemma TurnLeavesPipe(io: O.System, step: O.Step, c: Setup)
    requires O.Enabled(io, step, c.buffer) && !step.PutCode? && !step.WorkerGone?
    ensures var t := O.Apply(io, step, c.ops);
            && t.stop.put == io.stop.put && t.stop.writer == io.stop.writer
            && (step.Write? || step.LastWriterGone? ==> t.io == io.io && t.stop == io.stop)
            && (step.Poll? || step.Break? ==> io.io.status.Running?)
            && (step.Break? ==> t.io.status.Broken?)
  {
  }

  lemma TurnStaysLinked(w: World, step: Step, c: Setup)
    requires Linked(w, c) && Enabled(w, step, c) && (step.Guest? || step.Fail? || step.Conclude?)
    ensures Linked(Apply(w, step, c), c)
  {
    hide O.Apply, O.Enabled, EncodeAll, Client;
    var turn := if step.Conclude? then O.Poll(step.e) else step.turn;
    SentGrows(w.io, turn, c);
    TurnLeavesPipe(w.io, turn, c);
    SameClient(w, Apply(w, step, c), c);
  }

  lemma SameClient(w: World, t: World, c: Setup)
    requires t.arrived == w.arrived
    ensures Client(t, c) == Client(w, c)
  {
  }

  lemma StepStaysLinked(w: World, step: Step, c: Setup)
    requires Linked(w, c) && Enabled(w, step, c)
    ensures Linked(Apply(w, step, c), c)
  {
    hide EncodeAll, O.AllShown, Parse;
    match step
    case Around(x) => AroundStaysLinked(w, x, c);
    case Guest(_) => TurnStaysLinked(w, step, c);
    case Fail(_) => TurnStaysLinked(w, step, c);
    case Conclude(_) => TurnStaysLinked(w, step, c);
    case WriteCode =>
    case DropPipe =>
    case Arrive(n) =>
    case ReadExit =>
  }

  lemma {:induction false} RunStaysLinked(w: World, steps: seq<Step>, c: Setup)
    requires Linked(w, c) && Possible(w, steps, c)
    ensures Linked(After(w, steps, c), c)
    decreases |steps|
  {
    hide Linked, Enabled, Apply;
    if steps != [] {
      StepStaysLinked(w, steps[0], c);
      RunStaysLinked(Apply(w, steps[0], c), steps[1..], c);
    }
  }

  lemma StartIsLinked(c: Setup)
    ensures Linked(Initial(c), c)
  {
  }

  // ---- the theorem

  /** Whenever the byte 1 has been written, in every run of the whole: the leader has been
      awaited; the client has written everything that was ever written to either stream, whose
      last writers are gone; the code it read is the leader's; and nothing of this request has
      been or will be signalled or killed by its task. */
  lemma AcknowledgementMeansDelivered(steps: seq<Step>, c: Setup)
    requires O.Distinct(c.ops) && c.buffer < LIMIT
    requires Possible(Initial(c), steps, c) && PoliteRun(Initial(c), steps, c)
    requires var s := After(Initial(c), steps, c).s; c.r < |s.reqs| && s.reqs[c.r].acked
    ensures var w := After(Initial(c), steps, c); var q := w.s.reqs[c.r];
            && q.leader.Some? && q.leader.value < |w.s.procs| && w.s.procs[q.leader.value].life.Reaped?
            && q.seen.Some? && Client(w, c) == O.Client(w.io.out.written, w.io.err.written, q.seen)
            && (match w.s.procs[q.leader.value].ending
                case Exited(code) => code < 256 ==> q.seen.value == code
                case Signalled(signal) => signal < 128 ==> q.seen.value == 128 + signal)
            && !w.io.out.writers && !w.io.err.writers
            && !q.cancelled && (forall i :: (c.r, i) !in w.s.termed + w.s.killed)
  {
    hide Possible, After, PoliteRun, R.Possible, R.After, A.PoliteRun, O.Possible, O.After, O.AllShown, Parse,
         EncodeAll, O.StreamOf;
    var w := After(Initial(c), steps, c);
    var rs, os := Projects(Initial(c), steps, c);
    StartIsLinked(c);
    RunStaysLinked(Initial(c), steps, c);
    A.AcknowledgementMeansDone(rs, c.r);
    O.ExitSeenMeansAllSeen(c.tty, c.ops, c.buffer, os, w.arrived);
    O.OutputIsComplete(c.tty, c.ops, c.buffer, os);
  }

  // ---- the parts do not block each other

  /** Whatever the loop could do by itself, and the worker's and the client's shares of it, can
      be done in the whole. */
  lemma NothingIsBlocked(steps: seq<Step>, c: Setup)
    requires O.Distinct(c.ops) && c.buffer < LIMIT && Possible(Initial(c), steps, c)
    requires c.r < |After(Initial(c), steps, c).s.reqs|
    ensures var w := After(Initial(c), steps, c); var q := w.s.reqs[c.r];
            && (forall e :: GuestEnabled(w, O.Poll(e), c) ==>
                  Enabled(w, Guest(O.Poll(e)), c) || Enabled(w, Fail(O.Poll(e)), c) || Enabled(w, Conclude(e), c))
            && (GuestEnabled(w, O.Break, c) ==> Enabled(w, Fail(O.Break), c))
            && (R.LocalEnabled(q, R.WriteCode) && q.ioAlive ==> Enabled(w, WriteCode, c))
            && (Client(w, c).code.Some? && q.seen.None? ==> Enabled(w, ReadExit, c))
  {
    hide Possible, After, O.Possible, O.After, O.Sound, O.Distinct, Linked, Enabled, GuestEnabled, Client;
    var w := After(Initial(c), steps, c);
    var rs, os := Projects(Initial(c), steps, c);
    StartIsLinked(c);
    RunStaysLinked(Initial(c), steps, c);
    O.StartIsSound(c.tty, c.ops);
    O.RunIsSound(O.Initial(c.tty), os, c.ops, c.buffer);
    ArrivedCodeIsSent(w, os, c);
    SharedStepsGoOn(w, c);
    forall e | GuestEnabled(w, O.Poll(e), c)
      ensures Enabled(w, Guest(O.Poll(e)), c) || Enabled(w, Fail(O.Poll(e)), c) || Enabled(w, Conclude(e), c)
    {
      PollGoesOn(w, e, c);
    }
  }

  /** Nor does the whole hold back anything else: other requests, processes and clients, what
      request and client do by themselves, writers of the pipes, a worker that is past the stop
      pipe, and the arrival of what has been sent. */
  lemma TheRestIsFree(w: World, c: Setup, x: R.Step, g: O.Step, n: nat)
    ensures R.Enabled(w.s, x) && !(x.Locally? && x.r == c.r) ==> Enabled(w, Around(x), c)
    ensures R.Enabled(w.s, x) && x.Locally? && x.r == c.r
              && (x.act.Send? || x.act.Close? || x.act.Exec? || x.act.AwaitIo? || x.act.ReadAck? || x.act.Join?
                  || x.act.PassOver?) ==>
              Enabled(w, Around(x), c)
    ensures (g.Write? || g.LastWriterGone?) && O.Enabled(w.io, g, c.buffer) ==> Enabled(w, Guest(g), c)
    ensures c.r < |w.s.reqs| && w.s.reqs[c.r].cancelled && !HoldsPipe(w.s.reqs[c.r].stage) && w.io.stop.writer ==>
              Enabled(w, DropPipe, c)
    ensures Client(w, c).code.None? && |w.arrived| + n <= |EncodeAll(w.io.io.sent)| ==>
              Enabled(w, Arrive(n), c)
              && Apply(w, Arrive(n), c).arrived == EncodeAll(w.io.io.sent)[..|w.arrived| + n]
  {
    hide Client, R.LocalEnabled, R.GlobalEnabled;
  }

  lemma ArrivedCodeIsSent(w: World, os: seq<O.Step>, c: Setup)
    requires O.Distinct(c.ops) && c.buffer < LIMIT && Linked(w, c)
    requires O.Possible(O.Initial(c.tty), os, c.ops, c.buffer) && O.After(O.Initial(c.tty), os, c.ops, c.buffer) == w.io
    ensures Client(w, c).code.Some? ==> w.io.io.status.Done?
  {
    hide O.Possible, O.After, O.AllShown, Parse, EncodeAll, LinkedTo;
    O.ExitSeenMeansAllSeen(c.tty, c.ops, c.buffer, os, w.arrived);
  }

  lemma SharedStepsGoOn(w: World, c: Setup)
    requires Linked(w, c) && c.r < |w.s.reqs| && (Client(w, c).code.Some? ==> w.io.io.status.Done?)
    ensures var q := w.s.reqs[c.r];
            && (GuestEnabled(w, O.Break, c) ==> Enabled(w, Fail(O.Break), c))
            && (R.LocalEnabled(q, R.WriteCode) && q.ioAlive ==> Enabled(w, WriteCode, c))
            && (Client(w, c).code.Some? && q.seen.None? ==> Enabled(w, ReadExit, c))
  {
    hide Client, EncodeAll, O.Apply;
  }

  lemma PollStatus(io: O.System, e: O.Event, c: Setup)
    requires O.Distinct(c.ops) && c.buffer < LIMIT && O.Sound(io, c.ops) && O.Enabled(io, O.Poll(e), c.buffer)
    ensures var t := O.Apply(io, O.Poll(e), c.ops);
            && (t.io.status.Running? || t.io.status.NoStatus? || t.io.status.Done?)
            && (t.io.status.Done? ==> io.stop.put.Some?)
            && io.io.status.Running?
  {
    hide O.StreamOf, O.Drains, O.Distinct;
    O.PollIsSound(io, c.ops, e, c.buffer);
    PollNeverBreaks(io, e, c);
  }

  lemma PollNeverBreaks(io: O.System, e: O.Event, c: Setup)
    requires O.Enabled(io, O.Poll(e), c.buffer)
    ensures !O.Apply(io, O.Poll(e), c.ops).io.status.Broken? && O.Apply(io, O.Poll(e), c.ops).stop.put == io.stop.put
  {
  }

  lemma PollGoesOn(w: World, e: O.Event, c: Setup)
    requires O.Distinct(c.ops) && c.buffer < LIMIT
    requires Linked(w, c) && O.Sound(w.io, c.ops) && GuestEnabled(w, O.Poll(e), c)
    ensures Enabled(w, Guest(O.Poll(e)), c) || Enabled(w, Fail(O.Poll(e)), c) || Enabled(w, Conclude(e), c)
  {
    hide O.Sound, O.Apply, O.Enabled, O.Distinct, Client, EncodeAll;
    PollStatus(w.io, e, c);
  }
}
