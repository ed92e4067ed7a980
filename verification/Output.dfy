/** The guest's output loop (run_io_guest): the command's streams are drained into frames
    before its exit status is sent. */
module Output {
  import opened Options
  import opened Wire

  datatype Source = Stdout | Stderr | Stop

  /** The numbers the frames of the two streams carry; the terminal case has no Stderr. */
  datatype Ops = Ops(out: Opcode, err: Opcode)

  predicate Distinct(ops: Ops) {
    ops.out < CMD_EXIT && ops.err < CMD_EXIT && ops.out != ops.err
  }

  /** What epoll reported for one source and, if it was readable, what reading it gave:
      nothing at the end of a stream (a pseudo-terminal's EIO included). */
  datatype Event = Event(source: Source, readable: bool, hangup: bool, data: Bytes)

  /** DoubleDelete: a descriptor was removed from epoll that was not there. NoStatus: the
      worker went away without a status. Broken: the stream to the host failed. */
  datatype Status = Running | Done | DoubleDelete | NoStatus | Broken

  /** The loop's variables, the epoll set, and what it has sent. */
  datatype Io = Io(
    exitCode: Option<Byte>, stdoutOpen: bool, stderrOpen: bool, registered: set<Source>,
    sent: seq<Packet>, reported: bool, status: Status)

  function Started(tty: bool): Io {
    Io(None, true, !tty, if tty then {Stdout, Stop} else {Stdout, Stderr, Stop}, [], false, Running)
  }

  function StreamPacket(op: Opcode, data: Bytes): Packet {
    Packet(op, |data|, data)
  }

  function ExitPacket(code: Byte): Packet {
    Packet(CMD_EXIT, code, [])
  }

  function Deleted(io: Io, source: Source): Io {
    if source in io.registered then io.(registered := io.registered - {source}) else io.(status := DoubleDelete)
  }

  function StreamClosed(io: Io, source: Source): Io {
    var d := Deleted(io, source);
    if source.Stdout? then d.(stdoutOpen := false) else d.(stderrOpen := false)
  }

  function Open(io: Io, source: Source): bool {
    match source case Stdout => io.stdoutOpen case Stderr => io.stderrOpen case Stop => io.exitCode.None?
  }

  function Concluded(io: Io): Io {
    if io.status.Running? && io.exitCode.Some? && !io.stdoutOpen && !io.stderrOpen
    then io.(reported := true, sent := io.sent + [ExitPacket(io.exitCode.value)], status := Done)
    else io
  }

  /** What an event means: a stream ends when it hangs up with nothing to read or when a
      read returns nothing; otherwise what was read is sent on. */
  function Reacted(io: Io, ops: Ops, e: Event): Io {
    if e.source.Stop? then
      if e.readable && e.data != [] then Deleted(io, Stop).(exitCode := Some(e.data[0]))
      else if e.hangup && io.exitCode.None? then io.(status := NoStatus)
      else io
    else if e.readable && e.data != [] then
      io.(sent := io.sent + [StreamPacket(if e.source.Stdout? then ops.out else ops.err, e.data)])
    else if e.readable || (e.hangup && Open(io, e.source)) then StreamClosed(io, e.source)
    else io
  }

  /** One round of the loop: the event, then the exit frame once everything is drained. */
  function Round(io: Io, ops: Ops, e: Event): Io {
    Concluded(Reacted(io, ops, e))
  }

  /** The epoll set holds exactly the sources that are not finished with. */
  predicate Tidy(io: Io) {
    forall source: Source :: source in io.registered <==> Open(io, source)
  }

  lemma RoundIsTidy(io: Io, ops: Ops, e: Event)
    requires io.status.Running? && Tidy(io) && e.source in io.registered
    ensures var after := Round(io, ops, e);
            !after.status.DoubleDelete? && (after.status.Running? ==> Tidy(after))
  {
  }

  /** The loop as an object whose fields are its variables. */
  class Loop {
    var exitCode: Option<Byte>
    var stdoutOpen: bool
    var stderrOpen: bool
    var registered: set<Source>
    var sent: seq<Packet>
    var reported: bool
    var status: Status

    function View(): Io
      reads this
    {
      Io(exitCode, stdoutOpen, stderrOpen, registered, sent, reported, status)
    }

    constructor (tty: bool)
      ensures View() == Started(tty)
    {
      exitCode, stdoutOpen, stderrOpen := None, true, !tty;
      registered := if tty then {Stdout, Stop} else {Stdout, Stderr, Stop};
      sent, reported, status := [], false, Running;
    }

    method Delete(source: Source)
      modifies `registered, `status
      ensures View() == Deleted(old(View()), source)
      ensures registered == old(registered) - {source}
      ensures status == if source in old(registered) then old(status) else DoubleDelete
    {
      if source in registered {
        registered := registered - {source};
      } else {
        status := DoubleDelete;
      }
    }

    /** The statements of one round, in the order they are executed. */
    method Iterate(ops: Ops, e: Event)
      requires status.Running? && Tidy(View()) && e.source in registered
      requires e.source.Stop? && e.readable ==> e.data != []
      modifies this
      ensures View() == Round(old(View()), ops, e)
      ensures !status.DoubleDelete? && (status.Running? ==> Tidy(View()))
      ensures status.Running? ==> exitCode.None? || stdoutOpen || stderrOpen
      ensures status.Done? ==> sent != [] && sent[|sent| - 1] == Packet(CMD_EXIT, exitCode.value, [])
    {
      RoundIsTidy(View(), ops, e);
      if e.readable {
        match e.source
        case Stdout =>
          if |e.data| == 0 {
            Delete(Stdout);
            stdoutOpen := false;
          } else {
            sent := sent + [Packet(ops.out, |e.data|, e.data)];
          }
        case Stderr =>
          if |e.data| == 0 {
            Delete(Stderr);
            stderrOpen := false;
          } else {
            sent := sent + [Packet(ops.err, |e.data|, e.data)];
          }
        case Stop =>
          exitCode := Some(e.data[0]);
          Delete(Stop);
      }
      if status.Running? && e.hangup {
        match e.source
        case Stdout =>
          if stdoutOpen && !e.readable {
            Delete(Stdout);
            stdoutOpen := false;
          }
        case Stderr =>
          if stderrOpen && !e.readable {
            Delete(Stderr);
            stderrOpen := false;
          }
        case Stop =>
          if exitCode.None? {
            status := NoStatus;
            return;
          }
      }
      if status.Running? && exitCode.Some? && !stdoutOpen && !stderrOpen {
        reported := true;
        sent := sent + [Packet(CMD_EXIT, exitCode.value, [])];
        status := Done;
      }
    }
  }

  // ---- the loop among the processes that write to it

  /** A pipe: unread bytes, everything ever written, whether a writer is left. */
  datatype Pipe = Pipe(unread: Bytes, written: Bytes, writers: bool)

  /** The status channel: the code not yet read, the code that was put, its writer. */
  datatype Channel = Channel(unread: Option<Byte>, put: Option<Byte>, writer: bool)

  datatype System = System(io: Io, out: Pipe, err: Pipe, stop: Channel)

  datatype Step =
    | Write(source: Source, data: Bytes)
    | LastWriterGone(source: Source)
    | PutCode(code: Byte)
    | WorkerGone
    | Poll(e: Event)
    | Break

  function Initial(tty: bool): System {
    System(Started(tty), Pipe([], [], true), Pipe([], [], !tty), Channel(None, None, true))
  }

  function PipeOf(s: System, source: Source): Pipe {
    if source.Stdout? then s.out else s.err
  }

  function WithPipe(s: System, source: Source, p: Pipe): System {
    if source.Stdout? then s.(out := p) else s.(err := p)
  }

  /** What epoll and read may report of a stream: readable whenever bytes wait, and then
      some of them, at most the buffer's size, are read; nothing is read only at the end. */
  predicate StreamEvent(p: Pipe, e: Event, bufferSize: nat) {
    && (e.readable || e.hangup)
    && (e.hangup ==> !p.writers)
    && (p.unread != [] ==> e.readable)
    && (e.readable ==> (p.unread != [] || !p.writers)
                       && e.data <= p.unread && |e.data| <= bufferSize && (e.data == [] ==> p.unread == []))
    && (!e.readable ==> e.data == [])
  }

  predicate StopEvent(c: Channel, e: Event) {
    && (e.readable || e.hangup)
    && (e.hangup ==> !c.writer)
    && (e.readable <==> c.unread.Some?)
    && e.data == if c.unread.Some? then [c.unread.value] else []
  }

  /** The environment may write, close and put the code whenever it likes, the leader's
      descendants after its exit included; the loop waits for events of its epoll set. */
  predicate Enabled(s: System, step: Step, bufferSize: nat) {
    match step
    case Write(source, data) => !source.Stop? && PipeOf(s, source).writers
    case LastWriterGone(source) => !source.Stop? && PipeOf(s, source).writers
    case PutCode(code) => s.stop.writer && s.stop.put.None?
    case WorkerGone => s.stop.writer
    case Poll(e) =>
      s.io.status.Running? && e.source in s.io.registered
      && if e.source.Stop? then StopEvent(s.stop, e) else StreamEvent(PipeOf(s, e.source), e, bufferSize)
    case Break => s.io.status.Running?
  }

  function Apply(s: System, step: Step, ops: Ops): System {
    match step
    case Write(source, data) =>
      var p := PipeOf(s, source);
      WithPipe(s, source, Pipe(p.unread + data, p.written + data, p.writers))
    case LastWriterGone(source) => WithPipe(s, source, PipeOf(s, source).(writers := false))
    case PutCode(code) => s.(stop := Channel(Some(code), Some(code), s.stop.writer))
    case WorkerGone => s.(stop := s.stop.(writer := false))
    case Poll(e) =>
      var t := s.(io := Round(s.io, ops, e));
      if e.source.Stop? then t.(stop := t.stop.(unread := if e.readable then None else t.stop.unread))
      else
        var p := PipeOf(s, e.source);
        WithPipe(t, e.source, p.(unread := if |e.data| <= |p.unread| then p.unread[|e.data|..] else []))
    case Break => s.(io := s.io.(status := Broken))
  }

  predicate Possible(s: System, steps: seq<Step>, ops: Ops, bufferSize: nat)
    decreases |steps|
  {
    if steps == [] then true
    else Enabled(s, steps[0], bufferSize) && Possible(Apply(s, steps[0], ops), steps[1..], ops, bufferSize)
  }

  function After(s: System, steps: seq<Step>, ops: Ops, bufferSize: nat): System
    requires Possible(s, steps, ops, bufferSize)
    decreases |steps|
  {
    if steps == [] then s else After(Apply(s, steps[0], ops), steps[1..], ops, bufferSize)
  }

  // ---- invariant

  /** The bytes of one stream, put together from its frames. */
  function StreamOf(ps: seq<Packet>, op: Opcode): Bytes {
    if ps == [] then []
    else StreamOf(ps[..|ps| - 1], op) + if ps[|ps| - 1].op == op then ps[|ps| - 1].payload else []
  }

  predicate NoExit(ps: seq<Packet>) {
    forall p :: p in ps ==> p.op != CMD_EXIT
  }

  lemma StreamAppend(ps: seq<Packet>, p: Packet, op: Opcode)
    ensures StreamOf(ps + [p], op) == StreamOf(ps, op) + if p.op == op then p.payload else []
  {
    assert (ps + [p])[..|ps|] == ps;
  }

  predicate Drains(p: Pipe, open: bool, ps: seq<Packet>, op: Opcode) {
    && StreamOf(ps, op) + p.unread == p.written
    && (!open ==> !p.writers && p.unread == [])
  }

  predicate Sound(s: System, ops: Ops) {
    && Drains(s.out, s.io.stdoutOpen, s.io.sent, ops.out)
    && Drains(s.err, s.io.stderrOpen, s.io.sent, ops.err)
    && AllProper(ToHost, s.io.sent)
    && (s.io.exitCode.Some? ==> s.stop.put == s.io.exitCode && s.stop.unread.None?)
    && (s.stop.unread.Some? ==> s.stop.put == s.stop.unread)
    && (s.stop.put.Some? && s.io.exitCode.None? ==> s.stop.unread.Some?)
    && !s.io.status.DoubleDelete?
    && (s.io.status.Running? ==> Tidy(s.io))
    && (!s.io.status.Done? ==> NoExit(s.io.sent) && !s.io.reported)
    && (s.io.status.Done? ==>
          s.io.reported && s.io.exitCode.Some? && !s.io.stdoutOpen && !s.io.stderrOpen
          && s.io.sent != [] && NoExit(s.io.sent[..|s.io.sent| - 1])
          && s.io.sent[|s.io.sent| - 1] == ExitPacket(s.io.exitCode.value))
    && (s.io.status.NoStatus? ==> s.stop.put.None? && !s.stop.writer)
  }

  lemma ConcludedIsSound(s: System, ops: Ops)
    requires Distinct(ops) && Sound(s, ops)
    ensures Sound(s.(io := Concluded(s.io)), ops)
  {
    hide StreamOf;
    if Concluded(s.io) != s.io {
      var p := ExitPacket(s.io.exitCode.value);
      StreamAppend(s.io.sent, p, ops.out);
      StreamAppend(s.io.sent, p, ops.err);
      assert StreamOf(s.io.sent, ops.out) + [] == StreamOf(s.io.sent, ops.out);
      assert StreamOf(s.io.sent, ops.err) + [] == StreamOf(s.io.sent, ops.err);
      assert (s.io.sent + [p])[..|s.io.sent|] == s.io.sent;
    }
  }

  lemma StopReactionIsSound(s: System, ops: Ops, e: Event)
    requires Sound(s, ops) && s.io.status.Running? && e.source.Stop? && Stop in s.io.registered && StopEvent(s.stop, e)
    ensures Sound(s.(io := Reacted(s.io, ops, e),
            stop := s.stop.(unread := if e.readable then None else s.stop.unread)), ops)
  {
    hide StreamOf;
  }

  lemma DataReactionIsSound(s: System, ops: Ops, e: Event, bufferSize: nat)
    requires Distinct(ops) && Sound(s, ops) && s.io.status.Running? && bufferSize < LIMIT
    requires !e.source.Stop? && StreamEvent(PipeOf(s, e.source), e, bufferSize) && e.data != []
    ensures var p := PipeOf(s, e.source);
            Sound(WithPipe(s.(io := Reacted(s.io, ops, e)), e.source, p.(unread := p.unread[|e.data|..])), ops)
  {
    hide StreamOf;
    var p := PipeOf(s, e.source);
    assert p.unread == e.data + p.unread[|e.data|..];
    var op := if e.source.Stdout? then ops.out else ops.err;
    var packet := StreamPacket(op, e.data);
    StreamAppend(s.io.sent, packet, ops.out);
    StreamAppend(s.io.sent, packet, ops.err);
    assert StreamOf(s.io.sent, op) + (e.data + p.unread[|e.data|..]) ==
           StreamOf(s.io.sent, op) + e.data + p.unread[|e.data|..];
    assert StreamOf(s.io.sent, ops.out) + [] == StreamOf(s.io.sent, ops.out);
    assert StreamOf(s.io.sent, ops.err) + [] == StreamOf(s.io.sent, ops.err);
  }

  lemma EndReactionIsSound(s: System, ops: Ops, e: Event, bufferSize: nat)
    requires Sound(s, ops) && s.io.status.Running? && e.source in s.io.registered
    requires !e.source.Stop? && StreamEvent(PipeOf(s, e.source), e, bufferSize) && e.data == []
    ensures Sound(s.(io := Reacted(s.io, ops, e)), ops)
  {
    hide StreamOf;
  }

  lemma PollIsSound(s: System, ops: Ops, e: Event, bufferSize: nat)
    requires Distinct(ops) && Sound(s, ops) && bufferSize < LIMIT && Enabled(s, Poll(e), bufferSize)
    ensures Sound(Apply(s, Poll(e), ops), ops)
  {
    hide StreamOf, Reacted, Concluded;
    var t := Apply(s, Poll(e), ops);
    var u := t.(io := Reacted(s.io, ops, e));
    if e.source.Stop? {
      StopReactionIsSound(s, ops, e);
    } else if e.data != [] {
      DataReactionIsSound(s, ops, e, bufferSize);
    } else {
      EndReactionIsSound(s, ops, e, bufferSize);
      assert PipeOf(s, e.source).unread[0..] == PipeOf(s, e.source).unread;
      assert u == s.(io := Reacted(s.io, ops, e));
    }
    ConcludedIsSound(u, ops);
  }

  lemma StepIsSound(s: System, step: Step, ops: Ops, bufferSize: nat)
    requires Distinct(ops) && Sound(s, ops) && bufferSize < LIMIT && Enabled(s, step, bufferSize)
    ensures Sound(Apply(s, step, ops), ops)
  {
    hide StreamOf, Round;
    match step
    case Poll(e) =>
      PollIsSound(s, ops, e, bufferSize);
    case Write(source, data) =>
      var p := PipeOf(s, source);
      var op := if source.Stdout? then ops.out else ops.err;
      assert StreamOf(s.io.sent, op) + (p.unread + data) == p.written + data;
    case _ =>
  }

  lemma {:induction false} RunIsSound(s: System, steps: seq<Step>, ops: Ops, bufferSize: nat)
    requires Distinct(ops) && Sound(s, ops) && bufferSize < LIMIT && Possible(s, steps, ops, bufferSize)
    ensures Sound(After(s, steps, ops, bufferSize), ops)
    decreases |steps|
  {
    if steps != [] {
      StepIsSound(s, steps[0], ops, bufferSize);
      RunIsSound(Apply(s, steps[0], ops), steps[1..], ops, bufferSize);
    }
  }

  lemma StartIsSound(tty: bool, ops: Ops)
    ensures Sound(Initial(tty), ops)
  {
  }

  /** For every chunking of the two streams by the leader and its descendants, every mix of
      readable and hang-up events, and every order: no descriptor is removed from epoll
      twice; and when the loop is done, each stream's frames are exactly the bytes that
      were ever written to it, its last writer is gone, and the one exit frame comes last
      and carries the code that the worker put. */
  lemma OutputIsComplete(tty: bool, ops: Ops, bufferSize: nat, steps: seq<Step>)
    requires Distinct(ops) && bufferSize < LIMIT && Possible(Initial(tty), steps, ops, bufferSize)
    ensures var s := After(Initial(tty), steps, ops, bufferSize);
            && !s.io.status.DoubleDelete?
            && StreamOf(s.io.sent, ops.out) <= s.out.written && StreamOf(s.io.sent, ops.err) <= s.err.written
            && (s.io.status.Done? ==>
                  && StreamOf(s.io.sent, ops.out) == s.out.written && !s.out.writers
                  && StreamOf(s.io.sent, ops.err) == s.err.written && !s.err.writers
                  && s.stop.put.Some? && s.io.reported && s.io.sent != []
                  && s.io.sent[|s.io.sent| - 1] == ExitPacket(s.stop.put.value)
                  && NoExit(s.io.sent[..|s.io.sent| - 1]))
            && (s.io.status.NoStatus? ==> s.stop.put.None?)
  {
    hide StreamOf;
    StartIsSound(tty, ops);
    RunIsSound(Initial(tty), steps, ops, bufferSize);
    var s := After(Initial(tty), steps, ops, bufferSize);
    assert s.io.status.Done? ==> StreamOf(s.io.sent, ops.out) + [] == StreamOf(s.io.sent, ops.out);
    assert s.io.status.Done? ==> StreamOf(s.io.sent, ops.err) + [] == StreamOf(s.io.sent, ops.err);
  }

  // ---- the loop never waits for nothing

  /** A loop that goes on still waits for the code or for one of the streams. */
  predicate Pending(io: Io) {
    io.status.Running? ==> io.exitCode.None? || io.stdoutOpen || io.stderrOpen
  }

  lemma RoundIsPending(io: Io, ops: Ops, e: Event)
    ensures Pending(Round(io, ops, e))
  {
    hide Reacted;
  }

  lemma StepIsPending(s: System, step: Step, ops: Ops, bufferSize: nat)
    requires Pending(s.io) && Enabled(s, step, bufferSize)
    ensures Pending(Apply(s, step, ops).io)
  {
    hide Round, Pending;
    match step
    case Poll(e) => RoundIsPending(s.io, ops, e);
    case Break => BrokenIsPending(s.io);
    case _ =>
  }

  lemma BrokenIsPending(io: Io)
    ensures Pending(io.(status := Broken))
  {
  }

  lemma {:induction false} RunIsPending(s: System, steps: seq<Step>, ops: Ops, bufferSize: nat)
    requires Pending(s.io) && Possible(s, steps, ops, bufferSize)
    ensures Pending(After(s, steps, ops, bufferSize).io)
    decreases |steps|
  {
    hide Pending, Apply, Enabled;
    if steps != [] {
      StepIsPending(s, steps[0], ops, bufferSize);
      RunIsPending(Apply(s, steps[0], ops), steps[1..], ops, bufferSize);
    }
  }

  /** In every reachable state: a loop that is neither done nor broken still lacks the code, or
      a stream of it is open. */
  lemma NobodyWaitsForNothing(tty: bool, ops: Ops, bufferSize: nat, steps: seq<Step>)
    requires Possible(Initial(tty), steps, ops, bufferSize)
    ensures var io := After(Initial(tty), steps, ops, bufferSize).io;
            io.status.Running? ==> io.exitCode.None? || io.stdoutOpen || io.stderrOpen
  {
    RunIsPending(Initial(tty), steps, ops, bufferSize);
  }

  /** Nothing more can come in: the code has been put and no stream has a writer left. */
  predicate AllIn(s: System) {
    s.stop.put.Some? && !s.out.writers && !s.err.writers
  }

  /** A bound on the polls that are left. */
  function Left(s: System): nat {
    |s.out.unread| + |s.err.unread| + |s.io.registered|
  }

  function Polls(steps: seq<Step>): nat {
    if steps == [] then 0 else (if steps[0].Poll? then 1 else 0) + Polls(steps[1..])
  }

  /** What epoll can report next: the code if it has not been read, else an open stream. */
  function NextEvent(s: System, bufferSize: nat): Event {
    if s.io.exitCode.None? then
      Event(Stop, true, false, if s.stop.unread.Some? then [s.stop.unread.value] else [])
    else
      var source := if s.io.stdoutOpen then Stdout else Stderr;
      var p := PipeOf(s, source);
      var n := if |p.unread| <= bufferSize then |p.unread| else bufferSize;
      Event(source, p.unread != [], p.unread == [], p.unread[..n])
  }

  lemma APollIsEnabled(s: System, ops: Ops, bufferSize: nat)
    requires Sound(s, ops) && Pending(s.io) && s.io.status.Running? && AllIn(s) && bufferSize > 0
    ensures Enabled(s, Poll(NextEvent(s, bufferSize)), bufferSize)
  {
    hide StreamOf;
    var e := NextEvent(s, bufferSize);
    assert Open(s.io, e.source);
    assert e.source in s.io.registered;
  }

  lemma PollUsesUp(s: System, ops: Ops, e: Event, bufferSize: nat)
    requires Sound(s, ops) && AllIn(s) && Enabled(s, Poll(e), bufferSize)
    ensures AllIn(Apply(s, Poll(e), ops)) && Left(Apply(s, Poll(e), ops)) < Left(s)
  {
    hide StreamOf, Concluded;
    var io := Reacted(s.io, ops, e);
    assert Concluded(io).registered == io.registered by { ConcludedKeepsSet(io); }
    if e.source.Stop? {
      assert s.io.registered == io.registered + {Stop};
    } else if e.data == [] {
      assert s.io.registered == io.registered + {e.source};
    }
  }

  lemma ConcludedKeepsSet(io: Io)
    ensures Concluded(io).registered == io.registered
  {
  }

  lemma StepUsesUp(s: System, step: Step, ops: Ops, bufferSize: nat)
    requires Sound(s, ops) && AllIn(s) && Enabled(s, step, bufferSize)
    ensures AllIn(Apply(s, step, ops))
    ensures Left(Apply(s, step, ops)) + (if step.Poll? then 1 else 0) <= Left(s)
  {
    hide StreamOf, Round, Drains, Tidy;
    match step
    case Poll(e) => PollUsesUp(s, ops, e, bufferSize);
    case _ =>
  }

  lemma {:induction false} RunUsesUp(s: System, steps: seq<Step>, ops: Ops, bufferSize: nat)
    requires Distinct(ops) && Sound(s, ops) && Pending(s.io) && AllIn(s) && bufferSize < LIMIT
    requires Possible(s, steps, ops, bufferSize)
    ensures var t := After(s, steps, ops, bufferSize);
            Sound(t, ops) && Pending(t.io) && AllIn(t) && Left(t) + Polls(steps) <= Left(s)
    decreases |steps|
  {
    hide Sound, Pending, AllIn, Apply, Enabled, Left;
    if steps != [] {
      StepIsSound(s, steps[0], ops, bufferSize);
      StepIsPending(s, steps[0], ops, bufferSize);
      StepUsesUp(s, steps[0], ops, bufferSize);
      RunUsesUp(Apply(s, steps[0], ops), steps[1..], ops, bufferSize);
    }
  }

  /** Once the code has been put and no stream has a writer left, in whatever reachable state
      that is: the loop takes at most as many more polls as there are unread bytes and
      registered sources, however they are ordered and cut up; and until it is done, unless
      the stream to the host breaks, a poll is possible. So its polls end in the exit
      frame, a command without any output included. */
  lemma DrainedLoopFinishes(tty: bool, ops: Ops, bufferSize: nat, steps: seq<Step>, more: seq<Step>)
    requires Distinct(ops) && 0 < bufferSize < LIMIT && Possible(Initial(tty), steps, ops, bufferSize)
    requires var s := After(Initial(tty), steps, ops, bufferSize);
             AllIn(s) && Possible(s, more, ops, bufferSize)
    ensures var s := After(Initial(tty), steps, ops, bufferSize);
            var t := After(s, more, ops, bufferSize);
            && Polls(more) <= |s.out.unread| + |s.err.unread| + |s.io.registered|
            && (t.io.status.Broken? || t.io.status.Done?
                || (t.io.status.Running? && exists e :: Enabled(t, Poll(e), bufferSize)))
  {
    hide Possible, After, Sound, Pending, AllIn, Polls, Enabled;
    StartIsSound(tty, ops);
    StartIsPending(tty);
    RunIsSound(Initial(tty), steps, ops, bufferSize);
    RunIsPending(Initial(tty), steps, ops, bufferSize);
    var s := After(Initial(tty), steps, ops, bufferSize);
    RunUsesUp(s, more, ops, bufferSize);
    var t := After(s, more, ops, bufferSize);
    StatusLeft(t, ops);
    if t.io.status.Running? {
      APollIsEnabled(t, ops, bufferSize);
    }
  }

  lemma StartIsPending(tty: bool)
    ensures Pending(Initial(tty).io)
  {
  }

  lemma StatusLeft(s: System, ops: Ops)
    requires Sound(s, ops) && AllIn(s)
    ensures s.io.status.Running? || s.io.status.Broken? || s.io.status.Done?
  {
    hide StreamOf, Drains, Tidy;
  }

  /** What the runs range over: as long as a stream has a writer anything may be written to it and
      its last writer may go; the worker may put any code once; the stream to the host may break
      at any time. */
  lemma NobodyIsHeldBack(s: System, source: Source, data: Bytes, code: Byte, ops: Ops, bufferSize: nat)
    requires !source.Stop?
    ensures PipeOf(s, source).writers ==>
              && Enabled(s, Write(source, data), bufferSize) && Enabled(s, LastWriterGone(source), bufferSize)
              && PipeOf(Apply(s, Write(source, data), ops), source).written == PipeOf(s, source).written + data
              && !PipeOf(Apply(s, LastWriterGone(source), ops), source).writers
    ensures s.stop.writer && s.stop.put.None? ==>
              Enabled(s, PutCode(code), bufferSize) && Apply(s, PutCode(code), ops).stop.put == Some(code)
    ensures s.io.status.Running? ==> Enabled(s, Break, bufferSize) && Apply(s, Break, ops).io.status.Broken?
  {
  }

  /** A worker that goes away without having put a code is noticed: the loop can poll the
      hang-up, and ends without a status and without an exit frame. */
  lemma VanishedWorkerIsNoticed(tty: bool, ops: Ops, bufferSize: nat, steps: seq<Step>)
    requires Distinct(ops) && bufferSize < LIMIT && Possible(Initial(tty), steps, ops, bufferSize)
    requires var s := After(Initial(tty), steps, ops, bufferSize);
             s.io.status.Running? && s.stop.put.None? && s.stop.writer
    ensures var s := After(Initial(tty), steps, ops, bufferSize);
            var hangup := Poll(Event(Stop, false, true, []));
            && Enabled(s, WorkerGone, bufferSize)
            && var t := Apply(s, WorkerGone, ops);
               && t.io == s.io && t.out == s.out && t.err == s.err
               && Enabled(t, hangup, bufferSize)
               && Apply(t, hangup, ops).io == s.io.(status := NoStatus)
  {
    hide StreamOf, Possible, After, Drains;
    StartIsSound(tty, ops);
    RunIsSound(Initial(tty), steps, ops, bufferSize);
    var s := After(Initial(tty), steps, ops, bufferSize);
    assert Stop in s.io.registered;
  }

  // ---- the launcher's end

  datatype Client = Client(out: Bytes, err: Bytes, code: Option<nat>)

  /** One frame at the client; nothing is read after the exit frame. */
  function Shown(c: Client, p: Packet, ops: Ops): Client {
    if c.code.Some? then c
    else if p.op == CMD_EXIT then c.(code := Some(p.number))
    else if p.op == ops.out then c.(out := c.out + p.payload)
    else if p.op == ops.err then c.(err := c.err + p.payload)
    else c
  }

  function AllShown(c: Client, ps: seq<Packet>, ops: Ops): Client
    decreases |ps|
  {
    if ps == [] then c else AllShown(Shown(c, ps[0], ops), ps[1..], ops)
  }

  lemma ShowHead(c: Client, p: Packet, rest: seq<Packet>, ops: Ops)
    ensures AllShown(c, [p] + rest, ops) == AllShown(Shown(c, p, ops), rest, ops)
  {
    assert ([p] + rest)[1..] == rest;
  }

  lemma {:induction false} NothingAfterExit(c: Client, ps: seq<Packet>, ops: Ops)
    requires c.code.Some?
    ensures AllShown(c, ps, ops) == c
    decreases |ps|
  {
    if ps != [] {
      NothingAfterExit(c, ps[1..], ops);
    }
  }

  /** run_io_host: copy frames to the two streams until the exit frame, which ends it. */
  method RunIoHost(wire: Bytes, ops: Ops) returns (c: Client)
    requires Distinct(ops)
    ensures c == AllShown(Client([], [], None), Parse(ToHost, wire), ops)
  {
    hide Parse, AllShown;
    c := Client([], [], None);
    var at := 0;
    assert wire[0..] == wire;
    while true
      invariant 0 <= at <= |wire| && c.code.None?
      invariant AllShown(c, Parse(ToHost, wire[at..]), ops) == AllShown(Client([], [], None), Parse(ToHost, wire), ops)
      decreases |wire| - at
    {
      ghost var tail := wire[at..];
      if |wire| - at < 2 {
        NothingToShow(c, tail, ops);
        return;
      }
      ParseHead(ToHost, tail);
      assert tail[..2] == wire[at..at + 2];
      var command := FromLittleEndian(wire[at..at + 2]);
      at := at + 2;
      var op := OpcodeOf(command);
      var len := NumberOf(command);
      if op == CMD_EXIT {
        ShowHead(c, Packet(op, len, tail[2..2]), Parse(ToHost, tail[2..]), ops);
        c := c.(code := Some(len));
        NothingAfterExit(c, Parse(ToHost, tail[2..]), ops);
        return;
      } else if op == ops.out || op == ops.err {
        if |wire| - at < len {
          ShowNothing(c, ops);
          return;
        }
        var data := wire[at..at + len];
        assert tail[2..2 + len] == data && tail[2 + len..] == wire[at + len..];
        ShowHead(c, Packet(op, len, data), Parse(ToHost, tail[2 + len..]), ops);
        at := at + len;
        c := if op == ops.out then c.(out := c.out + data) else c.(err := c.err + data);
      } else {
        ShowNothing(c, ops);
        return;
      }
    }
  }

  lemma NothingToShow(c: Client, tail: Bytes, ops: Ops)
    requires |tail| < 2
    ensures AllShown(c, Parse(ToHost, tail), ops) == c
  {
  }

  lemma ShowNothing(c: Client, ops: Ops)
    ensures AllShown(c, [], ops) == c
  {
  }

  lemma {:induction false} ShownLast(c: Client, ps: seq<Packet>, p: Packet, ops: Ops)
    ensures AllShown(c, ps + [p], ops) == Shown(AllShown(c, ps, ops), p, ops)
    decreases |ps|
  {
    hide Shown;
    if ps == [] {
      assert ps + [p] == [p] && [p][1..] == [];
    } else {
      assert (ps + [p])[1..] == ps[1..] + [p];
      ShownLast(Shown(c, ps[0], ops), ps[1..], p, ops);
    }
  }

  lemma {:induction false} StreamsShown(ps: seq<Packet>, ops: Ops)
    requires Distinct(ops) && NoExit(ps)
    ensures AllShown(Client([], [], None), ps, ops) == Client(StreamOf(ps, ops.out), StreamOf(ps, ops.err), None)
    decreases |ps|
  {
    if ps != [] {
      var init := ps[..|ps| - 1];
      var last := ps[|ps| - 1];
      assert ps == init + [last] && last in ps && forall p :: p in init ==> p in ps;
      StreamsShown(init, ops);
      ShownLast(Client([], [], None), init, last, ops);
    }
  }

  /** End to end: when the guest's loop is done, the bytes it put on the wire make the
      launcher write exactly what the command's processes wrote, stream by stream, and
      return the code that the worker put. */
  lemma ClientGetsEverything(tty: bool, ops: Ops, bufferSize: nat, steps: seq<Step>)
    requires Distinct(ops) && bufferSize < LIMIT && Possible(Initial(tty), steps, ops, bufferSize)
    requires After(Initial(tty), steps, ops, bufferSize).io.status.Done?
    ensures var s := After(Initial(tty), steps, ops, bufferSize);
            s.stop.put.Some?
            && AllShown(Client([], [], None), Parse(ToHost, EncodeAll(s.io.sent)), ops)
               == Client(s.out.written, s.err.written, Some(s.stop.put.value))
  {
    hide StreamOf, AllShown, Parse;
    var s := After(Initial(tty), steps, ops, bufferSize);
    StartIsSound(tty, ops);
    RunIsSound(Initial(tty), steps, ops, bufferSize);
    assert EncodeAll(s.io.sent) + [] == EncodeAll(s.io.sent);
    ParseUndoesEncode(ToHost, s.io.sent, []);
    NothingParsed(ToHost);
    assert s.io.sent + [] == s.io.sent;
    WholeStreamShown(s, ops);
  }

  /** At any moment of any run, for any part of the stream that has arrived: as soon as the
      launcher has read an exit code, the loop is done and has reported it, and the launcher
      has written all that was ever written to either stream; before, a beginning of it. */
  lemma ExitSeenMeansAllSeen(tty: bool, ops: Ops, bufferSize: nat, steps: seq<Step>, arrived: Bytes)
    requires Distinct(ops) && bufferSize < LIMIT && Possible(Initial(tty), steps, ops, bufferSize)
    requires arrived <= EncodeAll(After(Initial(tty), steps, ops, bufferSize).io.sent)
    ensures var s := After(Initial(tty), steps, ops, bufferSize);
            var c := AllShown(Client([], [], None), Parse(ToHost, arrived), ops);
            && c.out <= s.out.written && c.err <= s.err.written
            && (c.code.Some? ==>
                  s.io.status.Done? && s.io.reported && s.stop.put.Some?
                  && c == Client(s.out.written, s.err.written, Some(s.stop.put.value)))
  {
    hide StreamOf, AllShown, Parse, EncodeAll;
    var s := After(Initial(tty), steps, ops, bufferSize);
    StartIsSound(tty, ops);
    RunIsSound(Initial(tty), steps, ops, bufferSize);
    var k := ParsePrefix(ToHost, s.io.sent, arrived);
    var seen := s.io.sent[..k];
    if s.io.status.Done? && k == |s.io.sent| {
      assert seen == s.io.sent;
      WholeStreamShown(s, ops);
    } else {
      var body := if s.io.status.Done? then s.io.sent[..|s.io.sent| - 1] else s.io.sent;
      assert seen == body[..k] && forall p :: p in seen ==> p in body;
      StreamsShown(seen, ops);
      StreamPrefix(s.io.sent, k, ops.out);
      StreamPrefix(s.io.sent, k, ops.err);
    }
  }

  lemma {:induction false} StreamPrefix(ps: seq<Packet>, k: nat, op: Opcode)
    requires k <= |ps|
    ensures StreamOf(ps[..k], op) <= StreamOf(ps, op)
    decreases |ps|
  {
    if k < |ps| {
      StreamPrefix(ps[..|ps| - 1], k, op);
      assert ps[..|ps| - 1][..k] == ps[..k];
    } else {
      assert ps[..k] == ps;
    }
  }

  // ---- and every output comes through

  lemma Prepended(s: System, step: Step, rest: seq<Step>, ops: Ops, bufferSize: nat)
    requires Enabled(s, step, bufferSize) && Possible(Apply(s, step, ops), rest, ops, bufferSize)
    ensures Possible(s, [step] + rest, ops, bufferSize)
    ensures After(s, [step] + rest, ops, bufferSize) == After(Apply(s, step, ops), rest, ops, bufferSize)
  {
    hide Enabled, Apply;
    assert ([step] + rest)[1..] == rest;
  }

  lemma PollGoesOn(s: System, ops: Ops, e: Event, bufferSize: nat)
    requires Distinct(ops) && Sound(s, ops) && Pending(s.io) && AllIn(s) && bufferSize < LIMIT
    requires Enabled(s, Poll(e), bufferSize)
    ensures var t := Apply(s, Poll(e), ops);
            && Sound(t, ops) && Pending(t.io) && AllIn(t) && Left(t) < Left(s)
            && (t.io.status.Running? || t.io.status.Done?)
            && t.out.written == s.out.written && t.err.written == s.err.written && t.stop.put == s.stop.put
  {
    hide Sound, Pending, AllIn, Left, Round;
    StepIsSound(s, Poll(e), ops, bufferSize);
    StepIsPending(s, Poll(e), ops, bufferSize);
    PollUsesUp(s, ops, e, bufferSize);
    StatusLeft(Apply(s, Poll(e), ops), ops);
    NotBroken(s.io, ops, e);
  }

  lemma NotBroken(io: Io, ops: Ops, e: Event)
    requires io.status.Running?
    ensures !Round(io, ops, e).status.Broken?
  {
  }

  /** The polls that end the loop once all is in. */
  lemma {:induction false} FinishingPolls(s: System, ops: Ops, bufferSize: nat) returns (polls: seq<Step>)
    requires Distinct(ops) && 0 < bufferSize < LIMIT && Sound(s, ops) && Pending(s.io) && AllIn(s)
    requires s.io.status.Running? || s.io.status.Done?
    ensures Possible(s, polls, ops, bufferSize) && forall p :: p in polls ==> p.Poll?
    ensures var t := After(s, polls, ops, bufferSize);
            t.io.status.Done? && t.out.written == s.out.written && t.err.written == s.err.written
            && t.stop.put == s.stop.put
    decreases Left(s)
  {
    hide Sound, Pending, AllIn, Apply, Enabled, Left;
    if s.io.status.Done? {
      return [];
    }
    var e := NextEvent(s, bufferSize);
    APollIsEnabled(s, ops, bufferSize);
    PollGoesOn(s, ops, e, bufferSize);
    var rest := FinishingPolls(Apply(s, Poll(e), ops), ops, bufferSize);
    Prepended(s, Poll(e), rest, ops, bufferSize);
    polls := [Poll(e)] + rest;
  }

  lemma {:induction false} Joined(s: System, a: seq<Step>, b: seq<Step>, ops: Ops, bufferSize: nat)
    requires Possible(s, a, ops, bufferSize) && Possible(After(s, a, ops, bufferSize), b, ops, bufferSize)
    ensures Possible(s, a + b, ops, bufferSize)
    ensures After(s, a + b, ops, bufferSize) == After(After(s, a, ops, bufferSize), b, ops, bufferSize)
    decreases |a|
  {
    hide Enabled, Apply;
    if a == [] {
      assert a + b == b;
    } else {
      Joined(Apply(s, a[0], ops), a[1..], b, ops, bufferSize);
      assert a + b == [a[0]] + (a[1..] + b);
      Prepended(s, a[0], a[1..] + b, ops, bufferSize);
    }
  }

  /** Writing both streams, closing them and putting the code. */
  lemma AllWritten(tty: bool, ops: Ops, bufferSize: nat, out: Bytes, err: Bytes, code: Byte) returns (steps: seq<Step>)
    requires tty ==> err == []
    ensures Possible(Initial(tty), steps, ops, bufferSize)
    ensures var s := After(Initial(tty), steps, ops, bufferSize);
            && s.out.written == out && s.err.written == err && s.stop.put == Some(code)
            && s.io == Started(tty) && AllIn(s)
  {
    var s0 := Initial(tty);
    var w, x, y, p := Write(Stdout, out), LastWriterGone(Stdout), Write(Stderr, err), PutCode(code);
    var s1 := Apply(s0, w, ops);
    var s2 := Apply(s1, x, ops);
    var s3 := Apply(s2, p, ops);
    Prepended(s2, p, [], ops, bufferSize);
    steps := [p];
    if !tty {
      var z := LastWriterGone(Stderr);
      var s4 := Apply(s3, y, ops);
      Prepended(s4, z, [], ops, bufferSize);
      Prepended(s3, y, [z], ops, bufferSize);
      Prepended(s2, p, [y] + [z], ops, bufferSize);
      steps := [p] + ([y] + [z]);
      assert [] + err == err;
    }
    assert [] + out == out;
    Prepended(s1, x, steps, ops, bufferSize);
    Prepended(s0, w, [x] + steps, ops, bufferSize);
    steps := [w] + ([x] + steps);
  }

  /** For any bytes on either stream, none included, and any code: there is a run that ends
      with the client having written exactly these and returning that code. */
  lemma AnyOutputArrives(tty: bool, ops: Ops, bufferSize: nat, out: Bytes, err: Bytes, code: Byte)
      returns (steps: seq<Step>)
    requires Distinct(ops) && 0 < bufferSize < LIMIT && (tty ==> err == [])
    ensures Possible(Initial(tty), steps, ops, bufferSize)
    ensures AllShown(Client([], [], None),
                     Parse(ToHost, EncodeAll(After(Initial(tty), steps, ops, bufferSize).io.sent)), ops)
         == Client(out, err, Some(code))
  {
    hide Possible, After, Sound, Pending, AllIn, Apply, Enabled, AllShown, Parse, EncodeAll;
    var writes := AllWritten(tty, ops, bufferSize, out, err, code);
    var s := After(Initial(tty), writes, ops, bufferSize);
    StartIsSound(tty, ops);
    StartIsPending(tty);
    RunIsSound(Initial(tty), writes, ops, bufferSize);
    RunIsPending(Initial(tty), writes, ops, bufferSize);
    var polls := FinishingPolls(s, ops, bufferSize);
    Joined(Initial(tty), writes, polls, ops, bufferSize);
    steps := writes + polls;
    ClientGetsEverything(tty, ops, bufferSize, steps);
  }

  lemma WholeStreamShown(s: System, ops: Ops)
    requires Distinct(ops) && Sound(s, ops) && s.io.status.Done?
    ensures s.stop.put.Some?
            && AllShown(Client([], [], None), s.io.sent, ops) ==
               Client(s.out.written, s.err.written, Some(s.stop.put.value))
  {
    hide StreamOf, AllShown;
    var init := s.io.sent[..|s.io.sent| - 1];
    var last := ExitPacket(s.stop.put.value);
    assert s.io.sent == init + [last];
    StreamsShown(init, ops);
    ShownLast(Client([], [], None), init, last, ops);
    StreamAppend(init, last, ops.out);
    StreamAppend(init, last, ops.err);
    assert StreamOf(init, ops.out) + [] == StreamOf(init, ops.out) == s.out.written;
    assert StreamOf(init, ops.err) + [] == StreamOf(init, ops.err) == s.err.written;
  }
}
