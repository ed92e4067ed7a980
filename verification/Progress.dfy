/** A request without a terminal never gets stuck: the launcher's two threads, the guest's
    two threads, a child that copies its input to its output, and the bounded buffers
    between them, byte by byte. */
module Progress {
  import opened Options
  import opened Wire
  import Output
  import Stdin

  // ---- one direction of the stream between launcher and guest

  /** Bytes of the frame being written, bytes in the socket, bytes of the frame being read;
      `packets` records which frames those bytes are. */
  datatype Link = Link(hold: Bytes, wire: Bytes, got: Bytes, packets: seq<Packet>)

  function Idle(): Link {
    Link([], [], [], [])
  }

  function Begun(l: Link, p: Packet): Link {
    l.(hold := Encode(p), packets := l.packets + [p])
  }

  predicate CanSend(l: Link, n: nat, capacity: nat) {
    0 < n <= |l.hold| && |l.wire| + n <= capacity
  }

  function Sent(l: Link, n: nat): Link
    requires n <= |l.hold|
  {
    l.(wire := l.wire + l.hold[..n], hold := l.hold[n..])
  }

  /** What the header says, once it is there. */
  function Announced(side: Side, got: Bytes): int
    requires |got| >= 2
  {
    var command := FromLittleEndian(got[..2]);
    PayloadSize(side, OpcodeOf(command), NumberOf(command))
  }

  /** The reader asks for the header first and then for the payload it announces. */
  function Expected(side: Side, got: Bytes): int {
    if |got| < 2 then 2 else 2 + Announced(side, got)
  }

  predicate CanTake(side: Side, l: Link, n: nat) {
    0 < n <= |l.wire| && |l.got| + n <= Expected(side, l.got)
  }

  function Taken(l: Link, n: nat): Link
    requires n <= |l.wire|
  {
    l.(got := l.got + l.wire[..n], wire := l.wire[n..])
  }

  predicate CanFinish(side: Side, l: Link) {
    |l.got| >= 2 && |l.got| == Expected(side, l.got)
  }

  function Received(l: Link): Packet
    requires |l.got| >= 2
  {
    var command := FromLittleEndian(l.got[..2]);
    Packet(OpcodeOf(command), NumberOf(command), l.got[2..])
  }

  function Finished(l: Link): Link {
    l.(got := [], packets := if l.packets == [] then [] else l.packets[1..])
  }

  predicate Aligned(side: Side, l: Link) {
    && AllProper(side, l.packets)
    && l.got + (l.wire + l.hold) == EncodeAll(l.packets)
    && (if l.packets == [] then l.got == [] else |l.got| <= |Encode(l.packets[0])|)
  }

  lemma BeginKeepsAligned(side: Side, l: Link, p: Packet)
    requires Aligned(side, l) && l.hold == [] && Proper(side, p)
    ensures Aligned(side, Begun(l, p))
  {
    EncodeAllAppend(l.packets, p);
    assert l.wire + [] == l.wire;
    assert l.got + (l.wire + Encode(p)) == l.got + l.wire + Encode(p);
  }

  lemma SendKeepsAligned(side: Side, l: Link, n: nat)
    requires Aligned(side, l) && n <= |l.hold|
    ensures Aligned(side, Sent(l, n))
  {
    assert l.wire + l.hold[..n] + l.hold[n..] == l.wire + l.hold;
  }

  /** A header that has been read whole is the header of the first frame. */
  lemma HeaderIsFirst(side: Side, l: Link)
    requires Aligned(side, l) && |l.got| >= 2
    ensures l.packets != [] && Expected(side, l.got) == |Encode(l.packets[0])|
    ensures Received(l).op == l.packets[0].op && Received(l).number == l.packets[0].number
  {
    var p := l.packets[0];
    var command := Command(p.op, p.number);
    assert p in l.packets;
    assert l.got[..2] == EncodeAll(l.packets)[..2] == LittleEndian(command);
    LittleEndianUndone(command);
    HeaderIsExact(p.op, p.number);
  }

  lemma TakeKeepsAligned(side: Side, l: Link, n: nat)
    requires Aligned(side, l) && CanTake(side, l, n)
    ensures Aligned(side, Taken(l, n))
  {
    assert l.got + l.wire[..n] + (l.wire[n..] + l.hold) == l.got + (l.wire + l.hold);
    if |l.got| >= 2 {
      HeaderIsFirst(side, l);
    }
  }

  lemma FinishIsFirst(side: Side, l: Link)
    requires Aligned(side, l) && CanFinish(side, l)
    ensures l.packets != [] && Received(l) == l.packets[0] && Aligned(side, Finished(l))
  {
    HeaderIsFirst(side, l);
    var first, rest := Encode(l.packets[0]), EncodeAll(l.packets[1..]);
    assert l.got == (first + rest)[..|l.got|] == first;
    assert [] + (l.wire + l.hold) == EncodeAll(l.packets)[|first|..] == rest;
    assert forall p :: p in l.packets[1..] ==> p in l.packets;
  }

  /** As long as a frame is on its way, its writer or its reader can go on. */
  lemma LinkMoves(side: Side, l: Link, capacity: nat)
    requires Aligned(side, l) && l.packets != [] && capacity > 0
    ensures CanSend(l, 1, capacity) || CanTake(side, l, 1) || CanFinish(side, l)
  {
    var first, rest := Encode(l.packets[0]), EncodeAll(l.packets[1..]);
    assert EncodeAll(l.packets) == first + rest;
    if |l.got| >= 2 {
      HeaderIsFirst(side, l);
    }
  }

  // ---- the whole request

  /** Capacities of the socket's two directions and of the child's two pipes, the guest's
      read buffer, the opcodes of standard output and of window sizes, the child's exit
      code, and whether the guest reads the stream in a thread of its own. */
  datatype Setup = Setup(
    upRoom: nat, downRoom: nat, inRoom: nat, outRoom: nat, buffer: nat, out: Opcode, sizeOp: Opcode, code: Byte,
      split: bool)

  predicate Workable(c: Setup) {
    && 0 < c.upRoom && 0 < c.downRoom && 0 < c.inRoom && 0 < c.outRoom && 0 < c.buffer < LIMIT
    && c.out < CMD_EXIT && c.sizeOp != CMD_WRITE_STDIN
  }

  /** No window sizes are sent without a terminal, so any other opcode may stand for them. */
  function Up(c: Setup): Side {
    ToGuest(c.sizeOp)
  }

  const DOWN: Side := ToHost

  /** The launcher's standard input and the stream to the guest. */
  datatype Inbound = Inbound(unread: Bytes, ended: bool, up: Link)

  /** What the guest's reader has still to write into the child's standard input, the
      child's two pipes and what it holds in between, and whether the worker has put the
      exit code. */
  datatype Middle = Middle(
    passing: Bytes, stdinOpen: bool, inPipe: Bytes, held: Bytes, alive: bool, outPipe: Bytes, codePut: bool)

  /** The guest's output loop and the stream to the launcher. */
  datatype Outbound = Outbound(exitCode: Option<Byte>, stdoutOpen: bool, stderrOpen: bool, exitSent: bool, down: Link)

  /** What the launcher has written to its standard output, and the code it has read. */
  datatype Client = Client(shown: Bytes, seen: Option<nat>)

  datatype State = State(inb: Inbound, mid: Middle, outb: Outbound, client: Client)

  datatype Step = In(i: InStep) | Mid(m: MidStep) | Out(o: OutStep)

  datatype InStep = ReadInput(n: nat) | HostSend(n: nat) | GuestTake(n: nat) | GuestFinish

  datatype MidStep = PassOn(n: nat) | ChildRead(n: nat) | ChildWrite(n: nat) | ChildEnd | PutCode

  datatype OutStep =
    | Drain(n: nat) | StdoutEnd | StderrEnd | ReadCode | SendExit
    | GuestSend(n: nat) | HostTake(n: nat) | HostFinish

  function Initial(input: Bytes): State {
    State(
      Inbound(input, false, Idle()), Middle([], true, [], [], true, [], false),
      Outbound(None, true, true, false, Idle()), Client([], None))
  }

  /** In one thread the guest reads the stream only between two rounds of its output loop. */
  predicate ReaderFree(s: State, c: Setup) {
    c.split || s.outb.down.hold == []
  }

  /** The output loop is between two rounds; in one thread, between two frames of input as well. */
  predicate LoopFree(s: State, c: Setup) {
    s.outb.down.hold == [] && !s.outb.exitSent && (c.split || (s.mid.passing == [] && s.inb.up.got == []))
  }

  predicate InEnabled(s: State, step: InStep, c: Setup) {
    match step
    case ReadInput(n) =>
      !s.inb.ended && s.inb.up.hold == [] && n <= Stdin.BUFFER && n <= |s.inb.unread|
        && (n == 0 <==> s.inb.unread == [])
    case HostSend(n) => CanSend(s.inb.up, n, c.upRoom)
    case GuestTake(n) => s.mid.passing == [] && ReaderFree(s, c) && CanTake(Up(c), s.inb.up, n)
    case GuestFinish => s.mid.passing == [] && ReaderFree(s, c) && CanFinish(Up(c), s.inb.up)
  }

  predicate MidEnabled(s: State, step: MidStep, c: Setup) {
    var m := s.mid;
    match step
    case PassOn(n) => ReaderFree(s, c) && 0 < n <= |m.passing| && |m.inPipe| + n <= c.inRoom
    case ChildRead(n) => m.alive && m.held == [] && 0 < n <= |m.inPipe|
    case ChildWrite(n) => m.alive && 0 < n <= |m.held| && |m.outPipe| + n <= c.outRoom
    case ChildEnd => m.alive && m.held == [] && m.inPipe == [] && !m.stdinOpen
    case PutCode => !m.alive && !m.codePut
  }

  predicate OutEnabled(s: State, step: OutStep, c: Setup) {
    var io := s.outb;
    match step
    case Drain(n) => LoopFree(s, c) && io.stdoutOpen && 0 < n <= |s.mid.outPipe| && n <= c.buffer
    case StdoutEnd => LoopFree(s, c) && io.stdoutOpen && s.mid.outPipe == [] && !s.mid.alive
    case StderrEnd => LoopFree(s, c) && io.stderrOpen && !s.mid.alive
    case ReadCode => LoopFree(s, c) && s.mid.codePut && io.exitCode.None?
    case SendExit => LoopFree(s, c) && io.exitCode.Some? && !io.stdoutOpen && !io.stderrOpen
    case GuestSend(n) => CanSend(io.down, n, c.downRoom)
    case HostTake(n) => s.client.seen.None? && CanTake(DOWN, io.down, n)
    case HostFinish => s.client.seen.None? && CanFinish(DOWN, io.down)
  }

  predicate Enabled(s: State, step: Step, c: Setup) {
    match step
    case In(i) => InEnabled(s, i, c)
    case Mid(m) => MidEnabled(s, m, c)
    case Out(o) => OutEnabled(s, o, c)
  }

  /** The guest's reader with a whole frame: the end of input, or a chunk to pass on. */
  function GuestGets(m: Middle, p: Packet): Middle {
    if p.number == 0 then m.(stdinOpen := false)
    else if m.stdinOpen then m.(passing := p.payload)
    else m
  }

  function HostGets(client: Client, p: Packet): Client {
    if p.op == CMD_EXIT then client.(seen := Some(p.number)) else client.(shown := client.shown + p.payload)
  }

  function InApply(s: State, step: InStep, c: Setup): State
    requires InEnabled(s, step, c)
  {
    var inb := s.inb;
    match step
    case ReadInput(n) => s.(inb := Inbound(inb.unread[n..], n == 0, Begun(inb.up, Stdin.InputPacket(inb.unread[..n]))))
    case HostSend(n) => s.(inb := inb.(up := Sent(inb.up, n)))
    case GuestTake(n) => s.(inb := inb.(up := Taken(inb.up, n)))
    case GuestFinish => s.(inb := inb.(up := Finished(inb.up)), mid := GuestGets(s.mid, Received(inb.up)))
  }

  function MidApply(s: State, step: MidStep, c: Setup): State
    requires MidEnabled(s, step, c)
  {
    var m := s.mid;
    match step
    case PassOn(n) => s.(mid := m.(inPipe := m.inPipe + m.passing[..n], passing := m.passing[n..]))
    case ChildRead(n) => s.(mid := m.(held := m.inPipe[..n], inPipe := m.inPipe[n..]))
    case ChildWrite(n) => s.(mid := m.(outPipe := m.outPipe + m.held[..n], held := m.held[n..]))
    case ChildEnd => s.(mid := m.(alive := false))
    case PutCode => s.(mid := m.(codePut := true))
  }

  function OutApply(s: State, step: OutStep, c: Setup): State
    requires OutEnabled(s, step, c)
  {
    var io := s.outb;
    match step
    case Drain(n) =>
      s.(mid := s.mid.(outPipe := s.mid.outPipe[n..]),
         outb := io.(down := Begun(io.down, Output.StreamPacket(c.out, s.mid.outPipe[..n]))))
    case StdoutEnd => s.(outb := io.(stdoutOpen := false))
    case StderrEnd => s.(outb := io.(stderrOpen := false))
    case ReadCode => s.(outb := io.(exitCode := Some(c.code)))
    case SendExit => s.(outb := io.(exitSent := true, down := Begun(io.down, Output.ExitPacket(io.exitCode.value))))
    case GuestSend(n) => s.(outb := io.(down := Sent(io.down, n)))
    case HostTake(n) => s.(outb := io.(down := Taken(io.down, n)))
    case HostFinish => s.(outb := io.(down := Finished(io.down)), client := HostGets(s.client, Received(io.down)))
  }

  function Apply(s: State, step: Step, c: Setup): State
    requires Enabled(s, step, c)
  {
    match step
    case In(i) => InApply(s, i, c)
    case Mid(m) => MidApply(s, m, c)
    case Out(o) => OutApply(s, o, c)
  }

  predicate Possible(s: State, steps: seq<Step>, c: Setup)
    decreases |steps|
  {
    if steps == [] then true else Enabled(s, steps[0], c) && Possible(Apply(s, steps[0], c), steps[1..], c)
  }

  function After(s: State, steps: seq<Step>, c: Setup): State
    requires Possible(s, steps, c)
    decreases |steps|
  {
    if steps == [] then s else After(Apply(s, steps[0], c), steps[1..], c)
  }

  // ---- every step brings the request closer to its end

  function Flag(b: bool): nat {
    if b then 1 else 0
  }

  function UpWeight(l: Link): nat {
    16 * |l.hold| + 15 * |l.wire| + 14 * |l.got|
  }

  function DownWeight(l: Link): nat {
    3 * |l.hold| + 2 * |l.wire| + |l.got|
  }

  function InWeight(inb: Inbound): nat {
    49 * |inb.unread| + 33 * Flag(!inb.ended) + UpWeight(inb.up)
  }

  function MidWeight(m: Middle): nat {
    13 * |m.passing| + 12 * |m.inPipe| + 11 * |m.held| + 10 * |m.outPipe| + Flag(m.alive) + Flag(!m.codePut)
  }

  function OutWeight(io: Outbound): nat {
    Flag(io.exitCode.None?) + Flag(io.stdoutOpen) + Flag(io.stderrOpen) + 7 * Flag(!io.exitSent) + DownWeight(io.down)
  }

  /** A byte weighs less at every station; a byte outside a frame weighs more than its
      share of a frame, even in a frame of its own with two header bytes. */
  function Weight(s: State): nat {
    InWeight(s.inb) + MidWeight(s.mid) + OutWeight(s.outb)
  }

  lemma BegunWeighs(l: Link, p: Packet)
    requires l.hold == []
    ensures UpWeight(Begun(l, p)) == UpWeight(l) + 16 * (2 + |p.payload|)
    ensures DownWeight(Begun(l, p)) == DownWeight(l) + 3 * (2 + |p.payload|)
  {
    hide Command, LittleEndian;
  }

  lemma SentWeighs(l: Link, n: nat)
    requires 0 < n <= |l.hold|
    ensures UpWeight(Sent(l, n)) < UpWeight(l) && DownWeight(Sent(l, n)) < DownWeight(l)
  {
  }

  lemma TakenWeighs(l: Link, n: nat)
    requires 0 < n <= |l.wire|
    ensures UpWeight(Taken(l, n)) < UpWeight(l) && DownWeight(Taken(l, n)) < DownWeight(l)
  {
  }

  lemma FinishedWeighs(l: Link)
    requires |l.got| >= 2
    ensures UpWeight(Finished(l)) == UpWeight(l) - 14 * (2 + |Received(l).payload|)
    ensures DownWeight(Finished(l)) == DownWeight(l) - (2 + |Received(l).payload|)
  {
    hide FromLittleEndian, OpcodeOf, NumberOf;
  }

  lemma GuestGetsWeighs(m: Middle, p: Packet)
    requires m.passing == []
    ensures MidWeight(GuestGets(m, p)) <= MidWeight(m) + 13 * |p.payload|
  {
  }

  lemma InputDescends(s: State, step: InStep, c: Setup)
    requires InEnabled(s, step, c)
    ensures Weight(InApply(s, step, c)) < Weight(s)
  {
    hide OutWeight, MidWeight, UpWeight, Expected, Received, Begun, Sent, Taken, Finished, GuestGets;
    match step
    case ReadInput(n) => BegunWeighs(s.inb.up, Stdin.InputPacket(s.inb.unread[..n]));
    case HostSend(n) => SentWeighs(s.inb.up, n);
    case GuestTake(n) => TakenWeighs(s.inb.up, n);
    case GuestFinish =>
      FinishedWeighs(s.inb.up);
      GuestGetsWeighs(s.mid, Received(s.inb.up));
  }

  lemma ChildDescends(s: State, step: MidStep, c: Setup)
    requires MidEnabled(s, step, c)
    ensures Weight(MidApply(s, step, c)) < Weight(s)
  {
    hide OutWeight, InWeight;
  }

  lemma OutputDescends(s: State, step: OutStep, c: Setup)
    requires OutEnabled(s, step, c)
    ensures Weight(OutApply(s, step, c)) < Weight(s)
  {
    hide InWeight, DownWeight, Expected, Received, Begun, Sent, Taken, Finished, HostGets;
    match step
    case Drain(n) => BegunWeighs(s.outb.down, Output.StreamPacket(c.out, s.mid.outPipe[..n]));
    case SendExit => BegunWeighs(s.outb.down, Output.ExitPacket(s.outb.exitCode.value));
    case GuestSend(n) => SentWeighs(s.outb.down, n);
    case HostTake(n) => TakenWeighs(s.outb.down, n);
    case HostFinish => FinishedWeighs(s.outb.down);
    case _ =>
  }

  lemma StepDescends(s: State, step: Step, c: Setup)
    requires Enabled(s, step, c)
    ensures Weight(Apply(s, step, c)) < Weight(s)
  {
    hide Weight;
    match step
    case In(i) => InputDescends(s, i, c);
    case Mid(m) => ChildDescends(s, m, c);
    case Out(o) => OutputDescends(s, o, c);
  }

  // ---- no buffer overflows

  /** Every buffer between the launcher's input and output holds its capacity at most. */
  predicate Bounded(s: State, c: Setup) {
    && |s.inb.up.wire| <= c.upRoom && |s.outb.down.wire| <= c.downRoom
    && |s.mid.inPipe| <= c.inRoom && |s.mid.held| <= c.inRoom && |s.mid.outPipe| <= c.outRoom
  }

  lemma StepIsBounded(s: State, step: Step, c: Setup)
    requires Bounded(s, c) && Enabled(s, step, c)
    ensures Bounded(Apply(s, step, c), c)
  {
    hide Expected, Received, LittleEndian, Command;
    match step
    case In(i) =>
    case Mid(m) =>
    case Out(o) =>
  }

  lemma {:induction false} BuffersStayBounded(s: State, steps: seq<Step>, c: Setup)
    requires Bounded(s, c) && Possible(s, steps, c)
    ensures Bounded(After(s, steps, c), c)
    decreases |steps|
  {
    hide Bounded, Enabled, Apply;
    if steps != [] {
      StepIsBounded(s, steps[0], c);
      BuffersStayBounded(Apply(s, steps[0], c), steps[1..], c);
    }
  }

  // ---- what holds in every run

  predicate InputFrames(ps: seq<Packet>, ended: bool) {
    forall i :: 0 <= i < |ps| ==> ps[i].op == CMD_WRITE_STDIN && (ps[i].number == 0 ==> ended && i == |ps| - 1)
  }

  predicate OutputFrames(ps: seq<Packet>, c: Setup, exitPending: bool) {
    && (exitPending ==> ps != [])
    && forall i :: 0 <= i < |ps| ==>
         if exitPending && i == |ps| - 1 then ps[i] == Output.ExitPacket(c.code) else ps[i].op == c.out
  }

  /** The end of input travels last, and everything downstream ends after it. */
  predicate Ordered(s: State, c: Setup) {
    var inb, m, io := s.inb, s.mid, s.outb;
    && InputFrames(inb.up.packets, inb.ended)
    && (inb.ended ==> inb.unread == [])
    && (if m.stdinOpen then inb.ended ==> inb.up.packets != [] && inb.up.packets[|inb.up.packets| - 1].number == 0
        else inb.ended && inb.up.packets == [] && m.passing == [])
    && (!m.alive ==> !m.stdinOpen && m.inPipe == [] && m.held == [])
    && (m.codePut ==> !m.alive)
    && (!io.stdoutOpen ==> !m.alive && m.outPipe == [])
    && (!io.stderrOpen ==> !m.alive)
    && (io.exitCode.Some? ==> m.codePut && io.exitCode == Some(c.code))
    && (io.exitSent ==> io.exitCode.Some? && !io.stdoutOpen && !io.stderrOpen)
    && OutputFrames(io.down.packets, c, io.exitSent && s.client.seen.None?)
    && (s.client.seen.Some? ==> io.exitSent && io.down.packets == [] && s.client.seen == Some(c.code))
  }

  function Payloads(ps: seq<Packet>): Bytes {
    if ps == [] then [] else ps[0].payload + Payloads(ps[1..])
  }

  lemma {:induction false} PayloadsAppend(ps: seq<Packet>, p: Packet)
    ensures Payloads(ps + [p]) == Payloads(ps) + p.payload
  {
    if ps == [] {
      assert ps + [p] == [p] && [p][1..] == [];
    } else {
      assert (ps + [p])[1..] == ps[1..] + [p];
      PayloadsAppend(ps[1..], p);
    }
  }

  function Ahead(inb: Inbound): Bytes {
    Payloads(inb.up.packets) + inb.unread
  }

  function Inside(m: Middle, ahead: Bytes): Bytes {
    m.outPipe + (m.held + (m.inPipe + (m.passing + ahead)))
  }

  function Behind(s: State): Bytes {
    s.client.shown + Payloads(s.outb.down.packets)
  }

  /** From the launcher's output back to its input, every byte in its place. */
  predicate Conserved(s: State, input: Bytes) {
    Behind(s) + Inside(s.mid, Ahead(s.inb)) == input
  }

  predicate Sound(s: State, input: Bytes, c: Setup) {
    && Aligned(Up(c), s.inb.up) && Aligned(DOWN, s.outb.down)
    && Ordered(s, c) && Conserved(s, input)
  }

  lemma InIsSound(s: State, step: InStep, c: Setup, input: Bytes)
    requires Workable(c) && Sound(s, input, c) && InEnabled(s, step, c)
    ensures Sound(InApply(s, step, c), input, c)
  {
    hide Aligned, Inside, Payloads, Expected, OutputFrames, Begun, Sent, Taken;
    var inb, t := s.inb, InApply(s, step, c);
    match step
    case ReadInput(n) =>
      var p := Stdin.InputPacket(inb.unread[..n]);
      BeginKeepsAligned(Up(c), inb.up, p);
      assert t.inb.up.packets == inb.up.packets + [p] by { BeginsLast(inb.up, p); }
      PayloadsAppend(inb.up.packets, p);
      assert Ahead(t.inb) == Ahead(inb) by {
        assert inb.unread == inb.unread[..n] + inb.unread[n..];
      }
    case HostSend(n) =>
      SendKeepsAligned(Up(c), inb.up, n);
      SamePackets(inb.up, n);
    case GuestTake(n) =>
      TakeKeepsAligned(Up(c), inb.up, n);
      SamePackets(inb.up, n);
    case GuestFinish =>
      FinishIsFirst(Up(c), inb.up);
      GuestFinishConserves(s, c, input);
  }

  lemma BeginsLast(l: Link, p: Packet)
    ensures Begun(l, p).packets == l.packets + [p]
  {
  }

  lemma SamePackets(l: Link, n: nat)
    ensures n <= |l.hold| ==> Sent(l, n).packets == l.packets
    ensures n <= |l.wire| ==> Taken(l, n).packets == l.packets
  {
  }

  lemma GuestFinishConserves(s: State, c: Setup, input: Bytes)
    requires Sound(s, input, c) && InEnabled(s, GuestFinish, c)
    requires s.inb.up.packets != [] && Received(s.inb.up) == s.inb.up.packets[0]
    ensures Ordered(InApply(s, GuestFinish, c), c) && Conserved(InApply(s, GuestFinish, c), input)
  {
  }

  lemma MidMoves(s: State, step: MidStep, c: Setup, ahead: Bytes)
    requires MidEnabled(s, step, c)
    ensures Inside(MidApply(s, step, c).mid, ahead) == Inside(s.mid, ahead)
  {
    var m, t := s.mid, MidApply(s, step, c).mid;
    match step
    case PassOn(n) =>
      assert m.passing == m.passing[..n] + m.passing[n..];
      assert t.inPipe + (t.passing + ahead) == m.inPipe + (m.passing + ahead);
    case ChildRead(n) =>
      assert m.inPipe == m.inPipe[..n] + m.inPipe[n..];
      assert t.held + (t.inPipe + (m.passing + ahead)) == m.held + (m.inPipe + (m.passing + ahead));
    case ChildWrite(n) =>
      assert m.held == m.held[..n] + m.held[n..];
      assert t.outPipe + (t.held + (m.inPipe + (m.passing + ahead))) ==
             m.outPipe + (m.held + (m.inPipe + (m.passing + ahead)));
    case _ =>
  }

  lemma MidKeepsOrder(s: State, step: MidStep, c: Setup)
    requires Ordered(s, c) && MidEnabled(s, step, c)
    ensures Ordered(MidApply(s, step, c), c)
  {
    hide InputFrames, OutputFrames;
  }

  lemma MidIsSound(s: State, step: MidStep, c: Setup, input: Bytes)
    requires Sound(s, input, c) && MidEnabled(s, step, c)
    ensures Sound(MidApply(s, step, c), input, c)
  {
    hide Aligned, Inside, Payloads, Ahead, Ordered;
    MidMoves(s, step, c, Ahead(s.inb));
    MidKeepsOrder(s, step, c);
  }

  lemma DrainIsSound(s: State, n: nat, c: Setup, input: Bytes)
    requires Workable(c) && Sound(s, input, c) && OutEnabled(s, Drain(n), c)
    ensures Sound(OutApply(s, Drain(n), c), input, c)
  {
    hide Aligned, InputFrames, Payloads, Ahead, Begun;
    var m, l, t := s.mid, s.outb.down, OutApply(s, Drain(n), c);
    var p := Output.StreamPacket(c.out, m.outPipe[..n]);
    BeginKeepsAligned(DOWN, l, p);
    BeginsLast(l, p);
    PayloadsAppend(l.packets, p);
    var rest := m.held + (m.inPipe + (m.passing + Ahead(s.inb)));
    assert m.outPipe == m.outPipe[..n] + m.outPipe[n..];
    assert Behind(t) + (m.outPipe[n..] + rest) == Behind(s) + (m.outPipe + rest);
  }

  lemma SendExitIsSound(s: State, c: Setup, input: Bytes)
    requires Workable(c) && Sound(s, input, c) && OutEnabled(s, SendExit, c)
    ensures Sound(OutApply(s, SendExit, c), input, c)
  {
    hide Aligned, InputFrames, Payloads, Inside, Begun;
    var l := s.outb.down;
    var p := Output.ExitPacket(s.outb.exitCode.value);
    BeginKeepsAligned(DOWN, l, p);
    BeginsLast(l, p);
    PayloadsAppend(l.packets, p);
    assert Payloads(l.packets) + [] == Payloads(l.packets);
  }

  lemma HostFinishIsSound(s: State, c: Setup, input: Bytes)
    requires Workable(c) && Sound(s, input, c) && OutEnabled(s, HostFinish, c)
    ensures Sound(OutApply(s, HostFinish, c), input, c)
  {
    hide Aligned, InputFrames, Inside, Expected, Received;
    var l := s.outb.down;
    FinishIsFirst(DOWN, l);
    var p := l.packets[0];
    if p.op == CMD_EXIT {
      assert s.outb.exitSent && |l.packets| == 1;
      assert p == Output.ExitPacket(c.code);
      assert p.payload + Payloads([]) == [];
    } else {
      assert s.client.shown + (p.payload + Payloads(l.packets[1..])) ==
             s.client.shown + p.payload + Payloads(l.packets[1..]);
    }
  }

  lemma OutIsSound(s: State, step: OutStep, c: Setup, input: Bytes)
    requires Workable(c) && Sound(s, input, c) && OutEnabled(s, step, c)
    ensures Sound(OutApply(s, step, c), input, c)
  {
    match step
    case Drain(n) => DrainIsSound(s, n, c, input);
    case SendExit => SendExitIsSound(s, c, input);
    case HostFinish => HostFinishIsSound(s, c, input);
    case _ => QuietOutIsSound(s, step, c, input);
  }

  lemma QuietOutIsSound(s: State, step: OutStep, c: Setup, input: Bytes)
    requires Sound(s, input, c) && OutEnabled(s, step, c) && !step.Drain? && !step.SendExit? && !step.HostFinish?
    ensures Sound(OutApply(s, step, c), input, c)
  {
    hide Aligned, InputFrames, OutputFrames, Payloads, Inside, Expected, Sent, Taken;
    match step
    case GuestSend(n) =>
      SendKeepsAligned(DOWN, s.outb.down, n);
      SamePackets(s.outb.down, n);
    case HostTake(n) =>
      TakeKeepsAligned(DOWN, s.outb.down, n);
      SamePackets(s.outb.down, n);
    case _ =>
  }

  lemma StepIsSound(s: State, step: Step, c: Setup, input: Bytes)
    requires Workable(c) && Sound(s, input, c) && Enabled(s, step, c)
    ensures Sound(Apply(s, step, c), input, c)
  {
    hide Sound;
    match step
    case In(i) => InIsSound(s, i, c, input);
    case Mid(m) => MidIsSound(s, m, c, input);
    case Out(o) => OutIsSound(s, o, c, input);
  }

  lemma {:induction false} RunIsSound(s: State, steps: seq<Step>, c: Setup, input: Bytes)
    requires Workable(c) && Sound(s, input, c) && Possible(s, steps, c)
    ensures Sound(After(s, steps, c), input, c) && Weight(After(s, steps, c)) + |steps| <= Weight(s)
    decreases |steps|
  {
    hide Sound, Enabled, Apply, Weight;
    if steps != [] {
      StepIsSound(s, steps[0], c, input);
      StepDescends(s, steps[0], c);
      RunIsSound(Apply(s, steps[0], c), steps[1..], c, input);
    }
  }

  lemma StartIsSound(input: Bytes, c: Setup)
    ensures Sound(Initial(input), input, c) && Weight(Initial(input)) == 49 * |input| + 45
  {
  }

  // ---- nothing waits for ever

  lemma NothingUnderWay(side: Side, l: Link)
    requires Aligned(side, l) && l.packets == []
    ensures l.hold == []
  {
  }

  /** Somebody can move until the launcher has read the exit frame: from its end of the
      output back to its standard input, the first station with something in it can pass it
      on. */
  lemma NeverStuck(s: State, c: Setup, input: Bytes) returns (step: Step)
    requires Workable(c) && c.split && Sound(s, input, c) && s.client.seen.None?
    ensures Enabled(s, step, c)
  {
    hide Aligned, CanSend, CanTake, CanFinish, Conserved;
    if s.outb.down.packets != [] {
      LinkMoves(DOWN, s.outb.down, c.downRoom);
      return if CanSend(s.outb.down, 1, c.downRoom) then Out(GuestSend(1))
             else if CanTake(DOWN, s.outb.down, 1) then Out(HostTake(1)) else Out(HostFinish);
    }
    NothingUnderWay(DOWN, s.outb.down);
    if s.mid.outPipe != [] {
      return Out(Drain(1));
    } else if s.mid.held != [] {
      return Mid(ChildWrite(1));
    } else if s.mid.inPipe != [] {
      return Mid(ChildRead(1));
    } else if s.mid.passing != [] {
      return Mid(PassOn(1));
    } else if s.inb.up.packets != [] {
      LinkMoves(Up(c), s.inb.up, c.upRoom);
      return if CanSend(s.inb.up, 1, c.upRoom) then In(HostSend(1))
             else if CanTake(Up(c), s.inb.up, 1) then In(GuestTake(1)) else In(GuestFinish);
    }
    NothingUnderWay(Up(c), s.inb.up);
    return if !s.inb.ended then In(ReadInput(if s.inb.unread == [] then 0 else 1))
           else if s.mid.alive then Mid(ChildEnd)
           else if !s.mid.codePut then Mid(PutCode)
           else if s.outb.stdoutOpen then Out(StdoutEnd)
           else if s.outb.stderrOpen then Out(StderrEnd)
           else if s.outb.exitCode.None? then Out(ReadCode)
           else Out(SendExit);
  }

  lemma SeenMeansAll(s: State, c: Setup, input: Bytes)
    requires Sound(s, input, c) && s.client.seen.Some?
    ensures s.client.shown == input && s.client.seen == Some(c.code)
  {
    assert s.mid.passing + Ahead(s.inb) == [];
  }

  /** Any run of a copying request, with any positive capacities and any interleaving: it
      has at most 49 steps for every byte of input and 45 more; as long as the launcher has
      not read the exit frame some step is possible; and when it has, it has written exactly
      its input and returns the child's code. */
  lemma RequestCompletes(input: Bytes, steps: seq<Step>, c: Setup)
    requires Workable(c) && c.split && Possible(Initial(input), steps, c)
    ensures |steps| <= 49 * |input| + 45
    ensures var s := After(Initial(input), steps, c);
            if s.client.seen.Some? then s.client.shown == input && s.client.seen == Some(c.code)
            else exists step :: Enabled(s, step, c)
  {
    hide Sound, Enabled, Weight, Possible, After;
    StartIsSound(input, c);
    RunIsSound(Initial(input), steps, c, input);
    var s := After(Initial(input), steps, c);
    if s.client.seen.Some? {
      SeenMeansAll(s, c, input);
    } else {
      var step := NeverStuck(s, c, input);
    }
  }

  // ---- why the guest needs two threads

  lemma {:induction false} OneMore(s: State, steps: seq<Step>, step: Step, c: Setup)
    requires Possible(s, steps, c) && Enabled(After(s, steps, c), step, c)
    ensures Possible(s, steps + [step], c) && After(s, steps + [step], c) == Apply(After(s, steps, c), step, c)
    decreases |steps|
  {
    hide Enabled, Apply;
    if steps == [] {
      assert steps + [step] == [step] && [step][1..] == [];
    } else {
      assert (steps + [step])[1..] == steps[1..] + [step];
      OneMore(Apply(s, steps[0], c), steps[1..], step, c);
    }
  }

  const ONE_THREAD := Setup(7, 1, 2, 1, 1, 0, 1, 0, false)
  const ZEROS: Bytes := [0, 0, 0, 0, 0]

  /** Five bytes on their way through a guest that reads its input and drains the output in
      one thread: the child waits for the guest to drain, the guest waits for the child to
      read. */
  function Clogged(): State {
    State(
      Inbound([], true, Link([], [0, 0], [], [Stdin.InputPacket([])])),
      Middle([0], true, [0, 0], [0], true, [0], false),
      Outbound(None, true, true, false, Idle()), Client([], None))
  }

  lemma NobodyMoves()
    ensures Clogged().client.seen.None? && forall step :: !Enabled(Clogged(), step, ONE_THREAD)
  {
  }

  function Guest(inb: Inbound, m: Middle): State {
    State(inb, m, Outbound(None, true, true, false, Idle()), Client([], None))
  }

  ghost predicate Reaches(run: seq<Step>, s: State) {
    Possible(Initial(ZEROS), run, ONE_THREAD) && After(Initial(ZEROS), run, ONE_THREAD) == s
  }

  lemma Go(run: seq<Step>, step: Step, from: State) returns (longer: seq<Step>)
    requires Reaches(run, from) && Enabled(from, step, ONE_THREAD)
    ensures Reaches(longer, Apply(from, step, ONE_THREAD))
  {
    OneMore(Initial(ZEROS), run, step, ONE_THREAD);
    return run + [step];
  }

  lemma FrameArrives() returns (run: seq<Step>)
    ensures Reaches(run, Guest(Inbound([], false, Idle()), Middle(ZEROS, true, [], [], true, [], false)))
  {
    hide Possible, After, Reaches;
    var p := Stdin.InputPacket(ZEROS);
    var frame: Bytes := [20, 0] + ZEROS;
    assert Encode(p) == frame;
    var m := Middle([], true, [], [], true, [], false);
    assert ZEROS[..5] == ZEROS;
    assert Reaches([], Initial(ZEROS)) by { Nowhere(); }
    run := Go([], In(ReadInput(5)), Initial(ZEROS));
    var read := Guest(Inbound([], false, Link(frame, [], [], [p])), m);
    assert Apply(Initial(ZEROS), In(ReadInput(5)), ONE_THREAD) == read;
    run := Go(run, In(HostSend(7)), read);
    var sent := Guest(Inbound([], false, Link([], frame, [], [p])), m);
    assert Apply(read, In(HostSend(7)), ONE_THREAD) == sent;
    run := Go(run, In(GuestTake(2)), sent);
    var header := Guest(Inbound([], false, Link([], ZEROS, [20, 0], [p])), m);
    assert Apply(sent, In(GuestTake(2)), ONE_THREAD) == header;
    run := Go(run, In(GuestTake(5)), header);
    var whole := Guest(Inbound([], false, Link([], [], frame, [p])), m);
    assert Apply(header, In(GuestTake(5)), ONE_THREAD) == whole;
    run := Go(run, In(GuestFinish), whole);
  }

  lemma ChildClogs(start: seq<Step>) returns (run: seq<Step>)
    requires Reaches(start, Guest(Inbound([], false, Idle()), Middle(ZEROS, true, [], [], true, [], false)))
    ensures Reaches(run, Clogged())
  {
    hide Possible, After, Reaches;
    var inb := Inbound([], false, Idle());
    run := Go(start, Mid(PassOn(2)), Guest(inb, Middle(ZEROS, true, [], [], true, [], false)));
    run := Go(run, Mid(ChildRead(2)), Guest(inb, Middle([0, 0, 0], true, [0, 0], [], true, [], false)));
    run := Go(run, Mid(ChildWrite(1)), Guest(inb, Middle([0, 0, 0], true, [], [0, 0], true, [], false)));
    run := Go(run, Mid(PassOn(2)), Guest(inb, Middle([0, 0, 0], true, [], [0], true, [0], false)));
    var full := Middle([0], true, [0, 0], [0], true, [0], false);
    run := Go(run, In(ReadInput(0)), Guest(inb, full));
    var last := Stdin.InputPacket([]);
    assert Encode(last) == [0, 0];
    var closing := Guest(Inbound([], true, Link([0, 0], [], [], [last])), full);
    run := Go(run, In(HostSend(2)), closing);
    assert Apply(closing, In(HostSend(2)), ONE_THREAD) == Clogged();
  }

  lemma Nowhere()
    ensures Reaches([], Initial(ZEROS))
  {
  }

  /** With reader and output loop in one thread a copying child can bring everything to a
      halt: a run of five bytes after which no step of anybody is enabled. */
  lemma OneThreadDeadlocks()
    ensures exists run :: Reaches(run, Clogged())
    ensures Clogged().client.seen.None? && forall step :: !Enabled(Clogged(), step, ONE_THREAD)
  {
    hide Reaches;
    var start := FrameArrives();
    var run := ChildClogs(start);
    NobodyMoves();
  }
}
