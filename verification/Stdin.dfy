/** Standard input on its way to the guest command: the launcher's two writers share one
    stream under a mutex, the guest's reader takes the frames apart again. */
module Stdin {
  import opened Options
  import opened Wire

  const BUFFER: nat := 4096

  /** The mutex around the stream, with the bytes its holder has still to write. */
  datatype Lock = Free | ByStdin(rest: Bytes) | ByResize(rest: Bytes)

  /** The launcher: what standard input still holds, the chunk forward_stdin has read but
      not locked the stream for, whether that thread has returned, the stream, and the
      packets begun so far. */
  datatype Host = Host(unread: Bytes, chunk: Option<Bytes>, ended: bool, lock: Lock, wire: Bytes, begun: seq<Packet>)

  datatype Step = ReadStdin(n: nat) | LockForStdin | LockForResize(size: Bytes) | Write(n: nat) | Unlock

  function InputPacket(data: Bytes): Packet {
    Packet(CMD_WRITE_STDIN, |data|, data)
  }

  function SizePacket(sizeOp: Opcode, size: Bytes): Packet {
    Packet(sizeOp, 0, size)
  }

  function Rest(l: Lock): Bytes {
    if l.Free? then [] else l.rest
  }

  /** A read returns at least one byte, and none only at the end of the input. */
  predicate Enabled(h: Host, step: Step) {
    match step
    case ReadStdin(n) =>
      !h.ended && h.chunk.None? && !h.lock.ByStdin?
      && n <= BUFFER && n <= |h.unread| && (n == 0 <==> h.unread == [])
    case LockForStdin => h.lock.Free? && h.chunk.Some?
    case LockForResize(size) => h.lock.Free? && |size| == 4
    case Write(n) => !h.lock.Free? && 0 < n <= |h.lock.rest|
    case Unlock => !h.lock.Free? && h.lock.rest == []
  }

  function Apply(h: Host, step: Step, sizeOp: Opcode): Host
    requires Enabled(h, step)
  {
    match step
    case ReadStdin(n) => h.(chunk := Some(h.unread[..n]), unread := h.unread[n..])
    case LockForStdin =>
      var p := InputPacket(h.chunk.value);
      h.(lock := ByStdin(Encode(p)), begun := h.begun + [p])
    case LockForResize(size) =>
      var p := SizePacket(sizeOp, size);
      h.(lock := ByResize(Encode(p)), begun := h.begun + [p])
    case Write(n) =>
      var left := h.lock.rest[n..];
      h.(wire := h.wire + h.lock.rest[..n], lock := if h.lock.ByStdin? then ByStdin(left) else ByResize(left))
    case Unlock =>
      if h.lock.ByStdin? && h.chunk.Some? then h.(lock := Free, chunk := None, ended := h.chunk.value == [])
      else h.(lock := Free)
  }

  predicate Possible(h: Host, steps: seq<Step>, sizeOp: Opcode)
    decreases |steps|
  {
    if steps == [] then true
    else Enabled(h, steps[0]) && Possible(Apply(h, steps[0], sizeOp), steps[1..], sizeOp)
  }

  function After(h: Host, steps: seq<Step>, sizeOp: Opcode): Host
    requires Possible(h, steps, sizeOp)
    decreases |steps|
  {
    if steps == [] then h else After(Apply(h, steps[0], sizeOp), steps[1..], sizeOp)
  }

  function Initial(input: Bytes): Host {
    Host(input, None, false, Free, [], [])
  }

  // ---- what a list of packets says

  predicate IsEnd(p: Packet) {
    p.op == CMD_WRITE_STDIN && p.number == 0
  }

  function InputOf(ps: seq<Packet>): Bytes {
    if ps == [] then []
    else InputOf(ps[..|ps| - 1]) + if ps[|ps| - 1].op == CMD_WRITE_STDIN then ps[|ps| - 1].payload else []
  }

  function SizesOf(ps: seq<Packet>): seq<Bytes> {
    if ps == [] then []
    else SizesOf(ps[..|ps| - 1]) + if ps[|ps| - 1].op == CMD_WRITE_STDIN then [] else [ps[|ps| - 1].payload]
  }

  function Ends(ps: seq<Packet>): nat {
    if ps == [] then 0 else Ends(ps[..|ps| - 1]) + if IsEnd(ps[|ps| - 1]) then 1 else 0
  }

  /** The end of input comes once, and no input after it. */
  predicate Orderly(ps: seq<Packet>) {
    if ps == [] then true
    else Orderly(ps[..|ps| - 1]) && (ps[|ps| - 1].op == CMD_WRITE_STDIN ==> Ends(ps[..|ps| - 1]) == 0)
  }

  lemma Appended(ps: seq<Packet>, p: Packet)
    ensures InputOf(ps + [p]) == InputOf(ps) + if p.op == CMD_WRITE_STDIN then p.payload else []
    ensures SizesOf(ps + [p]) == SizesOf(ps) + if p.op == CMD_WRITE_STDIN then [] else [p.payload]
    ensures Ends(ps + [p]) == Ends(ps) + if IsEnd(p) then 1 else 0
    ensures Orderly(ps + [p]) <==> Orderly(ps) && (p.op == CMD_WRITE_STDIN ==> Ends(ps) == 0)
  {
    assert (ps + [p])[..|ps|] == ps;
  }

  // ---- invariant of every run

  function Waiting(h: Host): Bytes {
    if h.chunk.Some? && !h.lock.ByStdin? then h.chunk.value else []
  }

  predicate Framed(h: Host, sizeOp: Opcode) {
    && AllProper(ToGuest(sizeOp), h.begun)
    && h.wire + Rest(h.lock) == EncodeAll(h.begun)
    && (!h.lock.Free? ==> h.begun != [] && |Rest(h.lock)| <= |Encode(h.begun[|h.begun| - 1])|)
  }

  predicate Conserved(h: Host, input: Bytes) {
    && InputOf(h.begun) + (Waiting(h) + h.unread) == input
    && Orderly(h.begun)
    && (h.chunk.Some? ==> |h.chunk.value| <= BUFFER && (h.chunk.value == [] ==> h.unread == []))
    && (h.lock.ByStdin? ==> h.chunk.Some?)
    && (h.ended ==> h.chunk.None? && h.unread == [])
    && Ends(h.begun) == if h.ended || (h.lock.ByStdin? && h.chunk == Some([])) then 1 else 0
  }

  lemma StepFrames(h: Host, step: Step, sizeOp: Opcode, input: Bytes)
    requires sizeOp != CMD_WRITE_STDIN && Enabled(h, step) && Framed(h, sizeOp) && Conserved(h, input)
    ensures Framed(Apply(h, step, sizeOp), sizeOp)
  {
    match step
    case ReadStdin(n) =>
    case LockForStdin =>
      var p := InputPacket(h.chunk.value);
      EncodeAllAppend(h.begun, p);
      assert h.wire + [] == h.wire;
    case LockForResize(size) =>
      var p := SizePacket(sizeOp, size);
      EncodeAllAppend(h.begun, p);
      assert h.wire + [] == h.wire;
    case Write(n) =>
      assert h.lock.rest == h.lock.rest[..n] + h.lock.rest[n..];
      assert h.wire + h.lock.rest[..n] + h.lock.rest[n..] == h.wire + h.lock.rest;
    case Unlock =>
  }

  lemma LockConserves(h: Host, sizeOp: Opcode, input: Bytes)
    requires Enabled(h, LockForStdin) && Conserved(h, input)
    ensures Conserved(Apply(h, LockForStdin, sizeOp), input)
  {
    hide InputOf, Ends, Orderly, SizesOf;
    var data := h.chunk.value;
    Appended(h.begun, InputPacket(data));
    assert InputOf(h.begun) + (data + h.unread) == InputOf(h.begun) + data + ([] + h.unread);
  }

  lemma StepConserves(h: Host, step: Step, sizeOp: Opcode, input: Bytes)
    requires sizeOp != CMD_WRITE_STDIN && Enabled(h, step) && Conserved(h, input)
    ensures Conserved(Apply(h, step, sizeOp), input)
  {
    hide InputOf, Ends, Orderly, SizesOf;
    match step
    case ReadStdin(n) =>
      assert [] + h.unread == h.unread[..n] + h.unread[n..];
    case LockForStdin =>
      LockConserves(h, sizeOp, input);
    case LockForResize(size) =>
      Appended(h.begun, SizePacket(sizeOp, size));
      assert InputOf(h.begun) + [] == InputOf(h.begun);
    case Write(n) =>
    case Unlock =>
  }

  lemma {:induction false} RunKeeps(h: Host, steps: seq<Step>, sizeOp: Opcode, input: Bytes)
    requires sizeOp != CMD_WRITE_STDIN && Possible(h, steps, sizeOp) && Framed(h, sizeOp) && Conserved(h, input)
    ensures Framed(After(h, steps, sizeOp), sizeOp) && Conserved(After(h, steps, sizeOp), input)
    decreases |steps|
  {
    if steps != [] {
      StepFrames(h, steps[0], sizeOp, input);
      StepConserves(h, steps[0], sizeOp, input);
      RunKeeps(Apply(h, steps[0], sizeOp), steps[1..], sizeOp, input);
    }
  }

  /** What the reader can see of the stream: every packet that has been written whole. */
  function Whole(h: Host): seq<Packet> {
    if Rest(h.lock) == [] || h.begun == [] then h.begun else h.begun[..|h.begun| - 1]
  }

  lemma StreamParses(h: Host, sizeOp: Opcode)
    requires Framed(h, sizeOp)
    ensures Parse(ToGuest(sizeOp), h.wire) == Whole(h)
  {
    var side := ToGuest(sizeOp);
    var whole := Whole(h);
    assert forall p :: p in whole ==> p in h.begun;
    if whole == h.begun {
      assert h.wire + [] == h.wire;
      ParseUndoesEncode(side, h.begun, []);
      assert h.wire == EncodeAll(h.begun) + [];
      assert h.begun + Parse(side, []) == h.begun;
    } else {
      var last := h.begun[|h.begun| - 1];
      assert last in h.begun && h.begun == whole + [last];
      EncodeAllAppend(whole, last);
      var code := Encode(last);
      var n := |code| - |Rest(h.lock)|;
      var all := EncodeAll(whole) + code;
      assert h.wire == all[..|h.wire|];
      assert all[..|h.wire|] == EncodeAll(whole) + code[..n];
      ParseUndoesEncode(side, whole, code[..n]);
      PartialIsUnseen(side, last, n);
      assert whole + [] == whole;
    }
  }

  // ---- the input gets through the mutex

  /** Work that is left: of the stream's holder, of the chunk in hand, and of the input. */
  function Debt(h: Host): nat {
    10 * |h.unread|
    + (match h.lock
       case Free => 0
       case ByStdin(rest) => |rest| + 1
       case ByResize(rest) => |rest| + 1)
    + (match h.chunk
       case None => 0
       case Some(data) => if h.lock.ByStdin? then 0 else |data| + 4)
    + (if h.ended || h.chunk == Some([]) then 0 else 6)
  }

  /** The thread that can go on: the holder of the stream, else forward_stdin. */
  function Turn(h: Host): Step {
    if !h.lock.Free? then if h.lock.rest == [] then Unlock else Write(|h.lock.rest|)
    else if h.chunk.Some? then LockForStdin
    else ReadStdin(if |h.unread| <= 4096 then |h.unread| else 4096)
  }

  lemma TurnIsEnabled(h: Host)
    requires !(h.ended && h.lock.Free?) && (h.ended ==> h.chunk.None?)
    ensures Enabled(h, Turn(h)) && !Turn(h).LockForResize?
  {
  }

  lemma StepPays(h: Host, step: Step, sizeOp: Opcode)
    requires Enabled(h, step) && (h.lock.ByStdin? ==> h.chunk.Some?) && (h.chunk.Some? ==> !h.ended)
    ensures Debt(Apply(h, step, sizeOp)) + (if step.LockForResize? then 0 else 1)
         <= Debt(h) + (if step.LockForResize? then 7 else 0)
    ensures var t := Apply(h, step, sizeOp);
            && (t.lock.ByStdin? ==> t.chunk.Some?) && (t.chunk.Some? ==> !t.ended)
            && (t.chunk.Some? ==> t.chunk == h.chunk || |t.chunk.value| <= 4096)
  {
  }

  /** Steps that are not a new window size, and window sizes. */
  function Paid(steps: seq<Step>): nat {
    if steps == [] then 0 else (if steps[0].LockForResize? then 0 else 1) + Paid(steps[1..])
  }

  function Resizes(steps: seq<Step>): nat {
    if steps == [] then 0 else (if steps[0].LockForResize? then 1 else 0) + Resizes(steps[1..])
  }

  lemma {:induction false} RunPays(h: Host, steps: seq<Step>, sizeOp: Opcode)
    requires Possible(h, steps, sizeOp) && (h.lock.ByStdin? ==> h.chunk.Some?) && (h.chunk.Some? ==> !h.ended)
    requires h.chunk.Some? ==> |h.chunk.value| <= 4096
    ensures var t := After(h, steps, sizeOp);
            && Debt(t) + Paid(steps) <= Debt(h) + 7 * Resizes(steps)
            && (t.lock.ByStdin? ==> t.chunk.Some?) && (t.chunk.Some? ==> !t.ended && |t.chunk.value| <= 4096)
    decreases |steps|
  {
    hide Enabled, Apply, Debt;
    if steps != [] {
      StepPays(h, steps[0], sizeOp);
      RunPays(Apply(h, steps[0], sizeOp), steps[1..], sizeOp);
    }
  }

  /** The mutex keeps nobody for ever: in every run the two writers take at most ten steps for
      every byte of input, seven for every window size and six more; and until the end of
      input has been written and the stream is free, the step whose turn it is is possible. */
  lemma InputGetsThrough(input: Bytes, steps: seq<Step>, sizeOp: Opcode)
    requires Possible(Initial(input), steps, sizeOp)
    ensures Paid(steps) <= 10 * |input| + 7 * Resizes(steps) + 6
    ensures var h := After(Initial(input), steps, sizeOp);
            && ((h.ended && h.lock.Free?) || (Enabled(h, Turn(h)) && !Turn(h).LockForResize?))
            && (h.chunk.Some? ==> |h.chunk.value| <= 4096)
  {
    RunPays(Initial(input), steps, sizeOp);
    var h := After(Initial(input), steps, sizeOp);
    if !(h.ended && h.lock.Free?) {
      TurnIsEnabled(h);
    }
  }

  // ---- the guest's reader

  /** The command's standard input as forward_input sees it: `room` is how many more bytes
      it takes before a write reports a broken pipe. */
  datatype Child = Child(open: bool, received: Bytes, sizes: seq<Bytes>, ends: nat, room: nat)

  function Delivered(c: Child, p: Packet): Child {
    if IsEnd(p) then c.(open := false, ends := c.ends + 1)
    else if !c.open then c
    else if p.op != CMD_WRITE_STDIN then c.(sizes := c.sizes + [p.payload])
    else if |p.payload| <= c.room then c.(received := c.received + p.payload, room := c.room - |p.payload|)
    else Child(false, c.received + p.payload[..c.room], c.sizes, c.ends, 0)
  }

  function AllDelivered(c: Child, ps: seq<Packet>): Child
    decreases |ps|
  {
    if ps == [] then c else AllDelivered(Delivered(c, ps[0]), ps[1..])
  }

  lemma DeliverHead(c: Child, p: Packet, rest: seq<Packet>)
    ensures AllDelivered(c, [p] + rest) == AllDelivered(Delivered(c, p), rest)
  {
    assert ([p] + rest)[1..] == rest;
  }

  /** forward_input, up to the point where the stream ends, blocks, or holds an opcode it
      does not know. Its position in the stream never depends on the child. */
  method ForwardInput(wire: Bytes, sizeOp: Opcode, start: Child) returns (c: Child)
    requires sizeOp != CMD_WRITE_STDIN
    ensures c == AllDelivered(start, Parse(ToGuest(sizeOp), wire))
  {
    hide Parse, AllDelivered;
    ghost var side := ToGuest(sizeOp);
    c := start;
    var at := 0;
    assert wire[0..] == wire;
    while true
      invariant 0 <= at <= |wire|
      invariant AllDelivered(c, Parse(side, wire[at..])) == AllDelivered(start, Parse(side, wire))
      decreases |wire| - at
    {
      ghost var tail := wire[at..];
      if |wire| - at < 2 {
        NothingLeft(c, side, tail);
        return;
      }
      ParseHead(side, tail);
      var command := FromLittleEndian(wire[at..at + 2]);
      assert tail[..2] == wire[at..at + 2];
      at := at + 2;
      var op := OpcodeOf(command);
      if op == CMD_WRITE_STDIN {
        var len := NumberOf(command);
        if |wire| - at < len {
          Blocked(c);
          return;
        }
        ghost var p := Packet(op, len, tail[2..2 + len]);
        assert tail[2 + len..] == wire[at + len..] && tail[2..2 + len] == wire[at..at + len];
        DeliverHead(c, p, Parse(side, tail[2 + len..]));
        if len == 0 {
          c := c.(open := false, ends := c.ends + 1);
        } else {
          var buf := wire[at..at + len];
          at := at + len;
          if c.open {
            if len <= c.room {
              c := c.(received := c.received + buf, room := c.room - len);
            } else {
              c := c.(received := c.received + buf[..c.room], room := 0, open := false);
            }
          }
        }
      } else if op == sizeOp {
        if |wire| - at < 4 {
          Blocked(c);
          return;
        }
        var data := wire[at..at + 4];
        assert tail[2 + 4..] == wire[at + 4..] && tail[2..2 + 4] == data;
        DeliverHead(c, Packet(op, NumberOf(command), data), Parse(side, tail[2 + 4..]));
        at := at + 4;
        if c.open {
          c := c.(sizes := c.sizes + [data]);
        }
      } else {
        Blocked(c);
        return;
      }
    }
  }

  lemma NothingLeft(c: Child, side: Side, tail: Bytes)
    requires |tail| < 2
    ensures AllDelivered(c, Parse(side, tail)) == c
  {
  }

  lemma Blocked(c: Child)
    ensures AllDelivered(c, []) == c
  {
  }

  // ---- the two ends together

  function Fresh(room: nat): Child {
    Child(true, [], [], 0, room)
  }

  function Least(a: nat, b: nat): nat {
    if a < b then a else b
  }

  lemma {:induction false} DeliveredLast(c: Child, ps: seq<Packet>, p: Packet)
    ensures AllDelivered(c, ps + [p]) == Delivered(AllDelivered(c, ps), p)
    decreases |ps|
  {
    hide Delivered;
    if ps == [] {
      assert ps + [p] == [p] && [p][1..] == [];
    } else {
      assert (ps + [p])[1..] == ps[1..] + [p];
      DeliveredLast(Delivered(c, ps[0]), ps[1..], p);
    }
  }

  /** The window sizes that come before the end of input, and before more input than `room`. */
  function SizesInTime(ps: seq<Packet>, room: nat): seq<Bytes> {
    if ps == [] then []
    else
      var before := ps[..|ps| - 1];
      var last := ps[|ps| - 1];
      SizesInTime(before, room)
      + if last.op != CMD_WRITE_STDIN && Ends(before) == 0 && |InputOf(before)| <= room then [last.payload] else []
  }

  /** The child's state is determined by the packets: the first `room` bytes of the input,
      every end of input, and the window sizes until its standard input is closed. */
  predicate Shows(c: Child, room: nat, input: Bytes, sizes: seq<Bytes>, inTime: seq<Bytes>, ends: nat) {
    && c.received == input[..Least(room, |input|)]
    && c.ends == ends
    && (c.open <==> ends == 0 && |input| <= room)
    && (c.open ==> c.room == room - |input|)
    && c.sizes == inTime <= sizes
    && (c.open ==> c.sizes == sizes)
  }

  lemma DeliveryShows(c: Child, p: Packet, room: nat, input: Bytes, sizes: seq<Bytes>, inTime: seq<Bytes>, ends: nat)
    requires Shows(c, room, input, sizes, inTime, ends)
    requires p.op == CMD_WRITE_STDIN ==> ends == 0 && p.number == |p.payload|
    ensures Shows(Delivered(c, p), room,
                  input + if p.op == CMD_WRITE_STDIN then p.payload else [],
                  sizes + if p.op == CMD_WRITE_STDIN then [] else [p.payload],
                  inTime + if p.op != CMD_WRITE_STDIN && ends == 0 && |input| <= room then [p.payload] else [],
                  ends + if IsEnd(p) then 1 else 0)
  {
    var input' := input + if p.op == CMD_WRITE_STDIN then p.payload else [];
    assert |input| <= room ==> input[..Least(room, |input|)] == input;
    if p.op == CMD_WRITE_STDIN {
      if |input| <= room < |input'| {
        assert input'[..room] == input + p.payload[..room - |input|];
      } else if room < |input| {
        assert input'[..room] == input[..room];
      } else {
        assert input'[..|input'|] == input';
      }
      assert sizes + [] == sizes;
    } else {
      assert input' == input;
    }
  }

  lemma {:induction false} PacketsShow(side: Side, room: nat, ps: seq<Packet>)
    requires side.ToGuest? && AllProper(side, ps) && Orderly(ps)
    ensures Shows(AllDelivered(Fresh(room), ps), room, InputOf(ps), SizesOf(ps), SizesInTime(ps, room), Ends(ps))
    decreases |ps|
  {
    hide Shows, Delivered, AllDelivered;
    if ps != [] {
      var init := ps[..|ps| - 1];
      var last := ps[|ps| - 1];
      assert ps == init + [last] && last in ps && forall p :: p in init ==> p in ps;
      PacketsShow(side, room, init);
      DeliveredLast(Fresh(room), init, last);
      DeliveryShows(AllDelivered(Fresh(room), init), last, room, InputOf(init), SizesOf(init),
        SizesInTime(init, room), Ends(init));
    } else {
      NothingShown(room);
    }
  }

  lemma NothingShown(room: nat)
    ensures Shows(AllDelivered(Fresh(room), []), room, [], [], [], 0)
  {
  }

  lemma WholeIsOrderly(h: Host, sizeOp: Opcode, input: Bytes)
    requires Framed(h, sizeOp) && Conserved(h, input)
    ensures Orderly(Whole(h)) && AllProper(ToGuest(sizeOp), Whole(h)) && Ends(Whole(h)) <= 1
    ensures InputOf(Whole(h)) <= input && SizesOf(Whole(h)) <= SizesOf(h.begun)
  {
    if Whole(h) != h.begun {
      assert forall p :: p in Whole(h) ==> p in h.begun;
      assert h.begun == Whole(h) + [h.begun[|h.begun| - 1]];
      Appended(Whole(h), h.begun[|h.begun| - 1]);
    }
  }

  /** At every point of every run of the launcher's threads, and however soon the child
      stops reading: what the guest's reader has passed on is the beginning of the input,
      cut only where the child's input broke; the window sizes come in the order they were
      sent; the end of input is seen at most once. When forward_stdin has returned and the
      stream is free, all of the input and exactly one end have come through. */
  lemma InputSurvivesFraming(input: Bytes, steps: seq<Step>, sizeOp: Opcode, room: nat)
    requires sizeOp != CMD_WRITE_STDIN && Possible(Initial(input), steps, sizeOp)
    ensures var h := After(Initial(input), steps, sizeOp);
            var c := AllDelivered(Fresh(room), Parse(ToGuest(sizeOp), h.wire));
            && c.received <= input[..Least(room, |input|)] && c.ends <= 1
            && c.sizes == SizesInTime(Whole(h), room) <= SizesOf(h.begun)
            && (h.ended && h.lock.Free? ==> c.received == input[..Least(room, |input|)] && c.ends == 1 && !c.open)
            && (c.open && h.lock.Free? ==> c.sizes == SizesOf(h.begun))
  {
    hide AllDelivered, Parse, Framed, Conserved, InputOf, Orderly, SizesOf, SizesInTime, Ends;
    var h := After(Initial(input), steps, sizeOp);
    StartKeeps(input, sizeOp);
    RunKeeps(Initial(input), steps, sizeOp, input);
    StreamParses(h, sizeOp);
    WholeIsOrderly(h, sizeOp, input);
    PacketsShow(ToGuest(sizeOp), room, Whole(h));
    var seen := InputOf(Whole(h));
    assert seen == input[..|seen|];
    assert seen[..Least(room, |seen|)] <= input[..Least(room, |input|)];
    if h.ended && h.lock.Free? {
      AllSent(h, input);
    }
  }

  lemma StartKeeps(input: Bytes, sizeOp: Opcode)
    ensures Framed(Initial(input), sizeOp) && Conserved(Initial(input), input)
  {
  }

  lemma AllSent(h: Host, input: Bytes)
    requires Conserved(h, input) && h.ended && h.lock.Free?
    ensures Whole(h) == h.begun && InputOf(Whole(h)) == input && Ends(Whole(h)) == 1
  {
    assert InputOf(h.begun) + ([] + []) == InputOf(h.begun);
  }
}
