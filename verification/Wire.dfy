/** The framed byte stream between the muvm launcher and the guest: a 16-bit
    little-endian command, opcode below, number above, then the payload it announces. */
module Wire {
  type Byte = x: int | 0 <= x < 256

  type Bytes = seq<Byte>

  type Opcode = x: int | 0 <= x < 4

  const CMD_SHIFT_FACTOR: nat := 4
  const CMD_MASK_SIZE: nat := 4
  const U16: nat := 0x1_0000
  const CMD_WRITE_STDIN: Opcode := 0
  const CMD_EXIT: Opcode := 2

  /** The numbers that the shift leaves inside 16 bits. */
  const LIMIT: nat := 0x4000

  /** `opcode | (number << CMD_SHIFT) as u16`: the cast drops high bits, and the shifted
      number leaves the opcode's bits clear. */
  function Command(op: Opcode, number: nat): (c: nat)
    ensures c < U16
  {
    number * CMD_SHIFT_FACTOR % U16 + op
  }

  function OpcodeOf(command: nat): Opcode {
    command % CMD_MASK_SIZE
  }

  function NumberOf(command: nat): nat {
    command / CMD_SHIFT_FACTOR
  }

  function LittleEndian(command: nat): (b: Bytes)
    requires command < U16
    ensures |b| == 2
  {
    [command % 256, command / 256]
  }

  function FromLittleEndian(b: Bytes): (c: nat)
    requires |b| == 2
    ensures c < U16
  {
    b[0] as int + 256 * b[1] as int
  }

  lemma LittleEndianUndone(command: nat)
    requires command < U16
    ensures FromLittleEndian(LittleEndian(command)) == command
  {
  }

  /** The header carries its number intact exactly when the number is below 2^14; the
      opcode always survives. */
  lemma HeaderIsExact(op: Opcode, number: nat)
    ensures OpcodeOf(Command(op, number)) == op
    ensures NumberOf(Command(op, number)) == number <==> number < LIMIT
  {
    var low := number * 4 % U16;
    assert low == 4 * (number % LIMIT) by {
      assert number == LIMIT * (number / LIMIT) + number % LIMIT;
      assert number * 4 == U16 * (number / LIMIT) + 4 * (number % LIMIT);
    }
    assert (low + op) / 4 == number % LIMIT;
  }

  /** How a header lies on the wire: two bytes, the low one first; its two lowest bits are the
      opcode, the other six and the high byte the number. */
  lemma HeaderLayout(op: Opcode, number: nat)
    requires number < 0x4000
    ensures var b := LittleEndian(Command(op, number));
            && |b| == 2 && b[0] as int % 4 == op
            && b[0] as int / 4 == number % 64 && b[1] as int == number / 64
  {
    var c := number * 4 + op;
    assert Command(op, number) == c;
    assert c == 256 * (number / 64) + (number % 64 * 4 + op);
  }

  /** The two directions differ in what follows a header. `sizeOp` is the opcode of a
      window size, which four bytes follow whatever its number. */
  datatype Side = ToGuest(sizeOp: Opcode) | ToHost

  datatype Packet = Packet(op: Opcode, number: nat, payload: Bytes)

  function PayloadSize(side: Side, op: Opcode, number: nat): (n: int)
    ensures n >= -1
  {
    match side
    case ToGuest(sizeOp) => if op == CMD_WRITE_STDIN then number else if op == sizeOp then 4 else -1
    case ToHost => if op == CMD_EXIT then 0 else if op < CMD_EXIT then number else -1
  }

  predicate Proper(side: Side, p: Packet) {
    p.number < LIMIT && PayloadSize(side, p.op, p.number) == |p.payload|
  }

  function Encode(p: Packet): (b: Bytes)
    ensures |b| == 2 + |p.payload|
  {
    LittleEndian(Command(p.op, p.number)) + p.payload
  }

  /** The frame that ends a request, and the one that ends its input, byte by byte. */
  lemma LastFrames(code: Byte)
    ensures Encode(Packet(CMD_EXIT, code, [])) == [code % 64 * 4 + 2, code / 64]
    ensures Encode(Packet(CMD_WRITE_STDIN, 0, [])) == [0, 0]
  {
    hide Command, LittleEndian;
    HeaderLayout(CMD_EXIT, code);
    HeaderLayout(CMD_WRITE_STDIN, 0);
  }

  predicate AllProper(side: Side, ps: seq<Packet>) {
    forall p :: p in ps ==> Proper(side, p)
  }

  function EncodeAll(ps: seq<Packet>): Bytes {
    if ps == [] then [] else Encode(ps[0]) + EncodeAll(ps[1..])
  }

  /** The packets that `bytes` begins with, up to the first that is incomplete or unknown. */
  function Parse(side: Side, bytes: Bytes): (ps: seq<Packet>)
    ensures AllProper(side, ps)
    decreases |bytes|
  {
    if |bytes| < 2 then []
    else
      var command := FromLittleEndian(bytes[..2]);
      var op := OpcodeOf(command);
      var size := PayloadSize(side, op, NumberOf(command));
      if size < 0 || |bytes| < 2 + size then []
      else [Packet(op, NumberOf(command), bytes[2..2 + size])] + Parse(side, bytes[2 + size..])
  }

  /** What the first two bytes say about the rest. */
  lemma ParseHead(side: Side, bytes: Bytes)
    requires |bytes| >= 2
    ensures var command := FromLittleEndian(bytes[..2]);
            var size := PayloadSize(side, OpcodeOf(command), NumberOf(command));
            if size < 0 || |bytes| - 2 < size then Parse(side, bytes) == []
            else Parse(side, bytes)
                 == [Packet(OpcodeOf(command), NumberOf(command), bytes[2..2 + size])] + Parse(side, bytes[2 + size..])
  {
  }

  /** A reader stops at an opcode it does not know: to the guest all but 0 and the window
      size's, to the launcher 3. */
  lemma UnknownStops(side: Side, bytes: Bytes)
    requires |bytes| >= 2
    requires match side
             case ToGuest(sizeOp) => bytes[0] as int % 4 != 0 && bytes[0] as int % 4 != sizeOp
             case ToHost => bytes[0] as int % 4 == 3
    ensures Parse(side, bytes) == []
  {
    var b := bytes[..2];
    assert b[0] == bytes[0] && FromLittleEndian(b) % 4 == b[0] as int % 4;
  }

  lemma ParseOne(side: Side, p: Packet, rest: Bytes)
    requires Proper(side, p)
    ensures Parse(side, Encode(p) + rest) == [p] + Parse(side, rest)
  {
    var bytes := Encode(p) + rest;
    var command := Command(p.op, p.number);
    assert bytes[..2] == LittleEndian(command);
    LittleEndianUndone(command);
    HeaderIsExact(p.op, p.number);
    assert bytes[2..2 + |p.payload|] == p.payload;
    assert bytes[2 + |p.payload|..] == rest;
  }

  /** Framing undoes itself, whatever follows. */
  lemma {:induction false} ParseUndoesEncode(side: Side, ps: seq<Packet>, rest: Bytes)
    requires AllProper(side, ps)
    ensures Parse(side, EncodeAll(ps) + rest) == ps + Parse(side, rest)
    decreases |ps|
  {
    hide Parse, Encode;
    if ps == [] {
      assert EncodeAll(ps) + rest == rest;
    } else {
      assert ps[0] in ps && forall p :: p in ps[1..] ==> p in ps;
      assert EncodeAll(ps) + rest == Encode(ps[0]) + (EncodeAll(ps[1..]) + rest);
      ParseOne(side, ps[0], EncodeAll(ps[1..]) + rest);
      ParseUndoesEncode(side, ps[1..], rest);
      assert [ps[0]] + (ps[1..] + Parse(side, rest)) == ps + Parse(side, rest);
    }
  }

  /** A packet of which bytes are still missing is not seen at all. */
  lemma PartialIsUnseen(side: Side, p: Packet, n: nat)
    requires Proper(side, p) && n < |Encode(p)|
    ensures Parse(side, Encode(p)[..n]) == []
  {
    var bytes := Encode(p)[..n];
    if n >= 2 {
      var command := Command(p.op, p.number);
      assert bytes[..2] == LittleEndian(command);
      LittleEndianUndone(command);
      HeaderIsExact(p.op, p.number);
    }
  }

  lemma {:induction false} EncodeAllAppend(ps: seq<Packet>, p: Packet)
    ensures EncodeAll(ps + [p]) == EncodeAll(ps) + Encode(p)
  {
    if ps == [] {
      assert ps + [p] == [p] && [p][1..] == [];
    } else {
      assert (ps + [p])[1..] == ps[1..] + [p];
      EncodeAllAppend(ps[1..], p);
    }
  }

  /** Whatever part of a stream of frames has arrived, it shows the first few of them. */
  lemma {:induction false} ParsePrefix(side: Side, ps: seq<Packet>, bytes: Bytes) returns (k: nat)
    requires AllProper(side, ps) && bytes <= EncodeAll(ps)
    ensures k <= |ps| && Parse(side, bytes) == ps[..k]
    decreases |ps|
  {
    hide Parse, Encode;
    if ps == [] {
      NothingParsed(side);
      return 0;
    }
    assert ps[0] in ps && forall p :: p in ps[1..] ==> p in ps;
    var first := Encode(ps[0]);
    if |bytes| < |first| {
      assert bytes == first[..|bytes|];
      PartialIsUnseen(side, ps[0], |bytes|);
      return 0;
    }
    var rest := bytes[|first|..];
    assert bytes == first + rest && rest <= EncodeAll(ps)[|first|..] == EncodeAll(ps[1..]);
    var j := ParsePrefix(side, ps[1..], rest);
    ParseOne(side, ps[0], rest);
    assert [ps[0]] + ps[1..][..j] == ps[..j + 1];
    return j + 1;
  }

  lemma NothingParsed(side: Side)
    ensures Parse(side, []) == []
  {
  }
}
