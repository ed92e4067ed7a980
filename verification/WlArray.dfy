/** The guest-side growable buffer of libwayland-client (struct wl_array). `size_t` is
    the guest's own: every sum and product is reduced modulo `sizeMax + 1`. */
module WlArray {
  type Byte = x: int | 0 <= x < 256

  /** The `SIZE_MAX` of an i386 or of an x86-64 guest. */
  predicate GuestSizeMax(m: nat) {
    m == 0xffff_ffff || m == 0xffff_ffff_ffff_ffff
  }

  /** Reduction modulo `sizeMax + 1` of the sum of two representable values. */
  function Wrap(x: nat, sizeMax: nat): nat
    requires x < 2 * (sizeMax + 1)
  {
    if x <= sizeMax then x else x - (sizeMax + 1)
  }

  /** What can be observed of an array without looking at its bytes; `moved` is the sum
      of the old capacities handed to successful reallocations. */
  datatype Shape = Shape(size: nat, alloc: nat, moved: nat)

  predicate WellShaped(s: Shape, sizeMax: nat) {
    s.size <= s.alloc <= sizeMax && (s.alloc == 0 || 16 <= s.alloc)
  }

  function Max(a: nat, b: nat): nat {
    if a < b then b else a
  }

  /** Doubling from `capacity`, falling back to `required` where doubling would overflow. */
  function Doubled(capacity: nat, required: nat, sizeMax: nat): nat
    requires capacity > 0
    decreases required - capacity
  {
    if capacity >= required then capacity
    else if capacity > sizeMax / 2 then required
    else Doubled(2 * capacity, required, sizeMax)
  }

  /** One call of wl_array_add; `granted` is the allocator's answer should it be asked. */
  function Added(s: Shape, n: nat, granted: bool, sizeMax: nat): (r: (Shape, bool)) {
    if n > sizeMax - s.size then (s, false)
    else if s.size + n <= s.alloc then (s.(size := s.size + n), true)
    else if !granted then (s, false)
    else (Shape(s.size + n, Doubled(Max(s.alloc, 16), s.size + n, sizeMax), s.moved + s.alloc), true)
  }

  datatype Pointer = Null | At(block: array<Byte>, offset: nat)

  class Array {
    const sizeMax: nat
    var size: nat
    var alloc: nat
    var data: array?<Byte>
    ghost var moved: nat

    ghost predicate Valid()
      reads this
    {
      && GuestSizeMax(sizeMax)
      && WellShaped(Observed(), sizeMax)
      && (data == null <==> alloc == 0)
      && (data != null ==> data.Length == alloc)
    }

    ghost function Observed(): Shape
      reads this
    {
      Shape(size, alloc, moved)
    }

    ghost function Contents(): seq<Byte>
      requires Valid()
      reads this, data
    {
      if data == null then [] else data[..size]
    }

    constructor Init(sizeMax: nat)
      requires GuestSizeMax(sizeMax)
      ensures Valid() && Contents() == [] && Observed() == Shape(0, 0, 0)
      ensures this.sizeMax == sizeMax
    {
      this.sizeMax := sizeMax;
      size, alloc, data, moved := 0, 0, null, 0;
    }

    /** The capacity computation of wl_array_add: it ends, and its doubling never wraps. */
    method Capacity(required: nat) returns (capacity: nat)
      requires Valid() && alloc < required <= sizeMax
      ensures capacity == Doubled(Max(alloc, 16), required, sizeMax)
    {
      capacity := Max(alloc, 16);
      while capacity < required
        invariant 16 <= capacity <= sizeMax
        invariant Doubled(capacity, required, sizeMax) == Doubled(Max(alloc, 16), required, sizeMax)
        decreases required - capacity
      {
        if capacity > sizeMax / 2 {
          capacity := required;
          break;
        }
        capacity := Wrap(capacity * 2, sizeMax);
      }
    }

    /** wl_array_add: returns where the new bytes begin. A null result means that nothing
        changed, save for the addition of no bytes to an array that owns no block. */
    method Add(n: nat, granted: bool) returns (result: Pointer)
      requires Valid() && n <= sizeMax
      modifies this
      ensures Valid()
      ensures var (s, ok) := Added(old(Observed()), n, granted, sizeMax);
              Observed() == s && (result.Null? <==> !ok || (n == 0 && old(data) == null))
      ensures result.Null? && (n > 0 || old(data) != null) <==>
                n > sizeMax - old(size) || (old(size) + n > old(alloc) && !granted)
      ensures result.At? ==> result.block == data && result.offset == old(size) && |Contents()| == old(size) + n
      ensures old(Contents()) <= Contents()
      ensures result.Null? ==> Contents() == old(Contents()) && data == old(data)
      ensures data != old(data) ==> data != null && fresh(data)
    {
      if n > sizeMax - size {
        return Null;
      }
      var required := Wrap(size + n, sizeMax);
      if required > alloc {
        var capacity := Capacity(required);
        DoubledBounds(Max(alloc, 16), required, sizeMax);
        var block := Reallocate(data, capacity, granted);
        if block == null {
          return Null;
        }
        moved := moved + alloc;
        data := block;
        alloc := capacity;
      }
      result := if data == null then Null else At(data, size);
      size := required;
    }

    /** wl_array_copy: all of the source or, when no memory is granted, nothing at all. */
    method Copy(source: Array, granted: bool) returns (status: int)
      requires Valid() && source.Valid() && sizeMax == source.sizeMax
      requires this != source && data != null ==> data != source.data
      modifies this, data
      ensures Valid() && source.Valid()
      ensures status == 0 || status == -1
      ensures status == 0 ==> Contents() == old(source.Contents())
      ensures status == 0 && old(source.size) <= old(size) ==> Observed() == old(Observed()).(size := old(source.size))
      ensures status == 0 && old(source.size) > old(size) ==>
                Observed() == Added(old(Observed()), old(source.size) - old(size), granted, sizeMax).0
      ensures status == -1 <==> old(source.size) > old(alloc) && !granted
      ensures status == -1 ==> Contents() == old(Contents()) && Observed() == old(Observed()) && data == old(data)
      ensures source.Contents() == old(source.Contents())
    {
      if this == source {
        return 0;
      }
      if source.size > size {
        var added := Add(source.size - size, granted);
        if added.Null? {
          return -1;
        }
      }
      if source.size > 0 {
        CopyBytes(data, source.data, source.size);
      }
      size := source.size;
      return 0;
    }
  }

  /** memcpy between distinct blocks. */
  method CopyBytes(target: array<Byte>, source: array<Byte>, n: nat)
    requires target != source && n <= target.Length && n <= source.Length
    modifies target
    ensures target[..n] == source[..n]
  {
    var i := 0;
    while i < n
      invariant 0 <= i <= n && target[..i] == source[..i]
    {
      target[i] := source[i];
      i := i + 1;
    }
  }

  /** realloc: null when memory is refused, otherwise a block that begins with the old bytes. */
  method Reallocate(block: array?<Byte>, capacity: nat, granted: bool) returns (r: array?<Byte>)
    requires block != null ==> block.Length <= capacity
    ensures r == null <==> !granted
    ensures r != null ==> fresh(r) && r.Length == capacity
    ensures r != null && block != null ==> r[..block.Length] == block[..]
  {
    if !granted {
      return null;
    }
    r := new Byte[capacity];
    if block != null {
      forall i | 0 <= i < block.Length {
        r[i] := block[i];
      }
    }
  }

  /** The new capacity holds the request, stays representable, at least doubles the old
      one while that is representable, and wastes less than it stores. */
  lemma {:induction false} DoubledBounds(capacity: nat, required: nat, sizeMax: nat)
    requires 0 < capacity <= sizeMax && required <= sizeMax
    ensures required <= Doubled(capacity, required, sizeMax) <= sizeMax
    ensures capacity <= Doubled(capacity, required, sizeMax)
    ensures Doubled(capacity, required, sizeMax) == capacity || Doubled(capacity, required, sizeMax) < 2 * required
    ensures capacity < required && capacity <= sizeMax / 2 ==> Doubled(capacity, required, sizeMax) >= 2 * capacity
    decreases required - capacity
  {
    if capacity < required && capacity <= sizeMax / 2 {
      DoubledBounds(2 * capacity, required, sizeMax);
    }
  }

  datatype Request = Request(n: nat, granted: bool)

  /** The shape after any sequence of additions, refused and overflowing ones included. */
  function Run(s: Shape, requests: seq<Request>, sizeMax: nat): Shape
    decreases |requests|
  {
    if requests == [] then s
    else Run(Added(s, requests[0].n, requests[0].granted, sizeMax).0, requests[1..], sizeMax)
  }

  lemma AddedKeepsBudget(s: Shape, r: Request, sizeMax: nat)
    requires GuestSizeMax(sizeMax) && WellShaped(s, sizeMax)
    ensures WellShaped(Added(s, r.n, r.granted, sizeMax).0, sizeMax)
    ensures var t := Added(s, r.n, r.granted, sizeMax).0;
            s.size <= t.size && (s.moved <= s.alloc && t.size <= sizeMax / 2 + 1 ==> t.moved <= t.alloc)
    ensures var t := Added(s, r.n, r.granted, sizeMax).0;
            s.alloc <= 16 || s.alloc < 2 * s.size ==> t.alloc <= 16 || t.alloc < 2 * t.size
  {
    if s.alloc < s.size + r.n <= sizeMax {
      DoubledBounds(Max(s.alloc, 16), s.size + r.n, sizeMax);
    }
  }

  lemma {:induction false} SizeNeverShrinks(s: Shape, requests: seq<Request>, sizeMax: nat)
    requires GuestSizeMax(sizeMax) && WellShaped(s, sizeMax)
    ensures s.size <= Run(s, requests, sizeMax).size
    decreases |requests|
  {
    if requests != [] {
      AddedKeepsBudget(s, requests[0], sizeMax);
      SizeNeverShrinks(Added(s, requests[0].n, requests[0].granted, sizeMax).0, requests[1..], sizeMax);
    }
  }

  /** Amortised growth: while no more than half the address space is in use, everything
      ever copied by reallocation fits in the final block, and no more than half of that
      block (or the first 16 bytes) is idle. */
  lemma {:induction false} GrowthIsAmortised(s: Shape, requests: seq<Request>, sizeMax: nat)
    requires GuestSizeMax(sizeMax) && WellShaped(s, sizeMax) && s.moved <= s.alloc
    requires s.alloc <= 16 || s.alloc < 2 * s.size
    requires Run(s, requests, sizeMax).size <= sizeMax / 2 + 1
    ensures var t := Run(s, requests, sizeMax);
            WellShaped(t, sizeMax) && t.moved <= t.alloc && (t.alloc <= 16 || t.alloc < 2 * t.size)
    decreases |requests|
  {
    if requests != [] {
      var next := Added(s, requests[0].n, requests[0].granted, sizeMax).0;
      AddedKeepsBudget(s, requests[0], sizeMax);
      SizeNeverShrinks(next, requests[1..], sizeMax);
      GrowthIsAmortised(next, requests[1..], sizeMax);
    }
  }

  lemma {:induction false} RunLast(s: Shape, requests: seq<Request>, r: Request, sizeMax: nat)
    ensures Run(s, requests + [r], sizeMax) == Added(Run(s, requests, sizeMax), r.n, r.granted, sizeMax).0
    decreases |requests|
  {
    hide Added;
    if requests == [] {
      assert requests + [r] == [r] && [r][1..] == [];
    } else {
      assert (requests + [r])[1..] == requests[1..] + [r];
      RunLast(Added(s, requests[0].n, requests[0].granted, sizeMax).0, requests[1..], r, sizeMax);
    }
  }

  const EMPTY := Shape(0, 0, 0)

  lemma NextBlock(c: nat, sizeMax: nat)
    requires 16 <= c <= sizeMax / 2
    ensures Added(Shape(c, c, c - 16), c, true, sizeMax).0 == Shape(2 * c, 2 * c, 2 * c - 16)
  {
    assert Doubled(c, 2 * c, sizeMax) == Doubled(2 * c, 2 * c, sizeMax) == 2 * c;
  }

  /** Filling block after block reaches every doubling of 16 with all but 16 of its bytes
      moved. */
  lemma {:induction false} FullBlock(k: nat, sizeMax: nat) returns (requests: seq<Request>)
    requires GuestSizeMax(sizeMax) && 16 * Pow2(k) <= sizeMax / 2 + 1
    ensures Run(EMPTY, requests, sizeMax) == Shape(16 * Pow2(k), 16 * Pow2(k), 16 * Pow2(k) - 16)
    decreases k
  {
    var last := Request(if k == 0 then 16 else 16 * Pow2(k - 1), true);
    var before: seq<Request> := [];
    if k > 0 {
      before := FullBlock(k - 1, sizeMax);
      NextBlock(16 * Pow2(k - 1), sizeMax);
    } else {
      assert Run(EMPTY, before, sizeMax) == EMPTY && 16 * Pow2(0) == 16;
    }
    requests := before + [last];
    RunLast(EMPTY, before, last, sizeMax);
  }

  /** One byte beyond half the address space the block grows by that byte only, and all of
      it has to move. */
  lemma PastHalf(sizeMax: nat) returns (requests: seq<Request>)
    requires GuestSizeMax(sizeMax)
    ensures var t := Run(EMPTY, requests, sizeMax);
            t.size == sizeMax / 2 + 2 && t.moved > t.alloc
  {
    var k := if sizeMax == 0xffff_ffff then 27 else 59;
    PowersOfTwo();
    var before := FullBlock(k, sizeMax);
    requests := before + [Request(1, true)];
    RunLast(EMPTY, before, Request(1, true), sizeMax);
  }

  /** The moved bytes stay within the final block for every sequence of calls that ends
      within `bound` bytes, if and only if the bound is at most one half of the address
      space. */
  lemma AmortisedExactlyToHalf(bound: nat, sizeMax: nat)
    requires GuestSizeMax(sizeMax)
    ensures (forall requests :: Run(EMPTY, requests, sizeMax).size <= bound ==>
               Run(EMPTY, requests, sizeMax).moved <= Run(EMPTY, requests, sizeMax).alloc)
       <==> bound <= sizeMax / 2 + 1
  {
    if bound <= sizeMax / 2 + 1 {
      forall requests | Run(EMPTY, requests, sizeMax).size <= bound
        ensures Run(EMPTY, requests, sizeMax).moved <= Run(EMPTY, requests, sizeMax).alloc
      {
        GrowthIsAmortised(EMPTY, requests, sizeMax);
      }
    } else {
      var requests := PastHalf(sizeMax);
    }
  }

  lemma PowersOfTwo()
    ensures 16 * Pow2(27) == 0x8000_0000 && 16 * Pow2(59) == 0x8000_0000_0000_0000
  {
    assert Pow2(8) == 256 && Pow2(3) == 8;
    Pow2Sum(8, 8);
    Pow2Sum(16, 8);
    Pow2Sum(24, 3);
    Pow2Sum(27, 24);
    Pow2Sum(51, 8);
  }

  function Pow2(k: nat): (r: nat)
    ensures r > 0
  {
    if k == 0 then 1 else 2 * Pow2(k - 1)
  }

  lemma TwiceProduct(x: nat, y: nat)
    ensures 2 * (x * y) == x * (2 * y) && 2 * (x * y) == (2 * x) * y
  {
  }

  lemma {:induction false} Pow2Sum(a: nat, b: nat)
    ensures Pow2(a + b) == Pow2(a) * Pow2(b)
  {
    if b > 0 {
      Pow2Sum(a, b - 1);
      TwiceProduct(Pow2(a), Pow2(b - 1));
    }
  }
}
