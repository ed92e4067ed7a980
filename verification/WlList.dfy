/** The guest-side intrusive list of libwayland-client (struct wl_list): a ring of
    nodes threaded through the caller's own structures, the list head included. */
module WlList {
  class Node {
    var prev: Node?
    var next: Node?
  }

  function After(i: nat, n: nat): nat {
    if i + 1 == n then 0 else i + 1
  }

  ghost predicate Distinct(s: seq<Node>) {
    forall i, j :: 0 <= i < j < |s| ==> s[i] != s[j]
  }

  ghost predicate Linked(a: Node, b: Node)
    reads a, b
  {
    a.next == b && b.prev == a
  }

  /** The nodes of `s`, in order, form one closed ring in both directions. */
  ghost predicate Ring(s: seq<Node>)
    reads s
  {
    && s != []
    && Distinct(s)
    && forall i {:trigger After(i, |s|)} :: 0 <= i < |s| ==> Linked(s[i], s[After(i, |s|)])
  }

  /** `s` with the elements `e` placed behind position `k`. */
  function InsertedAfter<T>(s: seq<T>, k: nat, e: seq<T>): seq<T>
    requires k < |s|
  {
    s[..k + 1] + e + s[k + 1..]
  }

  function Without<T>(s: seq<T>, k: nat): seq<T>
    requires k < |s|
  {
    s[..k] + s[k + 1..]
  }

  method Init(list: Node)
    modifies list
    ensures Ring([list])
  {
    list.next := list;
    list.prev := list;
  }

  /** wl_list_insert: only `elm`, the forward link of `list` and the backward link of
      the old successor are written. */
  method Insert(list: Node, elm: Node, ghost ring: seq<Node>, ghost k: nat)
    requires Ring(ring) && k < |ring| && ring[k] == list && elm !in ring
    requires Linked(ring[k], ring[After(k, |ring|)])
    modifies elm, list`next, list.next`prev
    ensures Ring(InsertedAfter(ring, k, [elm]))
  {
    ghost var n := |ring|;
    ghost var succ := ring[After(k, n)];
    elm.prev := list;
    elm.next := list.next;
    list.next.prev := elm;
    list.next := elm;
    assert list in ring && succ in ring;
    assert list.next == elm && elm.prev == list && elm.next == succ && succ.prev == elm;
    ghost var s := InsertedAfter(ring, k, [elm]);
    InsertedIsDistinct(ring, k, elm);
    forall i | 0 <= i < n + 1
      ensures Linked(s[i], s[After(i, n + 1)])
    {
      if i < k {
        assert After(i, n) == i + 1;
        assert ring[i] in ring && ring[i + 1] in ring;
        assert s[i] == ring[i] && s[i + 1] == ring[i + 1];
      } else if i > k + 1 {
        assert After(i - 1, n) == if i == n then 0 else i;
        assert ring[i - 1] in ring && ring[After(i - 1, n)] in ring;
        assert s[i] == ring[i - 1] && s[After(i, n + 1)] == ring[After(i - 1, n)];
      } else if i == k {
        assert s[i] == list && s[i + 1] == elm;
      } else {
        assert s[i] == elm && s[After(i, n + 1)] == succ;
      }
    }
  }

  lemma InsertedIsDistinct(ring: seq<Node>, k: nat, elm: Node)
    requires k < |ring| && Distinct(ring) && elm !in ring
    ensures Distinct(InsertedAfter(ring, k, [elm]))
  {
    var s := InsertedAfter(ring, k, [elm]);
    forall i, j | 0 <= i < j < |s|
      ensures s[i] != s[j]
    {
      assert i != k + 1 ==> s[i] in ring;
      assert j != k + 1 ==> s[j] in ring;
    }
  }

  /** wl_list_remove: the neighbours are joined and the removed node's own links cleared. */
  method Remove(elm: Node, ghost ring: seq<Node>, ghost k: nat)
    requires Ring(ring) && k < |ring| && ring[k] == elm
    requires elm.prev != null && elm.next != null
    modifies elm, elm.prev`next, elm.next`prev
    ensures elm.prev == null && elm.next == null
    ensures |ring| > 1 ==> Ring(Without(ring, k))
  {
    ghost var n := |ring|;
    ghost var before := if k == 0 then n - 1 else k - 1;
    assert After(before, n) == k && After(k, n) == if k == n - 1 then 0 else k + 1;
    assert elm.prev == ring[before] && elm.next == ring[After(k, n)];
    elm.prev.next := elm.next;
    elm.next.prev := elm.prev;
    elm.prev := null;
    elm.next := null;
    ghost var s := Without(ring, k);
    forall i | 0 <= i < n - 1
      ensures Linked(s[i], s[After(i, n - 1)])
    {
      var j := if i < k then i else i + 1;
      assert After(j, n) == if j + 1 == n then 0 else j + 1;
    }
  }

  method Empty(list: Node, ghost ring: seq<Node>, ghost k: nat) returns (empty: bool)
    requires Ring(ring) && k < |ring| && ring[k] == list
    ensures empty <==> |ring| == 1
  {
    assert After(k, |ring|) == if k + 1 == |ring| then 0 else k + 1;
    return list.next == list;
  }

  /** A C int, whose increment past the maximum is undefined. */
  newtype CInt = x: int | -0x8000_0000 <= x <= 0x7fff_ffff

  /** wl_list_length terminates on every ring the C int can count and counts every
      node but the one it starts from, whichever node that is. */
  method Length(list: Node, ghost ring: seq<Node>, ghost k: nat) returns (count: CInt)
    requires Ring(ring) && k < |ring| && ring[k] == list
    requires |ring| - 1 <= 0x7fff_ffff
    ensures count as int == |ring| - 1
  {
    ghost var n := |ring|;
    ghost var s := ring[k..] + ring[..k];
    RotationIsRing(ring, k);
    count := 0;
    var elm := list.next;
    assert After(0, n) == if n == 1 then 0 else 1;
    while elm != list
      invariant 0 <= count as int < n
      invariant elm == s[After(count as int, n)]
      decreases n - count as int
    {
      assert After(count as int, n) == count as int + 1;
      assert Linked(s[count as int + 1], s[After(count as int + 1, n)]);
      count := count + 1;
      elm := elm.next;
    }
    assert After(count as int, n) == 0 by {
      assert s[After(count as int, n)] == s[0];
    }
  }

  lemma DisjointIsDistinct(ring: seq<Node>, k: nat, other: Node, moved: seq<Node>)
    requires k < |ring| && Distinct(ring) && Distinct([other] + moved)
    requires forall x :: x in ring ==> x != other && x !in moved
    ensures Distinct(InsertedAfter(ring, k, moved))
  {
    var o := [other] + moved;
    var s := InsertedAfter(ring, k, moved);
    forall i, j | 0 <= i < j < |s|
      ensures s[i] != s[j]
    {
      assert s[i] in ring || s[i] == o[i - k];
      assert s[j] in ring || s[j] == o[j - k];
    }
  }

  /** wl_list_insert_list: the elements of `other` move, in order, behind `list`; an
      empty `other` changes nothing. */
  method InsertList(list: Node, other: Node, ghost ring: seq<Node>, ghost k: nat, ghost moved: seq<Node>)
    requires Ring(ring) && k < |ring| && ring[k] == list
    requires Ring([other] + moved)
    requires forall x :: x in ring ==> x != other && x !in moved
    requires list.next != null && other.next != null && other.prev != null
    modifies list`next, list.next`prev, other.next`prev, other.prev`next
    ensures Ring(InsertedAfter(ring, k, moved))
    ensures moved == [] ==> list.next == old(list.next) && list.next.prev == list
  {
    ghost var o := [other] + moved;
    ghost var n, m := |ring|, |moved|;
    DisjointIsDistinct(ring, k, other, moved);
    assert After(0, m + 1) == if m == 0 then 0 else 1;
    var empty := Empty(other, o, 0);
    if empty {
      assert InsertedAfter(ring, k, moved) == ring;
      return;
    }
    assert After(m, m + 1) == 0;
    assert other.next == moved[0] && other.prev == moved[m - 1];
    ghost var succ := ring[After(k, n)];
    ghost var first, last := moved[0], moved[m - 1];
    assert list in ring && succ in ring && first in moved && last in moved;
    assert first != succ && last != list && list.next == succ;
    other.next.prev := list;
    other.prev.next := list.next;
    list.next.prev := other.prev;
    list.next := other.next;
    assert list.next == first && first.prev == list && last.next == succ && succ.prev == last;
    ghost var s := InsertedAfter(ring, k, moved);
    forall i | 0 <= i < n + m
      ensures Linked(s[i], s[After(i, n + m)])
    {
      if i < k {
        assert After(i, n) == i + 1;
        assert ring[i] in ring && ring[i + 1] in ring;
        assert s[i] == ring[i] && s[i + 1] == ring[i + 1];
      } else if k < i < k + m {
        var j := i - k;
        assert After(j, m + 1) == j + 1;
        assert o[j] == moved[j - 1] && o[j + 1] == moved[j];
        assert s[i] == o[j] && s[i + 1] == o[j + 1];
        assert o[j] in moved && o[j + 1] in moved;
        assert o[j] != o[m] && o[j + 1] != o[1];
      } else if i > k + m {
        assert After(i - m, n) == if i - m + 1 == n then 0 else i - m + 1;
        assert ring[i - m] in ring && ring[After(i - m, n)] in ring;
        assert s[i] == ring[i - m] && s[After(i, n + m)] == ring[After(i - m, n)];
      } else if i == k {
        assert s[i] == list && s[i + 1] == first;
      } else {
        assert s[i] == last && s[After(i, n + m)] == succ;
      }
    }
  }

  /** Any node may be taken as the start of the ring. */
  lemma RotationIsRing(s: seq<Node>, k: nat)
    requires Ring(s) && k < |s|
    ensures Ring(s[k..] + s[..k])
  {
    var n := |s|;
    var t := s[k..] + s[..k];
    forall i | 0 <= i < n
      ensures Linked(t[i], t[After(i, n)])
    {
      var j := if i + k < n then i + k else i + k - n;
      assert After(j, n) == if j + 1 == n then 0 else j + 1;
      assert t[i] == s[j];
    }
  }

  /** The heap determines the sequence: a ring is read in only one way from its head. */
  lemma RingIsUnique(a: seq<Node>, b: seq<Node>)
    requires Ring(a) && Ring(b) && a[0] == b[0]
    ensures a == b
  {
    var m := if |a| < |b| then |a| else |b|;
    CommonPrefix(a, b, m);
    assert a[m - 1] == a[..m][m - 1] == b[..m][m - 1] == b[m - 1];
    assert a[After(m - 1, |a|)] == b[After(m - 1, |b|)];
    assert a == a[..m] && b == b[..m];
  }

  lemma {:induction false} CommonPrefix(a: seq<Node>, b: seq<Node>, m: nat)
    requires Ring(a) && Ring(b) && a[0] == b[0] && m <= |a| && m <= |b|
    ensures a[..m] == b[..m]
  {
    if m > 1 {
      CommonPrefix(a, b, m - 1);
      assert After(m - 2, |a|) == m - 1 == After(m - 2, |b|);
      assert a[m - 2] == a[..m - 1][m - 2] == b[..m - 1][m - 2] == b[m - 2];
    }
  }
}
