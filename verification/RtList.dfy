/**
 The kernel's intrusive circular doubly linked list (include/rtservice.h).

 A list head and the nodes threaded onto it are plain values of a type `T`; the
 `next` and `prev` fields of all nodes of one kind live in a `Links` value.
 `Ring` says that a head and a sequence of nodes form one circular list, and the
 lemmas say what each pointer operation does to that sequence and that it leaves
 every other ring alone.
 */
module RtList {

  datatype Links<T> = Links(next: map<T, T>, prev: map<T, T>)

  /** `n` is a list node whose two fields exist. */
  predicate Has<T(==)>(m: Links<T>, n: T) {
    n in m.next && n in m.prev
  }

  /** The node in front of position `k` of a list: its head, or the k-th node. */
  function Before<T>(h: T, s: seq<T>, k: nat): T
    requires k <= |s|
  {
    if k == 0 then h else s[k - 1]
  }

  /** The node at position `k` of a list, the head again at its end. */
  function After<T>(h: T, s: seq<T>, k: nat): T
    requires k <= |s|
  {
    if k == |s| then h else s[k]
  }

  /** `a` and `b` are neighbours, and both of their fields say so. */
  ghost predicate Joined<T(!new)>(m: Links<T>, a: T, b: T) {
    Has(m, a) && Has(m, b) && m.next[a] == b && m.prev[b] == a
  }

  /** The two nodes on either side of position `k` are neighbours. */
  ghost predicate JoinedAt<T(!new)>(m: Links<T>, h: T, s: seq<T>, k: nat)
    requires k <= |s|
  {
    Joined(m, Before(h, s, k), After(h, s, k))
  }

  /** The head `h` and then the nodes `s`, in this order, form one circular list. */
  ghost predicate Ring<T(!new)>(m: Links<T>, h: T, s: seq<T>) {
    && (forall i, j :: 0 <= i < j < |s| ==> s[i] != s[j])
    && h !in s
    && (forall k :: 0 <= k <= |s| ==> JoinedAt(m, h, s, k))
  }

  /** A node that is on no list points to itself. */
  ghost predicate Idle<T(!new)>(m: Links<T>, n: T) {
    Has(m, n) && m.next[n] == n && m.prev[n] == n
  }

  /** `n` threaded between the neighbours `l` and `r`. */
  function Threaded<T(==)>(m: Links<T>, l: T, n: T, r: T): Links<T> {
    Links(m.next[n := r][l := n], m.prev[r := n][n := l])
  }

  /** The neighbours of `n` joined, and `n` pointing to itself. */
  function Unthreaded<T(==)>(m: Links<T>, n: T): Links<T>
    requires Has(m, n)
  {
    Links(m.next[m.prev[n] := m.next[n]][n := n], m.prev[m.next[n] := m.prev[n]][n := n])
  }

  /** rt_list_init */
  method Init<T(==)>(m: Links<T>, l: T) returns (r: Links<T>)
    ensures r == Links(m.next[l := l], m.prev[l := l])
  {
    r := m.(prev := m.prev[l := l]);
    r := r.(next := r.next[l := r.prev[l]]);
  }

  /** rt_list_insert_after: the four assignments, in the order of the code. */
  method InsertAfter<T(==)>(m: Links<T>, l: T, n: T) returns (r: Links<T>)
    requires Has(m, l) && l != n && m.next[l] != n
    ensures r == Threaded(m, l, n, m.next[l])
  {
    r := m.(prev := m.prev[m.next[l] := n]);
    r := r.(next := r.next[n := r.next[l]]);
    r := r.(next := r.next[l := n]);
    r := r.(prev := r.prev[n := l]);
  }

  /** rt_list_insert_before */
  method InsertBefore<T(==)>(m: Links<T>, l: T, n: T) returns (r: Links<T>)
    requires Has(m, l) && l != n && m.prev[l] != n
    ensures r == Threaded(m, m.prev[l], n, l)
  {
    r := m.(next := m.next[m.prev[l] := n]);
    r := r.(prev := r.prev[n := r.prev[l]]);
    r := r.(prev := r.prev[l := n]);
    r := r.(next := r.next[n := l]);
    assert r.next == Threaded(m, m.prev[l], n, l).next;
    assert r.prev == Threaded(m, m.prev[l], n, l).prev;
  }

  /** rt_list_remove */
  method Remove<T(==)>(m: Links<T>, n: T) returns (r: Links<T>)
    requires Has(m, n)
    ensures r == Unthreaded(m, n)
  {
    r := m.(prev := m.prev[m.next[n] := m.prev[n]]);
    r := r.(next := r.next[m.prev[n] := r.next[n]]);
    r := r.(next := r.next[n := n], prev := r.prev[n := n]);
  }

  /** The first two assignments of rt_list_remove, as code that keeps its own list fields does it. */
  method Bridge<T(==)>(m: Links<T>, n: T) returns (r: Links<T>)
    requires Has(m, n)
    ensures r == Bridged(m, n)
  {
    r := m.(prev := m.prev[m.next[n] := m.prev[n]]);
    r := r.(next := r.next[m.prev[n] := r.next[n]]);
  }

  /** rt_list_isempty */
  predicate IsEmpty<T(==)>(m: Links<T>, l: T)
    requires Has(m, l)
  {
    m.next[l] == l
  }

  /** `s` with `n` inserted before position `k`. */
  function Inserted<T>(s: seq<T>, k: nat, n: T): (r: seq<T>)
    requires k <= |s|
    ensures |r| == |s| + 1
    ensures forall i :: 0 <= i < |r| ==> r[i] == if i < k then s[i] else if i == k then n else s[i - 1]
  {
    s[..k] + [n] + s[k..]
  }

  /** `s` without its element at position `k`. */
  function Dropped<T>(s: seq<T>, k: nat): (r: seq<T>)
    requires k < |s|
    ensures |r| == |s| - 1
    ensures forall i :: 0 <= i < |r| ==> r[i] == if i < k then s[i] else s[i + 1]
  {
    s[..k] + s[k + 1..]
  }

  /** A list reads as empty exactly when no node is on it. */
  lemma EmptyRing<T(!new)>(m: Links<T>, h: T, s: seq<T>)
    requires Ring(m, h, s)
    ensures Has(m, h) && (IsEmpty(m, h) <==> s == [])
  {
    assert JoinedAt(m, h, s, 0);
    if s != [] {
      assert s[0] in s;
    }
  }

  /** Threading a node in at position k of a ring inserts it there. */
  lemma RingThreaded<T(!new)>(m: Links<T>, h: T, s: seq<T>, k: nat, n: T)
    requires Ring(m, h, s) && k <= |s| && n !in s && n != h
    ensures Ring(Threaded(m, Before(h, s, k), n, After(h, s, k)), h, Inserted(s, k, n))
  {
    var m', d := Threaded(m, Before(h, s, k), n, After(h, s, k)), Inserted(s, k, n);
    assert JoinedAt(m, h, s, k);
    forall i | 0 <= i <= |d|
      ensures JoinedAt(m', h, d, i)
    {
      if i < k {
        assert JoinedAt(m, h, s, i);
      } else if i > k + 1 {
        assert JoinedAt(m, h, s, i - 1);
      }
    }
  }

  /** Removing the k-th node takes it out of the sequence and leaves it on no list. */
  lemma RingUnthreaded<T(!new)>(m: Links<T>, h: T, s: seq<T>, k: nat)
    requires Ring(m, h, s) && k < |s|
    ensures Has(m, s[k])
    ensures Ring(Unthreaded(m, s[k]), h, Dropped(s, k))
    ensures Idle(Unthreaded(m, s[k]), s[k])
  {
    assert JoinedAt(m, h, s, k) && JoinedAt(m, h, s, k + 1);
    var m', d := Unthreaded(m, s[k]), Dropped(s, k);
    forall i | 0 <= i <= |d|
      ensures JoinedAt(m', h, d, i)
    {
      if i < k {
        assert JoinedAt(m, h, s, i);
      } else if i > k {
        assert JoinedAt(m, h, s, i + 1);
      }
    }
  }

  /** Removing a node that is on no list changes nothing. */
  lemma IdleUnthreaded<T(!new)>(m: Links<T>, n: T)
    requires Idle(m, n)
    ensures Unthreaded(m, n) == m
  {
    assert Unthreaded(m, n).next == m.next && Unthreaded(m, n).prev == m.prev;
  }

  /** A ring none of whose nodes is written stays as it is. */
  lemma RingFrame<T(!new)>(m: Links<T>, m': Links<T>, h: T, s: seq<T>)
    requires Ring(m, h, s)
    requires forall x :: x == h || x in s ==>
      Has(m', x) && (Has(m, x) ==> m'.next[x] == m.next[x] && m'.prev[x] == m.prev[x])
    ensures Ring(m', h, s)
  {
    forall k | 0 <= k <= |s|
      ensures JoinedAt(m', h, s, k)
    {
      assert JoinedAt(m, h, s, k);
      assert Before(h, s, k) == h || Before(h, s, k) in s;
      assert After(h, s, k) == h || After(h, s, k) in s;
    }
  }

  /** The neighbours of `n` joined, the fields of `n` itself as they were. */
  function Bridged<T(==)>(m: Links<T>, n: T): Links<T>
    requires Has(m, n)
  {
    Links(m.next[m.prev[n] := m.next[n]], m.prev[m.next[n] := m.prev[n]])
  }

  /** Joining the neighbours of the k-th node takes it out of the sequence. */
  lemma RingBridged<T(!new)>(m: Links<T>, h: T, s: seq<T>, k: nat)
    requires Ring(m, h, s) && k < |s|
    ensures Has(m, s[k])
    ensures Ring(Bridged(m, s[k]), h, Dropped(s, k)) && s[k] !in Dropped(s, k)
  {
    assert JoinedAt(m, h, s, k) && JoinedAt(m, h, s, k + 1);
    var m', d := Bridged(m, s[k]), Dropped(s, k);
    forall i | 0 <= i <= |d|
      ensures JoinedAt(m', h, d, i)
    {
      if i < k {
        assert JoinedAt(m, h, s, i);
      } else if i > k {
        assert JoinedAt(m, h, s, i + 1);
      }
    }
  }

  lemma InsertedMembers<T>(q: seq<T>, k: nat, t: T)
    requires k <= |q|
    ensures forall x :: x in Inserted(q, k, t) <==> x in q || x == t
  {
    var r := Inserted(q, k, t);
    assert r[k] == t;
    forall x | x in q
      ensures x in r
    {
      var i :| 0 <= i < |q| && q[i] == x;
      assert r[if i < k then i else i + 1] == x;
    }
  }

  lemma DroppedMembers<T>(q: seq<T>, k: nat)
    requires k < |q| && forall i :: 0 <= i < |q| && i != k ==> q[i] != q[k]
    ensures forall x :: x in Dropped(q, k) <==> x in q && x != q[k]
  {
    var r := Dropped(q, k);
    forall x | x in q && x != q[k]
      ensures x in r
    {
      var i :| 0 <= i < |q| && q[i] == x;
      assert r[if i < k then i else i - 1] == x;
    }
  }
}
