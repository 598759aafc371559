/**
 The small-memory heap of src/mem.c: blocks with headers that chain them by offset from the
 start of the heap, up to a last block that is always used. `lfree` is where searches start.
 */
module HeapChain {
  import opened RtList

  /** SIZEOF_STRUCT_MEM: two halfwords and two words with 4-byte alignment. MIN_SIZE_ALIGNED. */
  const H: nat := 12
  const MIN: nat := 12

  /** The header fields, the fields of the heap, the blocks in the order of the chain. */
  datatype Heap = Heap(used: map<nat, bool>, next: map<nat, nat>, prev: map<nat, nat>, lfree: nat, usedMem: int,
    b: seq<nat>)

  // ----- the invariant -----

  predicate Unused(used: map<nat, bool>, a: nat) {
    a in used && !used[a]
  }

  /** Block i reaches to the next one; its header names both neighbours, the first block itself. */
  ghost predicate LinkedAt(h: Heap, i: nat)
    requires i + 1 < |h.b|
  {
    var a, c := h.b[i], h.b[i + 1];
    && a + H < c && a % 4 == 0 && a in h.used && a in h.next && a in h.prev
    && h.next[a] == c && h.prev[a] == if i == 0 then a else h.b[i - 1]
  }

  /** The blocks tile the heap; nothing is said of the `prev` of its end. */
  ghost predicate Chained(h: Heap, end: nat) {
    && |h.b| >= 2 && h.b[0] == 0 && h.b[|h.b| - 1] == end && end % 4 == 0
    && end in h.used && h.used[end] && end in h.next && h.next[end] == end
    && forall i: nat :: i < |h.b| - 1 ==> LinkedAt(h, i)
  }

  predicate Separated(used: map<nat, bool>, b: seq<nat>, i: nat)
    requires i + 1 < |b|
  {
    !(Unused(used, b[i]) && Unused(used, b[i + 1]))
  }

  /** No two unused blocks are neighbours, except possibly at the positions `skip`. */
  ghost predicate NoAdjacent(used: map<nat, bool>, b: seq<nat>, skip: set<int>) {
    forall i: nat :: i < |b| - 1 && i !in skip ==> Separated(used, b, i)
  }

  function Extent(used: map<nat, bool>, a: nat, c: nat): int {
    if a in used && used[a] then c - a else 0
  }

  /** The bytes of the used blocks with their headers. */
  function Sum(used: map<nat, bool>, b: seq<nat>): int {
    if |b| < 2 then 0 else Extent(used, b[0], b[1]) + Sum(used, b[1..])
  }

  ghost predicate Core(h: Heap, end: nat, skip: set<int>) {
    Chained(h, end) && NoAdjacent(h.used, h.b, skip) && h.usedMem == Sum(h.used, h.b)
  }

  /** `lfree` is an unused block, or the end of the heap. */
  ghost predicate FreeHint(h: Heap, end: nat) {
    h.lfree in h.b && (h.lfree == end || Unused(h.used, h.lfree))
  }

  ghost predicate Inv(h: Heap, end: nat) {
    Core(h, end, {}) && FreeHint(h, end)
  }

  ghost function Free(h: Heap): set<nat> {
    set a | a in h.b && Unused(h.used, a)
  }

  /** No unused block is below `lfree`. */
  ghost predicate Lowest(h: Heap) {
    forall a: nat :: a in Free(h) ==> h.lfree <= a
  }

  /** The allocated blocks with the sizes their users see. */
  ghost function Live(h: Heap, end: nat): map<nat, int> {
    map a | a in h.b && Alive(h, end, a) :: h.next[a] - a - H
  }

  predicate Alive(h: Heap, end: nat, a: nat) {
    a in h.b && a != end && a in h.used && h.used[a] && a in h.next
  }

  /** The allocated blocks after a change to one of them, or to none. */
  lemma LiveIs(h: Heap, h': Heap, end: nat, c: nat, gone: bool)
    requires forall a: nat :: Alive(h', end, a) <==> (Alive(h, end, a) || a == c) && !(gone && a == c)
    requires forall a: nat :: Alive(h, end, a) && Alive(h', end, a) && a != c ==> h'.next[a] == h.next[a]
    ensures gone ==> Live(h', end) == Live(h, end) - {c}
    ensures !gone ==> c in h'.next && Live(h', end) == Live(h, end)[c := h'.next[c] - c - H]
  {
    var l, l' := Live(h, end), Live(h', end);
    if !gone {
      assert Alive(h', end, c);
    }
  }

  lemma LiveSame(h: Heap, h': Heap, end: nat)
    requires forall a: nat :: Alive(h', end, a) <==> Alive(h, end, a)
    requires forall a: nat :: Alive(h, end, a) && Alive(h', end, a) ==> h'.next[a] == h.next[a]
    ensures Live(h', end) == Live(h, end)
  {
  }

  // ----- order -----

  lemma {:induction false} Increasing(h: Heap, end: nat, i: nat, j: nat)
    requires Chained(h, end) && i < j < |h.b|
    ensures h.b[i] + H <= h.b[j]
    decreases j - i
  {
    assert LinkedAt(h, i);
    if i + 1 < j {
      Increasing(h, end, i + 1, j);
    }
  }

  lemma Ordered(h: Heap, end: nat)
    requires Chained(h, end)
    ensures forall i, j :: 0 <= i < j < |h.b| ==> h.b[i] + H <= h.b[j]
  {
    forall i, j | 0 <= i < j < |h.b| ensures h.b[i] + H <= h.b[j] {
      Increasing(h, end, i, j);
    }
  }

  /** What a well-formed heap knows of block i. */
  lemma BlockAt(h: Heap, end: nat, i: nat)
    requires Chained(h, end) && i < |h.b| - 1
    ensures var a, c := h.b[i], h.b[i + 1];
      && a in h.used && a in h.next && a in h.prev && h.next[a] == c && h.prev[a] == (if i == 0 then a else h.b[i - 1])
      && a + H < c <= end && a % 4 == 0 && c in h.used && c in h.next && end in h.used && h.used[end]
      && (c == end <==> i + 1 == |h.b| - 1)
      && (i > 0 ==> h.b[i - 1] in h.used && h.b[i - 1] in h.next && h.b[i - 1] + H <= a)
  {
    assert LinkedAt(h, i);
    if i + 1 < |h.b| - 1 {
      assert LinkedAt(h, i + 1);
      Increasing(h, end, i + 1, |h.b| - 1);
    }
    if i > 0 {
      assert LinkedAt(h, i - 1);
    }
  }

  lemma IndexOf(h: Heap, end: nat, a: nat) returns (i: nat)
    requires Chained(h, end) && a in h.b && a != end
    ensures i < |h.b| - 1 && h.b[i] == a
  {
    i :| 0 <= i < |h.b| && h.b[i] == a;
  }

  // ----- the used bytes -----

  lemma {:induction false} SumSplit(used: map<nat, bool>, b: seq<nat>, i: nat)
    requires i < |b|
    ensures Sum(used, b) == Sum(used, b[..i + 1]) + Sum(used, b[i..])
  {
    if i == 0 {
      assert b[0..] == b;
    } else {
      SumSplit(used, b[1..], i - 1);
      assert b[1..][..i] == b[..i + 1][1..] && b[1..][i - 1..] == b[i..];
    }
  }

  lemma SumAt(used: map<nat, bool>, b: seq<nat>, i: nat)
    requires i + 1 < |b|
    ensures Sum(used, b) == Sum(used, b[..i + 1]) + Extent(used, b[i], b[i + 1]) + Sum(used, b[i + 1..])
  {
    SumSplit(used, b, i);
    assert b[i..][1..] == b[i + 1..];
  }

  lemma {:induction false} SumFrame(used: map<nat, bool>, used': map<nat, bool>, b: seq<nat>)
    requires forall i :: 0 <= i < |b| - 1 ==> (b[i] in used && used[b[i]]) == (b[i] in used' && used'[b[i]])
    ensures Sum(used', b) == Sum(used, b)
  {
    if |b| >= 2 {
      SumFrame(used, used', b[1..]);
    }
  }

  lemma SumMark(used: map<nat, bool>, b: seq<nat>, i: nat, u: bool)
    requires i + 1 < |b| && forall j :: 0 <= j < |b| && j != i ==> b[j] != b[i]
    ensures var used' := used[b[i] := u];
      Sum(used', b) == Sum(used, b) - Extent(used, b[i], b[i + 1]) + Extent(used', b[i], b[i + 1])
  {
    hide Sum, Extent;
    var used' := used[b[i] := u];
    SumAt(used, b, i);
    SumAt(used', b, i);
    SumFrame(used, used', b[..i + 1]);
    SumFrame(used, used', b[i + 1..]);
  }

  lemma SumInsert(used: map<nat, bool>, b: seq<nat>, i: nat, n: nat)
    requires i + 1 < |b|
    ensures Sum(used, Inserted(b, i + 1, n))
      == Sum(used, b) - Extent(used, b[i], b[i + 1]) + Extent(used, b[i], n) + Extent(used, n, b[i + 1])
  {
    hide Extent;
    var d := Inserted(b, i + 1, n);
    SumAt(used, b, i);
    SumAt(used, d, i);
    assert d[..i + 1] == b[..i + 1] && d[i + 2..] == b[i + 1..];
    SumAt(used, d[i + 1..], 0);
    assert d[i + 1..][..1] == [n] && d[i + 1..][1..] == b[i + 1..];
  }

  lemma SumDrop(used: map<nat, bool>, b: seq<nat>, i: nat)
    requires 1 <= i < |b| - 1
    ensures Sum(used, Dropped(b, i))
      == Sum(used, b) - Extent(used, b[i - 1], b[i]) - Extent(used, b[i], b[i + 1]) + Extent(used, b[i - 1], b[i + 1])
  {
    SumInsert(used, Dropped(b, i), i - 1, b[i]);
    assert Inserted(Dropped(b, i), i, b[i]) == b;
  }

  // ----- the moves -----

  /** Block i is marked used or unused. */
  function Marked(h: Heap, i: nat, u: bool): Heap
    requires i + 1 < |h.b|
  {
    h.(used := h.used[h.b[i] := u], usedMem := if u then h.usedMem + h.b[i + 1] - h.b[i]
      else h.usedMem - h.b[i + 1] + h.b[i])
  }

  lemma MarkedKeeps(h: Heap, end: nat, i: nat, u: bool)
    requires Core(h, end, {}) && i < |h.b| - 1 && h.b[i] in h.used && h.used[h.b[i]] != u
    ensures Core(Marked(h, i, u), end, if u then {} else {i - 1, i})
    ensures Live(Marked(h, i, u), end) == if u then Live(h, end)[h.b[i] := h.b[i + 1] - h.b[i] - H]
      else Live(h, end) - {h.b[i]}
    ensures Free(Marked(h, i, u)) == if u then Free(h) - {h.b[i]} else Free(h) + {h.b[i]}
  {
    hide Sum, Live, Free, NoAdjacent, LinkedAt;
    Ordered(h, end);
    BlockAt(h, end, i);
    SumMark(h.used, h.b, i, u);
    MarkedChained(h, end, i, u);
    MarkedSeparated(h, i, u);
    LiveOfMarked(h, end, i, u);
    FreeOfMarked(h, i, u);
  }

  lemma MarkedChained(h: Heap, end: nat, i: nat, u: bool)
    requires Chained(h, end) && i < |h.b| - 1 && h.b[i] != end
    ensures Chained(Marked(h, i, u), end)
  {
    var h' := Marked(h, i, u);
    forall j: nat | j < |h.b| - 1 ensures LinkedAt(h', j) {
      assert LinkedAt(h, j);
    }
  }

  lemma MarkedSeparated(h: Heap, i: nat, u: bool)
    requires NoAdjacent(h.used, h.b, {}) && i < |h.b| - 1 && h.b[i] in h.used
    requires forall j :: 0 <= j < |h.b| && j != i ==> h.b[j] != h.b[i]
    ensures NoAdjacent(Marked(h, i, u).used, h.b, if u then {} else {i - 1, i})
  {
    forall j: nat | j < |h.b| - 1 && j !in (if u then {} else {i - 1, i})
      ensures Separated(Marked(h, i, u).used, h.b, j) {
      assert Separated(h.used, h.b, j);
    }
  }

  lemma FreeOfMarked(h: Heap, i: nat, u: bool)
    requires i < |h.b| - 1
    ensures Free(Marked(h, i, u)) == if u then Free(h) - {h.b[i]} else Free(h) + {h.b[i]}
  {
    assert h.b[i] in h.b;
  }

  lemma LiveOfMarked(h: Heap, end: nat, i: nat, u: bool)
    requires i < |h.b| - 1 && h.b[i] in h.next && h.b[i] != end && h.next[h.b[i]] == h.b[i + 1]
    ensures Live(Marked(h, i, u), end) == if u then Live(h, end)[h.b[i] := h.b[i + 1] - h.b[i] - H]
      else Live(h, end) - {h.b[i]}
  {
    hide Live;
    assert h.b[i] in h.b;
    LiveIs(h, Marked(h, i, u), end, h.b[i], !u);
  }

  /** A new unused block is cut off the used block i at n. */
  function Cut(h: Heap, i: nat, n: nat, end: nat): Heap
    requires i + 1 < |h.b|
  {
    var a, c := h.b[i], h.b[i + 1];
    h.(used := h.used[n := false], next := h.next[n := c][a := n],
       prev := if c == end then h.prev[n := a] else h.prev[n := a][c := n],
       usedMem := h.usedMem - c + n, b := Inserted(h.b, i + 1, n))
  }

  lemma CutKeeps(h: Heap, end: nat, i: nat, n: nat)
    requires Core(h, end, {}) && i < |h.b| - 1 && h.b[i] in h.used && h.used[h.b[i]]
    requires h.b[i] + H < n && n + H < h.b[i + 1] && n % 4 == 0
    ensures Core(Cut(h, i, n, end), end, {i + 1}) && n !in h.b
    ensures Live(Cut(h, i, n, end), end) == Live(h, end)[h.b[i] := n - h.b[i] - H]
    ensures Free(Cut(h, i, n, end)) == Free(h) + {n}
  {
    hide Sum, Live, Free, NoAdjacent, Chained;
    BlockAt(h, end, i);
    BetweenBlocks(h, end, i, n);
    CutChained(h, end, i, n);
    CutSum(h, i, n, end);
    CutSeparated(h, i, n, end);
    LiveOfCut(h, end, i, n);
    FreeOfCut(h, end, i, n);
  }

  lemma BetweenBlocks(h: Heap, end: nat, i: nat, n: nat)
    requires Chained(h, end) && i < |h.b| - 1 && h.b[i] < n < h.b[i + 1]
    ensures n !in h.b
  {
    Ordered(h, end);
    forall j | 0 <= j < |h.b| ensures h.b[j] != n {
      assert j < i ==> h.b[j] + H <= h.b[i];
      assert j > i + 1 ==> h.b[i + 1] + H <= h.b[j];
    }
  }

  lemma CutChained(h: Heap, end: nat, i: nat, n: nat)
    requires Chained(h, end) && i < |h.b| - 1 && h.b[i] + H < n && n + H < h.b[i + 1] && n % 4 == 0 && n !in h.b
    ensures Chained(Cut(h, i, n, end), end)
  {
    hide LinkedAt;
    var h' := Cut(h, i, n, end);
    BlockAt(h, end, i);
    forall j: nat | j < |h'.b| - 1 ensures LinkedAt(h', j) {
      CutLinked(h, end, i, n, j);
    }
  }

  lemma CutLinked(h: Heap, end: nat, i: nat, n: nat, j: nat)
    requires Chained(h, end) && i < |h.b| - 1 && h.b[i] + H < n && n + H < h.b[i + 1] && n % 4 == 0 && n !in h.b
    requires j < |h.b|
    ensures LinkedAt(Cut(h, i, n, end), j)
  {
    Distinct(h, end, i);
    Distinct(h, end, i + 1);
    if j <= i {
      assert LinkedAt(h, j);
      assert h.b[j] in h.b;
    } else if j == i + 1 {
      assert LinkedAt(h, i);
    } else {
      assert LinkedAt(h, j - 1);
      assert h.b[j - 1] in h.b;
    }
  }

  lemma CutSeparated(h: Heap, i: nat, n: nat, end: nat)
    requires NoAdjacent(h.used, h.b, {}) && i < |h.b| - 1 && !Unused(h.used, h.b[i]) && n !in h.b
    ensures NoAdjacent(Cut(h, i, n, end).used, Cut(h, i, n, end).b, {i + 1})
  {
    var h' := Cut(h, i, n, end);
    forall j | 0 <= j < |h.b| ensures Unused(h'.used, h.b[j]) == Unused(h.used, h.b[j]) {
      assert h.b[j] in h.b;
    }
    forall j: nat | j < |h'.b| - 1 && j !in {i + 1} ensures Separated(h'.used, h'.b, j) {
      if j < i {
        assert Separated(h.used, h.b, j);
      } else if j > i + 1 {
        assert Separated(h.used, h.b, j - 1);
      }
    }
  }

  lemma CutSum(h: Heap, i: nat, n: nat, end: nat)
    requires h.usedMem == Sum(h.used, h.b) && i + 1 < |h.b| && h.b[i] in h.used && h.used[h.b[i]] && n !in h.b
    ensures Cut(h, i, n, end).usedMem == Sum(Cut(h, i, n, end).used, Cut(h, i, n, end).b)
  {
    hide Sum;
    SumInsert(h.used[n := false], h.b, i, n);
    forall j | 0 <= j < |h.b| ensures h.b[j] != n {
      assert h.b[j] in h.b;
    }
    SumFrame(h.used, h.used[n := false], h.b);
  }

  lemma LiveOfCut(h: Heap, end: nat, i: nat, n: nat)
    requires i < |h.b| - 1 && h.b[i] in h.used && h.used[h.b[i]] && h.b[i] in h.next && n !in h.b && h.b[i] != end
    ensures Live(Cut(h, i, n, end), end) == Live(h, end)[h.b[i] := n - h.b[i] - H]
  {
    hide Live, Inserted;
    assert h.b[i] in h.b;
    InsertedMembers(h.b, i + 1, n);
    LiveIs(h, Cut(h, i, n, end), end, h.b[i], false);
  }

  lemma FreeOfCut(h: Heap, end: nat, i: nat, n: nat)
    requires i < |h.b| - 1 && n !in h.b
    ensures Free(Cut(h, i, n, end)) == Free(h) + {n}
  {
    hide Inserted;
    InsertedMembers(h.b, i + 1, n);
  }

  /** Block i + 1 becomes part of block i. */
  function Joined(h: Heap, i: nat): Heap
    requires i + 1 < |h.b| && h.b[i + 1] in h.next
  {
    var a, d := h.b[i], h.next[h.b[i + 1]];
    h.(next := h.next[a := d], prev := h.prev[d := a], b := Dropped(h.b, i + 1))
  }

  /** `left` says that the place before block i may be due for joining, too. */
  function Due(i: int, left: bool): set<int> {
    if left then {i - 1, i} else {i}
  }

  lemma JoinedKeeps(h: Heap, end: nat, i: nat, left: bool)
    requires Core(h, end, Due(i, left)) && i + 2 < |h.b| && Unused(h.used, h.b[i]) && Unused(h.used, h.b[i + 1])
    ensures h.b[i + 1] in h.next && Core(Joined(h, i), end, if left then {i - 1} else {})
    ensures Live(Joined(h, i), end) == Live(h, end) && Free(Joined(h, i)) == Free(h) - {h.b[i + 1]}
    ensures forall x :: x in Joined(h, i).b <==> x in h.b && x != h.b[i + 1]
  {
    hide Sum, Live, Free, NoAdjacent, Chained, Due;
    Distinct(h, end, i + 1);
    BlockAt(h, end, i);
    BlockAt(h, end, i + 1);
    JoinedChained(h, end, i);
    SumDrop(h.used, h.b, i + 1);
    DroppedMembers(h.b, i + 1);
    JoinedSeparated(h, i, left);
    LiveOfJoined(h, end, i);
    FreeOfJoined(h, i);
  }

  lemma Distinct(h: Heap, end: nat, i: nat)
    requires Chained(h, end) && i < |h.b|
    ensures forall j :: 0 <= j < |h.b| && j != i ==> h.b[j] != h.b[i]
  {
    Ordered(h, end);
  }

  lemma JoinedSeparated(h: Heap, i: nat, left: bool)
    requires i + 2 < |h.b| && NoAdjacent(h.used, h.b, Due(i, left)) && Unused(h.used, h.b[i + 1])
      && h.b[i + 1] in h.next
    ensures NoAdjacent(Joined(h, i).used, Joined(h, i).b, if left then {i - 1} else {})
  {
    var h' := Joined(h, i);
    assert Separated(h.used, h.b, i + 1);
    forall j: nat | j < |h'.b| - 1 && j !in (if left then {i - 1} else {}) ensures Separated(h'.used, h'.b, j) {
      if j != i {
        assert Separated(h.used, h.b, if j < i then j else j + 1);
      }
    }
  }

  lemma JoinedChained(h: Heap, end: nat, i: nat)
    requires Chained(h, end) && i + 2 < |h.b| && h.b[i + 1] in h.next && h.next[h.b[i + 1]] == h.b[i + 2]
    ensures Chained(Joined(h, i), end)
  {
    var h' := Joined(h, i);
    Ordered(h, end);
    forall j: nat | j < |h'.b| - 1 ensures LinkedAt(h', j) {
      if j < i {
        assert LinkedAt(h, j);
      } else if j == i {
        assert LinkedAt(h, i) && LinkedAt(h, i + 1);
      } else {
        assert LinkedAt(h, j + 1);
      }
    }
  }

  lemma LiveOfJoined(h: Heap, end: nat, i: nat)
    requires i + 2 < |h.b| && h.b[i + 1] in h.next && Unused(h.used, h.b[i]) && Unused(h.used, h.b[i + 1])
    requires forall x :: x in Dropped(h.b, i + 1) <==> x in h.b && x != h.b[i + 1]
    ensures Live(Joined(h, i), end) == Live(h, end)
  {
    hide Live, Dropped;
    LiveSame(h, Joined(h, i), end);
  }

  lemma FreeOfJoined(h: Heap, i: nat)
    requires i + 2 < |h.b| && h.b[i + 1] in h.next
    requires forall x :: x in Dropped(h.b, i + 1) <==> x in h.b && x != h.b[i + 1]
    ensures Free(Joined(h, i)) == Free(h) - {h.b[i + 1]}
  {
    hide Dropped;
  }

  // ----- plug_holes -----

  /** Block i takes in the unused block behind it. */
  function Forward(h: Heap, end: nat, i: nat): Heap
    requires i + 1 < |h.b|
  {
    var n := h.b[i + 1];
    if Unused(h.used, n) && n != end && n in h.next
    then Joined(h, i).(lfree := if h.lfree == n then h.b[i] else h.lfree)
    else h
  }

  /** The unused block before block i takes it in. */
  function Backward(h: Heap, i: nat): Heap
    requires i + 1 < |h.b|
  {
    if i > 0 && Unused(h.used, h.b[i - 1]) && h.b[i] in h.next
    then Joined(h, i - 1).(lfree := if h.lfree == h.b[i] then h.b[i - 1] else h.lfree)
    else h
  }

  lemma ForwardKeeps(h: Heap, end: nat, i: nat)
    requires Core(h, end, {i - 1, i}) && i < |h.b| - 1 && Unused(h.used, h.b[i]) && FreeHint(h, end)
    ensures var h' := Forward(h, end, i);
      && Core(h', end, {i - 1}) && i < |h'.b| - 1 && h'.b[i] == h.b[i] && (i > 0 ==> h'.b[i - 1] == h.b[i - 1])
      && FreeHint(h', end) && Live(h', end) == Live(h, end) && h'.used == h.used && h'.usedMem == h.usedMem
      && h.b[i] in Free(h') && Free(h') == (if h' == h then Free(h) else Free(h) - {h.b[i + 1]})
      && (h' != h ==> h.b[i + 1] in Free(h))
      && h'.lfree == (if h' != h && h.lfree == h.b[i + 1] then h.b[i] else h.lfree)
  {
    hide Sum, Live, NoAdjacent, Chained;
    BlockAt(h, end, i);
    assert h.b[i] in h.b && h.b[i + 1] in h.b;
    if Unused(h.used, h.b[i + 1]) {
      JoinedKeeps(h, end, i, true);
      LiveIgnoresHint(Joined(h, i), Forward(h, end, i), end, {i - 1});
      assert |Forward(h, end, i).b| < |h.b|;
    } else {
      DueNoMore(h, end, i, {i - 1, i});
      assert {i - 1, i} - {i} == {i - 1};
    }
  }

  lemma LiveIgnoresHint(h: Heap, h': Heap, end: nat, skip: set<int>)
    requires Core(h, end, skip) && h' == h.(lfree := h'.lfree)
    ensures Core(h', end, skip) && Live(h', end) == Live(h, end) && Free(h') == Free(h)
  {
    hide Sum, Live, NoAdjacent;
    LiveSame(h, h', end);
    forall i: nat | i < |h'.b| - 1 ensures LinkedAt(h', i) {
      assert LinkedAt(h, i);
    }
  }

  lemma DueNoMore(h: Heap, end: nat, i: nat, skip: set<int>)
    requires Core(h, end, skip) && i < |h.b| - 1 && !(Unused(h.used, h.b[i]) && Unused(h.used, h.b[i + 1]))
    ensures Core(h, end, skip - {i})
  {
    hide Sum, Chained;
    assert Separated(h.used, h.b, i);
  }

  lemma BackwardKeeps(h: Heap, end: nat, i: nat)
    requires Core(h, end, {i - 1}) && i < |h.b| - 1 && Unused(h.used, h.b[i]) && FreeHint(h, end)
    ensures var h' := Backward(h, i);
      && Inv(h', end) && Live(h', end) == Live(h, end) && h'.used == h.used && h'.usedMem == h.usedMem
      && Free(h') == (if h' == h then Free(h) else Free(h) - {h.b[i]})
      && h'.lfree <= h.lfree
      && (i == 0 || !Unused(h.used, h.b[i - 1]) ==> h' == h)
  {
    hide Sum, Live, NoAdjacent, Chained;
    BlockAt(h, end, i);
    assert h.b[i] in h.b;
    if i > 0 {
      assert h.b[i - 1] in h.b;
      if Unused(h.used, h.b[i - 1]) {
        JoinedKeeps(h, end, i - 1, false);
        LiveIgnoresHint(Joined(h, i - 1), Backward(h, i), end, {});
        assert |Backward(h, i).b| < |h.b|;
      } else {
        DueNoMore(h, end, i - 1, {i - 1});
        assert {i - 1} - {i - 1} == {};
      }
    } else {
      FirstNotDue(h, end);
    }
  }

  lemma FirstNotDue(h: Heap, end: nat)
    requires Core(h, end, {-1})
    ensures Core(h, end, {})
  {
  }

  /** Joining leaves `lfree` the lowest. */
  lemma PlugLowest(h: Heap, h': Heap)
    requires Lowest(h) && Free(h') <= Free(h) && h'.lfree <= h.lfree
    ensures Lowest(h')
  {
  }

  /** Cutting a used block leaves `lfree` the lowest unused block if and only if it was that and
      the part cut off is not below it. */
  lemma CutLowest(h0: Heap, h1: Heap, h: Heap, end: nat, i: nat, n: nat)
    requires Core(h0, end, {}) && i < |h0.b| - 1 && h0.b[i] < n < h0.b[i + 1] && n in Free(h1)
    requires Free(h1) == Free(h0) + {n} && h1.lfree == h0.lfree && h1.used == h0.used[n := false]
    requires Free(h) == Free(h1) || Free(h) == Free(h1) - {h0.b[i + 1]}
    requires h.lfree == if Free(h) != Free(h1) && h1.lfree == h0.b[i + 1] then n else h1.lfree
    ensures Lowest(h) <==> Lowest(h0) && h.lfree <= n
  {
    hide Core, Free;
    assert n in Free(h);
    if Lowest(h) {
      forall a: nat | a in Free(h0) ensures h0.lfree <= a {
        NoneBetween(h0, end, i, n, a);
        assert a in Free(h1) && h.lfree <= n;
        assert a != h0.b[i + 1] ==> a in Free(h);
      }
    }
  }

  lemma NoneBetween(h: Heap, end: nat, i: nat, n: nat, a: nat)
    requires Core(h, end, {}) && i < |h.b| - 1 && h.b[i] < n < h.b[i + 1] && a in Free(h)
    ensures a < n || h.b[i + 1] <= a
  {
    Ordered(h, end);
    var j :| 0 <= j < |h.b| && h.b[j] == a;
    assert j < i ==> h.b[j] + H <= h.b[i];
    assert j > i + 1 ==> h.b[i + 1] + H <= h.b[j];
  }

  lemma MoreDue(h: Heap, end: nat, i: int, j: int)
    requires Core(h, end, {j}) || Core(h, end, {})
    ensures Core(h, end, {i, j})
  {
    hide Sum, Chained;
  }

  /** A used block is given up; `lfree` follows it down. */
  function Freed(h: Heap, i: nat): Heap
    requires i + 1 < |h.b|
  {
    Marked(h, i, false).(lfree := if h.b[i] < h.lfree then h.b[i] else h.lfree)
  }

  lemma FreedKeeps(h: Heap, end: nat, i: nat)
    requires Inv(h, end) && i < |h.b| - 1 && h.b[i] in h.used && h.used[h.b[i]]
    ensures var h1 := Freed(h, i);
      && Core(h1, end, {i - 1, i}) && FreeHint(h1, end) && Unused(h1.used, h.b[i]) && i + 1 < |Forward(h1, end, i).b|
      && var h3 := Backward(Forward(h1, end, i), i);
        && Inv(h3, end) && Live(h3, end) == Live(h, end) - {h.b[i]} && (Lowest(h) ==> Lowest(h3))
  {
    hide Sum, Live, NoAdjacent, Chained;
    MarkedKeeps(h, end, i, false);
    var h1 := Freed(h, i);
    LiveIgnoresHint(Marked(h, i, false), h1, end, {i - 1, i});
    assert h.b[i] in h.b;
    ForwardKeeps(h1, end, i);
    BackwardKeeps(Forward(h1, end, i), end, i);
    ForwardLower(h1, end, i);
    if Lowest(h) {
      PlugLowest(h1, Backward(Forward(h1, end, i), i));
    }
  }

  lemma ForwardLower(h: Heap, end: nat, i: nat)
    requires Core(h, end, {i - 1, i}) && i < |h.b| - 1
    ensures Forward(h, end, i).lfree <= h.lfree
  {
    hide Sum, Live, NoAdjacent, Chained;
    BlockAt(h, end, i);
  }

  /** What `lfree` must be for the block at `a` to be cut at n: not above n, or the unused block
      behind, which will be joined. */
  predicate HintHolds(h: Heap, end: nat, a: nat, n: nat) {
    h.lfree <= n || (a in h.next && h.lfree == h.next[a] && h.next[a] != end)
  }

  /** The end of a used block is cut off and joined with an unused block behind it. */
  lemma CutOffKeeps(h: Heap, end: nat, i: nat, n: nat)
    requires Inv(h, end) && i < |h.b| - 1 && h.b[i] in h.used && h.used[h.b[i]]
    requires h.b[i] + H < n && n + H < h.b[i + 1] && n % 4 == 0
    ensures var h1 := Cut(h, i, n, end);
      && Core(h1, end, {i, i + 1}) && FreeHint(h1, end) && Unused(h1.used, n)
      && i + 1 < |h1.b| - 1 && h1.b[i + 1] == n && i + 2 < |Forward(h1, end, i + 1).b|
      && var h3 := Backward(Forward(h1, end, i + 1), i + 1);
        && Inv(h3, end) && Live(h3, end) == Live(h, end)[h.b[i] := n - h.b[i] - H]
        && (Lowest(h3) <==> Lowest(h) && HintHolds(h, end, h.b[i], n))
  {
    hide Sum, Live, NoAdjacent, Chained, Inserted, Free;
    BlockAt(h, end, i);
    CutKeeps(h, end, i, n);
    var h1 := Cut(h, i, n, end);
    MoreDue(h1, end, i, i + 1);
    CutFacts(h, end, i, n);
    ForwardKeeps(h1, end, i + 1);
    var h2 := Forward(h1, end, i + 1);
    assert h1.b[i + 1 - 1] == h.b[i];
    BackwardKeeps(h2, end, i + 1);
    CutLowest(h, h1, h2, end, i, n);
  }

  lemma CutFacts(h: Heap, end: nat, i: nat, n: nat)
    requires FreeHint(h, end) && i < |h.b| - 1 && n !in h.b && h.b[i] in h.used && h.used[h.b[i]]
    ensures var h1 := Cut(h, i, n, end);
      && FreeHint(h1, end) && h1.b[i + 1] == n && h1.b[i] == h.b[i] && h1.b[i + 2] == h.b[i + 1] && i + 1 < |h1.b| - 1
      && n in Free(h1) && h1.used[h.b[i]] && Unused(h1.used, n)
  {
    InsertedMembers(h.b, i + 1, n);
    assert h.b[i] in h.b;
  }

  /** An unused block is taken, its end cut off if that makes another block. */
  function Took(h: Heap, end: nat, i: nat, size: nat): Heap
    requires i + 1 < |h.b|
  {
    var h1 := Marked(h, i, true);
    if h.b[i + 1] - h.b[i] - H >= size + H + MIN then Cut(h1, i, h.b[i] + H + size, end) else h1
  }

  lemma TookKeeps(h: Heap, end: nat, i: nat, size: nat)
    requires Inv(h, end) && i < |h.b| - 1 && Unused(h.used, h.b[i]) && h.b[i + 1] - h.b[i] - H >= size && size % 4 == 0
      && size > 0
    ensures var h1, a, room := Took(h, end, i, size), h.b[i], h.b[i + 1] - h.b[i] - H;
      && Core(h1, end, {}) && (h.lfree != a ==> FreeHint(h1, end)) && h.lfree in h1.b
      && a !in Live(h, end) && Live(h1, end) == Live(h, end)[a := if room >= size + H + MIN then size else room]
      && (forall x :: x in Free(h1) ==> x in Free(h) - {a} || x > a)
  {
    hide Sum, Live, NoAdjacent, Chained, Inserted, FreeHint;
    BlockAt(h, end, i);
    NotLive(h, end, i);
    MarkedKeeps(h, end, i, true);
    var h1 := Marked(h, i, true);
    MarkedHint(h, end, i);
    if h.b[i + 1] - h.b[i] - H >= size + H + MIN {
      var n := h.b[i] + H + size;
      NextUsed(h, end, i);
      CutKeeps(h1, end, i, n);
      CutHint(h1, end, i, n);
      var h2 := Cut(h1, i, n, end);
      DueNoMore(h2, end, i + 1, {i + 1});
      assert {i + 1} - {i + 1} == {};
    }
  }

  lemma NotLive(h: Heap, end: nat, i: nat)
    requires i < |h.b| - 1 && Unused(h.used, h.b[i])
    ensures h.b[i] !in Live(h, end)
  {
  }

  lemma NextUsed(h: Heap, end: nat, i: nat)
    requires Core(h, end, {}) && i < |h.b| - 1 && Unused(h.used, h.b[i])
    ensures !Unused(h.used, h.b[i + 1])
  {
    hide Sum, Chained;
    assert Separated(h.used, h.b, i);
  }

  lemma MarkedHint(h: Heap, end: nat, i: nat)
    requires FreeHint(h, end) && i < |h.b| - 1
    ensures h.lfree in h.b && (h.lfree != h.b[i] ==> FreeHint(Marked(h, i, true), end))
  {
  }

  lemma CutHint(h: Heap, end: nat, i: nat, n: nat)
    requires i < |h.b| - 1 && h.lfree in h.b && n !in h.b
    ensures h.lfree in Cut(h, i, n, end).b && (FreeHint(h, end) ==> FreeHint(Cut(h, i, n, end), end))
    ensures Cut(h, i, n, end).b[i + 1] == n && Cut(h, i, n, end).b[i + 2] == h.b[i + 1]
    ensures Unused(Cut(h, i, n, end).used, h.b[i + 1]) == Unused(h.used, h.b[i + 1])
  {
    InsertedMembers(h.b, i + 1, n);
    assert h.b[i + 1] in h.b;
  }

  // ----- searching -----

  /** Block i is where a search from `lfree` for `size` bytes in a heap of `m` may end. */
  ghost predicate Big(h: Heap, m: nat, size: nat, i: nat)
    requires i + 1 < |h.b|
  {
    h.lfree <= h.b[i] < m - size && Unused(h.used, h.b[i]) && h.b[i + 1] - h.b[i] - H >= size
  }

  ghost predicate NoFit(h: Heap, m: nat, size: nat) {
    forall i: nat :: i < |h.b| - 1 ==> !Big(h, m, size, i)
  }

  /** A search passes over an unused block from `lfree` on that is large enough only if it is
      the last one and fits exactly. */
  lemma OnlyLastExact(h: Heap, m: nat, size: nat, i: nat)
    requires Inv(h, m + H) && i < |h.b| - 1 && Unused(h.used, h.b[i]) && h.lfree <= h.b[i]
    ensures Big(h, m, size, i) <==>
      h.b[i + 1] - h.b[i] - H >= size && !(h.b[i + 1] == m + H && h.b[i + 1] - h.b[i] - H == size)
  {
    hide Sum, NoAdjacent;
    BlockAt(h, m + H, i);
    if h.b[i + 1] != m + H {
      BlockAt(h, m + H, i + 1);
    }
  }

  /** While no block has been cut, the blocks below `lfree` need no search. */
  lemma NoFitLowest(h: Heap, m: nat, size: nat)
    requires Inv(h, m + H) && Lowest(h)
    ensures NoFit(h, m, size) <==>
      forall i: nat :: i < |h.b| - 1 && Unused(h.used, h.b[i]) ==>
        h.b[i + 1] - h.b[i] - H < size || (h.b[i + 1] == m + H && h.b[i + 1] - h.b[i] - H == size)
  {
    forall i: nat | i < |h.b| - 1 && Unused(h.used, h.b[i])
      ensures Big(h, m, size, i) <==>
        h.b[i + 1] - h.b[i] - H >= size && !(h.b[i + 1] == m + H && h.b[i + 1] - h.b[i] - H == size)
    {
      assert h.b[i] in h.b && h.b[i] in Free(h);
      OnlyLastExact(h, m, size, i);
    }
  }

  // ----- places -----

  /** A place inside block i is in no other block. */
  lemma OneBlock(h: Heap, end: nat, i: nat, a: nat)
    requires Chained(h, end) && i < |h.b| - 1 && a in Live(h, end) && a != h.b[i]
    ensures a + H + Live(h, end)[a] <= h.b[i] || h.b[i + 1] <= a
  {
    hide Live;
    LiveMember(h, end, a);
    var j := IndexOf(h, end, a);
    BlockAt(h, end, j);
    Ordered(h, end);
    if j < i {
      assert h.b[j + 1] <= h.b[i];
    } else if j > i {
      assert h.b[i + 1] <= h.b[j];
    }
  }

  lemma LiveMember(h: Heap, end: nat, a: nat)
    requires a in Live(h, end)
    ensures a in h.b && a != end && a in h.used && h.used[a] && a in h.next && Live(h, end)[a] == h.next[a] - a - H
  {
  }

  /** The block of an allocated address. */
  lemma LiveBlock(h: Heap, end: nat, a: nat) returns (i: nat)
    requires Chained(h, end) && a in Live(h, end)
    ensures i < |h.b| - 1 && h.b[i] == a && a in h.used && h.used[a] && a in h.next && h.next[a] == h.b[i + 1]
    ensures Live(h, end)[a] == h.b[i + 1] - a - H && a + H < h.b[i + 1] <= end && a % 4 == 0 && h.b[i + 1] % 4 == 0
  {
    hide Live;
    LiveMember(h, end, a);
    i := IndexOf(h, end, a);
    BlockAt(h, end, i);
    if h.b[i + 1] != end {
      BlockAt(h, end, i + 1);
    }
  }

  /** Allocated blocks lie in the heap, apart from each other. */
  lemma LiveDisjoint(h: Heap, end: nat, a: nat, c: nat)
    requires Chained(h, end) && a in Live(h, end) && c in Live(h, end) && a != c
    ensures a + H + Live(h, end)[a] <= c || c + H + Live(h, end)[c] <= a
    ensures 0 < Live(h, end)[a] && a + H + Live(h, end)[a] <= end
  {
    hide Live, Chained;
    var i := LiveBlock(h, end, a);
    OneBlock(h, end, i, c);
  }
}

module SmallHeap {
  import opened RtList
  import opened HeapChain
  import MemHeap

  function Align(size: nat): (r: nat)
    ensures size <= r < size + 4 && r % 4 == 0
  {
    (size + 3) / 4 * 4
  }

  /** The size that rt_malloc looks for. */
  function Need(size: nat): nat {
    if Align(size) < MIN then MIN else Align(size)
  }

  /** The bytes of the live blocks are as before. */
  ghost predicate Untouched(mem: map<nat, bv8>, mem': map<nat, bv8>, live: map<nat, int>) {
    forall a, x :: a in live && a + H <= x < a + H + live[a] && x in mem ==> x in mem' && mem'[x] == mem[x]
  }

  /** A header written at n. */
  function Headed(mem: map<nat, bv8>, n: nat, image: nat -> bv8): map<nat, bv8> {
    map x | x in mem :: if n <= x < n + H then image(x) else mem[x]
  }

  /** A header in block i overwrites no byte of another live block. */
  lemma HeadedApart(h: HeapChain.Heap, end: nat, mem: map<nat, bv8>, image: nat -> bv8, i: nat, n: nat)
    requires Chained(h, end) && i < |h.b| - 1 && h.b[i] <= n && n + H <= h.b[i + 1]
    ensures Untouched(mem, Headed(mem, n, image), Live(h, end) - {h.b[i]})
    ensures forall x :: x in mem ==> x in Headed(mem, n, image)
    ensures forall x :: x in mem && x < n ==> Headed(mem, n, image)[x] == mem[x]
  {
    hide Chained, Live;
    var live, mem' := Live(h, end), Headed(mem, n, image);
    forall a, x | a in live && a != h.b[i] && a + H <= x < a + H + live[a] && x in mem
      ensures mem'[x] == mem[x]
    {
      OneBlock(h, end, i, a);
    }
  }

  class Heap {
    /** heap_ptr and mem_size_aligned */
    const base: nat
    const m: nat
    const image: nat -> bv8
    var used: map<nat, bool>
    var next: map<nat, nat>
    var prev: map<nat, nat>
    var lfree: nat
    var usedMem: int
    var maxMem: int
    var mem: map<nat, bv8>
    ghost var b: seq<nat>

    ghost function Now(): HeapChain.Heap
      reads this
    {
      HeapChain.Heap(used, next, prev, lfree, usedMem, b)
    }

    /** The offset of heap_end. */
    function End(): nat {
      m + H
    }

    ghost function Lives(): map<nat, int>
      reads this
    {
      Live(Now(), End())
    }

    ghost predicate Sized()
      reads this
    {
      && base > 0 && base % 4 == 0 && m % 4 == 0 && m >= MIN && usedMem <= maxMem
      && forall x :: 0 <= x < End() ==> x in mem
    }

    ghost predicate Valid()
      reads this
    {
      Sized() && Inv(Now(), End())
    }

    /** rt_system_heap_init with room for at least one block. */
    constructor (begin: nat, end: nat, image: nat -> bv8, bytes: map<nat, bv8>)
      requires begin > 0 && end / 4 * 4 >= Align(begin) + 2 * H + MIN
      requires forall x :: 0 <= x < end ==> x in bytes
      ensures Valid() && base == Align(begin) && m == end / 4 * 4 - Align(begin) - 2 * H
      ensures Lives() == map[] && usedMem == 0 && Lowest(Now())
    {
      var size := end / 4 * 4 - Align(begin) - 2 * H;
      var last := size + H;
      base, m, this.image := Align(begin), size, image;
      used := map[0 := false, last := true];
      next := map[0 := last, last := last];
      prev := map[0 := 0, last := last];
      lfree, usedMem, maxMem := 0, 0, 0;
      mem := Headed(Headed(bytes, 0, image), last, image);
      b := [0, last];
      new;
      FreshHeap(Now(), End());
    }

    /** The search of rt_malloc: the first block from lfree on that is large enough. */
    method Search(size: nat) returns (found: bool, ptr: nat, ghost i: nat)
      requires Valid() && size <= m
      ensures found ==> i < |b| - 1 && b[i] == ptr && Big(Now(), m, size, i)
      ensures found ==> forall j: nat :: j < i && j < |b| - 1 ==> !Big(Now(), m, size, j)
      ensures !found ==> NoFit(Now(), m, size)
    {
      hide Core;
      ghost var h := Now();
      i :| 0 <= i < |b| && b[i] == lfree;
      Rising(h, End());
      ptr := lfree;
      found := false;
      while ptr < m - size
        invariant i < |b| && b[i] == ptr && lfree <= ptr
        invariant forall j: nat :: j < i && j < |b| - 1 ==> !Big(h, m, size, j)
        decreases |b| - i
      {
        AtLeast(h, End(), i);
        if !used[ptr] && next[ptr] - (ptr + H) >= size {
          found := true;
          return;
        }
        ptr := next[ptr];
        i := i + 1;
      }
      forall j: nat | j < |b| - 1 ensures !Big(h, m, size, j) {
        assert j > i ==> b[i] <= b[j];
      }
    }

    /** `lfree` moves on to the next unused block, or to the end of the heap. */
    method AdvanceHint()
      requires Core(Now(), End(), {}) && lfree in b
      modifies this`lfree
      ensures FreeHint(Now(), End()) && lfree >= old(lfree)
      ensures forall a: nat :: a in HeapChain.Free(Now()) && old(lfree) <= a ==> lfree <= a
    {
      hide Core;
      ghost var i: nat :| i < |b| && b[i] == lfree;
      ghost var h, k := Now(), i;
      Rising(h, End());
      LastBlock(h, End());
      while used[lfree] && lfree != End()
        invariant k <= i < |b| && b[i] == lfree && lfree in used
        invariant forall j :: k <= j < i ==> !Unused(used, b[j])
        decreases |b| - i
      {
        BeforeEnd(h, End(), i);
        lfree := next[lfree];
        i := i + 1;
      }
      forall a: nat | a in HeapChain.Free(Now()) && old(lfree) <= a ensures lfree <= a {
        var j :| 0 <= j < |b| && b[j] == a;
      }
    }

    /** The part of rt_malloc that takes the block found. */
    method TakeBlock(ptr: nat, size: nat, ghost i: nat)
      requires Valid() && i < |b| - 1 && b[i] == ptr && Big(Now(), m, size, i) && size % 4 == 0 && size > 0
      modifies this
      ensures Valid() && maxMem == MemHeap.Max(old(maxMem), usedMem)
      ensures ptr !in old(Lives()) && Lives() == old(Lives())[ptr :=
        if old(b)[i + 1] - ptr - H >= size + H + MIN then size else old(b)[i + 1] - ptr - H]
      ensures Untouched(old(mem), mem, old(Lives()))
      ensures old(Lowest(Now())) ==> Lowest(Now())
    {
      hide Core, HeapChain.Live, Cut, HeapChain.Free, Untouched, Headed, Inserted;
      ghost var h, m0 := Now(), mem;
      AtLeast(h, End(), i);
      TookKeeps(h, End(), i, size);
      ghost var live := Lives();
      assert live - {ptr} == live;
      if next[ptr] - (ptr + H) >= size + H + MIN {
        SplitHeader(ptr, size, i);
      } else {
        used := used[ptr := true];
        usedMem := usedMem + (next[ptr] - ptr);
        UntouchedSame(m0, live);
      }
      if maxMem < usedMem {
        maxMem := usedMem;
      }
      assert Now() == Took(h, End(), i, size);
      ghost var h1 := Now();
      if ptr == lfree {
        AdvanceHint();
      }
      LiveIgnoresHint(h1, Now(), End(), {});
      TookLowest(h, h1, Now(), ptr);
    }

    /** A block is cut in two, the first part used. */
    method SplitHeader(ptr: nat, size: nat, ghost i: nat)
      requires Sized() && Core(Now(), End(), {}) && i < |b| - 1 && b[i] == ptr && ptr in next && next[ptr] == b[i + 1]
      requires next[ptr] >= ptr + size + 2 * H
      modifies this`used, this`next, this`prev, this`usedMem, this`mem, this`b
      ensures Now() == Cut(Marked(old(Now()), i, true), i, ptr + H + size, End())
      ensures Untouched(old(mem), mem, old(Lives()) - {ptr}) && forall x :: x in old(mem) ==> x in mem
    {
      hide Core, Headed, Inserted, HeapChain.Live;
      ghost var h := Now();
      CoreChained(h, End());
      HeadedApart(h, End(), mem, image, i, ptr + H + size);
      var ptr2: nat := ptr + H + size;
      MapCommutes(used, ptr, ptr2);
      used := used[ptr2 := false];
      next := next[ptr2 := next[ptr]];
      prev := prev[ptr2 := ptr];
      next := next[ptr := ptr2];
      used := used[ptr := true];
      if next[ptr2] != m + H {
        prev := prev[next[ptr2] := ptr2];
      }
      usedMem := usedMem + (size + H);
      mem := Headed(mem, ptr2, image);
      b := Inserted(b, i + 1, ptr2);
    }

    /**
     rt_malloc. It fails exactly when nothing or too much is asked for or no block from `lfree`
     on will do; otherwise the caller gets the first that does.
     */
    method Malloc(size: nat) returns (p: nat)
      requires Valid()
      modifies this
      ensures Valid()
      ensures p == 0 <==> size == 0 || Align(size) > m || NoFit(old(Now()), m, Need(size))
      ensures p == 0 ==> Now() == old(Now()) && mem == old(mem) && maxMem == old(maxMem)
      ensures p != 0 ==>
        && p >= base + H && p % 4 == 0 && p - base - H !in old(Lives()) && p - base - H in Lives()
        && Lives() == old(Lives())[p - base - H := Lives()[p - base - H]]
        && Need(size) <= Lives()[p - base - H] < Need(size) + H + MIN
        && maxMem == MemHeap.Max(old(maxMem), usedMem)
      ensures p != 0 ==> p - base - H in old(b) && FirstFit(old(Now()), m, Need(size), p - base - H)
      ensures Untouched(old(mem), mem, old(Lives()))
      ensures old(Lowest(Now())) ==> Lowest(Now())
    {
      hide Core, HeapChain.Live, HeapChain.Free, Untouched, Lowest;
      ghost var h := Now();
      UntouchedSame(mem, Lives());
      if size == 0 {
        return 0;
      }
      var sz := Align(size);
      if sz > m {
        return 0;
      }
      if sz < MIN {
        sz := MIN;
      }
      var found, ptr, i := Search(sz);
      if !found {
        return 0;
      }
      BlockFour(h, End(), i);
      TakeBlock(ptr, sz, i);
      return base + ptr + H;
    }

    /** plug_holes */
    method PlugHoles(at: nat, ghost i: nat)
      requires Core(Now(), End(), {i - 1, i}) && i < |b| - 1 && b[i] == at && Unused(used, at) && FreeHint(Now(), End())
      modifies this`next, this`prev, this`lfree, this`b
      ensures i + 1 < |Forward(old(Now()), End(), i).b| && Now() == Backward(Forward(old(Now()), End(), i), i)
    {
      hide Core, HeapChain.Live, HeapChain.Free, Dropped;
      ghost var h := Now();
      CoreBlock(h, End(), i, {i - 1, i});
      ForwardKeeps(h, End(), i);
      var nmem := next[at];
      if at != nmem && !used[nmem] && nmem != End() {
        if lfree == nmem {
          lfree := at;
        }
        next := next[at := next[nmem]];
        prev := prev[next[nmem] := at];
        b := Dropped(b, i + 1);
      }
      assert Now() == Forward(h, End(), i);
      CoreBlock(Now(), End(), i, {i - 1});
      var pmem := prev[at];
      if pmem != at && !used[pmem] {
        if lfree == at {
          lfree := pmem;
        }
        next := next[pmem := next[at]];
        prev := prev[next[at] := pmem];
        b := Dropped(b, i);
      }
    }

    /** Memory that rt_malloc handed out, or an address outside the heap. */
    ghost predicate InUse(p: nat)
      reads this
    {
      p >= base + H && p - base - H in Lives()
    }

    /** What is in use is in the heap. */
    lemma Inside(p: nat)
      requires Valid() && base > 0
      ensures InUse(p) ==> p != 0 && !Outside(p)
    {
      hide HeapChain.Live, Chained;
      if InUse(p) {
        var _ := LiveBlock(Now(), End(), p - base - H);
      }
    }

    predicate Outside(p: nat) {
      p < base || p >= base + End()
    }

    /** rt_free */
    method Free(p: nat)
      requires Valid() && (p == 0 || Outside(p) || InUse(p))
      modifies this`used, this`next, this`prev, this`lfree, this`usedMem, this`b
      ensures Valid()
      ensures p == 0 || Outside(p) ==> Now() == old(Now())
      ensures old(InUse(p)) ==> Lives() == old(Lives()) - {p - base - H}
      ensures old(Lowest(Now())) ==> Lowest(Now())
    {
      hide Core, HeapChain.Live, HeapChain.Free, Lowest;
      Inside(p);
      if p == 0 {
        return;
      }
      if p < base || p >= base + End() {
        return;
      }
      ghost var h := Now();
      var at: nat := p - base - H;
      CoreChained(h, End());
      ghost var i := LiveBlock(h, End(), at);
      FreedKeeps(h, End(), i);
      used := used[at := false];
      if at < lfree {
        lfree := at;
      }
      usedMem := usedMem - (next[at] - at);
      assert Now() == Freed(h, i);
      PlugHoles(at, i);
      FreedUse(h, i);
    }

    /** The part of rt_realloc that cuts off the end of a block. */
    method CutOff(at: nat, size: nat, ghost i: nat)
      requires Valid() && i < |b| - 1 && b[i] == at && at in used && used[at] && size % 4 == 0 && size > 0
      requires at + H + size + H < b[i + 1]
      modifies this`used, this`next, this`prev, this`lfree, this`usedMem, this`mem, this`b
      ensures Valid() && Lives() == old(Lives())[at := size]
      ensures Untouched(old(mem), mem, old(Lives()) - {at})
      ensures forall x :: x in old(mem) && x < at + H + size ==> x in mem && mem[x] == old(mem)[x]
      ensures Lowest(Now()) <==> old(Lowest(Now())) && HintHolds(old(Now()), End(), at, at + H + size)
    {
      hide Core, Headed, Inserted, HeapChain.Live, Lowest, FreeHint, Untouched, Cut;
      ghost var h := Now();
      BlockFour(h, End(), i);
      CoreChained(h, End());
      HeadedApart(h, End(), mem, image, i, at + H + size);
      CutOffKeeps(h, End(), i, at + H + size);
      CutHeader(at, size, i);
      PlugHoles(at + H + size, i + 1);
    }

    method CutHeader(at: nat, size: nat, ghost i: nat)
      requires Core(Now(), End(), {}) && i < |b| - 1 && b[i] == at && at + H + size + H < b[i + 1]
      modifies this`used, this`next, this`prev, this`usedMem, this`mem, this`b
      ensures Now() == Cut(old(Now()), i, at + H + size, End()) && mem == Headed(old(mem), at + H + size, image)
      ensures usedMem <= old(usedMem)
    {
      hide Core, Inserted, Headed;
      CoreBlock(Now(), End(), i, {});
      var oldSize: nat := next[at] - at - H;
      usedMem := usedMem - (oldSize - size);
      var ptr2: nat := at + H + size;
      used := used[ptr2 := false];
      next := next[ptr2 := next[at]];
      prev := prev[ptr2 := at];
      next := next[at := ptr2];
      if next[ptr2] != m + H {
        prev := prev[next[ptr2] := ptr2];
      }
      mem := Headed(mem, ptr2, image);
      b := Inserted(b, i + 1, ptr2);
    }

    /** The part of rt_realloc that moves a block. */
    method Move(p: nat, size: nat, newSize: nat) returns (r: nat)
      requires Valid() && InUse(p) && 0 < newSize <= m && newSize % 4 == 0 && size == Lives()[p - base - H]
      modifies this
      ensures Valid()
      ensures r == 0 <==> NoFit(old(Now()), m, Need(newSize))
      ensures r == 0 ==> Now() == old(Now()) && mem == old(mem)
      ensures r != 0 ==>
        r >= base + H && r - base - H !in old(Lives()) && r - base - H in Lives() && Lives()[r - base - H] >= newSize
      ensures r != 0 ==> Lives() - {r - base - H} == old(Lives()) - {p - base - H}
      ensures r != 0 ==> MemHeap.KeptBytes(old(mem), mem, p - base, r - base, MemHeap.Min(size, newSize))
      ensures Untouched(old(mem), mem, old(Lives()) - {p - base - H})
      ensures old(Lowest(Now())) ==> Lowest(Now())
    {
      hide Core, HeapChain.Live, Lowest, MemHeap.Copied, MemHeap.KeptBytes, Untouched, NoFit, Need, FirstFit;
      ghost var h0, m0 := Now(), mem;
      AlignTwice(newSize);
      Inside(p);
      r := Malloc(newSize);
      if r != 0 {
        ghost var h1, m1 := Now(), mem;
        var n := if size < newSize then size else newSize;
        CoreChained(h1, End());
        MoveSafe(h0, h1, End(), p - base - H, r - base - H, n);
        mem := MemHeap.CopyBytes(mem, r - base, p - base, n);
        MovedBytes(m0, m1, mem, Live(h0, End()), p - base, r - base, n);
        Free(p);
        Swapped(Live(h0, End()), Live(h1, End()), p - base - H, r - base - H);
      } else {
        UntouchedLess(m0, mem, Live(h0, End()), p - base - H);
      }
    }

    /** The block can stay: its size is right, or its end makes another block. */
    predicate Stays(size: int, newSize: int) {
      size == newSize || newSize + H + MIN < size
    }

    ghost predicate Same(h: HeapChain.Heap, m0: map<nat, bv8>)
      reads this
    {
      Now() == h && mem == m0
    }

    /**
     rt_realloc. A block whose end is too short for another block moves, even when less is
     asked for; so that may fail. Failure changes nothing.
     */
    method Realloc(p: nat, newSize: nat) returns (r: nat)
      requires Valid() && (p == 0 || Outside(p) || InUse(p))
      modifies this
      ensures Valid()
      ensures Align(newSize) > m ==> r == 0 && Same(old(Now()), old(mem))
      ensures newSize == 0 ==> r == 0 && mem == old(mem)
      ensures newSize == 0 && old(InUse(p)) ==> Lives() == old(Lives()) - {p - base - H}
      ensures newSize == 0 && (p == 0 || Outside(p)) ==> Now() == old(Now())
      ensures 0 < Align(newSize) <= m && p == 0 ==> (r == 0 <==> NoFit(old(Now()), m, Need(newSize)))
      ensures 0 < Align(newSize) <= m && p == 0 && r != 0 ==>
        && r >= base + H && r - base - H !in old(Lives()) && r - base - H in Lives()
        && Lives()[r - base - H] >= Align(newSize) && Lives() == old(Lives())[r - base - H := Lives()[r - base - H]]
      ensures 0 < Align(newSize) <= m && p != 0 && Outside(p) ==> r == p && Same(old(Now()), old(mem))
      ensures r == 0 && newSize > 0 ==> Same(old(Now()), old(mem))
      ensures 0 < Align(newSize) <= m && p != 0 && !Outside(p) && old(InUse(p)) ==>
        Resized(old(Now()), Now(), p - base - H, r, Align(newSize))
      ensures 0 < Align(newSize) <= m && p != 0 && !Outside(p) && old(InUse(p)) && r != 0 ==>
        r >= base && MemHeap.KeptBytes(old(mem), mem, p - base, r - base,
          MemHeap.Min(old(Lives())[p - base - H], Align(newSize)))
      ensures Untouched(old(mem), mem, if old(InUse(p)) then old(Lives()) - {p - base - H} else old(Lives()))
      ensures old(InUse(p)) && Align(newSize) <= m && Cuts(old(Lives())[p - base - H], newSize) ==>
        (Lowest(Now()) <==> old(Lowest(Now())) && HintHolds(old(Now()), End(), p - base - H, p - base + Align(newSize)))
      ensures !(old(InUse(p)) && Cuts(old(Lives())[p - base - H], newSize)) && old(Lowest(Now())) ==> Lowest(Now())
    {
      hide Core, HeapChain.Live, Lowest, MemHeap.KeptBytes, Untouched, NoFit, Need, FirstFit;
      ghost var h0, m0, live := Now(), mem, Lives();
      UntouchedSame(mem, live);
      UntouchedLess(mem, mem, live, if InUse(p) then p - base - H else 0);
      Inside(p);
      var n := Align(newSize);
      AlignTwice(newSize);
      if n > m {
        return 0;
      } else if n == 0 {
        Free(p);
        return 0;
      }
      if p == 0 {
        r := Malloc(n);
        return r;
      }
      if p < base || p >= base + End() {
        return p;
      }
      var at: nat := p - base - H;
      CoreChained(h0, End());
      ghost var i := LiveBlock(h0, End(), at);
      var size: nat := next[at] - at - H;
      if size == n {
        KeptSame(h0, mem, End(), at, size);
        return p;
      }
      if n + H + MIN < size {
        CutOff(at, n, i);
        KeptCut(h0, Now(), m0, mem, End(), at, n);
        return p;
      }
      r := Move(p, size, n);
    }

    /** rt_realloc cuts a block of this size. */
    predicate Cuts(size: int, newSize: nat) {
      0 < newSize && Align(newSize) + H + MIN < size
    }

    /** What becomes of the block at `a` when it is to have `size` bytes. */
    ghost predicate Resized(h: HeapChain.Heap, h': HeapChain.Heap, a: nat, r: nat, size: nat) {
      var live, live' := Live(h, End()), Live(h', End());
      && a in live
      && (Stays(live[a], size) ==> r == base + H + a && live' == live[a := size])
      && (!Stays(live[a], size) ==> (r == 0 <==> NoFit(h, m, Need(size))))
      && (!Stays(live[a], size) && r != 0 ==>
            && r >= base + H && r - base - H !in live && r - base - H in live' && live'[r - base - H] >= size
            && live' - {r - base - H} == live - {a})
    }
  }

  lemma AlignTwice(size: nat)
    ensures Need(size) >= Align(size) && (size % 4 == 0 ==> Align(size) == size)
    ensures Align(Align(size)) == Align(size) && Need(Align(size)) == Need(size) && (Align(size) == 0 <==> size == 0)
  {
  }

  lemma UntouchedLess(mem: map<nat, bv8>, mem': map<nat, bv8>, live: map<nat, int>, a: nat)
    requires Untouched(mem, mem', live)
    ensures Untouched(mem, mem', live - {a})
  {
  }

  /** Two live blocks and the places for copying between them. */
  lemma MoveSafe(h0: HeapChain.Heap, h1: HeapChain.Heap, end: nat, a: nat, c: nat, n: nat)
    requires Chained(h1, end) && a in Live(h0, end) && c !in Live(h0, end) && c in Live(h1, end)
      && n <= Live(h0, end)[a]
    requires Live(h1, end) == Live(h0, end)[c := Live(h1, end)[c]] && n <= Live(h1, end)[c]
    ensures a in Live(h1, end) && a + H + n <= end && c + H + n <= end
    ensures c + H + n <= a + H || a + H + n <= c + H
    ensures forall x :: x in Live(h0, end) ==> x + H + Live(h0, end)[x] <= c + H || c + H + n <= x + H
  {
    hide Chained, HeapChain.Live;
    LiveDisjoint(h1, end, a, c);
    LiveDisjoint(h1, end, c, a);
    forall x | x in Live(h0, end) ensures x + H + Live(h0, end)[x] <= c + H || c + H + n <= x + H {
      LiveDisjoint(h1, end, x, c);
    }
  }

  lemma MovedBytes(m0: map<nat, bv8>, m1: map<nat, bv8>, m2: map<nat, bv8>, live: map<nat, int>, p: nat, r: nat, n: nat)
    requires p >= H && p - H in live && n <= live[p - H] && Untouched(m0, m1, live) && MemHeap.Copied(m1, m2, r, p, n)
    requires forall y: nat :: r <= y < r + n ==> y in m1
    requires forall x :: x in live ==> x + H + live[x] <= r || r + n <= x + H
    ensures MemHeap.KeptBytes(m0, m2, p, r, n) && Untouched(m0, m2, live - {p - H})
  {
    hide MemHeap.Copied;
    forall y: nat | r <= y < r + n && p + (y - r) in m0 ensures y in m2 && m2[y] == m0[p + (y - r)] {
      var x: nat := p + (y - r);
      UntouchedAt(m0, m1, live, p - H, x);
      MemHeap.CopiedAt(m1, m2, r, p, n, y);
    }
    var rest := live - {p - H};
    forall a, x | a in rest && a + H <= x < a + H + rest[a] && x in m0 ensures x in m2 && m2[x] == m0[x] {
      UntouchedAt(m0, m1, live, a, x);
      MemHeap.CopiedAt(m1, m2, r, p, n, x);
    }
  }

  lemma UntouchedAt(mem: map<nat, bv8>, mem': map<nat, bv8>, live: map<nat, int>, a: nat, x: nat)
    requires Untouched(mem, mem', live) && a in live && a + H <= x < a + H + live[a] && x in mem
    ensures x in mem' && mem'[x] == mem[x]
  {
  }

  lemma Swapped(live: map<nat, int>, live': map<nat, int>, a: nat, c: nat)
    requires c !in live && c in live' && live' == live[c := live'[c]] && a in live
    ensures (live' - {a}) - {c} == live - {a} && c in live' - {a} && (live' - {a})[c] == live'[c]
  {
  }

  lemma KeptSame(h: HeapChain.Heap, mem: map<nat, bv8>, end: nat, a: nat, size: nat)
    requires a in Live(h, end) && Live(h, end)[a] == size
    ensures Live(h, end)[a := size] == Live(h, end)
      && MemHeap.KeptBytes(mem, mem, a + H, a + H, MemHeap.Min(size, size))
  {
    hide HeapChain.Live;
  }

  lemma KeptCut(h: HeapChain.Heap, h': HeapChain.Heap, mem: map<nat, bv8>, mem': map<nat, bv8>, end: nat, a: nat,
      n: nat)
    requires a in Live(h, end) && n < Live(h, end)[a]
    requires forall x :: x in mem && x < a + H + n ==> x in mem' && mem'[x] == mem[x]
    ensures MemHeap.KeptBytes(mem, mem', a + H, a + H, MemHeap.Min(Live(h, end)[a], n))
  {
    hide HeapChain.Live;
  }

  lemma FreedUse(h: HeapChain.Heap, i: nat)
    requires i + 1 < |h.b| && h.b[i] < h.b[i + 1]
    ensures Freed(h, i).usedMem < h.usedMem
  {
  }

  lemma CoreChained(h: HeapChain.Heap, end: nat)
    requires Core(h, end, {})
    ensures Chained(h, end)
  {
  }

  lemma CoreBlock(h: HeapChain.Heap, end: nat, i: nat, skip: set<int>)
    requires Core(h, end, skip) && i < |h.b| - 1
    ensures var a, c := h.b[i], h.b[i + 1];
      && a in h.used && a in h.next && a in h.prev && h.next[a] == c && h.prev[a] == (if i == 0 then a else h.b[i - 1])
      && a < c <= end && c in h.used && c in h.next && (c == end ==> h.used[c])
      && (i > 0 ==> h.b[i - 1] in h.used && h.b[i - 1] in h.next && h.b[i - 1] < a)
  {
    BlockAt(h, end, i);
  }

  lemma BlockFour(h: HeapChain.Heap, end: nat, i: nat)
    requires Core(h, end, {}) && i < |h.b| - 1
    ensures h.b[i] % 4 == 0 && h.b[i] in h.b
  {
    BlockAt(h, end, i);
  }

  lemma UntouchedSame(mem: map<nat, bv8>, live: map<nat, int>)
    ensures Untouched(mem, mem, live)
  {
  }

  /** The lowest place where a search may end. */
  ghost predicate FirstFit(h: HeapChain.Heap, m: nat, size: nat, a: nat) {
    exists i: nat :: i < |h.b| - 1 && h.b[i] == a && Big(h, m, size, i)
      && forall j: nat :: j < i ==> !Big(h, m, size, j)
  }

  lemma MapCommutes(used: map<nat, bool>, a: nat, n: nat)
    requires a != n
    ensures used[a := true][n := false] == used[n := false][a := true]
  {
  }

  lemma TookLowest(h: HeapChain.Heap, h1: HeapChain.Heap, h2: HeapChain.Heap, a: nat)
    requires a in h.used && h.lfree <= a && HeapChain.Free(h2) == HeapChain.Free(h1)
    requires forall x :: x in HeapChain.Free(h1) ==> x in HeapChain.Free(h) - {a} || x > a
    requires h2.lfree == h.lfree || forall x: nat :: x in HeapChain.Free(h2) && h.lfree <= x ==> h2.lfree <= x
    ensures Lowest(h) ==> Lowest(h2)
  {
  }

  lemma LastBlock(h: HeapChain.Heap, end: nat)
    requires Core(h, end, {})
    ensures |h.b| >= 2 && h.b[|h.b| - 1] == end && forall i :: 0 <= i < |h.b| ==> h.b[i] in h.used
  {
    forall i: nat | i < |h.b| - 1 ensures h.b[i] in h.used {
      assert LinkedAt(h, i);
    }
  }

  lemma BeforeEnd(h: HeapChain.Heap, end: nat, i: nat)
    requires Core(h, end, {}) && i < |h.b| && h.b[i] != end
    ensures i < |h.b| - 1 && h.b[i] in h.next && h.next[h.b[i]] == h.b[i + 1] && h.b[i + 1] in h.used
  {
    BlockAt(h, end, i);
  }

  lemma Rising(h: HeapChain.Heap, end: nat)
    requires Core(h, end, {})
    ensures forall i, j :: 0 <= i < j < |h.b| ==> h.b[i] < h.b[j]
  {
    Ordered(h, end);
  }

  /** A block before the end of the heap, by its place. */
  lemma AtLeast(h: HeapChain.Heap, end: nat, i: nat)
    requires Core(h, end, {}) && i < |h.b| && h.b[i] < end
    ensures i < |h.b| - 1 && h.b[i] in h.used && h.b[i] in h.next && h.next[h.b[i]] == h.b[i + 1] && h.b[i] < h.b[i + 1]
  {
    BlockAt(h, end, i);
  }

  lemma FreshHeap(h: HeapChain.Heap, end: nat)
    requires end > H && end % 4 == 0
    requires h == HeapChain.Heap(map[0 := false, end := true], map[0 := end, end := end], map[0 := 0, end := end],
      0, 0, [0, end])
    ensures Inv(h, end) && Live(h, end) == map[] && Lowest(h)
  {
    assert h.b[1..] == [end];
    assert LinkedAt(h, 0);
    assert 0 in h.b;
  }
}
