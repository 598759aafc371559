/**
 The memory heap of src/memheap.c: a pool cut into items that carry their own headers,
 all items on one circular list in address order, the unused ones on a second circular
 list in no particular order.

 Header fields are kept by item address. `mem` holds the bytes of the pool that users see;
 building a header overwrites the bytes it occupies.
 */
module HeapBlocks {
  import opened RtList

  /** RT_MEMHEAP_SIZE: six words with 4-byte alignment. RT_MEMHEAP_MINIALLOC. */
  const H: nat := 24
  const MINIALLOC: nat := 12

  /** The header fields, the available size, the items by address and the free list's order. */
  datatype Heap = Heap(used: map<nat, bool>, blk: Links<nat>, fre: Links<nat>, avail: int,
                       blocks: seq<nat>, free: seq<nat>)

  // ----- the invariant -----

  ghost predicate Fits(b: seq<nat>, i: nat)
    requires i + 1 < |b|
  {
    b[i] + H <= b[i + 1]
  }

  /** Items follow each other without gaps from the start of the pool to its tailer. */
  ghost predicate Tiled(b: seq<nat>, start: nat, end: nat) {
    && |b| >= 2 && b[0] == start && b[|b| - 1] == end
    && forall i :: 0 <= i < |b| - 1 ==> Fits(b, i)
  }

  /** The block list is the circle of all items in address order; the tailer is used. */
  ghost predicate BlocksOk(used: map<nat, bool>, blk: Links<nat>, b: seq<nat>, start: nat, end: nat) {
    && Tiled(b, start, end)
    && Ring(blk, b[0], b[1..])
    && (forall i :: 0 <= i < |b| ==> b[i] in used)
    && used[end]
  }

  predicate Unused(used: map<nat, bool>, x: nat) {
    x in used && !used[x]
  }

  /** The free list holds exactly the unused items; `open` may be missing from it. */
  ghost predicate Listed(used: map<nat, bool>, b: seq<nat>, free: seq<nat>, open: set<nat>) {
    forall x: nat :: x in free <==> x in b && Unused(used, x) && x !in open
  }

  ghost predicate FreeOk(used: map<nat, bool>, fre: Links<nat>, b: seq<nat>, free: seq<nat>, fh: nat, open: set<nat>) {
    Ring(fre, fh, free) && fh !in b && Listed(used, b, free, open)
  }

  predicate Separated(used: map<nat, bool>, b: seq<nat>, i: nat)
    requires i + 1 < |b|
  {
    !(Unused(used, b[i]) && Unused(used, b[i + 1]))
  }

  /** No two unused items are neighbours, except possibly at the positions `skip`. */
  ghost predicate NoAdjacent(used: map<nat, bool>, b: seq<nat>, skip: set<int>) {
    forall i :: 0 <= i < |b| - 1 && i !in skip ==> Separated(used, b, i)
  }

  /** The bytes an item at `a` followed by one at `c` contributes to the available size. */
  function Gap(used: map<nat, bool>, a: nat, c: nat): int {
    if Unused(used, a) then c - a - H else 0
  }

  function Sum(used: map<nat, bool>, b: seq<nat>): int {
    if |b| < 2 then 0 else Gap(used, b[0], b[1]) + Sum(used, b[1..])
  }

  /** Every item but `open` is filed; `skip` are the places where merging is still due. */
  ghost predicate Almost(h: Heap, start: nat, end: nat, fh: nat, open: set<nat>, skip: set<int>) {
    && BlocksOk(h.used, h.blk, h.blocks, start, end)
    && FreeOk(h.used, h.fre, h.blocks, h.free, fh, open)
    && NoAdjacent(h.used, h.blocks, skip)
    && h.avail == Sum(h.used, h.blocks)
  }

  ghost predicate Inv(h: Heap, start: nat, end: nat, fh: nat) {
    Almost(h, start, end, fh, {}, {})
  }

  // ----- tiling -----

  lemma {:induction false} Increasing(b: seq<nat>, start: nat, end: nat, i: nat, j: nat)
    requires Tiled(b, start, end) && i < j < |b|
    ensures b[i] + H <= b[j]
    decreases j - i
  {
    assert Fits(b, i);
    if i + 1 < j {
      Increasing(b, start, end, i + 1, j);
    }
  }

  lemma TiledDistinct(b: seq<nat>, start: nat, end: nat)
    requires Tiled(b, start, end)
    ensures forall i, j :: 0 <= i < j < |b| ==> b[i] + H <= b[j]
  {
    forall i, j | 0 <= i < j < |b| ensures b[i] + H <= b[j] {
      Increasing(b, start, end, i, j);
    }
  }

  /** The neighbours of an item as the block list has them. */
  lemma NextBlock(blk: Links<nat>, b: seq<nat>, i: nat)
    requires |b| >= 1 && Ring(blk, b[0], b[1..]) && i < |b|
    ensures Has(blk, b[i])
    ensures blk.next[b[i]] == if i + 1 < |b| then b[i + 1] else b[0]
    ensures blk.prev[b[i]] == if i > 0 then b[i - 1] else b[|b| - 1]
  {
    assert JoinedAt(blk, b[0], b[1..], i);
    if i > 0 {
      assert JoinedAt(blk, b[0], b[1..], i - 1);
    } else {
      assert JoinedAt(blk, b[0], b[1..], |b| - 1);
    }
  }

  lemma TiledInsert(b: seq<nat>, start: nat, end: nat, i: nat, n: nat)
    requires Tiled(b, start, end) && i + 1 < |b| && b[i] + H <= n && n + H <= b[i + 1]
    ensures n !in b && Tiled(Inserted(b, i + 1, n), start, end)
  {
    TiledDistinct(b, start, end);
    var d := Inserted(b, i + 1, n);
    forall j | 0 <= j < |b| ensures b[j] != n {
      assert j < i ==> b[j] + H <= b[i];
      assert j > i + 1 ==> b[i + 1] + H <= b[j];
    }
    forall j | 0 <= j < |d| - 1 ensures Fits(d, j) {
      if j < i {
        assert Fits(b, j);
      } else if j > i + 1 {
        assert Fits(b, j - 1);
      }
    }
  }

  lemma RingInsert(blk: Links<nat>, b: seq<nat>, i: nat, n: nat)
    requires |b| >= 2 && Ring(blk, b[0], b[1..]) && i + 1 < |b| && n !in b
    ensures var d := Inserted(b, i + 1, n);
      d[0] == b[0] && Ring(Threaded(blk, b[i], n, b[i + 1]), d[0], d[1..])
  {
    hide Ring;
    assert n !in b[1..] && n != b[0] && b[1..][i] == b[i + 1] && (i > 0 ==> b[1..][i - 1] == b[i]);
    RingThreaded(blk, b[0], b[1..], i, n);
    assert Inserted(b, i + 1, n)[1..] == Inserted(b[1..], i, n);
  }

  lemma BlocksInsert(used: map<nat, bool>, blk: Links<nat>, b: seq<nat>, start: nat, end: nat, i: nat, n: nat)
    requires BlocksOk(used, blk, b, start, end) && i + 1 < |b| && b[i] + H <= n && n + H <= b[i + 1]
    ensures n !in b
    ensures BlocksOk(used[n := false], Threaded(blk, b[i], n, b[i + 1]), Inserted(b, i + 1, n), start, end)
  {
    hide Ring, Tiled;
    TiledInsert(b, start, end, i, n);
    RingInsert(blk, b, i, n);
    TailAt(b, start, end);
  }

  lemma TailAt(b: seq<nat>, start: nat, end: nat)
    requires Tiled(b, start, end)
    ensures |b| >= 2 && b[|b| - 1] == end
  {
  }

  lemma BlocksDrop(used: map<nat, bool>, blk: Links<nat>, b: seq<nat>, start: nat, end: nat, i: nat)
    requires BlocksOk(used, blk, b, start, end) && 1 <= i < |b| - 1
    ensures Has(blk, b[i]) && b[i] !in Dropped(b, i)
    ensures BlocksOk(used, Bridged(blk, b[i]), Dropped(b, i), start, end)
  {
    TiledDistinct(b, start, end);
    var d := Dropped(b, i);
    assert b[1..][i - 1] == b[i];
    RingBridged(blk, b[0], b[1..], i - 1);
    assert d[1..] == Dropped(b[1..], i - 1);
    forall j | 0 <= j < |d| - 1 ensures Fits(d, j) {
      if j < i - 1 {
        assert Fits(b, j);
      } else if j >= i {
        assert Fits(b, j + 1);
      } else {
        assert Fits(b, i - 1) && Fits(b, i);
      }
    }
  }

  // ----- the available size -----

  lemma {:induction false} SumSplit(used: map<nat, bool>, b: seq<nat>, i: nat)
    requires i < |b|
    ensures Sum(used, b) == Sum(used, b[..i + 1]) + Sum(used, b[i..])
  {
    if i == 0 {
      assert b[0..] == b;
    } else {
      SumSplit(used, b[1..], i - 1);
      assert b[1..][..i] == b[..i + 1][1..] && b[1..][i - 1..] == b[i..];
    }
  }

  /** The sum, with the i-th item singled out. */
  lemma SumAt(used: map<nat, bool>, b: seq<nat>, i: nat)
    requires i + 1 < |b|
    ensures Sum(used, b) == Sum(used, b[..i + 1]) + Gap(used, b[i], b[i + 1]) + Sum(used, b[i + 1..])
  {
    SumSplit(used, b, i);
    assert b[i..][1..] == b[i + 1..];
  }

  lemma {:induction false} SumFrame(used: map<nat, bool>, used': map<nat, bool>, b: seq<nat>)
    requires forall i :: 0 <= i < |b| - 1 ==> Unused(used', b[i]) == Unused(used, b[i])
    ensures Sum(used', b) == Sum(used, b)
  {
    if |b| >= 2 {
      SumFrame(used, used', b[1..]);
    }
  }

  lemma SumMark(used: map<nat, bool>, b: seq<nat>, start: nat, end: nat, i: nat, u: bool)
    requires Tiled(b, start, end) && i + 1 < |b|
    ensures var used' := used[b[i] := u];
      Sum(used', b) == Sum(used, b) - Gap(used, b[i], b[i + 1]) + Gap(used', b[i], b[i + 1])
  {
    hide Sum, Gap;
    var used' := used[b[i] := u];
    TiledDistinct(b, start, end);
    SumAt(used, b, i);
    SumAt(used', b, i);
    SumFrame(used, used', b[..i + 1]);
    SumFrame(used, used', b[i + 1..]);
  }

  lemma SumInsert(used: map<nat, bool>, b: seq<nat>, i: nat, n: nat)
    requires i + 1 < |b|
    ensures Sum(used, Inserted(b, i + 1, n))
      == Sum(used, b) - Gap(used, b[i], b[i + 1]) + Gap(used, b[i], n) + Gap(used, n, b[i + 1])
  {
    var d := Inserted(b, i + 1, n);
    SumAt(used, b, i);
    SumAt(used, d, i);
    SumAt(used, d, i + 1);
    assert d[..i + 1] == b[..i + 1] && d[i + 2..] == b[i + 1..];
    SumAt(used, d[i + 1..], 0);
    assert d[i + 1..][..1] == [n] && d[i + 1..][1..] == b[i + 1..];
  }

  lemma SumDrop(used: map<nat, bool>, b: seq<nat>, i: nat)
    requires 1 <= i < |b| - 1
    ensures Sum(used, Dropped(b, i))
      == Sum(used, b) - Gap(used, b[i - 1], b[i]) - Gap(used, b[i], b[i + 1]) + Gap(used, b[i - 1], b[i + 1])
  {
    SumInsert(used, Dropped(b, i), i - 1, b[i]);
    assert Inserted(Dropped(b, i), i, b[i]) == b;
  }

  // ----- the free list -----

  lemma ListedMark(used: map<nat, bool>, b: seq<nat>, free: seq<nat>, a: nat)
    requires Listed(used, b, free, {}) && a in b && a in used && used[a]
    ensures Listed(used[a := false], b, free, {a})
  {
  }

  lemma TiledUnique(b: seq<nat>, start: nat, end: nat)
    requires Tiled(b, start, end)
    ensures forall i, j :: 0 <= i < |b| && 0 <= j < |b| && i != j ==> b[i] != b[j]
  {
    TiledDistinct(b, start, end);
  }

  lemma ListedDrop(used: map<nat, bool>, b: seq<nat>, free: seq<nat>, start: nat, end: nat, i: nat)
    requires i < |b| && Listed(used, b, free, {b[i]}) && Tiled(b, start, end)
    ensures Listed(used, Dropped(b, i), free, {})
  {
    TiledUnique(b, start, end);
    DroppedMembers(b, i);
  }

  // ----- neighbours -----

  /** Dropping an item that is due for merging leaves at most its left neighbour due. */
  lemma NeighboursDrop(used: map<nat, bool>, b: seq<nat>, i: nat)
    requires 1 <= i < |b| - 1 && NoAdjacent(used, b, {i - 1, i})
    ensures NoAdjacent(used, Dropped(b, i), {i - 1})
  {
    var d := Dropped(b, i);
    forall j | 0 <= j < |d| - 1 && j !in {i - 1} ensures Separated(used, d, j) {
      assert Separated(used, b, if j < i - 1 then j else j + 1);
    }
  }

  /** An unused item has a used one on its right, so dropping it settles that place. */
  lemma NeighboursDropNext(used: map<nat, bool>, b: seq<nat>, i: nat)
    requires i + 1 < |b| - 1 && NoAdjacent(used, b, {i}) && Unused(used, b[i + 1])
    ensures NoAdjacent(used, Dropped(b, i + 1), {})
  {
    var d := Dropped(b, i + 1);
    assert Separated(used, b, i + 1);
    forall j | 0 <= j < |d| - 1 ensures Separated(used, d, j) {
      if j != i {
        assert Separated(used, b, if j < i then j else j + 1);
      }
    }
  }

  lemma NeighboursInsert(used: map<nat, bool>, b: seq<nat>, i: nat, n: nat)
    requires i < |b| - 1 && NoAdjacent(used, b, {}) && n !in b && !Unused(used, b[i])
    ensures NoAdjacent(used[n := false], Inserted(b, i + 1, n), {i + 1})
  {
    var d, used' := Inserted(b, i + 1, n), used[n := false];
    forall j | 0 <= j < |b| ensures Unused(used', b[j]) == Unused(used, b[j]) {
      assert b[j] in b;
    }
    forall j | 0 <= j < |d| - 1 && j !in {i + 1} ensures Separated(used', d, j) {
      if j < i {
        assert Separated(used, b, j);
      } else if j > i + 1 {
        assert Separated(used, b, j - 1);
      }
    }
  }

  lemma NeighboursMark(used: map<nat, bool>, b: seq<nat>, start: nat, end: nat, i: nat)
    requires i < |b| - 1 && NoAdjacent(used, b, {}) && Tiled(b, start, end)
    ensures NoAdjacent(used[b[i] := false], b, {i - 1, i})
  {
    TiledUnique(b, start, end);
    var used' := used[b[i] := false];
    forall j | 0 <= j < |b| - 1 && j !in {i - 1, i} ensures Separated(used', b, j) {
      assert Separated(used, b, j);
    }
  }

  // ----- the free list, continued -----

  /** An item leaves the free list; it may stay in the pool as a used one or be merged. */
  lemma FreeRemove(used: map<nat, bool>, fre: Links<nat>, b: seq<nat>, free: seq<nat>, fh: nat, open: set<nat>, k: nat)
    requires FreeOk(used, fre, b, free, fh, open) && k < |free|
    ensures Has(fre, free[k]) && free[k] in b && Unused(used, free[k])
    ensures FreeOk(used, Bridged(fre, free[k]), b, Dropped(free, k), fh, open + {free[k]})
  {
    RingBridged(fre, fh, free, k);
    RingDistinct(fre, fh, free);
    DroppedMembers(free, k);
    assert free[k] in free;
  }

  lemma RingDistinct(m: Links<nat>, h: nat, s: seq<nat>)
    requires Ring(m, h, s)
    ensures forall i, j :: 0 <= i < |s| && 0 <= j < |s| && i != j ==> s[i] != s[j]
  {
  }

  /** Writing the link fields of an item off the free list leaves the list. */
  lemma FreeFieldsFrame(used: map<nat, bool>, fre: Links<nat>, b: seq<nat>, free: seq<nat>, fh: nat, open: set<nat>,
                        a: nat, x: nat, y: nat)
    requires FreeOk(used, fre, b, free, fh, open) && a !in free && a != fh
    ensures FreeOk(used, Links(fre.next[a := x], fre.prev[a := y]), b, free, fh, open)
  {
    var m := Links(fre.next[a := x], fre.prev[a := y]);
    forall z | z == fh || z in free
      ensures Has(m, z) && (Has(fre, z) ==> m.next[z] == fre.next[z] && m.prev[z] == fre.prev[z]) {
      RingHas(fre, fh, free, z);
    }
    RingFrame(fre, m, fh, free);
  }

  lemma RingHas(m: Links<nat>, h: nat, s: seq<nat>, z: nat)
    requires Ring(m, h, s) && (z == h || z in s)
    ensures Has(m, z)
  {
    if z == h {
      assert JoinedAt(m, h, s, 0);
    } else {
      var k :| 0 <= k < |s| && s[k] == z;
      assert JoinedAt(m, h, s, k);
    }
  }

  lemma FreeInsert(used: map<nat, bool>, fre: Links<nat>, b: seq<nat>, free: seq<nat>, fh: nat, n: nat)
    requires FreeOk(used, fre, b, free, fh, {n}) && n in b && Unused(used, n)
    ensures Has(fre, fh) && FreeOk(used, Threaded(fre, fh, n, fre.next[fh]), b, [n] + free, fh, {})
  {
    assert JoinedAt(fre, fh, free, 0);
    RingThreaded(fre, fh, free, 0, n);
    assert Inserted(free, 0, n) == [n] + free;
  }

  // ----- the moves an operation is made of -----

  /** What a well-formed heap knows of the i-th item and its neighbours. */
  lemma ItemFacts(h: Heap, start: nat, end: nat, fh: nat, open: set<nat>, skip: set<int>, i: nat)
    requires Almost(h, start, end, fh, open, skip) && i < |h.blocks| - 1
    ensures Has(h.blk, h.blocks[i]) && h.blk.next[h.blocks[i]] == h.blocks[i + 1]
    ensures h.blocks[i] in h.blk.prev && h.blk.prev[h.blocks[i]] == if i > 0 then h.blocks[i - 1] else end
    ensures h.blocks[i] + H <= h.blocks[i + 1] <= end && start <= h.blocks[i] && h.blocks[i] != fh
    ensures h.blocks[i] in h.used && h.blocks[i + 1] in h.used && end in h.used && h.used[end]
    ensures Has(h.fre, fh)
  {
    hide NoAdjacent, Sum, Listed;
    var b := h.blocks;
    NextBlock(h.blk, b, i);
    TiledDistinct(b, start, end);
    RingHas(h.fre, fh, h.free, fh);
    assert b[i] in b;
  }

  /** A used item is marked unused. */
  lemma Marked(h: Heap, start: nat, end: nat, fh: nat, i: nat)
    requires Inv(h, start, end, fh) && i < |h.blocks| - 1 && h.blocks[i] in h.used && h.used[h.blocks[i]]
    ensures Almost(h.(used := h.used[h.blocks[i] := false], avail := h.avail + h.blocks[i + 1] - h.blocks[i] - H),
                   start, end, fh, {h.blocks[i]}, {i - 1, i})
  {
    hide Sum, Listed, Ring, NoAdjacent;
    var a, b := h.blocks[i], h.blocks;
    SumMark(h.used, b, start, end, i, false);
    TiledUnique(b, start, end);
    ListedMark(h.used, b, h.free, a);
    NeighboursMark(h.used, b, start, end, i);
  }

  lemma KeptLeft(h: Heap, start: nat, end: nat, fh: nat, i: nat)
    requires i < |h.blocks| - 1 && Almost(h, start, end, fh, {h.blocks[i]}, {i - 1, i})
    requires i > 0 ==> !Unused(h.used, h.blocks[i - 1])
    ensures Almost(h, start, end, fh, {h.blocks[i]}, {i})
  {
    hide Sum, Listed, Ring, Tiled;
  }

  lemma KeptRight(h: Heap, start: nat, end: nat, fh: nat, open: set<nat>, i: nat)
    requires Almost(h, start, end, fh, open, {i}) && i < |h.blocks| - 1
    requires !Unused(h.used, h.blocks[i + 1])
    ensures Almost(h, start, end, fh, open, {})
  {
    hide Sum, Listed, Ring, Tiled;
  }

  /** An unused item is merged into the unused item on its left. */
  lemma MergedLeft(h: Heap, start: nat, end: nat, fh: nat, i: nat)
    requires 1 <= i < |h.blocks| - 1 && Almost(h, start, end, fh, {h.blocks[i]}, {i - 1, i})
    requires Unused(h.used, h.blocks[i]) && Unused(h.used, h.blocks[i - 1])
    ensures Has(h.blk, h.blocks[i])
    ensures Almost(h.(blk := Bridged(h.blk, h.blocks[i]), blocks := Dropped(h.blocks, i), avail := h.avail + H),
                   start, end, fh, {}, {i - 1})
  {
    hide Sum, Ring, Listed, NoAdjacent, Tiled, Dropped;
    BlocksDrop(h.used, h.blk, h.blocks, start, end, i);
    ListedDrop(h.used, h.blocks, h.free, start, end, i);
    NeighboursDrop(h.used, h.blocks, i);
    SumDrop(h.used, h.blocks, i);
    DroppedSubset(h.blocks, i);
  }

  lemma DroppedSubset(b: seq<nat>, i: nat)
    requires i < |b|
    ensures forall x :: x in Dropped(b, i) ==> x in b
  {
  }

  /** The unused item on the right of the i-th one is taken off both lists. */
  lemma MergedRight(h: Heap, start: nat, end: nat, fh: nat, open: set<nat>, i: nat, k: nat)
    requires i + 1 < |h.blocks| - 1 && k < |h.free| && Almost(h, start, end, fh, open, {i})
    requires open <= {h.blocks[i]} && Unused(h.used, h.blocks[i]) && h.free[k] == h.blocks[i + 1]
    ensures Has(h.blk, h.free[k]) && Has(h.fre, h.free[k])
    ensures Almost(h.(blk := Bridged(h.blk, h.free[k]), fre := Bridged(h.fre, h.free[k]),
                      blocks := Dropped(h.blocks, i + 1), free := Dropped(h.free, k), avail := h.avail + H),
                   start, end, fh, open, {})
  {
    hide Sum, Ring, NoAdjacent, Tiled, Dropped, Listed;
    BlocksDrop(h.used, h.blk, h.blocks, start, end, i + 1);
    FreeRemove(h.used, h.fre, h.blocks, h.free, fh, open, k);
    NeighboursDropNext(h.used, h.blocks, i);
    SumDrop(h.used, h.blocks, i + 1);
    UnlistedDrop(h.used, h.blocks, Dropped(h.free, k), start, end, i + 1, open);
    DroppedSubset(h.blocks, i + 1);
  }

  /** An item that is on neither list any more has left the heap. */
  lemma UnlistedDrop(used: map<nat, bool>, b: seq<nat>, free: seq<nat>, start: nat, end: nat, i: nat, open: set<nat>)
    requires i < |b| && Tiled(b, start, end) && Listed(used, b, free, open + {b[i]})
    ensures Listed(used, Dropped(b, i), free, open)
  {
    TiledUnique(b, start, end);
    DroppedMembers(b, i);
  }

  /** The open item goes to the front of the free list. */
  lemma Filed(h: Heap, start: nat, end: nat, fh: nat, n: nat)
    requires Almost(h, start, end, fh, {n}, {}) && n in h.blocks && Unused(h.used, n)
    ensures Has(h.fre, fh)
    ensures Inv(h.(fre := Threaded(h.fre, fh, n, h.fre.next[fh]), free := [n] + h.free), start, end, fh)
  {
    hide Sum, Ring, Tiled, NoAdjacent, Listed;
    FreeInsert(h.used, h.fre, h.blocks, h.free, fh, n);
  }

  /** An unused item leaves the free list and becomes used as a whole. */
  lemma Taken(h: Heap, start: nat, end: nat, fh: nat, i: nat, k: nat, x: nat, y: nat)
    requires Inv(h, start, end, fh) && i < |h.blocks| - 1 && k < |h.free| && h.free[k] == h.blocks[i]
    ensures Has(h.fre, h.free[k])
    ensures var a: nat, m := h.free[k], Bridged(h.fre, h.free[k]);
      Inv(h.(used := h.used[a := true], fre := Links(m.next[a := x], m.prev[a := y]), free := Dropped(h.free, k),
             avail := h.avail - (h.blocks[i + 1] - a - H)), start, end, fh)
  {
    hide Sum;
    var a, b := h.free[k], h.blocks;
    FreeRemove(h.used, h.fre, b, h.free, fh, {}, k);
    SumMark(h.used, b, start, end, i, true);
    TiledDistinct(b, start, end);
    RingBridged(h.fre, fh, h.free, k);
    FreeFieldsFrame(h.used, Bridged(h.fre, a), b, Dropped(h.free, k), fh, {a}, a, x, y);
    TakenRest(h, start, end, i, a);
  }

  lemma TakenRest(h: Heap, start: nat, end: nat, i: nat, a: nat)
    requires BlocksOk(h.used, h.blk, h.blocks, start, end) && NoAdjacent(h.used, h.blocks, {})
    requires i < |h.blocks| - 1 && h.blocks[i] == a
    ensures BlocksOk(h.used[a := true], h.blk, h.blocks, start, end) && NoAdjacent(h.used[a := true], h.blocks, {})
  {
    hide Ring;
    TiledUnique(h.blocks, start, end);
    var used' := h.used[a := true];
    forall j | 0 <= j < |h.blocks| - 1 ensures Separated(used', h.blocks, j) {
      assert Separated(h.used, h.blocks, j);
    }
  }

  /** A new unused item is cut off the end of a used one. */
  lemma Carved(h: Heap, start: nat, end: nat, fh: nat, i: nat, n: nat)
    requires Inv(h, start, end, fh) && i < |h.blocks| - 1 && !Unused(h.used, h.blocks[i])
    requires h.blocks[i] + H <= n && n + H <= h.blocks[i + 1] && n != fh
    ensures n !in h.blocks
    ensures Almost(h.(used := h.used[n := false], blk := Threaded(h.blk, h.blocks[i], n, h.blocks[i + 1]),
                      blocks := Inserted(h.blocks, i + 1, n), avail := h.avail + h.blocks[i + 1] - n - H),
                   start, end, fh, {n}, {i + 1})
  {
    hide Sum, Ring, NoAdjacent, Tiled, Inserted;
    var b, used' := h.blocks, h.used[n := false];
    BlocksInsert(h.used, h.blk, b, start, end, i, n);
    NeighboursInsert(h.used, b, i, n);
    InsertedMembers(b, i + 1, n);
    SumUnseen(h.used, b, n);
    SumInsert(used', b, i, n);
    assert b[i] in b && b[i + 1] in b;
  }

  lemma SumUnseen(used: map<nat, bool>, b: seq<nat>, n: nat)
    requires n !in b
    ensures Sum(used[n := false], b) == Sum(used, b)
  {
    forall j | 0 <= j < |b| - 1 ensures b[j] != n {
      assert b[j] in b;
    }
    SumFrame(used, used[n := false], b);
  }

  /** The unused item behind a used one is taken off both lists and becomes part of it. */
  lemma Absorbed(h: Heap, start: nat, end: nat, fh: nat, i: nat, k: nat)
    requires Inv(h, start, end, fh) && i + 1 < |h.blocks| - 1 && k < |h.free|
    requires !Unused(h.used, h.blocks[i]) && h.free[k] == h.blocks[i + 1]
    ensures Has(h.blk, h.free[k]) && Has(h.fre, h.free[k])
    ensures !Unused(h.used, h.blocks[i + 2])
    ensures Inv(h.(blk := Bridged(h.blk, h.free[k]), fre := Bridged(h.fre, h.free[k]),
                   blocks := Dropped(h.blocks, i + 1), free := Dropped(h.free, k),
                   avail := h.avail - (h.blocks[i + 2] - h.blocks[i + 1] - H)), start, end, fh)
  {
    hide Sum, Ring, Tiled, Dropped, Listed;
    BlocksDrop(h.used, h.blk, h.blocks, start, end, i + 1);
    FreeRemove(h.used, h.fre, h.blocks, h.free, fh, {}, k);
    assert Separated(h.used, h.blocks, i + 1);
    NeighboursDropNext(h.used, h.blocks, i);
    SumDrop(h.used, h.blocks, i + 1);
    UnlistedDrop(h.used, h.blocks, Dropped(h.free, k), start, end, i + 1, {});
    DroppedSubset(h.blocks, i + 1);
  }

  // ----- what the users of the heap have -----

  /** MEMITEM_SIZE */
  function ItemSize(blk: Links<nat>, a: nat): int
    requires a in blk.next
  {
    blk.next[a] - a - H
  }

  /** The allocated items by address, with their sizes; the tailer is not one of them. */
  ghost function Live(h: Heap): map<nat, int> {
    map a: nat | a in h.blocks && Allocated(h, a) :: ItemSize(h.blk, a)
  }

  ghost predicate Allocated(h: Heap, a: nat) {
    a in h.blocks && a in h.used && h.used[a] && a in h.blk.next && a < h.blk.next[a]
  }

  lemma LiveIs(h: Heap, m: map<nat, int>)
    requires forall a: nat :: Allocated(h, a) <==> a in m
    requires forall a: nat :: Allocated(h, a) && a in m ==> ItemSize(h.blk, a) == m[a]
    ensures Live(h) == m
  {
  }

  /** The size recorded for an item is the distance to the next one. */
  lemma LiveAt(h: Heap, start: nat, end: nat, fh: nat, open: set<nat>, skip: set<int>, i: nat)
    requires Almost(h, start, end, fh, open, skip) && i < |h.blocks| - 1
    ensures h.blocks[i] in Live(h) <==> !Unused(h.used, h.blocks[i])
    ensures h.blocks[i] in Live(h) ==> Live(h)[h.blocks[i]] == h.blocks[i + 1] - h.blocks[i] - H
  {
    hide NoAdjacent, Listed, Ring, Sum;
    NextBlock(h.blk, h.blocks, i);
    TiledDistinct(h.blocks, start, end);
  }

  lemma LiveIndex(h: Heap, start: nat, end: nat, fh: nat, open: set<nat>, skip: set<int>, a: nat) returns (i: nat)
    requires Almost(h, start, end, fh, open, skip) && a in Live(h)
    ensures i < |h.blocks| - 1 && h.blocks[i] == a && !Unused(h.used, a) && Live(h)[a] == h.blocks[i + 1] - a - H
  {
    hide NoAdjacent, Listed, Ring, Sum;
    i :| 0 <= i < |h.blocks| && h.blocks[i] == a;
    NextBlock(h.blk, h.blocks, i);
    TiledDistinct(h.blocks, start, end);
  }

  /** A byte inside an item belongs to no user but that item's. */
  lemma OneItem(h: Heap, start: nat, end: nat, fh: nat, open: set<nat>, skip: set<int>, i: nat, a: nat, x: nat)
    requires Almost(h, start, end, fh, open, skip) && i < |h.blocks| - 1 && h.blocks[i] <= x < h.blocks[i + 1]
    requires a in Live(h) && a + H <= x < a + H + Live(h)[a]
    ensures a == h.blocks[i]
  {
    hide NoAdjacent, Listed, Ring, Sum, BlocksOk;
    var j := LiveIndex(h, start, end, fh, open, skip, a);
    TiledOf(h, start, end);
    TiledMonotone(h.blocks, start, end, j + 1, i);
    TiledMonotone(h.blocks, start, end, i + 1, j);
  }

  lemma TiledMonotone(b: seq<nat>, start: nat, end: nat, i: nat, j: nat)
    requires Tiled(b, start, end) && i < |b| && j < |b|
    ensures i <= j ==> b[i] <= b[j]
  {
    TiledDistinct(b, start, end);
  }

  lemma TiledOf(h: Heap, start: nat, end: nat)
    requires BlocksOk(h.used, h.blk, h.blocks, start, end)
    ensures Tiled(h.blocks, start, end)
  {
  }

  /** Two allocated items share no byte, and none reaches past the tailer. */
  lemma LiveDisjoint(h: Heap, start: nat, end: nat, fh: nat, a: nat, c: nat)
    requires Inv(h, start, end, fh) && a in Live(h) && c in Live(h)
    ensures start <= a && a + H + Live(h)[a] <= end && Live(h)[a] >= 0
    ensures a != c ==> a + H + Live(h)[a] <= c || c + H + Live(h)[c] <= a
  {
    hide NoAdjacent, Listed, Ring, Sum, BlocksOk;
    var i := LiveIndex(h, start, end, fh, {}, {}, a);
    var j := LiveIndex(h, start, end, fh, {}, {}, c);
    TiledOf(h, start, end);
    TiledDistinct(h.blocks, start, end);
    TiledMonotone(h.blocks, start, end, j + 1, i);
    TiledMonotone(h.blocks, start, end, i + 1, j);
  }

  // ----- what the moves do to the allocated items -----

  lemma LiveMarked(h: Heap, start: nat, end: nat, fh: nat, open: set<nat>, skip: set<int>, i: nat, avail: int)
    requires Almost(h, start, end, fh, open, skip) && i < |h.blocks| - 1
    ensures Live(h.(used := h.used[h.blocks[i] := false], avail := avail)) == Live(h) - {h.blocks[i]}
  {
    hide Almost;
    LiveIs(h.(used := h.used[h.blocks[i] := false], avail := avail), Live(h) - {h.blocks[i]});
  }

  /** Dropping an item between two unused ones, or after an unused one, is invisible to users. */
  lemma LiveMerged(h: Heap, start: nat, end: nat, fh: nat, open: set<nat>, skip: set<int>, i: nat,
                   fre: Links<nat>, free: seq<nat>, avail: int)
    requires Almost(h, start, end, fh, open, skip) && 1 <= i < |h.blocks| - 1
    requires Unused(h.used, h.blocks[i]) && Unused(h.used, h.blocks[i - 1])
    ensures Has(h.blk, h.blocks[i])
    ensures Live(h.(blk := Bridged(h.blk, h.blocks[i]), fre := fre, blocks := Dropped(h.blocks, i), free := free,
      avail := avail))
      == Live(h)
  {
    hide Almost, Dropped, Live;
    BlockFacts(h, start, end, fh, open, skip, i);
    var h' := h.(blk := Bridged(h.blk, h.blocks[i]), fre := fre, blocks := Dropped(h.blocks, i), free := free,
      avail := avail);
    forall a: nat
      ensures Allocated(h', a) <==> Allocated(h, a)
      ensures Allocated(h', a) ==> ItemSize(h'.blk, a) == ItemSize(h.blk, a)
    {
    }
    LiveSame(h, h');
  }

  lemma LiveSame(h: Heap, h': Heap)
    requires forall a: nat :: Allocated(h', a) <==> Allocated(h, a)
    requires forall a: nat :: Allocated(h', a) && Allocated(h, a) ==> ItemSize(h'.blk, a) == ItemSize(h.blk, a)
    ensures Live(h') == Live(h)
  {
  }

  lemma LiveUpdated(h: Heap, h': Heap, c: nat, n: int)
    requires Allocated(h', c) && ItemSize(h'.blk, c) == n
    requires forall a: nat :: a != c ==> (Allocated(h', a) <==> Allocated(h, a))
    requires forall a: nat :: a != c && Allocated(h', a) && Allocated(h, a) ==>
      ItemSize(h'.blk, a) == ItemSize(h.blk, a)
    ensures Live(h') == Live(h)[c := n]
  {
  }

  /** The i-th item: its place among the others and its neighbours. */
  lemma BlockFacts(h: Heap, start: nat, end: nat, fh: nat, open: set<nat>, skip: set<int>, i: nat)
    requires Almost(h, start, end, fh, open, skip) && i < |h.blocks| - 1
    ensures h.blocks[i] in h.blocks && Has(h.blk, h.blocks[i]) && h.blocks[i] in h.used
    ensures h.blk.next[h.blocks[i]] == h.blocks[i + 1] >= h.blocks[i] + H
    ensures i > 0 ==> h.blk.prev[h.blocks[i]] == h.blocks[i - 1] && h.blocks[i - 1] + H <= h.blocks[i]
    ensures forall x: nat :: x in Dropped(h.blocks, i) <==> x in h.blocks && x != h.blocks[i]
  {
    hide NoAdjacent, Listed, Ring, Sum;
    NextBlock(h.blk, h.blocks, i);
    TiledUnique(h.blocks, start, end);
    TiledDistinct(h.blocks, start, end);
    DroppedMembers(h.blocks, i);
  }

  lemma LiveTaken(h: Heap, start: nat, end: nat, fh: nat, i: nat, fre: Links<nat>, free: seq<nat>, avail: int)
    requires Inv(h, start, end, fh) && i < |h.blocks| - 1
    ensures Live(h.(used := h.used[h.blocks[i] := true], fre := fre, free := free, avail := avail))
      == Live(h)[h.blocks[i] := h.blocks[i + 1] - h.blocks[i] - H]
  {
    hide Almost, Dropped, Live;
    BlockFacts(h, start, end, fh, {}, {}, i);
    var h' := h.(used := h.used[h.blocks[i] := true], fre := fre, free := free, avail := avail);
    LiveUpdated(h, h', h.blocks[i], h.blocks[i + 1] - h.blocks[i] - H);
  }

  lemma LiveCarved(h: Heap, start: nat, end: nat, fh: nat, i: nat, n: nat, avail: int)
    requires Inv(h, start, end, fh) && i < |h.blocks| - 1 && !Unused(h.used, h.blocks[i]) && n !in h.blocks
    requires h.blocks[i] + H <= n && n + H <= h.blocks[i + 1]
    ensures Live(h.(used := h.used[n := false], blk := Threaded(h.blk, h.blocks[i], n, h.blocks[i + 1]),
                    blocks := Inserted(h.blocks, i + 1, n), avail := avail))
      == Live(h)[h.blocks[i] := n - h.blocks[i] - H]
  {
    hide Almost, Dropped, Live, Inserted;
    BlockFacts(h, start, end, fh, {}, {}, i);
    InsertedMembers(h.blocks, i + 1, n);
    var h' := h.(used := h.used[n := false], blk := Threaded(h.blk, h.blocks[i], n, h.blocks[i + 1]),
                 blocks := Inserted(h.blocks, i + 1, n), avail := avail);
    LiveUpdated(h, h', h.blocks[i], n - h.blocks[i] - H);
  }

  lemma LiveAbsorbed(h: Heap, start: nat, end: nat, fh: nat, i: nat, fre: Links<nat>, free: seq<nat>, avail: int)
    requires Inv(h, start, end, fh) && i + 1 < |h.blocks| - 1
    requires !Unused(h.used, h.blocks[i]) && Unused(h.used, h.blocks[i + 1])
    ensures Has(h.blk, h.blocks[i + 1])
    ensures Live(h.(blk := Bridged(h.blk, h.blocks[i + 1]), fre := fre, blocks := Dropped(h.blocks, i + 1),
      free := free, avail := avail))
      == Live(h)[h.blocks[i] := h.blocks[i + 2] - h.blocks[i] - H]
  {
    hide Almost, Dropped, Live;
    BlockFacts(h, start, end, fh, {}, {}, i);
    BlockFacts(h, start, end, fh, {}, {}, i + 1);
    var h' := h.(blk := Bridged(h.blk, h.blocks[i + 1]), fre := fre, blocks := Dropped(h.blocks, i + 1), free := free,
      avail := avail);
    LiveUpdated(h, h', h.blocks[i], h.blocks[i + 2] - h.blocks[i] - H);
  }
}

module MemHeap {
  import opened RtList
  import opened HeapBlocks

  const NULL: nat := 0

  /** RT_ALIGN to 4 bytes, and the least size that is handed out. */
  function Rounded(size: nat): nat {
    var s := (size + 3) / 4 * 4;
    if s < MINIALLOC then MINIALLOC else s
  }

  function Max(a: int, b: int): int { if a < b then b else a }

  /** Every unused item is smaller than `size`. */
  ghost predicate NoFit(h: Heap, size: nat) {
    forall i :: 0 <= i < |h.blocks| - 1 && Unused(h.used, h.blocks[i]) ==> h.blocks[i + 1] - h.blocks[i] - H < size
  }

  /** The bytes of the items in `live` have not changed. */
  ghost predicate Preserved(mem: map<nat, bv8>, mem': map<nat, bv8>, live: map<nat, int>) {
    forall a, x :: a in live && a + H <= x < a + H + live[a] && x in mem ==> x in mem' && mem'[x] == mem[x]
  }

  /** A header built at `n` overwrites the H bytes there with some image. */
  function Scribbled(mem: map<nat, bv8>, n: nat, image: nat -> bv8): map<nat, bv8> {
    map x | x in mem :: if n <= x < n + H then image(x) else mem[x]
  }

  /** `max_used_size` is the largest use seen, where `seen` lists the available sizes. */
  ghost predicate HighWater(seen: seq<int>, poolSize: nat, maxUsed: int, avail: int) {
    && seen != [] && seen[|seen| - 1] == avail
    && (forall k :: 0 <= k < |seen| ==> poolSize - seen[k] <= maxUsed)
    && (exists k :: 0 <= k < |seen| && poolSize - seen[k] == maxUsed)
  }

  lemma HighWaterGrows(seen: seq<int>, poolSize: nat, maxUsed: int, avail: int, avail': int)
    requires HighWater(seen, poolSize, maxUsed, avail)
    ensures HighWater(seen + [avail'], poolSize, Max(maxUsed, poolSize - avail'), avail')
  {
    var k :| 0 <= k < |seen| && poolSize - seen[k] == maxUsed;
    var s' := seen + [avail'];
    assert s'[k] == seen[k] && s'[|seen|] == avail';
  }

  /** An operation that does not lower the available size leaves the mark where it is. */
  lemma HighWaterKept(seen: seq<int>, poolSize: nat, maxUsed: int, avail: int, avail': int)
    requires HighWater(seen, poolSize, maxUsed, avail) && avail <= avail'
    ensures HighWater(seen + [avail'], poolSize, maxUsed, avail')
  {
    HighWaterGrows(seen, poolSize, maxUsed, avail, avail');
  }

  /** The header fields of the items in the pool: the used bit of `magic`, `next` and `prev`,
      `next_free` and `prev_free`. */
  datatype Items = Items(used: map<nat, bool>, blk: Links<nat>, fre: Links<nat>)

  /** `m` without the item `a`, whose own link fields become RT_NULL. */
  function Cleared(m: Links<nat>, a: nat): Links<nat>
    requires Has(m, a)
  {
    Links(Bridged(m, a).next[a := NULL], Bridged(m, a).prev[a := NULL])
  }

  /** The fields can be followed as the split of item `a` at `n` follows them. */
  predicate SplitReady(it: Items, a: nat, n: nat, fh: nat) {
    && Has(it.blk, a) && n != a && it.blk.next[a] != n
    && Has(it.fre, a) && Has(Cleared(it.fre, a), fh) && n != fh && Cleared(it.fre, a).next[fh] != n
  }

  /** Item `a` is used and ends at the new unused item `n`, the first of the free list. */
  function SplitSpec(it: Items, a: nat, n: nat, fh: nat): Items
    requires SplitReady(it, a, n, fh)
  {
    var fre := Cleared(it.fre, a);
    Items(it.used[n := false][a := true], Threaded(it.blk, a, n, it.blk.next[a]), Threaded(fre, fh, n, fre.next[fh]))
  }

  /** The header fields that rt_memheap_alloc writes when it splits an item. */
  method SplitItem(it: Items, a: nat, n: nat, fh: nat) returns (r: Items)
    requires SplitReady(it, a, n, fh)
    ensures r == SplitSpec(it, a, n, fh)
  {
    r := it.(used := it.used[n := false]);
    var blk := RtList.InsertAfter(r.blk, a, n);
    r := r.(blk := blk);
    var fre := RtList.Bridge(r.fre, a);
    fre := fre.(next := fre.next[a := NULL]);
    fre := fre.(prev := fre.prev[a := NULL]);
    fre := RtList.InsertAfter(fre, fh, n);
    r := r.(fre := fre);
    r := r.(used := r.used[a := true]);
  }

  ghost predicate Holds(it: Items, h: Heap) {
    it == Items(h.used, h.blk, h.fre)
  }

  /** Merging with the left neighbour, as rt_memheap_free does it: `item` is unused and on
      no free list; if the item before it is unused too, it becomes part of that one. */
  method MergeLeft(it: Items, item: nat, ghost h: Heap, ghost start: nat, ghost end: nat, ghost fh: nat, ghost i: nat)
    returns (r: Items, header: nat, insert: bool, ghost h': Heap, ghost i': nat)
    requires i < |h.blocks| - 1 && h.blocks[i] == item && Unused(h.used, item) && Holds(it, h)
    requires Almost(h, start, end, fh, {item}, {i - 1, i})
    ensures i' < |h'.blocks| - 1 && h'.blocks[i'] == header && Unused(h'.used, header) && Holds(r, h')
    ensures Almost(h', start, end, fh, if insert then {header} else {}, {i'})
    ensures Live(h') == Live(h) && h'.avail == h.avail + if insert then 0 else H
  {
    hide Almost, Live, Bridged, Dropped;
    ItemFacts(h, start, end, fh, {item}, {i - 1, i}, i);
    PrevUsed(h, start, end, fh, {item}, {i - 1, i}, i);
    if !it.used[it.blk.prev[item]] {
      MergedLeft(h, start, end, fh, i);
      LiveMerged(h, start, end, fh, {item}, {i - 1, i}, i, h.fre, h.free, h.avail + H);
      BlockFacts(h, start, end, fh, {item}, {i - 1, i}, i);
      var blk := RtList.Bridge(it.blk, item);
      r := it.(blk := blk);
      header := it.blk.prev[item];
      insert := false;
      h', i' := h.(blk := Bridged(h.blk, item), blocks := Dropped(h.blocks, i), avail := h.avail + H), i - 1;
      DroppedBefore(h.blocks, i);
    } else {
      KeptLeft(h, start, end, fh, i);
      r, header, insert, h', i' := it, item, true, h, i;
    }
  }

  lemma DroppedBefore(b: seq<nat>, i: nat)
    requires 1 <= i < |b|
    ensures Dropped(b, i)[i - 1] == b[i - 1]
  {
  }

  lemma PrevUsed(h: Heap, start: nat, end: nat, fh: nat, open: set<nat>, skip: set<int>, i: nat)
    requires Almost(h, start, end, fh, open, skip) && i < |h.blocks| - 1
    ensures end in h.used && h.used[end]
    ensures i > 0 ==> h.blocks[i - 1] in h.used
  {
  }

  /** Taking the unused item right of `header` off both lists; `header` then reaches to its end. */
  method MergeRight(it: Items, header: nat, ghost h: Heap, ghost start: nat, ghost end: nat, ghost fh: nat,
                    ghost open: set<nat>, ghost i: nat)
    returns (r: Items, merged: bool, ghost h': Heap)
    requires i < |h.blocks| - 1 && h.blocks[i] == header && Unused(h.used, header) && Holds(it, h)
    requires Almost(h, start, end, fh, open, {i}) && open <= {header}
    ensures i < |h'.blocks| - 1 && h'.blocks[i] == header && Unused(h'.used, header) && Holds(r, h')
    ensures Almost(h', start, end, fh, open, {})
    ensures Live(h') == Live(h) && h'.avail == h.avail + if merged then H else 0
    ensures header in it.blk.next && (merged <==> Unused(it.used, it.blk.next[header]))
    ensures Has(h'.blk, header) && (merged ==> it.blk.next[header] in it.blk.next)
    ensures merged ==> h'.blk.next[header] == it.blk.next[it.blk.next[header]]
    ensures !merged ==> h' == h
  {
    hide Almost, Live, Bridged, Dropped;
    ItemFacts(h, start, end, fh, open, {i}, i);
    var n := it.blk.next[header];
    if !it.used[n] {
      NotLast(h, start, end, fh, open, {i}, i);
      ghost var k := UnusedListed(h, start, end, fh, open, {i}, i + 1);
      MergedRight(h, start, end, fh, open, i, k);
      LiveMerged(h, start, end, fh, open, {i}, i + 1, Bridged(h.fre, n), Dropped(h.free, k), h.avail + H);
      BlockFacts(h, start, end, fh, open, {i}, i + 1);
      var blk := JoinOver(it.blk, header, n);
      var fre := RtList.Bridge(it.fre, n);
      r := it.(blk := blk, fre := fre);
      merged := true;
      h' := h.(blk := Bridged(h.blk, n), fre := Bridged(h.fre, n), blocks := Dropped(h.blocks, i + 1),
               free := Dropped(h.free, k), avail := h.avail + H);
      DroppedBefore(h.blocks, i + 1);
      BridgedNext(h.blk, header, n);
    } else {
      KeptRight(h, start, end, fh, open, i);
      r, merged, h' := it, false, h;
    }
  }

  lemma BridgedNext(m: Links<nat>, a: nat, n: nat)
    requires Has(m, n) && Has(m, a) && m.prev[n] == a && a != n
    ensures Bridged(m, n).next[a] == m.next[n] && Has(Bridged(m, n), a)
  {
  }

  /** n->next->prev = a and a->next = n->next, where a is before n. */
  method JoinOver(m: Links<nat>, a: nat, n: nat) returns (r: Links<nat>)
    requires Has(m, n) && m.prev[n] == a && m.next[n] != n
    ensures r == Bridged(m, n)
  {
    r := m.(prev := m.prev[m.next[n] := a]);
    r := r.(next := r.next[a := r.next[n]]);
  }

  lemma NotLast(h: Heap, start: nat, end: nat, fh: nat, open: set<nat>, skip: set<int>, i: nat)
    requires Almost(h, start, end, fh, open, skip) && i < |h.blocks| - 1 && Unused(h.used, h.blocks[i + 1])
    ensures i + 1 < |h.blocks| - 1 && h.blocks[i + 1] != h.blocks[i]
    ensures open <= {h.blocks[i]} ==> h.blocks[i + 1] !in open
  {
    TiledUnique(h.blocks, start, end);
  }

  class Memheap {
    const start: nat
    const poolSize: nat
    const fh: nat
    const image: nat -> bv8
    var items: Items
    var mem: map<nat, bv8>
    var avail: int
    var maxUsed: int

    ghost var blocks: seq<nat>
    ghost var free: seq<nat>
    ghost var seen: seq<int>

    ghost function Now(): Heap
      reads this
    {
      Heap(items.used, items.blk, items.fre, avail, blocks, free)
    }

    ghost function End(): nat
      requires poolSize >= H
    {
      start + poolSize - H
    }

    ghost predicate Valid()
      reads this
    {
      && poolSize >= 2 * H && start > 0 && !(start <= fh < start + poolSize) && fh != NULL
      && Inv(Now(), start, End(), fh)
      && (forall x :: start <= x < start + poolSize ==> x in mem)
      && HighWater(seen, poolSize, maxUsed, avail)
    }

    /** rt_memheap_init */
    constructor (startAddr: nat, size: nat, header: nat, image: nat -> bv8, bytes: map<nat, bv8>)
      requires startAddr > 0 && size / 4 * 4 >= 2 * H && header != NULL
      requires !(startAddr <= header < startAddr + size / 4 * 4)
      requires forall x :: startAddr <= x < startAddr + size / 4 * 4 ==> x in bytes
      ensures Valid() && start == startAddr && poolSize == size / 4 * 4
      ensures Live(Now()) == map[] && avail == poolSize - 2 * H
    {
      var pool, item := size / 4 * 4, startAddr;
      var tail := startAddr + (pool - 2 * H) + H;
      start, poolSize, fh, this.image := startAddr, pool, header, image;
      avail := pool - 2 * H;
      maxUsed := pool - (pool - 2 * H);
      items := Items(map[item := false, tail := true],
                     Links(map[item := tail, tail := item], map[item := tail, tail := item]),
                     Links(map[header := item, item := header, tail := NULL],
                       map[header := item, item := header, tail := NULL]));
      mem := Scribbled(Scribbled(bytes, item, image), tail, image);
      blocks, free, seen := [item, tail], [item], [pool - 2 * H];
      new;
      FreshHeap(Now(), start, End(), fh);
    }

    /** The search of rt_memheap_alloc along the free list: the first item that is large enough. */
    method FirstFit(size: nat) returns (item: nat, freeSize: int, ghost i: nat, ghost k: nat)
      requires Valid() && size > 0
      ensures freeSize >= size ==>
        && k < |free| && free[k] == item && i < |blocks| - 1 && blocks[i] == item && Unused(items.used, item)
        && freeSize == blocks[i + 1] - item - H
        && forall j :: 0 <= j < k ==> free[j] in items.blk.next && ItemSize(items.blk, free[j]) < size
      ensures freeSize < size ==> NoFit(Now(), size)
    {
      hide Almost;
      ghost var h := Now();
      i, k := 0, 0;
      ListFront(h, start, End(), fh);
      freeSize := 0;
      item := items.fre.next[fh];
      while item != fh && freeSize < size
        invariant k <= |free| && item == After(fh, free, k)
        invariant k == |free| ==> freeSize < size
        invariant freeSize >= size ==> k < |free| && i < |blocks| - 1 && blocks[i] == item && Unused(items.used, item)
        invariant freeSize >= size ==> freeSize == blocks[i + 1] - item - H
        invariant forall j :: 0 <= j < k ==> free[j] in items.blk.next && ItemSize(items.blk, free[j]) < size
        decreases |free| - k, freeSize < size
      {
        NotHead(h, start, End(), fh, k);
        i := ListedItem(h, start, End(), fh, {}, {}, k);
        freeSize := ItemSize(items.blk, item);
        if freeSize < size {
          item := items.fre.next[item];
          k := k + 1;
        }
      }
      if freeSize < size {
        NotHead(h, start, End(), fh, k);
        AllTooSmall(h, start, End(), fh, size);
      }
    }

    /** The largest use so far, as every operation that lowers available_size records it. */
    method RecordUse(ghost before: int)
      requires HighWater(seen, poolSize, maxUsed, before)
      modifies this`maxUsed, this`seen
      ensures maxUsed == Max(old(maxUsed), poolSize - avail) && HighWater(seen, poolSize, maxUsed, avail)
    {
      HighWaterGrows(seen, poolSize, maxUsed, before, avail);
      seen := seen + [avail];
      if poolSize - avail > maxUsed {
        maxUsed := poolSize - avail;
      }
    }

    /** The item is split: its front is handed out, the rest becomes a new unused item. */
    method TakeFront(item: nat, size: nat, ghost i: nat, ghost k: nat)
      requires Valid() && i < |blocks| - 1 && k < |free| && free[k] == blocks[i] == item
      requires blocks[i + 1] - item - H >= size + H && Unused(items.used, item)
      modifies this
      ensures Valid() && Live(Now()) == Live(old(Now()))[item := size]
      ensures Preserved(old(mem), mem, Live(old(Now())))
      ensures maxUsed == Max(old(maxUsed), poolSize - avail)
    {
      hide Almost, Live, HighWater, Preserved, Scribbled, SplitSpec, SplitReady;
      ghost var before := avail;
      var n: nat := item + size + H;
      ghost var h' := FrontKeeps(Now(), items, start, End(), fh, i, k, size, n, mem, image);
      items := SplitItem(items, item, n, fh);
      mem := Scribbled(mem, n, image);
      avail := avail - size - H;
      blocks, free := h'.blocks, h'.free;
      assert Now() == h';
      RecordUse(before);
      assert Now() == h';
    }

    /** The item is handed out as it is. */
    method TakeWhole(item: nat, freeSize: int, ghost i: nat, ghost k: nat)
      requires Valid() && i < |blocks| - 1 && k < |free| && free[k] == blocks[i] == item
      requires freeSize == blocks[i + 1] - item - H
      modifies this`avail, this`items, this`free, this`maxUsed, this`seen
      ensures Valid() && Live(Now()) == Live(old(Now()))[item := freeSize]
      ensures maxUsed == Max(old(maxUsed), poolSize - avail)
    {
      hide Almost, Live, HighWater;
      ghost var h := Now();
      WholeKeeps(h, start, End(), fh, i, k);
      avail := avail - freeSize;
      var fre := RtList.Bridge(items.fre, item);
      fre := Links(fre.next[item := NULL], fre.prev[item := NULL]);
      items := Items(items.used[item := true], items.blk, fre);
      free := Dropped(free, k);
      RecordUse(h.avail);
    }

    /**
     rt_memheap_alloc. It fails exactly when the rounded size is not below the available
     size or no unused item is large enough; otherwise the caller gets an item of its own.
     */
    method Alloc(size: nat) returns (p: nat)
      requires Valid()
      modifies this
      ensures Valid()
      ensures p == NULL <==> Rounded(size) >= old(avail) || NoFit(old(Now()), Rounded(size))
      ensures p == NULL ==> Now() == old(Now()) && mem == old(mem) && maxUsed == old(maxUsed)
      ensures p != NULL ==>
        && p >= H && p - H !in Live(old(Now())) && p - H in Live(Now())
        && Live(Now()) == Live(old(Now()))[p - H := Live(Now())[p - H]]
        && Rounded(size) <= Live(Now())[p - H] < Rounded(size) + H + MINIALLOC
        && maxUsed == Max(old(maxUsed), poolSize - avail)
      ensures Preserved(old(mem), mem, Live(old(Now())))
    {
      hide Almost, Live, HighWater, Rounded;
      ghost var h, m0 := Now(), mem;
      RoundedBounds(size);
      var sz := Rounded(size);
      if sz < avail {
        var item, freeSize, i, k := FirstFit(sz);
        if freeSize >= sz {
          FitFacts(h, start, End(), fh, i, sz);
          if freeSize >= sz + H + MINIALLOC {
            TakeFront(item, sz, i, k);
          } else {
            TakeWhole(item, freeSize, i, k);
          }
          return item + H;
        }
      }
      return NULL;
    }

    /** rt_memheap_free: the item is given up, merged with unused neighbours, and filed. */
    method Free(p: nat)
      requires Valid() && (p != NULL ==> p >= H && p - H in Live(Now()))
      modifies this`items, this`avail, this`blocks, this`free, this`seen
      ensures Valid()
      ensures p == NULL ==> Now() == old(Now())
      ensures p != NULL ==> Live(Now()) == Live(old(Now())) - {p - H}
    {
      hide Almost, Live, HighWater;
      if p == NULL {
        return;
      }
      ghost var h, before := Now(), avail;
      var item: nat := p - H;
      ghost var i := LiveIndex(h, start, End(), fh, {}, {}, item);
      ItemFacts(h, start, End(), fh, {}, {}, i);
      Marked(h, start, End(), fh, i);
      LiveMarked(h, start, End(), fh, {}, {}, i, h.avail + h.blocks[i + 1] - item - H);
      var it := items.(used := items.used[item := false]);
      var av := avail + ItemSize(it.blk, item);
      h := h.(used := h.used[item := false], avail := h.avail + h.blocks[i + 1] - item - H);
      var header, insert, merged;
      it, header, insert, h, i := MergeLeft(it, item, h, start, End(), fh, i);
      if !insert {
        av := av + H;
      }
      ghost var open: set<nat> := if insert then {header} else {};
      it, merged, h := MergeRight(it, header, h, start, End(), fh, open, i);
      if merged {
        av := av + H;
      }
      if insert {
        it, h := FileItem(it, header, h, start, End(), fh, i);
      }
      items, avail, blocks, free := it, av, h.blocks, h.free;
      assert Now() == h;
      HighWaterKept(seen, poolSize, maxUsed, before, avail);
      seen := seen + [avail];
    }

    /** The part of rt_memheap_realloc that takes over the front of the unused item behind. */
    method GrowInPlace(item: nat, size: nat, ghost i: nat)
      requires Valid() && i + 1 < |blocks| - 1 && blocks[i] == item && !Unused(items.used, item)
      requires Unused(items.used, blocks[i + 1]) && size > blocks[i + 1] - item - H
      requires blocks[i + 2] - item - 2 * H > size
      modifies this
      ensures Valid() && Live(Now()) == Live(old(Now()))[item := size]
      ensures Preserved(old(mem), mem, Live(old(Now())))
      ensures maxUsed == Max(old(maxUsed), poolSize - avail)
    {
      hide Almost, Live, HighWater, Preserved, Scribbled, GrowSpec, GrowReady;
      ghost var before := avail;
      var n': nat := item + size + H;
      ghost var h' := GrowKeeps(Now(), items, start, End(), fh, i, size, n', mem, image);
      var n: nat := items.blk.next[item];
      avail := avail - (size - ItemSize(items.blk, item));
      items := GrowItem(items, item, n, n', fh);
      mem := Scribbled(mem, n', image);
      blocks, free := h'.blocks, h'.free;
      assert Now() == h';
      RecordUse(before);
      assert Now() == h';
    }

    /** The part of rt_memheap_realloc that gives the end of an item back. */
    method ShrinkInPlace(item: nat, size: nat, ghost i: nat)
      requires Valid() && i < |blocks| - 1 && blocks[i] == item && !Unused(items.used, item)
      requires size + H <= blocks[i + 1] - item - H
      modifies this`items, this`avail, this`mem, this`blocks, this`free, this`seen
      ensures Valid() && Live(Now()) == Live(old(Now()))[item := size]
      ensures Preserved(old(mem), mem, Live(old(Now())) - {item})
      ensures forall x :: item + H <= x < item + H + size && x in old(mem) ==> x in mem && mem[x] == old(mem)[x]
    {
      hide Almost, Live, HighWater, Preserved, Scribbled;
      ghost var before := avail;
      var n: nat := item + size + H;
      ItemFacts(Now(), start, End(), fh, {}, {}, i);
      ScribbleOwn(Now(), start, End(), fh, mem, image, i, n);
      var it, av, h := ShrinkItem(items, avail, item, n, Now(), start, End(), fh, i);
      items, avail, blocks, free := it, av, h.blocks, h.free;
      mem := Scribbled(mem, n, image);
      assert Now() == h;
      HighWaterKept(seen, poolSize, maxUsed, before, avail);
      seen := seen + [avail];
    }

    /** The part of rt_memheap_realloc that takes a new item, copies the old one and frees it. */
    method Move(p: nat, size: nat) returns (r: nat)
      requires Valid() && p >= H && p - H in Live(Now()) && Live(Now())[p - H] < size && Rounded(size) == size
      modifies this
      ensures Valid()
      ensures r == NULL <==> size >= old(avail) || NoFit(old(Now()), size)
      ensures r == NULL ==> Now() == old(Now()) && mem == old(mem)
      ensures r != NULL ==>
        r >= H && r - H !in Live(old(Now())) && Resized(Live(old(Now())), Live(Now()), p - H, r - H, size)
      ensures r != NULL ==> KeptBytes(old(mem), mem, p, r, Live(old(Now()))[p - H])
      ensures Preserved(old(mem), mem, Live(old(Now())) - {p - H})
    {
      hide Almost, Live, HighWater, Rounded, NoFit, Copied, Preserved, KeptBytes;
      ghost var h0, m0 := Now(), mem;
      var i := LiveIndex(h0, start, End(), fh, {}, {}, p - H);
      ItemFacts(h0, start, End(), fh, {}, {}, i);
      var oldSize: nat := ItemSize(items.blk, p - H);
      r := Alloc(size);
      if r != NULL {
        ghost var h1, m1 := Now(), mem;
        MoveSafe(h0, h1, start, End(), fh, p, r, size);
        mem := CopyBytes(mem, r, p, oldSize);
        MovedBytes(m0, m1, mem, Live(h0), Live(h1), start, End(), p, r, oldSize);
        Free(p);
      } else {
        PreservedLess(m0, mem, Live(h0), p - H);
      }
    }

    /**
     rt_memheap_realloc. Size 0 frees and a null pointer allocates. Otherwise the caller ends
     with an item of at least the rounded size holding the first bytes of the old one, which
     stays in place unless it has to grow and the item behind it cannot make room; failure
     changes nothing.
     */
    method Realloc(p: nat, newSize: nat) returns (r: nat)
      requires Valid() && (p != NULL ==> p >= H && p - H in Live(Now()))
      modifies this
      ensures Valid()
      ensures newSize == 0 ==> r == NULL && mem == old(mem)
      ensures newSize == 0 ==> Live(Now()) == if p == NULL then Live(old(Now())) else Live(old(Now())) - {p - H}
      ensures newSize > 0 && p == NULL && r != NULL ==>
        r >= H && r - H !in Live(old(Now())) && r - H in Live(Now()) && Live(Now())[r - H] >= Rounded(newSize)
        && Live(Now()) == Live(old(Now()))[r - H := Live(Now())[r - H]]
      ensures newSize > 0 ==>
        (r == NULL <==> (p == NULL || MustMove(old(Now()), p - H, Rounded(newSize)))
                        && (Rounded(newSize) >= old(avail) || NoFit(old(Now()), Rounded(newSize))))
      ensures newSize > 0 && r == NULL ==> Now() == old(Now()) && mem == old(mem)
      ensures newSize > 0 && p != NULL && r != NULL ==>
        && r >= H && Resized(Live(old(Now())), Live(Now()), p - H, r - H, Rounded(newSize))
        && (r == p <==> !MustMove(old(Now()), p - H, Rounded(newSize)))
        && (r != p ==> r - H !in Live(old(Now())))
        && KeptBytes(old(mem), mem, p, r, Min(Live(old(Now()))[p - H], Rounded(newSize)))
      ensures Preserved(old(mem), mem, if p == NULL then Live(old(Now())) else Live(old(Now())) - {p - H})
    {
      hide Almost, Live, HighWater, Rounded, NoFit, Preserved, KeptBytes, Resized, MustMove;
      ghost var h0, m0 := Now(), mem;
      if newSize == 0 {
        Free(p);
        PreservedSame(m0, mem, if p == NULL then Live(h0) else Live(h0) - {p - H});
        return NULL;
      }
      RoundedBounds(newSize);
      RoundedTwice(newSize);
      var size := Rounded(newSize);
      if p == NULL {
        r := Alloc(size);
        return r;
      }
      ghost var i := LiveIndex(h0, start, End(), fh, {}, {}, p - H);
      ItemFacts(h0, start, End(), fh, {}, {}, i);
      GrowFacts(h0, start, End(), fh, i, size);
      var item: nat := p - H;
      var oldSize: nat := ItemSize(items.blk, item);
      if size > oldSize {
        var next := items.blk.next[item];
        if !items.used[next] {
          var nextSize := ItemSize(items.blk, next);
          if nextSize + oldSize > size + MINIALLOC {
            GrowInPlace(item, size, i);
            InPlace(m0, mem, Live(h0), Live(Now()), p, size);
            return p;
          }
        }
        r := Move(p, size);
        return r;
      }
      if size + H + MINIALLOC >= oldSize {
        InPlaceSame(m0, Live(h0), p, size);
        return p;
      }
      ShrinkInPlace(item, size, i);
      InPlaceCut(m0, mem, Live(h0), Live(Now()), p, size);
      return p;
    }
  }

  function Min(a: int, b: int): int { if a < b then a else b }

  /** Growing to `size` needs another place: the item behind is used or too small. */
  ghost predicate MustMove(h: Heap, a: nat, size: nat) {
    a in Live(h) && size > Live(h)[a] && !CanGrow(h, a, size)
  }

  ghost predicate CanGrow(h: Heap, a: nat, size: nat) {
    && a in h.blk.next && h.blk.next[a] in h.blk.next && Unused(h.used, h.blk.next[a])
    && ItemSize(h.blk, h.blk.next[a]) + ItemSize(h.blk, a) > size + MINIALLOC
  }

  /** Item `a` has been replaced by item `c` of at least `size` bytes; no other item has changed. */
  ghost predicate Resized(live: map<nat, int>, live': map<nat, int>, a: nat, c: nat, size: nat) {
    c in live' && live'[c] >= size && live' - {c} == live - {a}
  }

  /** The first n bytes at `r` are those that were at `p`. */
  ghost predicate KeptBytes(mem: map<nat, bv8>, mem': map<nat, bv8>, p: nat, r: nat, n: int) {
    forall y: nat :: r <= y < r + n && p + (y - r) in mem ==> y in mem' && mem'[y] == mem[p + (y - r)]
  }

  lemma RoundedTwice(size: nat)
    ensures Rounded(Rounded(size)) == Rounded(size)
  {
  }

  lemma PreservedLess(mem: map<nat, bv8>, mem': map<nat, bv8>, live: map<nat, int>, a: nat)
    requires Preserved(mem, mem', live)
    ensures Preserved(mem, mem', live - {a})
  {
  }

  lemma PreservedSame(mem: map<nat, bv8>, mem': map<nat, bv8>, live: map<nat, int>)
    requires mem' == mem
    ensures Preserved(mem, mem', live)
  {
  }

  /** What growing in place, keeping and cutting an item mean for its owner. */
  lemma InPlace(mem: map<nat, bv8>, mem': map<nat, bv8>, live: map<nat, int>, live': map<nat, int>, p: nat, size: nat)
    requires p >= H && p - H in live && live[p - H] < size && Preserved(mem, mem', live) && live' == live[p - H := size]
    ensures Resized(live, live', p - H, p - H, size) && KeptBytes(mem, mem', p, p, Min(live[p - H], size))
    ensures Preserved(mem, mem', live - {p - H})
  {
  }

  lemma InPlaceSame(mem: map<nat, bv8>, live: map<nat, int>, p: nat, size: nat)
    requires p >= H && p - H in live && live[p - H] >= size
    ensures Resized(live, live, p - H, p - H, size) && KeptBytes(mem, mem, p, p, Min(live[p - H], size))
    ensures Preserved(mem, mem, live - {p - H})
  {
  }

  lemma InPlaceCut(mem: map<nat, bv8>, mem': map<nat, bv8>, live: map<nat, int>, live': map<nat, int>, p: nat,
      size: nat)
    requires p >= H && p - H in live && live[p - H] >= size && live' == live[p - H := size]
    requires forall x :: p <= x < p + size && x in mem ==> x in mem' && mem'[x] == mem[x]
    ensures Resized(live, live', p - H, p - H, size) && KeptBytes(mem, mem', p, p, Min(live[p - H], size))
  {
  }

  /** The test in rt_memheap_realloc decides whether the item has to move. */
  lemma GrowFacts(h: Heap, start: nat, end: nat, fh: nat, i: nat, size: nat)
    requires Inv(h, start, end, fh) && i < |h.blocks| - 1 && h.blocks[i] in Live(h)
    ensures var a: nat, n: nat := h.blocks[i], h.blocks[i + 1];
      && h.blk.next[a] == n && n in h.blk.next && Live(h)[a] == ItemSize(h.blk, a)
      && (Unused(h.used, n) ==> i + 1 < |h.blocks| - 1 && h.blk.next[n] == h.blocks[i + 2])
      && (MustMove(h, a, size) <==>
           size > ItemSize(h.blk, a)
           && !(Unused(h.used, n) && ItemSize(h.blk, n) + ItemSize(h.blk, a) > size + MINIALLOC))
  {
    hide Almost, Live;
    LiveAt(h, start, end, fh, {}, {}, i);
    ItemFacts(h, start, end, fh, {}, {}, i);
    NextInPool(h, start, end, fh, {}, {}, i);
    if Unused(h.used, h.blocks[i + 1]) {
      NotLast(h, start, end, fh, {}, {}, i);
      ItemFacts(h, start, end, fh, {}, {}, i + 1);
    }
  }

  /** The new item is disjoint from the old one, and both lie in the pool. */
  lemma MoveSafe(h0: Heap, h1: Heap, start: nat, end: nat, fh: nat, p: nat, r: nat, size: nat)
    requires Inv(h1, start, end, fh) && p >= H && r >= H && p - H in Live(h0) && r - H !in Live(h0)
    requires r - H in Live(h1) && Live(h1) == Live(h0)[r - H := Live(h1)[r - H]]
    requires Live(h0)[p - H] < size <= Live(h1)[r - H]
    ensures var n := Live(h0)[p - H];
      start <= r && r + n <= end && start <= p && p + n <= end && (r + n <= p || p + n <= r)
    ensures p - H in Live(h1) && Resized(Live(h0), Live(h1) - {p - H}, p - H, r - H, size)
    ensures forall c :: c in Live(h0) ==>
      c in Live(h1) && Live(h1)[c] == Live(h0)[c] && c != r - H && (c + H + Live(h0)[c] <= r || r + size <= c + H)
  {
    hide Almost, Live;
    assert (Live(h1) - {p - H}) - {r - H} == Live(h0) - {p - H};
    LiveDisjoint(h1, start, end, fh, p - H, r - H);
    LiveDisjoint(h1, start, end, fh, r - H, p - H);
    forall c | c in Live(h0) ensures c + H + Live(h0)[c] <= r || r + size <= c + H {
      LiveDisjoint(h1, start, end, fh, c, r - H);
    }
  }

  lemma MovedBytes(m0: map<nat, bv8>, m1: map<nat, bv8>, m2: map<nat, bv8>, live: map<nat, int>, live': map<nat, int>,
                   start: nat, end: nat, p: nat, r: nat, n: nat)
    requires p >= H && p - H in live && live[p - H] == n && Preserved(m0, m1, live) && Copied(m1, m2, r, p, n)
    requires forall y: nat :: r <= y < r + n ==> y in m1
    requires forall c :: c in live ==> c + H + live[c] <= r || r + n <= c + H
    ensures KeptBytes(m0, m2, p, r, n) && Preserved(m0, m2, live - {p - H})
  {
    hide Copied;
    var rest := live - {p - H};
    forall y: nat | r <= y < r + n && p + (y - r) in m0 ensures y in m2 && m2[y] == m0[p + (y - r)] {
      var x: nat := p + (y - r);
      PreservedAt(m0, m1, live, p - H, x);
      CopiedAt(m1, m2, r, p, n, y);
    }
    forall a, x | a in rest && a + H <= x < a + H + rest[a] && x in m0 ensures x in m2 && m2[x] == m0[x] {
      PreservedAt(m0, m1, live, a, x);
      CopiedAt(m1, m2, r, p, n, x);
    }
  }

  lemma PreservedAt(mem: map<nat, bv8>, mem': map<nat, bv8>, live: map<nat, int>, a: nat, x: nat)
    requires Preserved(mem, mem', live) && a in live && a + H <= x < a + H + live[a] && x in mem
    ensures x in mem' && mem'[x] == mem[x]
  {
  }

  lemma CopiedAt(mem: map<nat, bv8>, mem': map<nat, bv8>, dst: nat, src: nat, n: nat, x: nat)
    requires Copied(mem, mem', dst, src, n) && x in mem
    ensures x in mem' && (dst <= x < dst + n ==> src + (x - dst) in mem && mem'[x] == mem[src + (x - dst)])
    ensures !(dst <= x < dst + n) ==> mem'[x] == mem[x]
  {
  }

  /** `mem'` is `mem` with the n bytes from `src` copied to `dst`. */
  ghost predicate Copied(mem: map<nat, bv8>, mem': map<nat, bv8>, dst: nat, src: nat, n: nat) {
    && (forall x :: x in mem <==> x in mem')
    && (forall y :: dst <= y < dst + n && y in mem ==> src + (y - dst) in mem && mem'[y] == mem[src + (y - dst)])
    && (forall x :: x in mem && !(dst <= x < dst + n) ==> mem'[x] == mem[x])
  }

  lemma CopiedNone(mem: map<nat, bv8>, dst: nat, src: nat)
    ensures Copied(mem, mem, dst, src, 0)
  {
  }

  lemma CopiedDomain(mem: map<nat, bv8>, mem': map<nat, bv8>, dst: nat, src: nat, n: nat)
    requires Copied(mem, mem', dst, src, n)
    ensures forall x :: x in mem ==> x in mem'
  {
  }

  lemma CopiedNext(mem: map<nat, bv8>, mem': map<nat, bv8>, dst: nat, src: nat, i: nat, n: nat)
    requires Copied(mem, mem', dst, src, i) && i < n && (dst + n <= src || src + n <= dst)
    requires dst + i in mem && src + i in mem
    ensures src + i in mem' && Copied(mem, mem'[dst + i := mem'[src + i]], dst, src, i + 1)
  {
    assert src + i in mem';
    var m := mem'[dst + i := mem'[src + i]];
    forall y | dst <= y < dst + (i + 1) && y in mem ensures src + (y - dst) in mem && m[y] == mem[src + (y - dst)] {
    }
  }

  /** rt_memcpy between two places that do not overlap. */
  method CopyBytes(m0: map<nat, bv8>, dst: nat, src: nat, n: nat) returns (mem: map<nat, bv8>)
    requires forall x :: dst <= x < dst + n || src <= x < src + n ==> x in m0
    requires dst + n <= src || src + n <= dst
    ensures Copied(m0, mem, dst, src, n)
    ensures forall x :: x in m0 ==> x in mem
  {
    hide Copied;
    mem := m0;
    CopiedNone(m0, dst, src);
    var i: nat := 0;
    while i < n
      invariant 0 <= i <= n && Copied(m0, mem, dst, src, i)
    {
      CopiedNext(m0, mem, dst, src, i, n);
      mem := mem[dst + i := mem[src + i]];
      i := i + 1;
    }
    CopiedDomain(m0, mem, dst, src, n);
  }

  /** The header fields that rt_memheap_realloc writes when it cuts the unused item `n` off the end of `item`. */
  method ShrinkItem(it0: Items, avail: int, item: nat, n: nat, ghost h0: Heap, ghost start: nat, ghost end: nat,
      fh: nat, ghost i: nat)
    returns (it: Items, av: int, ghost h: Heap)
    requires Inv(h0, start, end, fh) && Holds(it0, h0) && avail == h0.avail && !(start <= fh <= end)
    requires i < |h0.blocks| - 1 && h0.blocks[i] == item && !Unused(h0.used, item)
    requires item + H <= n && n + H <= h0.blocks[i + 1]
    ensures Inv(h, start, end, fh) && Holds(it, h) && h.avail == av >= avail
    ensures Live(h) == Live(h0)[item := n - item - H]
  {
    hide Almost, Live, Threaded, Inserted;
    h := ShrinkCut(h0, it0, start, end, fh, i, n);
    it := it0.(used := it0.used[n := false]);
    var blk := RtList.InsertAfter(it.blk, item, n);
    it := it.(blk := blk);
    var merged := false;
    av := avail;
    var next := it.blk.next[n];
    if !it.used[next] {
      av := av - ItemSize(it.blk, next);
    }
    it, merged, h := MergeRight(it, n, h, start, end, fh, {n}, i + 1);
    it, h := FileItem(it, n, h, start, end, fh, i + 1);
    av := av + ItemSize(it.blk, n);
    return it, av, h;
  }

  lemma NextInPool(h: Heap, start: nat, end: nat, fh: nat, open: set<nat>, skip: set<int>, i: nat)
    requires Almost(h, start, end, fh, open, skip) && i < |h.blocks| - 1
    ensures h.blocks[i + 1] in h.blk.next
  {
    NextBlock(h.blk, h.blocks, i + 1);
  }

  lemma InsertedAt(b: seq<nat>, i: nat, n: nat)
    requires i + 1 < |b|
    ensures Inserted(b, i + 1, n)[i + 1] == n && Inserted(b, i + 1, n)[i + 2] == b[i + 1]
  {
  }

  /** A header built inside an allocated item overwrites only bytes of that item. */
  lemma ScribbleOwn(h: Heap, start: nat, end: nat, fh: nat, mem: map<nat, bv8>, image: nat -> bv8, i: nat, n: nat)
    requires Inv(h, start, end, fh) && i < |h.blocks| - 1 && h.blocks[i] <= n && n + H <= h.blocks[i + 1]
    ensures Preserved(mem, Scribbled(mem, n, image), Live(h) - {h.blocks[i]})
    ensures forall x :: x in mem ==> x in Scribbled(mem, n, image)
    ensures forall x :: x in mem && x < n ==> Scribbled(mem, n, image)[x] == mem[x]
  {
    hide Almost, Live;
    forall a, x | a in Live(h) && a != h.blocks[i] && a + H <= x < a + H + Live(h)[a] && x in mem
      ensures Scribbled(mem, n, image)[x] == mem[x]
    {
      if n <= x < n + H {
        OneItem(h, start, end, fh, {}, {}, i, a, x);
        assert false;
      }
    }
  }

  predicate GrowReady(it: Items, a: nat, n: nat, n': nat, fh: nat) {
    && Has(it.blk, n) && Has(it.fre, n)
    && var blk, fre := Bridged(it.blk, n), Bridged(it.fre, n);
      && Has(blk, a) && a != n' && blk.next[a] != n'
      && Has(fre, fh) && fh != n' && fre.next[fh] != n'
  }

  /** The unused item `n` behind `a` is replaced by the unused item `n'`. */
  function GrowSpec(it: Items, a: nat, n: nat, n': nat, fh: nat): Items
    requires GrowReady(it, a, n, n', fh)
  {
    var blk, fre := Bridged(it.blk, n), Bridged(it.fre, n);
    Items(it.used[n' := false], Threaded(blk, a, n', blk.next[a]), Threaded(fre, fh, n', fre.next[fh]))
  }

  /** The header fields that rt_memheap_realloc writes when an item grows in place. */
  method GrowItem(it: Items, a: nat, n: nat, n': nat, fh: nat) returns (r: Items)
    requires GrowReady(it, a, n, n', fh)
    ensures r == GrowSpec(it, a, n, n', fh)
  {
    var fre := RtList.Bridge(it.fre, n);
    var blk := RtList.Bridge(it.blk, n);
    r := it.(used := it.used[n' := false]);
    blk := RtList.InsertAfter(blk, a, n');
    fre := RtList.InsertAfter(fre, fh, n');
    r := r.(blk := blk, fre := fre);
  }

  lemma GrownKeeps(h: Heap, it: Items, start: nat, end: nat, fh: nat, i: nat, n: nat, n': nat) returns (h': Heap)
    requires Inv(h, start, end, fh) && i + 1 < |h.blocks| - 1 && Holds(it, h) && !(start <= fh <= end)
    requires !Unused(h.used, h.blocks[i]) && Unused(h.used, h.blocks[i + 1]) && n == h.blocks[i + 1]
    requires h.blocks[i] + H <= n' && n' + H <= h.blocks[i + 2]
    ensures GrowReady(it, h.blocks[i], n, n', fh)
      && Items(h'.used, h'.blk, h'.fre) == GrowSpec(it, h.blocks[i], n, n', fh)
    ensures Inv(h', start, end, fh) && Live(h') == Live(h)[h.blocks[i] := n' - h.blocks[i] - H]
    ensures h'.avail == h.avail - (n' - h.blocks[i] - H - (h.blocks[i + 1] - h.blocks[i] - H))
  {
    hide Almost, Live, Dropped, Inserted, Threaded, Bridged;
    var k := UnusedListed(h, start, end, fh, {}, {}, i + 1);
    Absorbed(h, start, end, fh, i, k);
    var av := h.avail - (h.blocks[i + 2] - h.blocks[i + 1] - H);
    LiveAbsorbed(h, start, end, fh, i, Bridged(h.fre, n), Dropped(h.free, k), av);
    var h1 := h.(blk := Bridged(h.blk, n), fre := Bridged(h.fre, n), blocks := Dropped(h.blocks, i + 1),
                 free := Dropped(h.free, k), avail := av);
    DroppedNext(h.blocks, i);
    ItemFacts(h, start, end, fh, {}, {}, i);
    ItemFacts(h, start, end, fh, {}, {}, i + 1);
    CarvedAndFiled(h1, start, end, fh, i, n');
    NextNot(h1, start, end, fh, i, n');
    h' := h1.(used := h1.used[n' := false], blk := Threaded(h1.blk, h1.blocks[i], n', h1.blocks[i + 1]),
              fre := Threaded(h1.fre, fh, n', h1.fre.next[fh]), blocks := Inserted(h1.blocks, i + 1, n'),
              free := [n'] + h1.free, avail := h1.avail + h1.blocks[i + 1] - n' - H);
  }

  /** Everything GrowInPlace has to know, with the heap it leaves. */
  lemma GrowKeeps(h: Heap, it: Items, start: nat, end: nat, fh: nat, i: nat, size: nat, n': nat,
                  mem: map<nat, bv8>, image: nat -> bv8)
    returns (h': Heap)
    requires Inv(h, start, end, fh) && i + 1 < |h.blocks| - 1 && Holds(it, h) && !(start <= fh <= end)
    requires !Unused(h.used, h.blocks[i]) && Unused(h.used, h.blocks[i + 1])
    requires n' == h.blocks[i] + size + H && size > h.blocks[i + 1] - h.blocks[i] - H
    requires h.blocks[i + 2] - h.blocks[i] - 2 * H > size
    ensures h.blocks[i] in it.blk.next && h'.avail == h.avail - (size - ItemSize(it.blk, h.blocks[i]))
    ensures GrowReady(it, h.blocks[i], it.blk.next[h.blocks[i]], n', fh)
    ensures Items(h'.used, h'.blk, h'.fre) == GrowSpec(it, h.blocks[i], it.blk.next[h.blocks[i]], n', fh)
    ensures Inv(h', start, end, fh) && Live(h') == Live(h)[h.blocks[i] := size]
    ensures Preserved(mem, Scribbled(mem, n', image), Live(h))
    ensures forall x :: x in mem ==> x in Scribbled(mem, n', image)
  {
    hide Almost, Live, Preserved, Scribbled, GrowReady, GrowSpec;
    ItemFacts(h, start, end, fh, {}, {}, i);
    ItemFacts(h, start, end, fh, {}, {}, i + 1);
    ScribbleSafe(h, start, end, fh, mem, image, i + 1, n');
    h' := GrownKeeps(h, it, start, end, fh, i, h.blocks[i + 1], n');
  }

  /** The heap between cutting the item and merging: the new item `n` is on no free list. */
  lemma ShrinkCut(h0: Heap, it: Items, start: nat, end: nat, fh: nat, i: nat, n: nat) returns (h: Heap)
    requires Inv(h0, start, end, fh) && Holds(it, h0) && !(start <= fh <= end)
    requires i < |h0.blocks| - 1 && !Unused(h0.used, h0.blocks[i])
    requires h0.blocks[i] + H <= n && n + H <= h0.blocks[i + 1]
    ensures Has(it.blk, h0.blocks[i]) && n != h0.blocks[i] && it.blk.next[h0.blocks[i]] != n
    ensures h == h0.(used := h0.used[n := false], blk := Threaded(h0.blk, h0.blocks[i], n, it.blk.next[h0.blocks[i]]),
                     blocks := Inserted(h0.blocks, i + 1, n), avail := h0.avail + h0.blocks[i + 1] - n - H)
    ensures Almost(h, start, end, fh, {n}, {i + 1}) && Live(h) == Live(h0)[h0.blocks[i] := n - h0.blocks[i] - H]
    ensures i + 1 < |h.blocks| - 1 && h.blocks[i + 1] == n && Unused(h.used, n) && Has(h.blk, n)
    ensures h.blk.next[n] == h0.blocks[i + 1] && h0.blocks[i + 1] in h.blk.next && h.blk.next[n] in h.used
  {
    hide Almost, Live, Threaded, Inserted;
    ItemFacts(h0, start, end, fh, {}, {}, i);
    Carved(h0, start, end, fh, i, n);
    LiveCarved(h0, start, end, fh, i, n, h0.avail + h0.blocks[i + 1] - n - H);
    InsertedAt(h0.blocks, i, n);
    h := h0.(used := h0.used[n := false], blk := Threaded(h0.blk, h0.blocks[i], n, h0.blocks[i + 1]),
             blocks := Inserted(h0.blocks, i + 1, n), avail := h0.avail + h0.blocks[i + 1] - n - H);
    ItemFacts(h, start, end, fh, {n}, {i + 1}, i + 1);
    NextInPool(h, start, end, fh, {n}, {i + 1}, i + 1);
  }

  lemma DroppedNext(b: seq<nat>, i: nat)
    requires i + 2 < |b|
    ensures Dropped(b, i + 1)[i] == b[i] && Dropped(b, i + 1)[i + 1] == b[i + 2]
  {
  }

  lemma NextNot(h: Heap, start: nat, end: nat, fh: nat, i: nat, n: nat)
    requires Inv(h, start, end, fh) && i < |h.blocks| - 1 && n !in h.blocks
    ensures Has(h.blk, h.blocks[i]) && h.blk.next[h.blocks[i]] == h.blocks[i + 1] != n && h.blocks[i] != n
  {
    NextBlock(h.blk, h.blocks, i);
    assert h.blocks[i] in h.blocks && h.blocks[i + 1] in h.blocks;
  }

  /** Placing an unused item at the front of the free list. */
  method FileItem(it: Items, n: nat, ghost h: Heap, ghost start: nat, ghost end: nat, fh: nat, ghost i: nat)
    returns (r: Items, ghost h': Heap)
    requires i < |h.blocks| - 1 && h.blocks[i] == n && Unused(h.used, n) && Holds(it, h)
    requires Almost(h, start, end, fh, {n}, {})
    ensures Inv(h', start, end, fh) && Holds(r, h') && Live(h') == Live(h) && h'.avail == h.avail
      && h'.blocks == h.blocks
    ensures h'.blk == h.blk
  {
    hide Almost, Live, Threaded;
    ItemFacts(h, start, end, fh, {n}, {}, i);
    Filed(h, start, end, fh, n);
    NotFront(h, start, end, fh, n);
    LiveIgnoresFree(h, Threaded(h.fre, fh, n, h.fre.next[fh]), [n] + h.free);
    var fre := RtList.InsertAfter(it.fre, fh, n);
    r := it.(fre := fre);
    h' := h.(fre := Threaded(h.fre, fh, n, h.fre.next[fh]), free := [n] + h.free);
  }

  lemma NotFront(h: Heap, start: nat, end: nat, fh: nat, n: nat)
    requires Almost(h, start, end, fh, {n}, {}) && n in h.blocks
    ensures Has(h.fre, fh) && h.fre.next[fh] != n && n != fh
  {
    assert JoinedAt(h.fre, fh, h.free, 0);
    if h.free != [] {
      assert h.free[0] in h.free;
    }
  }

  /** Everything TakeFront has to know, with the heap it leaves. */
  lemma FrontKeeps(h: Heap, it: Items, start: nat, end: nat, fh: nat, i: nat, k: nat, size: nat, n: nat,
                   mem: map<nat, bv8>, image: nat -> bv8)
    returns (h': Heap)
    requires Inv(h, start, end, fh) && i < |h.blocks| - 1 && k < |h.free| && h.free[k] == h.blocks[i]
    requires it == Items(h.used, h.blk, h.fre) && n == h.blocks[i] + size + H
    requires h.blocks[i + 1] - h.blocks[i] - H >= size + H && !(start <= fh <= end) && Unused(h.used, h.blocks[i])
    ensures SplitReady(it, h.blocks[i], n, fh)
    ensures Items(h'.used, h'.blk, h'.fre) == SplitSpec(it, h.blocks[i], n, fh) && h'.avail == h.avail - size - H
    ensures Inv(h', start, end, fh) && Live(h') == Live(h)[h.blocks[i] := size]
    ensures Preserved(mem, Scribbled(mem, n, image), Live(h))
    ensures forall x :: x in mem ==> x in Scribbled(mem, n, image)
  {
    hide Almost, Live, Preserved, Scribbled, Dropped, Inserted;
    var a: nat := h.blocks[i];
    FitFacts(h, start, end, fh, i, size);
    SplitKeeps(h, start, end, fh, i, k, size);
    ScribbleSafe(h, start, end, fh, mem, image, i, n);
    var m := Cleared(h.fre, a);
    h' := h.(used := h.used[n := false][a := true], blk := Threaded(h.blk, a, n, h.blocks[i + 1]),
             fre := Threaded(m, fh, n, m.next[fh]), blocks := Inserted(h.blocks, i + 1, n),
             free := [n] + Dropped(h.free, k), avail := h.avail - size - H);
  }

  lemma RoundedBounds(size: nat)
    ensures size <= Rounded(size) && MINIALLOC <= Rounded(size) && Rounded(size) % 4 == 0
    ensures Rounded(size) < size + 4 || Rounded(size) == MINIALLOC
  {
  }

  /** A large enough unused item rules out failure, and its place is not taken. */
  lemma FitFacts(h: Heap, start: nat, end: nat, fh: nat, i: nat, size: nat)
    requires Inv(h, start, end, fh) && i < |h.blocks| - 1 && Unused(h.used, h.blocks[i])
    requires h.blocks[i + 1] - h.blocks[i] - H >= size
    ensures !NoFit(h, size) && h.blocks[i] !in Live(h)
    ensures start <= h.blocks[i] && h.blocks[i + 1] <= end && h.blocks[i] != fh
    ensures Has(h.blk, h.blocks[i]) && h.blk.next[h.blocks[i]] == h.blocks[i + 1]
    ensures Has(h.fre, fh)
  {
    ItemFacts(h, start, end, fh, {}, {}, i);
    LiveAt(h, start, end, fh, {}, {}, i);
  }

  /** Taking a whole unused item. */
  lemma WholeKeeps(h: Heap, start: nat, end: nat, fh: nat, i: nat, k: nat)
    requires Inv(h, start, end, fh) && i < |h.blocks| - 1 && k < |h.free| && h.free[k] == h.blocks[i]
    ensures Has(h.fre, h.free[k])
    ensures var a: nat, m, n := h.free[k], Bridged(h.fre, h.free[k]), h.blocks[i + 1] - h.blocks[i] - H;
      var h' := h.(used := h.used[a := true], fre := Links(m.next[a := NULL], m.prev[a := NULL]),
                   free := Dropped(h.free, k), avail := h.avail - n);
      Inv(h', start, end, fh) && Live(h') == Live(h)[a := n]
  {
    hide Almost, Live;
    Taken(h, start, end, fh, i, k, NULL, NULL);
    var m, a: nat := Bridged(h.fre, h.free[k]), h.free[k];
    LiveTaken(h, start, end, fh, i, Links(m.next[a := NULL], m.prev[a := NULL]), Dropped(h.free, k),
              h.avail - (h.blocks[i + 1] - a - H));
  }

  /** Taking the front of an unused item and filing the rest as a new unused item. */
  lemma SplitKeeps(h: Heap, start: nat, end: nat, fh: nat, i: nat, k: nat, size: nat)
    requires Inv(h, start, end, fh) && i < |h.blocks| - 1 && k < |h.free| && h.free[k] == h.blocks[i]
    requires h.blocks[i + 1] - h.blocks[i] - H >= size + H && !(start <= fh <= end)
    ensures Has(h.fre, h.free[k])
    ensures var a: nat, n: nat := h.blocks[i], h.blocks[i] + size + H;
      var m := Bridged(h.fre, a);
      var m' := Links(m.next[a := NULL], m.prev[a := NULL]);
      Has(m', fh) && n != fh && m'.next[fh] != n &&
      var h' := h.(used := h.used[n := false][a := true], blk := Threaded(h.blk, a, n, h.blocks[i + 1]),
                   fre := Threaded(m', fh, n, m'.next[fh]), blocks := Inserted(h.blocks, i + 1, n),
                   free := [n] + Dropped(h.free, k), avail := h.avail - size - H);
      Inv(h', start, end, fh) && Live(h') == Live(h)[a := size]
  {
    hide Almost, Live, Dropped, Inserted;
    var a: nat, n: nat := h.blocks[i], h.blocks[i] + size + H;
    ItemFacts(h, start, end, fh, {}, {}, i);
    NextUsed(h, start, end, fh, i, k);
    WholeKeeps(h, start, end, fh, i, k);
    var m := Bridged(h.fre, a);
    var m' := Links(m.next[a := NULL], m.prev[a := NULL]);
    var h1 := h.(used := h.used[a := true], fre := m', free := Dropped(h.free, k),
                 avail := h.avail - (h.blocks[i + 1] - a - H));
    CarvedAndFiled(h1, start, end, fh, i, n);
    assert h.used[a := true][n := false] == h.used[n := false][a := true];
  }

  /** An unused item has a used one on its right. */
  lemma NextUsed(h: Heap, start: nat, end: nat, fh: nat, i: nat, k: nat)
    requires Inv(h, start, end, fh) && i < |h.blocks| - 1 && k < |h.free| && h.free[k] == h.blocks[i]
    ensures Unused(h.used, h.blocks[i]) && !Unused(h.used, h.blocks[i + 1]) && h.blocks[i + 1] != h.blocks[i]
  {
    assert Separated(h.used, h.blocks, i) && h.free[k] in h.free;
    TiledUnique(h.blocks, start, end);
  }

  /** A new unused item cut off a used one whose right neighbour is used too. */
  lemma CarvedAndFiled(h: Heap, start: nat, end: nat, fh: nat, i: nat, n: nat)
    requires Inv(h, start, end, fh) && i < |h.blocks| - 1
    requires !Unused(h.used, h.blocks[i]) && !Unused(h.used, h.blocks[i + 1])
    requires h.blocks[i] + H <= n && n + H <= h.blocks[i + 1] && n != fh
    ensures n !in h.blocks && Has(h.fre, fh) && h.fre.next[fh] != n
    ensures var h' := h.(used := h.used[n := false], blk := Threaded(h.blk, h.blocks[i], n, h.blocks[i + 1]),
                         fre := Threaded(h.fre, fh, n, h.fre.next[fh]), blocks := Inserted(h.blocks, i + 1, n),
                         free := [n] + h.free, avail := h.avail + h.blocks[i + 1] - n - H);
      Inv(h', start, end, fh) && Live(h') == Live(h)[h.blocks[i] := n - h.blocks[i] - H]
  {
    hide Almost, Live, Inserted;
    Carved(h, start, end, fh, i, n);
    LiveCarved(h, start, end, fh, i, n, h.avail + h.blocks[i + 1] - n - H);
    var h1 := h.(used := h.used[n := false], blk := Threaded(h.blk, h.blocks[i], n, h.blocks[i + 1]),
                 blocks := Inserted(h.blocks, i + 1, n), avail := h.avail + h.blocks[i + 1] - n - H);
    InsertedMembers(h.blocks, i + 1, n);
    assert h1.blocks[i + 2] == h.blocks[i + 1] && h.blocks[i + 1] in h.blocks;
    KeptRight(h1, start, end, fh, {n}, i + 1);
    Filed(h1, start, end, fh, n);
    FrontNot(h, start, end, fh, n);
    LiveIgnoresFree(h1, Threaded(h.fre, fh, n, h.fre.next[fh]), [n] + h.free);
  }

  lemma FrontNot(h: Heap, start: nat, end: nat, fh: nat, n: nat)
    requires Inv(h, start, end, fh) && n !in h.blocks && n != fh
    ensures Has(h.fre, fh) && h.fre.next[fh] != n
  {
    assert JoinedAt(h.fre, fh, h.free, 0);
    if h.free != [] {
      assert h.free[0] in h.free;
    }
  }

  lemma LiveIgnoresFree(h: Heap, fre: Links<nat>, free: seq<nat>)
    ensures Live(h.(fre := fre, free := free)) == Live(h)
  {
    hide Live;
    LiveSame(h, h.(fre := fre, free := free));
  }

  /** A header built inside an unused item overwrites no allocated byte. */
  lemma ScribbleSafe(h: Heap, start: nat, end: nat, fh: nat, mem: map<nat, bv8>, image: nat -> bv8, i: nat, n: nat)
    requires Inv(h, start, end, fh) && i < |h.blocks| - 1 && Unused(h.used, h.blocks[i])
    requires h.blocks[i] <= n && n + H <= h.blocks[i + 1]
    ensures Preserved(mem, Scribbled(mem, n, image), Live(h))
    ensures forall x :: x in mem ==> x in Scribbled(mem, n, image)
  {
    hide Almost, Live;
    forall a, x | a in Live(h) && a + H <= x < a + H + Live(h)[a] && x in mem
      ensures Scribbled(mem, n, image)[x] == mem[x]
    {
      if n <= x < n + H {
        OneItem(h, start, end, fh, {}, {}, i, a, x);
        LiveAt(h, start, end, fh, {}, {}, i);
        assert false;
      }
    }
  }

  lemma ListFront(h: Heap, start: nat, end: nat, fh: nat)
    requires Inv(h, start, end, fh)
    ensures Has(h.fre, fh) && h.fre.next[fh] == After(fh, h.free, 0)
  {
    assert JoinedAt(h.fre, fh, h.free, 0);
  }

  lemma NotHead(h: Heap, start: nat, end: nat, fh: nat, k: nat)
    requires Inv(h, start, end, fh) && k <= |h.free|
    ensures After(fh, h.free, k) == fh <==> k == |h.free|
    ensures k < |h.free| ==> Has(h.fre, h.free[k]) && h.fre.next[h.free[k]] == After(fh, h.free, k + 1)
  {
    if k < |h.free| {
      assert JoinedAt(h.fre, fh, h.free, k) && JoinedAt(h.fre, fh, h.free, k + 1);
      assert h.free[k] in h.free;
    }
  }

  /** The place of a free-list item in the pool. */
  lemma ListedItem(h: Heap, start: nat, end: nat, fh: nat, open: set<nat>, skip: set<int>, k: nat) returns (i: nat)
    requires Almost(h, start, end, fh, open, skip) && k < |h.free|
    ensures i < |h.blocks| - 1 && h.blocks[i] == h.free[k] && Unused(h.used, h.free[k])
    ensures h.free[k] in h.blk.next && ItemSize(h.blk, h.free[k]) == h.blocks[i + 1] - h.blocks[i] - H
  {
    assert h.free[k] in h.free;
    i :| 0 <= i < |h.blocks| && h.blocks[i] == h.free[k];
    NextBlock(h.blk, h.blocks, i);
  }

  /** The place of an unused item on the free list. */
  lemma UnusedListed(h: Heap, start: nat, end: nat, fh: nat, open: set<nat>, skip: set<int>, i: nat) returns (k: nat)
    requires Almost(h, start, end, fh, open, skip) && i < |h.blocks| - 1
    requires Unused(h.used, h.blocks[i]) && h.blocks[i] !in open
    ensures k < |h.free| && h.free[k] == h.blocks[i]
  {
    assert h.blocks[i] in h.blocks && h.blocks[i] in h.free;
    k :| 0 <= k < |h.free| && h.free[k] == h.blocks[i];
  }

  lemma AllTooSmall(h: Heap, start: nat, end: nat, fh: nat, size: nat)
    requires Inv(h, start, end, fh)
    requires forall j :: 0 <= j < |h.free| ==> h.free[j] in h.blk.next && ItemSize(h.blk, h.free[j]) < size
    ensures NoFit(h, size)
  {
    forall i | 0 <= i < |h.blocks| - 1 && Unused(h.used, h.blocks[i]) ensures h.blocks[i + 1] - h.blocks[i] - H < size {
      var k := UnusedListed(h, start, end, fh, {}, {}, i);
      NextBlock(h.blk, h.blocks, i);
    }
  }

  lemma FreshHeap(h: Heap, start: nat, end: nat, fh: nat)
    requires start + H <= end && fh != start && fh != end
    requires h.blocks == [start, end] && h.free == [start] && h.avail == end - start - H
    requires h.used == map[start := false, end := true]
    requires h.blk == Links(map[start := end, end := start], map[start := end, end := start])
    requires h.fre.next.Keys == h.fre.prev.Keys == {fh, start, end}
    requires h.fre.next[fh] == start && h.fre.prev[fh] == start && h.fre.next[start] == fh && h.fre.prev[start] == fh
    ensures Inv(h, start, end, fh) && Live(h) == map[]
  {
    assert Sum(h.used, h.blocks) == Gap(h.used, start, end) + Sum(h.used, h.blocks[1..]);
    assert h.blocks[1..] == [end];
    assert Ring(h.blk, start, [end]) by {
      forall k | 0 <= k <= 1 ensures JoinedAt(h.blk, start, [end], k) {
      }
    }
    assert Ring(h.fre, fh, [start]) by {
      forall k | 0 <= k <= 1 ensures JoinedAt(h.fre, fh, [start], k) {
      }
    }
    LiveIs(h, map[]);
  }
}
