/**
 The timer list of src/timer.c as it is stored: a multi-level skip list of intrusive
 circular lists, ordered by 32-bit ticks that wrap around. `spec` follows the simple
 form of TimerSpec in unbounded time, and every method is proved to do to it what the
 simple form does.
 */
module SkipList {
  import opened RtList
  import opened TimerSpec

  /** Ticks are counted modulo 2^32; RT_TICK_MAX is the largest. */
  const TICKS := 0x1_0000_0000
  const TICK_MAX := 0xFFFF_FFFF

  /** Unsigned 32-bit subtraction. */
  function Sub32(a: nat, b: nat): nat
    requires a < TICKS && b < TICKS
  {
    (a - b) % TICKS
  }

  /** `row[level]` of a timer, or of the array of list heads, which is owner 0. */
  datatype Node = Node(owner: nat, level: nat)

  const HEAD: nat := 0

  datatype CTimer = CTimer(timeoutTick: nat, initTick: nat, periodic: bool, activated: bool)

  function RowNodes(row: seq<nat>, l: nat): (r: seq<Node>)
    ensures |r| == |row| && forall i :: 0 <= i < |row| ==> r[i] == Node(row[i], l)
  {
    seq(|row|, i requires 0 <= i < |row| => Node(row[i], l))
  }

  function BeforeIn(row: seq<nat>, l: nat, k: nat): Node
    requires k <= |row|
  {
    Before(Node(HEAD, l), RowNodes(row, l), k)
  }

  function AfterIn(row: seq<nat>, l: nat, k: nat): Node
    requires k <= |row|
  {
    After(Node(HEAD, l), RowNodes(row, l), k)
  }

  /** Level `l` links the timers of `row`, and the others among `ids` are off it. */
  ghost predicate RowOk(m: Links<Node>, row: seq<nat>, l: nat, ids: set<nat>) {
    && Ring(m, Node(HEAD, l), RowNodes(row, l))
    && (forall x :: x in row ==> x in ids)
    && (forall x :: x in ids && x !in row ==> Idle(m, Node(x, l)))
  }

  ghost predicate NestedAt(rows: seq<seq<nat>>, l: nat)
    requires l + 1 < |rows|
  {
    forall x :: x in rows[l] ==> x in rows[l + 1]
  }

  /** Every timer on a row is also on the row below it. */
  ghost predicate Nested(rows: seq<seq<nat>>) {
    forall l :: 0 <= l < |rows| - 1 ==> NestedAt(rows, l)
  }

  ghost predicate Shape(m: Links<Node>, rows: seq<seq<nat>>, ids: set<nat>) {
    && HEAD !in ids
    && (forall l :: 0 <= l < |rows| ==> RowOk(m, rows[l], l, ids))
    && Nested(rows)
  }

  /** Nothing at level `l` is written. */
  ghost predicate SameLevel(m: Links<Node>, m': Links<Node>, l: nat) {
    forall x: nat :: Has(m, Node(x, l)) ==>
      Has(m', Node(x, l)) && m'.next[Node(x, l)] == m.next[Node(x, l)] && m'.prev[Node(x, l)] == m.prev[Node(x, l)]
  }

  // ----- what the list operations do to a row -----

  lemma RowHas(m: Links<Node>, row: seq<nat>, l: nat, ids: set<nat>, x: nat)
    requires RowOk(m, row, l, ids) && (x in row || x == HEAD || x in ids)
    ensures Has(m, Node(x, l))
  {
    var nodes := RowNodes(row, l);
    if x in row {
      var k :| 0 <= k < |row| && row[k] == x;
      assert JoinedAt(m, Node(HEAD, l), nodes, k);
      assert nodes[k] == Node(x, l);
    } else if x == HEAD {
      assert JoinedAt(m, Node(HEAD, l), nodes, 0);
    }
  }

  lemma RowFrame(m: Links<Node>, m': Links<Node>, row: seq<nat>, l: nat, ids: set<nat>)
    requires RowOk(m, row, l, ids) && SameLevel(m, m', l)
    ensures RowOk(m', row, l, ids)
  {
    var nodes := RowNodes(row, l);
    forall x | x == Node(HEAD, l) || x in nodes
      ensures Has(m, x) && x.level == l
    {
      RowHas(m, row, l, ids, x.owner);
    }
    RingFrame(m, m', Node(HEAD, l), nodes);
  }

  lemma RowDistinct(m: Links<Node>, row: seq<nat>, l: nat, ids: set<nat>)
    requires RowOk(m, row, l, ids)
    ensures forall i, j :: 0 <= i < j < |row| ==> row[i] != row[j]
  {
    var nodes := RowNodes(row, l);
    forall i, j | 0 <= i < j < |row| ensures row[i] != row[j] {
      assert nodes[i] != nodes[j];
    }
  }

  lemma UnthreadedLevel(m: Links<Node>, n: Node)
    requires Has(m, n) && m.prev[n].level == m.next[n].level == n.level
    ensures forall k: nat :: k != n.level ==> SameLevel(m, Unthreaded(m, n), k)
  {
  }

  lemma ThreadedLevel(m: Links<Node>, p: Node, n: Node, q: Node)
    requires p.level == n.level == q.level
    ensures forall k: nat :: k != n.level ==> SameLevel(m, Threaded(m, p, n, q), k)
  {
  }

  /** The two nodes around a position of a row are on that level and are on the list. */
  lemma RowNeighbours(m: Links<Node>, row: seq<nat>, l: nat, ids: set<nat>, k: nat)
    requires RowOk(m, row, l, ids) && k <= |row|
    ensures var p, q := BeforeIn(row, l, k), AfterIn(row, l, k);
      Has(m, p) && Has(m, q) && m.next[p] == q && m.prev[q] == p
    ensures BeforeIn(row, l, k).level == l && (BeforeIn(row, l, k).owner == HEAD || BeforeIn(row, l, k).owner in row)
    ensures AfterIn(row, l, k).level == l && (AfterIn(row, l, k).owner == HEAD || AfterIn(row, l, k).owner in row)
  {
    assert JoinedAt(m, Node(HEAD, l), RowNodes(row, l), k);
  }

  lemma RowRemoved(m: Links<Node>, row: seq<nat>, l: nat, ids: set<nat>, t: nat)
    requires RowOk(m, row, l, ids) && t in ids && HEAD !in ids
    ensures Has(m, Node(t, l))
    ensures RowOk(Unthreaded(m, Node(t, l)), Without(row, t), l, ids)
    ensures t !in Without(row, t)
    ensures forall k: nat :: k != l ==> SameLevel(m, Unthreaded(m, Node(t, l)), k)
  {
    RowHas(m, row, l, ids, t);
    RowDistinct(m, row, l, ids);
    WithoutMembers(row, t);
    if t in row {
      var k :| 0 <= k < |row| && row[k] == t;
      RowNeighbours(m, row, l, ids, k);
      RowNeighbours(m, row, l, ids, k + 1);
      WithoutDropped(row, k);
      RowDropped(m, row, l, ids, k);
    } else {
      WithoutAbsent(row, t);
      IdleUnthreaded(m, Node(t, l));
    }
    UnthreadedLevel(m, Node(t, l));
  }

  lemma NodesDropped(row: seq<nat>, l: nat, k: nat)
    requires k < |row|
    ensures RowNodes(Dropped(row, k), l) == Dropped(RowNodes(row, l), k)
  {
  }

  lemma RowDropped(m: Links<Node>, row: seq<nat>, l: nat, ids: set<nat>, k: nat)
    requires RowOk(m, row, l, ids) && k < |row| && HEAD !in ids
    ensures Has(m, Node(row[k], l))
    ensures RowOk(Unthreaded(m, Node(row[k], l)), Dropped(row, k), l, ids)
    ensures row[k] !in Dropped(row, k)
  {
    hide Ring, Dropped;
    var nodes, n := RowNodes(row, l), Node(row[k], l);
    RowDistinct(m, row, l, ids);
    RowNeighbours(m, row, l, ids, k);
    RowNeighbours(m, row, l, ids, k + 1);
    RingUnthreaded(m, Node(HEAD, l), nodes, k);
    NodesDropped(row, l, k);
    DroppedMembers(row, k);
    forall x | x in ids && x !in Dropped(row, k) ensures Idle(Unthreaded(m, n), Node(x, l)) {
      if x !in row {
        assert Idle(m, Node(x, l));
      }
    }
  }

  lemma RowWith(m: Links<Node>, row: seq<nat>, l: nat, ids: set<nat>, t: nat, k: nat)
    requires RowOk(m, row, l, ids) && t in ids && t !in row && HEAD !in ids && k <= |row|
    ensures RowOk(Threaded(m, BeforeIn(row, l, k), Node(t, l), AfterIn(row, l, k)), Inserted(row, k, t), l, ids)
  {
    var nodes, h, n := RowNodes(row, l), Node(HEAD, l), Node(t, l);
    RowNeighbours(m, row, l, ids, k);
    RingThreaded(m, h, nodes, k, n);
    assert RowNodes(Inserted(row, k, t), l) == Inserted(nodes, k, n);
    InsertedMembers(row, k, t);
    RowWithIdle(m, row, l, ids, t, k);
  }

  lemma RowWithIdle(m: Links<Node>, row: seq<nat>, l: nat, ids: set<nat>, t: nat, k: nat)
    requires RowOk(m, row, l, ids) && t in ids && t !in row && HEAD !in ids && k <= |row|
    ensures var m' := Threaded(m, BeforeIn(row, l, k), Node(t, l), AfterIn(row, l, k));
      forall x :: x in ids && x !in Inserted(row, k, t) ==> Idle(m', Node(x, l))
  {
    hide Ring, Inserted, BeforeIn, AfterIn;
    var n := Node(t, l);
    RowNeighbours(m, row, l, ids, k);
    InsertedMembers(row, k, t);
    forall x | x in ids && x !in Inserted(row, k, t)
      ensures Idle(Threaded(m, BeforeIn(row, l, k), n, AfterIn(row, l, k)), Node(x, l))
    {
      assert Idle(m, Node(x, l));
    }
  }

  lemma RowInserted(m: Links<Node>, row: seq<nat>, l: nat, ids: set<nat>, t: nat, k: nat)
    requires RowOk(m, row, l, ids) && t in ids && t !in row && HEAD !in ids && k <= |row|
    ensures var p, n := BeforeIn(row, l, k), Node(t, l);
      && Has(m, p) && p != n && m.next[p] != n
      && RowOk(Threaded(m, p, n, m.next[p]), Inserted(row, k, t), l, ids)
      && forall j: nat :: j != l ==> SameLevel(m, Threaded(m, p, n, m.next[p]), j)
  {
    RowNeighbours(m, row, l, ids, k);
    RowWith(m, row, l, ids, t, k);
    ThreadedLevel(m, BeforeIn(row, l, k), Node(t, l), AfterIn(row, l, k));
    hide RowOk, Inserted, SameLevel, BeforeIn, AfterIn;
  }

  lemma FreshRow(m: Links<Node>, l: nat)
    ensures var h := Node(HEAD, l);
      RowOk(Links(m.next[h := h], m.prev[h := h]), [], l, {})
  {
  }

  // ----- modular and unbounded ticks -----

  /** For a timer pending in the half range, the 32-bit test for "later" is the true one. */
  lemma LaterExact(now: nat, d1: nat, d2: nat)
    requires now <= d1 < now + HALF && now <= d2 < now + HALF
    ensures Sub32(d1 % TICKS, d2 % TICKS) == 0 <==> d1 == d2
    ensures 0 < Sub32(d1 % TICKS, d2 % TICKS) < TICK_MAX / 2 <==> d1 > d2
  {
    var q1, q2 := d1 / TICKS, d2 / TICKS;
    assert d1 == q1 * TICKS + d1 % TICKS && d2 == q2 * TICKS + d2 % TICKS;
    assert q1 == q2 || q1 == q2 + 1 || q2 == q1 + 1;
  }

  /** And so is the 32-bit test for "due". */
  lemma DueExact(now: nat, d: nat)
    requires now <= d < now + HALF
    ensures Sub32(now % TICKS, d % TICKS) < TICK_MAX / 2 <==> d <= now
  {
    var q1, q2 := now / TICKS, d / TICKS;
    assert now == q1 * TICKS + now % TICKS && d == q2 * TICKS + d % TICKS;
    assert q1 == q2 || q2 == q1 + 1;
  }

  lemma TickSum(now: nat, n: nat)
    ensures (now % TICKS + n) % TICKS == (now + n) % TICKS
  {
    assert now == (now / TICKS) * TICKS + now % TICKS;
  }

  lemma SortedDeadlines(tm: map<nat, Timer>, q: seq<nat>)
    requires Sorted(tm, q)
    ensures forall i, j :: 0 <= i <= j < |q| ==> tm[q[i]].deadline <= tm[q[j]].deadline
  {
    forall i, j | 0 <= i <= j < |q| ensures tm[q[i]].deadline <= tm[q[j]].deadline {
      assert i < j ==> Ahead(tm, q[i], q[j]);
    }
  }

  /** The scan is the only position with earlier deadlines before and a later one at it. */
  lemma ScanUnique(tm: map<nat, Timer>, q: seq<nat>, d: nat, k: nat)
    requires Sorted(tm, q) && k <= |q|
    requires k > 0 ==> tm[q[k - 1]].deadline <= d
    requires k < |q| ==> tm[q[k]].deadline > d
    ensures Scan(tm, q, d) == k
  {
    SortedDeadlines(tm, q);
  }

  /** A timer with an early enough deadline lies before the scan position. */
  lemma ScanPasses(tm: map<nat, Timer>, q: seq<nat>, d: nat, k: nat)
    requires Sorted(tm, q) && k < |q| && tm[q[k]].deadline <= d
    ensures k < Scan(tm, q, d)
  {
    SortedDeadlines(tm, q);
  }

  // ----- the search along one row -----

  /** Comparing the stored ticks of `x` and `t` compares their deadlines. */
  ghost predicate Comparable(ts: map<nat, CTimer>, tm: map<nat, Timer>, x: nat, t: nat) {
    && x in ts && t in ts && x in tm && t in tm
    && ts[x].timeoutTick < TICKS && ts[t].timeoutTick < TICKS
    && var delta := Sub32(ts[x].timeoutTick, ts[t].timeoutTick);
      && (delta == 0 <==> tm[x].deadline == tm[t].deadline)
      && (0 < delta < TICK_MAX / 2 <==> tm[x].deadline > tm[t].deadline)
  }

  ghost predicate RowComparable(ts: map<nat, CTimer>, tm: map<nat, Timer>, row: seq<nat>, t: nat) {
    forall i :: 0 <= i < |row| ==> row[i] != t && Comparable(ts, tm, row[i], t)
  }

  /** A row the search may walk: linked, sorted by `tm`, and with exact comparisons. */
  ghost predicate Searchable(m: Links<Node>, ts: map<nat, CTimer>, tm: map<nat, Timer>, row: seq<nat>, l: nat, t: nat) {
    && RowOk(m, row, l, ts.Keys) && Sorted(tm, row) && RowComparable(ts, tm, row, t)
    && HEAD !in ts && t in ts && t in tm
  }

  /** The node in front of the place where a plain sorted scan of the row stops. */
  ghost function ScanNode(tm: map<nat, Timer>, row: seq<nat>, l: nat, d: nat): Node {
    if Sorted(tm, row) then BeforeIn(row, l, Scan(tm, row, d)) else Node(HEAD, l)
  }

  /** The cursor enters a row no later than the scan would stop. */
  ghost predicate Enters(tm: map<nat, Timer>, row: seq<nat>, l: nat, d: nat, k: nat, cur: Node) {
    Sorted(tm, row) && k <= Scan(tm, row, d) && cur == BeforeIn(row, l, k)
  }

  /** The inner loop of the search: forward from the cursor while the next timer is not later. */
  method SearchRow(m: Links<Node>, ts: map<nat, CTimer>, l: nat, start: Node, t: nat,
                   ghost row: seq<nat>, ghost k0: nat, ghost tm: map<nat, Timer>)
    returns (cur: Node)
    requires Searchable(m, ts, tm, row, l, t)
    requires Enters(tm, row, l, tm[t].deadline, k0, start)
    ensures cur == ScanNode(tm, row, l, tm[t].deadline)
  {
    ghost var d, ids := tm[t].deadline, ts.Keys;
    ghost var k := k0;
    cur := start;
    assert Has(m, cur) && Has(m, Node(HEAD, l)) by {
      RowNeighbours(m, row, l, ids, k);
      RowHas(m, row, l, ids, HEAD);
    }
    hide Sorted, RowOk, BeforeIn, Scan, Sub32;
    while cur != m.prev[Node(HEAD, l)]
      invariant k <= Scan(tm, row, d) && cur == BeforeIn(row, l, k) && Has(m, cur)
      decreases |row| - k
    {
      CursorStep(m, row, l, ids, k);
      var p := m.next[cur];
      var x := p.owner;
      assert Comparable(ts, tm, row[k], t);
      var delta := Sub32(ts[x].timeoutTick, ts[t].timeoutTick);
      if delta == 0 {
        // timers of the same deadline keep the order in which they were started
      } else if delta < TICK_MAX / 2 {
        break;
      }
      ScanPasses(tm, row, d, k);
      cur, k := p, k + 1;
    }
    SearchEnds(m, row, l, ids, tm, d, k);
  }

  lemma SearchEnds(m: Links<Node>, row: seq<nat>, l: nat, ids: set<nat>, tm: map<nat, Timer>, d: nat, k: nat)
    requires RowOk(m, row, l, ids) && HEAD !in ids && Has(m, Node(HEAD, l)) && Sorted(tm, row)
    requires k <= Scan(tm, row, d)
    requires BeforeIn(row, l, k) == m.prev[Node(HEAD, l)] || (k < |row| && tm[row[k]].deadline > d)
    ensures k == Scan(tm, row, d)
  {
    LastBefore(m, row, l, ids, k);
  }

  /** The search of rt_timer_start: on every row, the place of a plain sorted scan. */
  method Search(m: Links<Node>, ts: map<nat, CTimer>, levels: nat, t: nat,
                ghost rows: seq<seq<nat>>, ghost tm: map<nat, Timer>)
    returns (rowHead: seq<Node>)
    requires t in tm && |rows| == levels >= 1 && Nested(rows)
    requires forall l {:trigger rows[l]} :: 0 <= l < levels ==> Searchable(m, ts, tm, rows[l], l, t)
    ensures |rowHead| == levels
    ensures forall l :: 0 <= l < levels ==> rowHead[l] == ScanNode(tm, rows[l], l, tm[t].deadline)
  {
    hide Searchable, ScanNode, Enters, Nested;
    ghost var d := tm[t].deadline;
    rowHead := [];
    var cur := Node(HEAD, 0);
    ghost var k: nat := 0;
    EntersFront(m, ts, tm, rows[0], t);
    var l := 0;
    while l < levels
      invariant 0 <= l <= levels && |rowHead| == l
      invariant forall j {:trigger rowHead[j]} :: 0 <= j < l ==> rowHead[j] == ScanNode(tm, rows[j], j, d)
      invariant l < levels ==> Enters(tm, rows[l], l, d, k, cur)
    {
      cur := SearchRow(m, ts, l, cur, t, rows[l], k, tm);
      rowHead := rowHead + [cur];
      if l != levels - 1 {
        // the row node of the same timer one level down
        k := Descend(m, ts, rows, l, tm, t, cur);
        cur := Node(cur.owner, l + 1);
      }
      l := l + 1;
    }
  }

  lemma EntersFront(m: Links<Node>, ts: map<nat, CTimer>, tm: map<nat, Timer>, row: seq<nat>, t: nat)
    requires Searchable(m, ts, tm, row, 0, t)
    ensures Enters(tm, row, 0, tm[t].deadline, 0, Node(HEAD, 0))
  {
  }

  /** Going down from the scan position of a row stays in front of the one below it. */
  lemma Descend(m: Links<Node>, ts: map<nat, CTimer>, rows: seq<seq<nat>>, l: nat, tm: map<nat, Timer>, t: nat,
      cur: Node)
    returns (k: nat)
    requires l + 1 < |rows| && Nested(rows)
    requires Searchable(m, ts, tm, rows[l], l, t) && Searchable(m, ts, tm, rows[l + 1], l + 1, t)
    requires cur == ScanNode(tm, rows[l], l, tm[t].deadline)
    ensures Enters(tm, rows[l + 1], l + 1, tm[t].deadline, k, Node(cur.owner, l + 1))
  {
    var d := tm[t].deadline;
    var c := Scan(tm, rows[l], d);
    if c == 0 {
      k := 0;
    } else {
      var x := rows[l][c - 1];
      assert x in rows[l] && cur.owner == x && NestedAt(rows, l);
      var j :| 0 <= j < |rows[l + 1]| && rows[l + 1][j] == x;
      ScanPasses(tm, rows[l + 1], d, j);
      k := j + 1;
    }
  }

  // ----- linking a timer into its rows -----

  /** A row with `t` added at its place. */
  ghost function WithTimer(tm: map<nat, Timer>, row: seq<nat>, t: nat): seq<nat> {
    if Sorted(tm, row) && t in tm then Inserted(row, Scan(tm, row, tm[t].deadline), t) else row
  }

  lemma LinkRow(m: Links<Node>, row: seq<nat>, l: nat, ids: set<nat>, tm: map<nat, Timer>, t: nat, p: Node)
    requires RowOk(m, row, l, ids) && t in ids && t !in row && HEAD !in ids && Sorted(tm, row) && t in tm
    requires p == ScanNode(tm, row, l, tm[t].deadline)
    ensures var n := Node(t, l);
      && Has(m, p) && p != n && m.next[p] != n
      && RowOk(Threaded(m, p, n, m.next[p]), WithTimer(tm, row, t), l, ids)
      && forall j: nat :: j != l ==> SameLevel(m, Threaded(m, p, n, m.next[p]), j)
  {
    RowInserted(m, row, l, ids, t, Scan(tm, row, tm[t].deadline));
  }

  ghost predicate Linkable(m: Links<Node>, row: seq<nat>, l: nat, ids: set<nat>, tm: map<nat, Timer>, t: nat, p: Node) {
    && RowOk(m, row, l, ids) && t in ids && t !in row && HEAD !in ids && Sorted(tm, row) && t in tm
    && p == ScanNode(tm, row, l, tm[t].deadline)
  }

  /** Linking at one level keeps the other levels ready to be linked. */
  lemma LinkableFrame(m: Links<Node>, m': Links<Node>, row: seq<nat>, l: nat, ids: set<nat>, tm: map<nat, Timer>,
      t: nat, p: Node)
    requires Linkable(m, row, l, ids, tm, t, p) && SameLevel(m, m', l)
    ensures Linkable(m', row, l, ids, tm, t, p)
  {
    RowFrame(m, m', row, l, ids);
  }

  lemma LinkedMembers(tm: map<nat, Timer>, row: seq<nat>, t: nat)
    requires Sorted(tm, row) && t in tm
    ensures forall x :: x in WithTimer(tm, row, t) <==> x in row || x == t
  {
    InsertedMembers(row, Scan(tm, row, tm[t].deadline), t);
  }

  /**
   The linking of rt_timer_start: the bottom row always, and each row above it as long
   as the next bits of the insertion counter are zero.
   */
  method LinkTimer(m0: Links<Node>, levels: nat, mask: bv32, randomNr: bv32, t: nat, rowHead: seq<Node>,
                   ghost rows0: seq<seq<nat>>, ghost ids: set<nat>, ghost tm: map<nat, Timer>)
    returns (m: Links<Node>, ghost rows: seq<seq<nat>>)
    requires levels >= 1 && |rows0| == |rowHead| == levels && Nested(rows0) && (mask == 1 || mask == 3)
    requires forall l {:trigger rows0[l]} :: 0 <= l < levels ==> Linkable(m0, rows0[l], l, ids, tm, t, rowHead[l])
    ensures |rows| == levels && Nested(rows)
    ensures forall l {:trigger rows[l]} :: 0 <= l < levels ==> RowOk(m, rows[l], l, ids)
    ensures rows[levels - 1] == WithTimer(tm, rows0[levels - 1], t)
    ensures forall l {:trigger rows[l]} :: 0 <= l < levels ==>
      rows[l] == rows0[l] || rows[l] == WithTimer(tm, rows0[l], t)
  {
    hide Linkable, RowOk, WithTimer, SameLevel, Nested, Threaded, Has;
    var tst := randomNr;
    var b := levels - 1;
    m, rows := LinkAt(m0, b, t, rowHead, rows0, rows0, ids, tm);
    var lvl := 2;
    while lvl <= levels
      invariant 2 <= lvl <= levels + 1 && |rows| == levels
      invariant forall l {:trigger rows[l]} :: 0 <= l < levels - (lvl - 1) ==>
        rows[l] == rows0[l] && Linkable(m, rows[l], l, ids, tm, t, rowHead[l])
      invariant forall l {:trigger rows[l]} :: levels - (lvl - 1) <= l < levels ==>
        rows[l] == WithTimer(tm, rows0[l], t) && RowOk(m, rows[l], l, ids)
    {
      if tst & mask != 0 {
        break;
      }
      var l := levels - lvl;
      m, rows := LinkAt(m, l, t, rowHead, rows, rows0, ids, tm);
      tst := tst >> ((mask + 1) >> 1) as bv6;
      lvl := lvl + 1;
    }
    LinkedNested(m0, rows0, rows, ids, tm, t, rowHead, levels - (lvl - 1));
    forall l {:trigger rows[l]} | 0 <= l < levels - (lvl - 1) ensures RowOk(m, rows[l], l, ids) {
      LinkableRowOk(m, rows[l], l, ids, tm, t, rowHead[l]);
    }
  }

  lemma LinkableRowOk(m: Links<Node>, row: seq<nat>, l: nat, ids: set<nat>, tm: map<nat, Timer>, t: nat, p: Node)
    requires Linkable(m, row, l, ids, tm, t, p)
    ensures RowOk(m, row, l, ids)
  {
  }

  /** rt_list_insert_after on row `l`; the rows above it stay ready, those below linked. */
  method LinkAt(m0: Links<Node>, l: nat, t: nat, rowHead: seq<Node>, ghost rows: seq<seq<nat>>,
                ghost rows0: seq<seq<nat>>, ghost ids: set<nat>, ghost tm: map<nat, Timer>)
    returns (m: Links<Node>, ghost rows': seq<seq<nat>>)
    requires l < |rows| == |rows0| == |rowHead|
    requires forall j {:trigger rows[j]} :: 0 <= j <= l ==>
      rows[j] == rows0[j] && Linkable(m0, rows[j], j, ids, tm, t, rowHead[j])
    requires forall j {:trigger rows[j]} :: l < j < |rows| ==>
      rows[j] == WithTimer(tm, rows0[j], t) && RowOk(m0, rows[j], j, ids)
    ensures |rows'| == |rows|
    ensures forall j {:trigger rows'[j]} :: 0 <= j < l ==>
      rows'[j] == rows0[j] && Linkable(m, rows'[j], j, ids, tm, t, rowHead[j])
    ensures forall j {:trigger rows'[j]} :: l <= j < |rows| ==>
      rows'[j] == WithTimer(tm, rows0[j], t) && RowOk(m, rows'[j], j, ids)
  {
    hide RowOk, WithTimer, SameLevel, ScanNode, Sorted;
    assert Linkable(m0, rows[l], l, ids, tm, t, rowHead[l]);
    LinkRow(m0, rows[l], l, ids, tm, t, rowHead[l]);
    m := RtList.InsertAfter(m0, rowHead[l], Node(t, l));
    rows' := rows[l := WithTimer(tm, rows[l], t)];
    forall j {:trigger rows'[j]} | 0 <= j < l ensures Linkable(m, rows'[j], j, ids, tm, t, rowHead[j]) {
      assert rows'[j] == rows[j];
      LinkableFrame(m0, m, rows[j], j, ids, tm, t, rowHead[j]);
    }
    forall j {:trigger rows'[j]} | l < j < |rows| ensures RowOk(m, rows'[j], j, ids) {
      assert rows'[j] == rows[j];
      RowFrame(m0, m, rows[j], j, ids);
    }
  }

  /** Rows linked from the bottom up stay nested. */
  lemma LinkedNested(m: Links<Node>, rows0: seq<seq<nat>>, rows: seq<seq<nat>>, ids: set<nat>, tm: map<nat, Timer>,
                     t: nat, heads: seq<Node>, top: int)
    requires |rows| == |rows0| == |heads| && Nested(rows0) && top < |rows|
    requires forall l {:trigger rows0[l]} :: 0 <= l < |rows| ==> Linkable(m, rows0[l], l, ids, tm, t, heads[l])
    requires forall l {:trigger rows[l]} :: 0 <= l < top ==> rows[l] == rows0[l]
    requires forall l {:trigger rows[l]} :: top <= l < |rows| && 0 <= l ==> rows[l] == WithTimer(tm, rows0[l], t)
    ensures Nested(rows)
  {
    hide WithTimer, RowOk;
    forall l | 0 <= l < |rows| - 1 ensures NestedAt(rows, l) {
      assert NestedAt(rows0, l);
      assert rows0[l] == rows0[l] && rows0[l + 1] == rows0[l + 1];
      LinkedMembers(tm, rows0[l], t);
      LinkedMembers(tm, rows0[l + 1], t);
      assert rows[l] == rows0[l] || rows[l] == WithTimer(tm, rows0[l], t);
      assert rows[l + 1] == rows0[l + 1] || rows[l + 1] == WithTimer(tm, rows0[l + 1], t);
    }
  }

  // ----- what a start needs and gives -----

  /** The stored timer `c` says what the timer `t` of the simple form says. */
  predicate Stored(c: CTimer, t: Timer) {
    && c.initTick == t.init && c.periodic == t.periodic && c.activated == t.active
    && c.timeoutTick == t.deadline % TICKS
  }

  ghost predicate AllStored(ts: map<nat, CTimer>, s: Sys) {
    && ts.Keys == s.timers.Keys
    && forall x :: x in ts && x in s.timers ==> Stored(ts[x], s.timers[x])
  }

  /** Every row is part of the queue. */
  ghost predicate OnQueue(row: seq<nat>, s: Sys) {
    forall i :: 0 <= i < |row| ==> row[i] in s.queue
  }

  lemma {:induction false} RowsOnQueue(rows: seq<seq<nat>>, l: nat, s: Sys)
    requires Nested(rows) && l < |rows| && rows[|rows| - 1] == s.queue
    ensures OnQueue(rows[l], s)
    decreases |rows| - l
  {
    if l + 1 < |rows| {
      RowsOnQueue(rows, l + 1, s);
      forall i | 0 <= i < |rows[l]| ensures rows[l][i] in s.queue {
        assert NestedAt(rows, l) && rows[l][i] in rows[l];
        var j :| 0 <= j < |rows[l + 1]| && rows[l + 1][j] == rows[l][i];
      }
    }
  }

  lemma InvFacts(s: Sys, busy: set<nat>)
    requires Inv(s, busy)
    ensures Closed(s)
    ensures forall x :: x in s.timers ==> 1 <= s.timers[x].init < HALF && s.timers[x].deadline < s.now + HALF
    ensures forall x :: x in s.queue ==> s.now <= s.timers[x].deadline < s.now + HALF
    ensures forall x :: x in s.queue ==> s.timers[x].active
  {
    forall x | x in s.queue ensures Pending(s, x) {
    }
  }

  /** The rows of a valid timer list. */
  ghost predicate RowsOk(m: Links<Node>, rows: seq<seq<nat>>, ids: set<nat>, tm: map<nat, Timer>, queue: seq<nat>) {
    && |rows| >= 1 && rows[|rows| - 1] == queue
    && Shape(m, rows, ids)
    && forall l {:trigger rows[l]} :: 0 <= l < |rows| ==> Sorted(tm, rows[l])
  }

  /** `rows1` is `rows0` with timer `t` taken out of every row. */
  ghost predicate TakenOut(rows0: seq<seq<nat>>, rows1: seq<seq<nat>>, t: nat) {
    && |rows1| == |rows0|
    && forall l {:trigger rows1[l]} :: 0 <= l < |rows1| ==> rows1[l] == Without(rows0[l], t) && t !in rows1[l]
  }

  /** For a timer off the queue whose timeout is set, the search is exact. */
  lemma QueuedSearchable(m: Links<Node>, ts: map<nat, CTimer>, rows: seq<seq<nat>>, s: Sys, t: nat, busy: set<nat>,
                         l: nat)
    requires RowsOk(m, rows, ts.Keys, s.timers, s.queue) && Inv(s, busy) && AllStored(ts, s) && t in s.timers
    requires t !in s.queue && s.now <= s.timers[t].deadline && l < |rows|
    ensures Closed(s) && Searchable(m, ts, Queued(s, t).timers, rows[l], l, t) && t !in rows[l]
  {
    hide RowOk, Nested, Scan, LogSorted, Sub32, Inv, Inserted;
    InvFacts(s, busy);
    RowsOnQueue(rows, l, s);
    assert rows[l] == rows[l];
    var tm, row := Queued(s, t).timers, rows[l];
    forall i | 0 <= i < |row| ensures row[i] != t && Comparable(ts, tm, row[i], t) {
      assert row[i] in row && row[i] in s.queue;
      assert Stored(ts[row[i]], s.timers[row[i]]) && Stored(ts[t], s.timers[t]);
      LaterExact(s.now, tm[row[i]].deadline, tm[t].deadline);
    }
    SortedFrame(s.timers, tm, row);
  }

  /** The searched rows may be linked at the places the search found. */
  lemma SearchedLinkable(m: Links<Node>, ts: map<nat, CTimer>, tm: map<nat, Timer>, row: seq<nat>, l: nat, t: nat,
      p: Node)
    requires Searchable(m, ts, tm, row, l, t) && t !in row && p == ScanNode(tm, row, l, tm[t].deadline)
    ensures Linkable(m, row, l, ts.Keys, tm, t, p)
  {
  }

  /** The linked rows are those of the simple form's next state. */
  lemma QueuedRows(m: Links<Node>, rows0: seq<seq<nat>>, rows1: seq<seq<nat>>, ids: set<nat>,
                   s: Sys, t: nat, busy: set<nat>)
    requires Inv(s, busy) && t in s.timers && t !in s.queue && |rows0| >= 1 && rows0[|rows0| - 1] == s.queue
    requires forall l {:trigger rows0[l]} :: 0 <= l < |rows0| ==> Sorted(s.timers, rows0[l]) && OnQueue(rows0[l], s)
    requires |rows1| == |rows0| && Nested(rows1) && HEAD !in ids && Closed(s)
    requires forall l {:trigger rows1[l]} :: 0 <= l < |rows1| ==> RowOk(m, rows1[l], l, ids)
    requires var tm := Queued(s, t).timers;
      && rows1[|rows1| - 1] == WithTimer(tm, rows0[|rows1| - 1], t)
      && forall l {:trigger rows1[l]} :: 0 <= l < |rows1| ==>
        rows1[l] == rows0[l] || rows1[l] == WithTimer(tm, rows0[l], t)
    ensures RowsOk(m, rows1, ids, Queued(s, t).timers, Queued(s, t).queue)
  {
    hide Inv, RowOk, WithTimer, Nested, OnQueue;
    var s' := Queued(s, t);
    forall l {:trigger rows1[l]} | 0 <= l < |rows1| ensures Sorted(s'.timers, rows1[l]) {
      assert rows0[l] == rows0[l] && rows1[l] == rows1[l];
      QueuedRow(rows0[l], s, t, busy);
    }
    QueuedBottom(s, t, busy);
  }

  lemma QueuedRow(row: seq<nat>, s: Sys, t: nat, busy: set<nat>)
    requires Inv(s, busy) && t in s.timers && t !in s.queue && Sorted(s.timers, row) && OnQueue(row, s) && Closed(s)
    ensures var tm := Queued(s, t).timers; Sorted(tm, row) && Sorted(tm, WithTimer(tm, row, t))
  {
    var tm := Queued(s, t).timers;
    forall x | x in row ensures x in s.queue && Pending(s, x) && x != t {
      var i :| 0 <= i < |row| && row[i] == x;
    }
    SortedFrame(s.timers, tm, row);
    InsertSorted(tm, row, t);
  }

  lemma QueuedBottom(s: Sys, t: nat, busy: set<nat>)
    requires Inv(s, busy) && t in s.timers && t !in s.queue
    ensures Closed(s) && WithTimer(Queued(s, t).timers, s.queue, t) == Queued(s, t).queue
  {
    var tm := Queued(s, t).timers;
    SortedFrame(s.timers, tm, s.queue);
    ScanFrame(s.timers, tm, s.queue, tm[t].deadline);
  }

  lemma QueuedFinished(m0: Links<Node>, m: Links<Node>, ts0: map<nat, CTimer>, ts: map<nat, CTimer>,
                       rows0: seq<seq<nat>>, rows1: seq<seq<nat>>, s: Sys, t: nat, busy: set<nat>)
    requires RowsOk(m0, rows0, ts0.Keys, s.timers, s.queue) && Inv(s, busy) && AllStored(ts0, s) && t in ts0
    requires ts == ts0[t := ts0[t].(activated := true)] && t in s.timers && t !in s.queue && Closed(s)
    requires s.now <= s.timers[t].deadline && |rows1| == |rows0| && Nested(rows1)
    requires forall l {:trigger rows1[l]} :: 0 <= l < |rows1| ==> RowOk(m, rows1[l], l, ts.Keys)
    requires var tm := Queued(s, t).timers;
      && rows1[|rows1| - 1] == WithTimer(tm, rows0[|rows1| - 1], t)
      && forall l {:trigger rows1[l]} :: 0 <= l < |rows1| ==>
        rows1[l] == rows0[l] || rows1[l] == WithTimer(tm, rows0[l], t)
    ensures RowsOk(m, rows1, ts.Keys, Queued(s, t).timers, Queued(s, t).queue)
    ensures AllStored(ts, Queued(s, t)) && Inv(Queued(s, t), busy) && Queued(s, t).now == s.now
  {
    hide Inv, Sorted, RowOk, WithTimer, Scan, Inserted;
    QueuedKeeps(s, t, busy);
    assert ts.Keys == ts0.Keys;
    forall l {:trigger rows0[l]} | 0 <= l < |rows0| ensures OnQueue(rows0[l], s) {
      RowsOnQueue(rows0, l, s);
    }
    QueuedRows(m, rows0, rows1, ts.Keys, s, t, busy);
    var s' := Queued(s, t);
    forall x | x in ts && x in s'.timers ensures Stored(ts[x], s'.timers[x]) {
      assert Stored(ts0[x], s.timers[x]);
    }
  }

  /** The timer is off every row. */
  lemma OffFinished(m0: Links<Node>, m: Links<Node>, ts: map<nat, CTimer>, rows0: seq<seq<nat>>,
                    rows1: seq<seq<nat>>, s: Sys, t: nat, busy: set<nat>)
    requires RowsOk(m0, rows0, ts.Keys, s.timers, s.queue) && Inv(s, busy) && t in s.timers && AllStored(ts, s)
    requires TakenOut(rows0, rows1, t) && Shape(m, rows1, ts.Keys)
    ensures var s' := s.(queue := Without(s.queue, t));
      RowsOk(m, rows1, ts.Keys, s'.timers, s'.queue) && AllStored(ts, s') && Inv(s', busy + {t}) && t !in s'.queue
  {
    hide Inv, Sorted, RowOk, Without, Stored;
    OffKeeps(s, t, busy);
    forall l {:trigger rows1[l]} | 0 <= l < |rows1| ensures Sorted(s.timers, rows1[l]) {
      assert rows0[l] == rows0[l];
      WithoutSorted(s.timers, rows0[l], t);
    }
    assert rows1[|rows1| - 1] == Without(s.queue, t);
  }

  /** Setting the timeout of a timer as long as the queue stays sorted. */
  lemma TimedFinished(m: Links<Node>, ts0: map<nat, CTimer>, ts: map<nat, CTimer>, rows: seq<seq<nat>>,
                      s: Sys, t: nat, busy: set<nat>)
    requires RowsOk(m, rows, ts0.Keys, s.timers, s.queue) && Inv(s, busy) && AllStored(ts0, s) && t in ts0
    requires t in s.timers && Sorted(Timed(s, t).timers, s.queue)
    requires ts == ts0[t := ts0[t].(timeoutTick := (s.now + s.timers[t].init) % TICKS)]
    ensures var s' := Timed(s, t);
      RowsOk(m, rows, ts.Keys, s'.timers, s'.queue) && AllStored(ts, s') && Inv(s', busy) && s'.now == s.now
  {
    hide Inv, Sorted, RowOk;
    TimedIff(s, t, busy);
    assert ts.Keys == ts0.Keys;
    var s' := Timed(s, t);
    forall l {:trigger rows[l]} | 0 <= l < |rows| ensures Sorted(s'.timers, rows[l]) {
      RowsOnQueue(rows, l, s);
      assert rows[l] == rows[l];
      RowStaysSorted(s.timers, s'.timers, rows[l], s.queue);
    }
    forall x | x in ts && x in s'.timers ensures Stored(ts[x], s'.timers[x]) {
      assert Stored(ts0[x], s.timers[x]);
    }
  }

  /** A row of a queue is sorted by whatever sorts the queue. */
  lemma RowStaysSorted(tm: map<nat, Timer>, tm': map<nat, Timer>, row: seq<nat>, queue: seq<nat>)
    requires Sorted(tm, row) && Sorted(tm, queue) && Sorted(tm', queue)
    requires forall i :: 0 <= i < |row| ==> row[i] in queue
    ensures Sorted(tm', row)
  {
    hide Ahead;
    var f := SortedPicks(tm, row, queue);
    forall i, j | 0 <= i < j < |row| ensures Ahead(tm', row[i], row[j]) {
      assert queue[f[i]] == row[i] && queue[f[j]] == row[j] && f[i] < f[j];
    }
    forall x | x in row ensures x in tm' {
      assert x in queue;
    }
  }

  // ----- the timer list -----

  class TimerList {
    const levels: nat
    const mask: bv32
    var links: Links<Node>
    var timers: map<nat, CTimer>
    var tick: nat
    var randomNr: bv32

    ghost var rows: seq<seq<nat>>
    ghost var spec: Sys

    /** `busy` holds the timer whose timeout function is running, if any. */
    ghost predicate Valid(busy: set<nat>)
      reads this
    {
      && (mask == 1 || mask == 3)
      && levels >= 1 && |rows| == levels
      && RowsOk(links, rows, timers.Keys, spec.timers, spec.queue)
      && Inv(spec, busy)
      && tick == spec.now % TICKS
      && AllStored(timers, spec)
    }

    /** rt_system_timer_init */
    constructor (levels: nat, mask: bv32)
      requires levels >= 1 && (mask == 1 || mask == 3)
      ensures Valid({}) && spec == Sys(0, 0, map[], [], []) && Settled(spec)
    {
      this.levels := levels;
      this.mask := mask;
      timers := map[];
      tick := 0;
      randomNr := 0;
      spec := Sys(0, 0, map[], [], []);
      rows := seq(levels, _ => []);
      links := Links(map[], map[]);
      new;
      var i := 0;
      while i < levels
        invariant 0 <= i <= levels
        invariant forall l :: 0 <= l < i ==> RowOk(links, [], l, {})
        invariant timers == map[] && tick == 0 && spec == Sys(0, 0, map[], [], []) && rows == seq(levels, _ => [])
      {
        ghost var m := links;
        links := RtList.Init(links, Node(HEAD, i));
        FreshRow(m, i);
        forall l | 0 <= l < i ensures RowOk(links, [], l, {}) {
          RowFrame(m, links, [], l, {});
        }
        i := i + 1;
      }
      assert timers.Keys == {} == spec.timers.Keys;
    }

    /** rt_timer_init */
    method TimerInit(t: nat, init: nat, periodic: bool)
      requires Valid({}) && t !in timers && t != HEAD && 1 <= init < HALF
      modifies this
      ensures Valid({}) && spec == old(spec).(timers := old(spec).timers[t := Timer(init, periodic, false, 0, 0)])
      ensures timers.Keys == old(timers.Keys) + {t}
    {
      hide RowOk, Inv, Sorted, AllStored;
      ghost var ids, ts, s := timers.Keys, timers, spec;
      StoredKeys(ts, s);
      timers := timers[t := CTimer(0, init, periodic, false)];
      var i := 0;
      while i < levels
        modifies this`links
        invariant 0 <= i <= levels
        invariant forall l {:trigger rows[l]} :: 0 <= l < i ==> RowOk(links, rows[l], l, ids + {t})
        invariant forall l {:trigger rows[l]} :: i <= l < levels ==> RowOk(links, rows[l], l, ids)
      {
        assert RowOk(links, rows[i], i, ids);
        ghost var m := links;
        links := RtList.Init(links, Node(t, i));
        InitRow(m, rows[i], i, ids, t);
        forall l {:trigger rows[l]} | 0 <= l < i ensures RowOk(links, rows[l], l, ids + {t}) {
          RowFrame(m, links, rows[l], l, ids + {t});
        }
        forall l {:trigger rows[l]} | i < l < levels ensures RowOk(links, rows[l], l, ids) {
          RowFrame(m, links, rows[l], l, ids);
        }
        i := i + 1;
      }
      assert timers.Keys == ids + {t};
      spec := s.(timers := s.timers[t := Timer(init, periodic, false, 0, 0)]);
      InitStored(ts, timers, s, t, init, periodic);
      InitInv(s, t, init, periodic);
      forall l {:trigger rows[l]} | 0 <= l < levels ensures Sorted(spec.timers, rows[l]) {
        InitSorted(s, spec, t, rows[l]);
      }
    }

    /** _rt_timer_remove: every row node is removed, also those that are on no list. */
    method RemoveTimer(t: nat)
      requires t in timers && Shape(links, rows, timers.Keys) && |rows| == levels
      modifies this`links, this`rows
      ensures Shape(links, rows, timers.Keys) && |rows| == levels
      ensures TakenOut(old(rows), rows, t)
    {
      var i := 0;
      while i < levels
        invariant 0 <= i <= levels == |rows|
        invariant forall l :: 0 <= l < levels ==> RowOk(links, rows[l], l, timers.Keys)
        invariant forall l :: 0 <= l < i ==> rows[l] == Without(old(rows[l]), t) && t !in rows[l]
        invariant forall l :: i <= l < levels ==> rows[l] == old(rows[l])
      {
        RowRemoved(links, rows[i], i, timers.Keys, t);
        ghost var m := links;
        links := RtList.Remove(links, Node(t, i));
        forall l | 0 <= l < levels && l != i ensures RowOk(links, rows[l], l, timers.Keys) {
          RowFrame(m, links, rows[l], l, timers.Keys);
        }
        rows := rows[i := Without(rows[i], t)];
        i := i + 1;
      }
      forall l | 0 <= l < |rows| - 1 ensures NestedAt(rows, l) {
        assert NestedAt(old(rows), l);
        WithoutMembers(old(rows[l]), t);
        WithoutMembers(old(rows[l + 1]), t);
      }
    }

    /** The timer is taken off, whether it was started or not: the region of rt_timer_stop. */
    method TakeOff(t: nat, ghost busy: set<nat>)
      requires Valid(busy) && t in timers
      modifies this`links, this`rows, this`spec
      ensures Valid(busy + {t}) && spec == old(spec).(queue := Without(old(spec).queue, t)) && t !in spec.queue
    {
      hide RowsOk, Inv, AllStored, TakenOut, Shape;
      ghost var m0, rows0, s := links, rows, spec;
      ValidFacts(m0, timers, rows0, s, t, busy);
      RemoveTimer(t);
      OffFinished(m0, links, timers, rows0, rows, s, t, busy);
      spec := s.(queue := Without(s.queue, t));
    }

    /** The flag of a timer that is off its queue is cleared: the last write of rt_timer_stop. */
    method Deactivate(t: nat, ghost busy: set<nat>)
      requires Valid(busy + {t}) && t in timers && t !in spec.queue
      modifies this`timers, this`spec
      ensures t in old(spec).timers
      ensures Valid(busy) && spec == Deactivated(old(spec), t) && timers.Keys == old(timers.Keys)
    {
      hide RowsOk, Inv, AllStored;
      ghost var ts, s := timers, spec;
      ValidFacts(links, timers, rows, s, t, busy + {t});
      DeactivateFinished(links, timers, rows, s, t, busy);
      timers := timers[t := timers[t].(activated := false)];
      assert timers.Keys == ts.Keys;
      spec := Deactivated(s, t);
    }

    /** The first region of rt_timer_start. */
    method StartOff(t: nat, ghost busy: set<nat>)
      requires Valid(busy) && t in timers
      modifies this
      ensures t in old(spec).timers && t !in spec.queue
      ensures Valid(busy) && spec == TakenOff(old(spec), t) && timers.Keys == old(timers.Keys)
    {
      hide RowsOk, Inv, AllStored;
      TakeOff(t, busy);
      Deactivate(t, busy);
    }

    /** Between its regions rt_timer_start sets the timeout, as long as the queue stays sorted. */
    method ReadTick(t: nat, ghost busy: set<nat>)
      requires Valid(busy) && t in timers
      requires t in spec.timers ==> Sorted(Timed(spec, t).timers, spec.queue)
      modifies this`timers, this`spec
      ensures t in old(spec).timers
      ensures Valid(busy) && spec == Timed(old(spec), t) && timers.Keys == old(timers.Keys)
    {
      hide RowsOk, Inv, AllStored, Sorted;
      ghost var ts0, s := timers, spec;
      ValidFacts(links, timers, rows, s, t, busy);
      TickSum(s.now, ts0[t].initTick);
      timers := timers[t := timers[t].(timeoutTick := (tick + timers[t].initTick) % TICKS)];
      TimedFinished(links, ts0, timers, rows, s, t, busy);
      assert timers.Keys == ts0.Keys;
      spec := Timed(s, t);
    }

    /** The second region of rt_timer_start, for a timer off the queue that is not overdue. */
    method Queue(t: nat, ghost busy: set<nat>)
      requires Valid(busy) && t in timers && t !in spec.queue
      requires t in spec.timers ==> spec.now <= spec.timers[t].deadline
      modifies this
      ensures t in old(spec).timers && Closed(old(spec))
      ensures Valid(busy) && spec == Queued(old(spec), t) && timers.Keys == old(timers.Keys)
    {
      hide RowsOk, Inv, AllStored, Queued, Searchable, Linkable, RowOk, WithTimer, Shape, ScanNode, Nested;
      ghost var m0, ts0, rows0, s := links, timers, rows, spec;
      ValidFacts(m0, ts0, rows0, s, t, busy);
      ghost var tm := Queued(s, t).timers;
      forall l {:trigger rows[l]} | 0 <= l < levels
        ensures Searchable(links, timers, tm, rows[l], l, t) && t !in rows[l] {
        QueuedSearchable(links, timers, rows, s, t, busy, l);
      }
      var rowHead := Search(links, timers, levels, t, rows, tm);
      forall l {:trigger rows[l]} | 0 <= l < levels
        ensures Linkable(links, rows[l], l, timers.Keys, tm, t, rowHead[l]) {
        SearchedLinkable(links, timers, tm, rows[l], l, t, rowHead[l]);
      }
      randomNr := randomNr + 1;
      links, rows := LinkTimer(links, levels, mask, randomNr, t, rowHead, rows, timers.Keys, tm);
      timers := timers[t := timers[t].(activated := true)];
      assert timers.Keys == ts0.Keys;
      QueuedFinished(m0, links, ts0, timers, rows0, rows, s, t, busy);
      spec := Queued(s, t);
    }

    /** rt_timer_start with its regions in a row. */
    method Start(t: nat, ghost busy: set<nat>)
      requires Valid(busy) && t in timers
      modifies this
      ensures Closed(old(spec)) && t in old(spec).timers
      ensures Valid(busy) && spec == StartSpec(old(spec), t) && timers.Keys == old(timers.Keys)
    {
      hide RowsOk, Inv, AllStored, Without, Sorted, Queued;
      ghost var s := spec;
      InvClosed(s, busy);
      StartOff(t, busy);
      TimedSorted(spec, t, busy);
      ReadTick(t, busy);
      Queue(t, busy);
    }

    /** rt_timer_stop with its parts in a row: fails exactly when the timer is not active. */
    method Stop(t: nat, ghost busy: set<nat>) returns (ok: bool)
      requires Valid(busy) && t in timers
      modifies this
      ensures t in old(spec).timers && timers.Keys == old(timers.Keys)
      ensures Valid(busy) && spec == StopSpec(old(spec), t)
      ensures ok <==> old(spec).timers[t].active
    {
      hide RowsOk, Inv, AllStored, Without;
      StopFacts(timers, spec, t);
      if !timers[t].activated {
        return false;
      }
      TakeOff(t, busy);
      Deactivate(t, busy);
      return true;
    }

    /** rt_timer_control with RT_TIMER_CTRL_SET_TIME */
    method SetTime(t: nat, n: nat, ghost busy: set<nat>)
      requires Valid(busy) && t in timers && 1 <= n < HALF
      modifies this`timers, this`spec
      ensures Closed(old(spec)) && t in old(spec).timers
      ensures Valid(busy) && spec == Apply(old(spec), Op.SetTime(t, n))
    {
      hide RowsOk, Inv, AllStored;
      ValidFacts(links, timers, rows, spec, t, busy);
      ghost var ts0, s := timers, spec;
      timers := timers[t := timers[t].(initTick := n)];
      spec := Apply(spec, Op.SetTime(t, n));
      ControlKeeps(links, ts0, timers, rows, s, Op.SetTime(t, n), busy);
    }

    /** rt_timer_control with RT_TIMER_CTRL_SET_PERIODIC or RT_TIMER_CTRL_SET_ONESHOT */
    method SetPeriodic(t: nat, b: bool, ghost busy: set<nat>)
      requires Valid(busy) && t in timers
      modifies this`timers, this`spec
      ensures Closed(old(spec)) && t in old(spec).timers
      ensures Valid(busy) && spec == Apply(old(spec), Op.SetPeriodic(t, b))
    {
      hide RowsOk, Inv, AllStored;
      ValidFacts(links, timers, rows, spec, t, busy);
      ghost var ts0, s := timers, spec;
      timers := timers[t := timers[t].(periodic := b)];
      spec := Apply(spec, Op.SetPeriodic(t, b));
      ControlKeeps(links, ts0, timers, rows, s, Op.SetPeriodic(t, b), busy);
    }

    /** rt_timer_list_next_timeout: the least deadline, or RT_TICK_MAX for an empty list. */
    method NextTimeout() returns (r: nat)
      requires Valid({})
      ensures spec.queue == [] ==> r == TICK_MAX
      ensures spec.queue != [] ==> spec.queue[0] in spec.timers && r == spec.timers[spec.queue[0]].deadline % TICKS
      ensures forall x :: x in spec.queue && x in spec.timers ==>
        spec.timers[spec.queue[0]].deadline <= spec.timers[x].deadline
    {
      var head := Node(HEAD, levels - 1);
      FrontFacts(links, timers, rows, spec, {});
      if RtList.IsEmpty(links, head) {
        return TICK_MAX;
      }
      r := timers[links.next[head].owner].timeoutTick;
    }

    /** What a thread or a timeout function asks of a timer. */
    method Perform(op: Op, ghost busy: set<nat>)
      requires Valid(busy) && OpOk(timers.Keys, op)
      modifies this
      ensures Closed(old(spec)) && op.id in old(spec).timers
      ensures Valid(busy) && spec == Apply(old(spec), op) && timers.Keys == old(timers.Keys)
    {
      hide RowsOk, Inv, StartSpec, StopSpec;
      ValidFacts(links, timers, rows, spec, op.id, busy);
      ApplyClosed(spec, op);
      match op
      case Start(t) => Start(t, busy);
      case Stop(t) => var _ := Stop(t, busy);
      case SetTime(t, n) => SetTime(t, n, busy);
      case SetPeriodic(t, b) => SetPeriodic(t, b, busy);
    }

    /** A timeout function runs: its timer operations, in order. */
    method PerformAll(ops: seq<Op>, ghost busy: set<nat>)
      requires Valid(busy) && AllOk(timers.Keys, ops)
      modifies this
      ensures Closed(old(spec)) && AllOk(old(spec).timers.Keys, ops)
      ensures Valid(busy) && spec == ApplyAll(old(spec), ops) && timers.Keys == old(timers.Keys)
    {
      hide RowsOk, Inv, Apply, OpOk;
      ghost var s0 := spec;
      InvClosed(s0, busy);
      var i := 0;
      while i < |ops|
        invariant 0 <= i <= |ops|
        invariant Valid(busy) && timers.Keys == old(timers.Keys)
        invariant Closed(spec) && AllOk(spec.timers.Keys, ops[i..])
        invariant ApplyAll(spec, ops[i..]) == ApplyAll(s0, ops)
      {
        assert ops[i..][0] == ops[i] && ops[i..][1..] == ops[i + 1..];
        Perform(ops[i], busy);
        InvClosed(spec, busy);
        i := i + 1;
      }
      assert ops[i..] == [];
    }

    /** The front timer has expired: it is taken off and its timeout function runs. */
    method FireFront(t: nat, script: Script, ghost busy: set<nat>)
      requires Valid(busy) && ScriptOk(timers.Keys, script)
      requires spec.queue != [] && t == spec.queue[0] && t in spec.timers && spec.timers[t].deadline <= spec.now
      modifies this
      ensures Closed(old(spec)) && ScriptOk(old(spec).timers.Keys, script)
      ensures Valid(busy) && spec == Fire(old(spec), script) && timers.Keys == old(timers.Keys)
    {
      hide RowsOk, Inv, ApplyAll, Rearmed, Shape, Popped, TakenOut;
      ghost var m0, rows0, s := links, rows, spec;
      InvClosed(s, busy);
      PopReady(m0, timers, rows0, s, busy);
      RemoveTimer(t);
      PopFinished(m0, links, timers, rows0, rows, s, busy);
      spec := Popped(s);
      PerformAll(script(t), busy + {t});
      StaysOff(s, script, spec, busy);
      InvClosed(spec, busy + {t});
      Rearm(t, busy);
    }

    /** After its timeout function: a periodic timer that was not stopped starts again. */
    method Rearm(t: nat, ghost busy: set<nat>)
      requires Valid(busy + {t}) && t in timers && t !in spec.queue && Closed(spec)
      modifies this
      ensures t in old(spec).timers && timers.Keys == old(timers.Keys)
      ensures Valid(busy) && spec == Rearmed(old(spec), t)
    {
      hide RowsOk, Inv, AllStored, StartSpec;
      StopFacts(timers, spec, t);
      if timers[t].periodic && timers[t].activated {
        Deactivate(t, busy);
        Start(t, busy);
      } else {
        Deactivate(t, busy);
      }
    }

    /** rt_timer_check */
    method Check(script: Script, ghost busy: set<nat>)
      requires Valid(busy) && ScriptOk(timers.Keys, script)
      modifies this
      ensures Inv(old(spec), busy) && ScriptOk(old(spec).timers.Keys, script)
      ensures Valid(busy) && spec == CheckSpec(old(spec), script, busy) && timers.Keys == old(timers.Keys)
    {
      hide RowsOk, Inv, Fire, ScriptOk, AllStored;
      StoredKeys(timers, spec);
      ghost var s0 := spec;
      var head := Node(HEAD, levels - 1);
      FrontFacts(links, timers, rows, spec, busy);
      while !RtList.IsEmpty(links, head)
        invariant Valid(busy) && timers.Keys == old(timers.Keys) == spec.timers.Keys
        invariant Has(links, head) && (RtList.IsEmpty(links, head) <==> spec.queue == [])
        invariant CheckSpec(spec, script, busy) == CheckSpec(s0, script, busy)
        decreases Due(spec)
      {
        FrontFacts(links, timers, rows, spec, busy);
        var t := links.next[head].owner;
        DueExact(spec.now, spec.timers[t].deadline);
        if Sub32(tick, timers[t].timeoutTick) < TICK_MAX / 2 {
          FireKeeps(spec, script, busy);
          FireFront(t, script, busy);
          StoredKeys(timers, spec);
        } else {
          break;
        }
        FrontFacts(links, timers, rows, spec, busy);
      }
    }

    /** rt_tick_increase, as far as the timers are concerned */
    method TickIncrease(script: Script, ghost busy: set<nat>)
      requires Valid(busy) && Settled(spec) && ScriptOk(timers.Keys, script)
      modifies this
      ensures Inv(old(spec), busy) && ScriptOk(old(spec).timers.Keys, script)
      ensures Valid(busy) && Settled(spec) && spec == TickSpec(old(spec), script, busy)
      ensures timers.Keys == old(timers.Keys)
    {
      hide RowsOk, Inv, ScriptOk, AllStored, CheckSpec;
      StoredKeys(timers, spec);
      TickSum(spec.now, 1);
      TickKeeps(spec, busy);
      TickStored(timers, spec);
      CheckKeeps(spec.(now := spec.now + 1), script, busy);
      tick := (tick + 1) % TICKS;
      spec := spec.(now := spec.now + 1);
      Check(script, busy);
    }

    /** Any series of timer calls and ticks does what the simple form does. */
    method Execute(es: seq<Event>)
      requires Valid({}) && Settled(spec) && forall i :: 0 <= i < |es| ==> EventOk(timers.Keys, es[i])
      modifies this
      ensures Inv(old(spec), {}) && forall e :: e in es ==> EventOk(old(spec).timers.Keys, e)
      ensures Valid({}) && Settled(spec) && spec == Run(old(spec), es)
    {
      hide RowsOk, Inv, AllStored, Settled, EventOk, Next;
      StoredKeys(timers, spec);
      ghost var s0 := spec;
      var i := 0;
      while i < |es|
        invariant 0 <= i <= |es|
        invariant Valid({}) && Settled(spec) && timers.Keys == spec.timers.Keys == s0.timers.Keys
        invariant forall e :: e in es[i..] ==> EventOk(spec.timers.Keys, e)
        invariant Run(spec, es[i..]) == Run(s0, es)
      {
        assert es[i..][0] == es[i] && es[i..][1..] == es[i + 1..];
        NextKeeps(spec, es[i]);
        Step(es[i]);
        i := i + 1;
      }
      assert es[i..] == [];
    }

    method Step(e: Event)
      requires Valid({}) && Settled(spec) && EventOk(timers.Keys, e)
      modifies this
      ensures Inv(old(spec), {}) && EventOk(old(spec).timers.Keys, e)
      ensures Valid({}) && Settled(spec) && spec == Next(old(spec), e)
        && timers.Keys == old(timers.Keys) == spec.timers.Keys
    {
      hide RowsOk, Inv, AllStored, Settled, Apply, TickSpec;
      StoredKeys(timers, spec);
      NextKeeps(spec, e);
      match e
      case Do(op) => Perform(op, {});
      case Tick(script) => TickIncrease(script, {});
      StoredKeys(timers, spec);
    }
  }

  lemma InitRow(m: Links<Node>, row: seq<nat>, l: nat, ids: set<nat>, t: nat)
    requires RowOk(m, row, l, ids) && t !in ids && t != HEAD
    ensures var n := Node(t, l); var m' := Links(m.next[n := n], m.prev[n := n]);
      RowOk(m', row, l, ids + {t}) && forall k: nat :: k != l ==> SameLevel(m, m', k)
  {
    var n := Node(t, l);
    var m' := Links(m.next[n := n], m.prev[n := n]);
    forall x | x == Node(HEAD, l) || x in RowNodes(row, l) ensures x != n && Has(m, x) {
      RowHas(m, row, l, ids, x.owner);
    }
    RingFrame(m, m', Node(HEAD, l), RowNodes(row, l));
  }

  lemma InitStored(ts0: map<nat, CTimer>, ts: map<nat, CTimer>, s: Sys, t: nat, init: nat, periodic: bool)
    requires AllStored(ts0, s) && Inv(s, {}) && t !in ts0
    requires ts == ts0[t := CTimer(0, init, periodic, false)]
    ensures AllStored(ts, s.(timers := s.timers[t := Timer(init, periodic, false, 0, 0)]))
  {
    var s' := s.(timers := s.timers[t := Timer(init, periodic, false, 0, 0)]);
    InvClosed(s, {});
    forall x | x in ts && x in s'.timers ensures Stored(ts[x], s'.timers[x]) {
      assert x in ts0 ==> Stored(ts0[x], s.timers[x]);
    }
  }

  lemma InitSorted(s: Sys, s': Sys, t: nat, row: seq<nat>)
    requires Sorted(s.timers, row) && t !in s.timers && forall x :: x in s.timers ==>
      x in s'.timers && s'.timers[x] == s.timers[x]
    ensures Sorted(s'.timers, row)
  {
    SortedFrame(s.timers, s'.timers, row);
  }

  lemma InitInv(s: Sys, t: nat, init: nat, periodic: bool)
    requires Inv(s, {}) && t !in s.timers && 1 <= init < HALF
    ensures Inv(s.(timers := s.timers[t := Timer(init, periodic, false, 0, 0)]), {})
  {
    var s' := s.(timers := s.timers[t := Timer(init, periodic, false, 0, 0)]);
    InitSorted(s, s', t, s.queue);
    forall x | x in s'.queue ensures Pending(s', x) {
      assert Pending(s, x);
    }
    forall f | f in s'.fired ensures Delivered(s', f) {
      assert Delivered(s, f);
    }
  }

  // ----- the rows as subsequences -----

  /** `f` picks `row` out of `below`, left to right. */
  ghost predicate Picks(row: seq<nat>, below: seq<nat>, f: seq<nat>) {
    && |f| == |row|
    && (forall i :: 0 <= i < |f| ==> f[i] < |below| && below[f[i]] == row[i])
    && (forall i, j :: 0 <= i < j < |f| ==> f[i] < f[j])
  }

  /** In every state of the timer list, each row is a subsequence of the row below it. */
  lemma RowsAreSubsequences(m: Links<Node>, rows: seq<seq<nat>>, ids: set<nat>, tm: map<nat, Timer>, queue: seq<nat>,
      l: nat)
    returns (f: seq<nat>)
    requires RowsOk(m, rows, ids, tm, queue) && l + 1 < |rows|
    ensures Picks(rows[l], rows[l + 1], f)
  {
    assert NestedAt(rows, l) && rows[l] == rows[l] && rows[l + 1] == rows[l + 1];
    f := SortedPicks(tm, rows[l], rows[l + 1]);
  }

  lemma NeverBehind(tm: map<nat, Timer>, q: seq<nat>)
    requires Sorted(tm, q)
    ensures forall i, j :: 0 <= i <= j < |q| ==> !Ahead(tm, q[j], q[i])
  {
    forall i, j | 0 <= i <= j < |q| ensures !Ahead(tm, q[j], q[i]) {
      assert i < j ==> Ahead(tm, q[i], q[j]);
    }
  }

  lemma {:induction false} SortedPicks(tm: map<nat, Timer>, row: seq<nat>, below: seq<nat>) returns (f: seq<nat>)
    requires Sorted(tm, row) && Sorted(tm, below) && forall x :: x in row ==> x in below
    ensures Picks(row, below, f)
  {
    f := [];
    if row != [] {
      var n := |row| - 1;
      var g := SortedPicks(tm, row[..n], below);
      assert row[n] in row;
      var k :| 0 <= k < |below| && below[k] == row[n];
      NeverBehind(tm, below);
      forall i | 0 <= i < n ensures g[i] < k {
        assert Ahead(tm, row[i], row[n]);
      }
      f := g + [k];
    }
  }

  lemma InvClosed(s: Sys, busy: set<nat>)
    requires Inv(s, busy)
    ensures Closed(s)
  {
  }

  lemma StoredKeys(ts: map<nat, CTimer>, s: Sys)
    requires AllStored(ts, s)
    ensures ts.Keys == s.timers.Keys
  {
  }

  lemma TickStored(ts: map<nat, CTimer>, s: Sys)
    requires AllStored(ts, s)
    ensures AllStored(ts, s.(now := s.now + 1))
  {
  }

  lemma PopReady(m: Links<Node>, ts: map<nat, CTimer>, rows: seq<seq<nat>>, s: Sys, busy: set<nat>)
    requires RowsOk(m, rows, ts.Keys, s.timers, s.queue) && Inv(s, busy) && AllStored(ts, s) && s.queue != []
    ensures Shape(m, rows, ts.Keys) && s.queue[0] in ts && ts.Keys == s.timers.Keys
  {
    assert s.queue[0] in s.queue;
  }

  lemma PopFinished(m0: Links<Node>, m: Links<Node>, ts: map<nat, CTimer>, rows0: seq<seq<nat>>, rows1: seq<seq<nat>>,
      s: Sys, busy: set<nat>)
    requires RowsOk(m0, rows0, ts.Keys, s.timers, s.queue) && Inv(s, busy) && AllStored(ts, s)
    requires s.queue != [] && s.queue[0] in s.timers && s.timers[s.queue[0]].deadline <= s.now
    requires TakenOut(rows0, rows1, s.queue[0]) && Shape(m, rows1, ts.Keys)
    ensures var s1 := Popped(s);
      RowsOk(m, rows1, ts.Keys, s1.timers, s1.queue) && AllStored(ts, s1) && s1.now == s.now
        && Inv(s1, busy + {s.queue[0]})
  {
    hide Inv, Sorted, RowOk;
    var t, s1 := s.queue[0], Popped(s);
    PopKeeps(s, busy);
    forall l {:trigger rows1[l]} | 0 <= l < |rows1| ensures Sorted(s1.timers, rows1[l]) {
      assert rows0[l] == rows0[l];
      WithoutSorted(s.timers, rows0[l], t);
    }
    assert rows1[|rows1| - 1] == Without(s.queue, t) == s1.queue;
    forall x | x in ts && x in s1.timers ensures Stored(ts[x], s1.timers[x]) {
      assert Stored(ts[x], s.timers[x]);
    }
  }

  lemma StaysOff(s: Sys, script: Script, s2: Sys, busy: set<nat>)
    requires Inv(s, busy) && s.queue != [] && Closed(s) && ScriptOk(s.timers.Keys, script)
    requires s.timers[s.queue[0]].deadline <= s.now
    requires Closed(Popped(s)) && s2 == ApplyAll(Popped(s), script(s.queue[0]))
    ensures s.queue[0] !in s2.queue && s.queue[0] in s2.timers
  {
    hide ApplyAll, Inv;
    PopKeeps(s, busy);
    ApplyAllStaysOff(Popped(s), script(s.queue[0]), s.queue[0]);
  }

  lemma DeactivateFinished(m: Links<Node>, ts: map<nat, CTimer>, rows: seq<seq<nat>>, s: Sys, t: nat,
                           busy: set<nat>)
    requires RowsOk(m, rows, ts.Keys, s.timers, s.queue) && Inv(s, busy + {t}) && AllStored(ts, s)
    requires t in s.timers && t !in s.queue
    ensures t in ts && ts[t].periodic == s.timers[t].periodic && ts[t].activated == s.timers[t].active
    ensures var s', ts' := Deactivated(s, t), ts[t := ts[t].(activated := false)];
      RowsOk(m, rows, ts'.Keys, s'.timers, s'.queue) && AllStored(ts', s') && Inv(s', busy) && s'.now == s.now
  {
    hide Inv, Sorted, RowOk;
    var s', ts' := Deactivated(s, t), ts[t := ts[t].(activated := false)];
    DeactivatedKeeps(s, t, busy);
    assert Stored(ts[t], s.timers[t]) && ts'.Keys == ts.Keys;
    forall l {:trigger rows[l]} | 0 <= l < |rows| ensures Sorted(s'.timers, rows[l]) {
      assert rows[l] == rows[l];
      DeactivatedRow(rows[l], s, t);
    }
    forall x | x in ts' && x in s'.timers ensures Stored(ts'[x], s'.timers[x]) {
      assert Stored(ts[x], s.timers[x]);
    }
  }

  lemma DeactivatedRow(row: seq<nat>, s: Sys, t: nat)
    requires Sorted(s.timers, row) && t in s.timers
    ensures Sorted(Deactivated(s, t).timers, row)
  {
    SortedFrame(s.timers, Deactivated(s, t).timers, row);
  }

  /** The front of the bottom row is the front of the queue. */
  lemma FrontFacts(m: Links<Node>, ts: map<nat, CTimer>, rows: seq<seq<nat>>, s: Sys, busy: set<nat>)
    requires RowsOk(m, rows, ts.Keys, s.timers, s.queue) && Inv(s, busy) && AllStored(ts, s)
    ensures var head := Node(HEAD, |rows| - 1);
      && Has(m, head) && (RtList.IsEmpty(m, head) <==> s.queue == [])
      && (s.queue != [] ==>
           var x := s.queue[0];
           && m.next[head].owner == x && x in ts && x in s.timers
           && ts[x].timeoutTick == s.timers[x].deadline % TICKS
           && s.now <= s.timers[x].deadline < s.now + HALF)
    ensures forall x :: x in s.queue && x in s.timers ==> s.timers[s.queue[0]].deadline <= s.timers[x].deadline
  {
    var l := |rows| - 1;
    assert RowOk(m, rows[l], l, ts.Keys);
    EmptyRing(m, Node(HEAD, l), RowNodes(rows[l], l));
    RowNeighbours(m, rows[l], l, ts.Keys, 0);
    SortedDeadlines(s.timers, s.queue);
    if s.queue != [] {
      var x := s.queue[0];
      assert x in s.queue && Pending(s, x);
      assert Stored(ts[x], s.timers[x]);
    }
    forall x | x in s.queue && x in s.timers ensures s.timers[s.queue[0]].deadline <= s.timers[x].deadline {
      var j :| 0 <= j < |s.queue| && s.queue[j] == x;
    }
  }

  lemma StopFacts(ts: map<nat, CTimer>, s: Sys, t: nat)
    requires AllStored(ts, s) && t in ts
    ensures t in s.timers && ts[t].activated == s.timers[t].active && ts[t].periodic == s.timers[t].periodic
    ensures !s.timers[t].active ==> StopSpec(s, t) == s
  {
    assert Stored(ts[t], s.timers[t]);
  }

  lemma TimedSorted(s: Sys, t: nat, busy: set<nat>)
    requires Inv(s, busy) && t in s.timers && t !in s.queue
    ensures Sorted(Timed(s, t).timers, s.queue)
  {
    SortedFrame(s.timers, Timed(s, t).timers, s.queue);
  }

  /** Setting the period or the mode of a timer touches no list. */
  lemma ControlKeeps(m: Links<Node>, ts0: map<nat, CTimer>, ts: map<nat, CTimer>, rows: seq<seq<nat>>,
                     s: Sys, op: Op, busy: set<nat>)
    requires RowsOk(m, rows, ts0.Keys, s.timers, s.queue) && Inv(s, busy) && AllStored(ts0, s) && op.id in ts0
    requires (op.SetTime? && 1 <= op.init < HALF && ts == ts0[op.id := ts0[op.id].(initTick := op.init)])
          || (op.SetPeriodic? && ts == ts0[op.id := ts0[op.id].(periodic := op.periodic)])
    ensures Closed(s) && OpOk(s.timers.Keys, op)
    ensures var s' := Apply(s, op);
      RowsOk(m, rows, ts.Keys, s'.timers, s'.queue) && AllStored(ts, s') && Inv(s', busy) && s'.now == s.now
  {
    hide Inv, Sorted, RowOk;
    InvFacts(s, busy);
    ApplyKeeps(s, op, busy);
    var s' := Apply(s, op);
    assert ts.Keys == ts0.Keys;
    forall l {:trigger rows[l]} | 0 <= l < |rows| ensures Sorted(s'.timers, rows[l]) {
      ControlledRow(rows[l], s, op);
    }
    forall x | x in ts && x in s'.timers ensures Stored(ts[x], s'.timers[x]) {
      assert Stored(ts0[x], s.timers[x]);
    }
  }

  lemma ControlledRow(row: seq<nat>, s: Sys, op: Op)
    requires Sorted(s.timers, row) && Closed(s) && op.id in s.timers && (op.SetTime? || op.SetPeriodic?)
    ensures Sorted(Apply(s, op).timers, row)
  {
    SortedFrame(s.timers, Apply(s, op).timers, row);
  }

  lemma ValidFacts(m: Links<Node>, ts: map<nat, CTimer>, rows: seq<seq<nat>>, s: Sys, t: nat, busy: set<nat>)
    requires RowsOk(m, rows, ts.Keys, s.timers, s.queue) && Inv(s, busy) && AllStored(ts, s) && t in ts
    ensures Shape(m, rows, ts.Keys) && Nested(rows) && t in s.timers && Closed(s) && ts[t].initTick == s.timers[t].init
    ensures t in Queued(s, t).timers
  {
    InvFacts(s, busy);
  }

  /** One step of the cursor, as long as it is not on the last node. */
  lemma CursorStep(m: Links<Node>, row: seq<nat>, l: nat, ids: set<nat>, k: nat)
    requires RowOk(m, row, l, ids) && k <= |row| && HEAD !in ids
    requires Has(m, Node(HEAD, l)) && BeforeIn(row, l, k) != m.prev[Node(HEAD, l)]
    ensures k < |row| && row[k] in row && row[k] in ids
    ensures Has(m, BeforeIn(row, l, k)) && m.next[BeforeIn(row, l, k)] == Node(row[k], l) == BeforeIn(row, l, k + 1)
    ensures Has(m, Node(row[k], l))
  {
    RowNeighbours(m, row, l, ids, |row|);
    RowNeighbours(m, row, l, ids, k);
    RowHas(m, row, l, ids, row[k]);
  }

  /** Only the last node of a row is the one in front of its head. */
  lemma LastBefore(m: Links<Node>, row: seq<nat>, l: nat, ids: set<nat>, k: nat)
    requires RowOk(m, row, l, ids) && k <= |row| && HEAD !in ids
    ensures Has(m, Node(HEAD, l)) && (BeforeIn(row, l, k) == m.prev[Node(HEAD, l)] <==> k == |row|)
  {
    RowNeighbours(m, row, l, ids, |row|);
    RowNeighbours(m, row, l, ids, k);
    RowDistinct(m, row, l, ids);
    if k < |row| {
      assert AfterIn(row, l, k) == Node(row[k], l) && row[k] in row;
    }
  }
}
