/**
 What the system timers of src/timer.c and src/clock.c are for, in unbounded time.

 `Sys` is the simple form: an absolute tick count, one pending queue kept by a plain
 sorted insertion, and a log of the timeouts that have been delivered. The skip list
 with its 32-bit ticks (SkipList.dfy) is proved to refine it; the lemmas here say what
 every run of it delivers.
 */
module TimerSpec {
  import opened RtList

  /** RT_TICK_MAX / 2, the exclusive bound on a timer's period. */
  const HALF := 0x7FFF_FFFF

  datatype Timer = Timer(init: nat, periodic: bool, active: bool, deadline: nat, stamp: nat)

  /** One call of a timeout function: whose, for which deadline and start, and when. */
  datatype Firing = Firing(id: nat, deadline: nat, stamp: nat, at: nat)

  /** `clock` numbers the starts, so that `stamp` tells which of two was earlier. */
  datatype Sys = Sys(now: nat, clock: nat, timers: map<nat, Timer>, queue: seq<nat>, fired: seq<Firing>)

  /** What threads and timeout functions may ask of a timer. */
  datatype Op = Start(id: nat) | Stop(id: nat) | SetTime(id: nat, init: nat) | SetPeriodic(id: nat, periodic: bool)

  /** A timeout function is known by the timer operations it performs. */
  type Script = nat -> seq<Op>

  datatype Event = Do(op: Op) | Tick(script: Script)

  // ----- the simple form of the operations -----

  /** Where a scan from the front of `q` first meets a later deadline than `d`. */
  function Scan(tm: map<nat, Timer>, q: seq<nat>, d: nat): (k: nat)
    requires forall x :: x in q ==> x in tm
    ensures k <= |q|
    ensures forall i :: 0 <= i < k ==> tm[q[i]].deadline <= d
    ensures k < |q| ==> tm[q[k]].deadline > d
  {
    if q == [] || tm[q[0]].deadline > d then 0 else 1 + Scan(tm, q[1..], d)
  }

  function Without(q: seq<nat>, t: nat): seq<nat> {
    if q == [] then [] else if q[0] == t then q[1..] else [q[0]] + Without(q[1..], t)
  }

  /** The first region of rt_timer_start. */
  function TakenOff(s: Sys, t: nat): Sys
    requires t in s.timers
  {
    s.(timers := s.timers[t := s.timers[t].(active := false)], queue := Without(s.queue, t))
  }

  function SetDeadline(s: Sys, t: nat, d: nat): Sys
    requires t in s.timers
  {
    s.(timers := s.timers[t := s.timers[t].(deadline := d)])
  }

  /** Between its regions rt_timer_start sets the timeout from the tick. */
  function Timed(s: Sys, t: nat): Sys
    requires t in s.timers
  {
    SetDeadline(s, t, s.now + s.timers[t].init)
  }

  /** The second region of rt_timer_start. */
  function Queued(s: Sys, t: nat): Sys
    requires t in s.timers && forall x :: x in s.queue ==> x in s.timers
  {
    s.(timers := s.timers[t := s.timers[t].(active := true, stamp := s.clock)],
       queue := Inserted(s.queue, Scan(s.timers, s.queue, s.timers[t].deadline), t),
       clock := s.clock + 1)
  }

  /** rt_timer_start as one step */
  function StartSpec(s: Sys, t: nat): Sys
    requires t in s.timers && forall x :: x in s.queue ==> x in s.timers
  {
    WithoutMembers(s.queue, t);
    Queued(Timed(TakenOff(s, t), t), t)
  }

  function Deactivated(s: Sys, t: nat): Sys
    requires t in s.timers
  {
    s.(timers := s.timers[t := s.timers[t].(active := false)])
  }

  function StopSpec(s: Sys, t: nat): Sys
    requires t in s.timers
  {
    if !s.timers[t].active then s
    else s.(timers := s.timers[t := s.timers[t].(active := false)], queue := Without(s.queue, t))
  }

  function Apply(s: Sys, op: Op): Sys
    requires op.id in s.timers && forall x :: x in s.queue ==> x in s.timers
  {
    match op
    case Start(t) => StartSpec(s, t)
    case Stop(t) => StopSpec(s, t)
    case SetTime(t, n) => s.(timers := s.timers[t := s.timers[t].(init := n)])
    case SetPeriodic(t, b) => s.(timers := s.timers[t := s.timers[t].(periodic := b)])
  }

  /** An operation on one of the timers `ids`; periods stay below half the tick range. */
  predicate OpOk(ids: set<nat>, op: Op) {
    op.id in ids && (op.SetTime? ==> 1 <= op.init < HALF)
  }

  predicate AllOk(ids: set<nat>, ops: seq<Op>) {
    forall i :: 0 <= i < |ops| ==> OpOk(ids, ops[i])
  }

  /** A timeout function does not start its own timer. */
  ghost predicate ScriptOk(ids: set<nat>, script: Script) {
    forall t :: t in ids ==> AllOk(ids, script(t)) && Start(t) !in script(t)
  }

  // ----- the invariant -----

  /** Deadline first, start order second. */
  predicate Earlier(d1: nat, s1: nat, d2: nat, s2: nat) {
    d1 < d2 || (d1 == d2 && s1 < s2)
  }

  predicate Ahead(tm: map<nat, Timer>, x: nat, y: nat)
    requires x in tm && y in tm
  {
    Earlier(tm[x].deadline, tm[x].stamp, tm[y].deadline, tm[y].stamp)
  }

  ghost predicate Sorted(tm: map<nat, Timer>, q: seq<nat>) {
    && (forall x :: x in q ==> x in tm)
    && (forall i, j :: 0 <= i < j < |q| ==> Ahead(tm, q[i], q[j]))
  }

  ghost predicate LogSorted(fired: seq<Firing>) {
    forall i, j :: 0 <= i < j < |fired| ==>
      Earlier(fired[i].deadline, fired[i].stamp, fired[j].deadline, fired[j].stamp)
  }

  /** A pending timer is at or ahead of the present by less than half the tick range. */
  predicate Pending(s: Sys, x: nat)
    requires x in s.timers
  {
    var t := s.timers[x];
    t.active && s.now <= t.deadline < s.now + HALF && t.stamp < s.clock
  }

  /** A delivered timeout was delivered at its deadline, before everything still pending. */
  ghost predicate Delivered(s: Sys, f: Firing) {
    && f.at == f.deadline <= s.now
    && f.stamp < s.clock
    && forall x :: x in s.queue && x in s.timers ==>
      Earlier(f.deadline, f.stamp, s.timers[x].deadline, s.timers[x].stamp)
  }

  /** `busy` holds the timer whose timeout function is running, if any. */
  ghost predicate Inv(s: Sys, busy: set<nat>) {
    && (forall x :: x in s.timers ==> 1 <= s.timers[x].init < HALF && s.timers[x].deadline < s.now + HALF)
    && Sorted(s.timers, s.queue)
    && (forall x :: x in s.queue ==> Pending(s, x))
    && (forall x :: x in s.timers && s.timers[x].active ==> x in s.queue || x in busy)
    && LogSorted(s.fired)
    && (forall f :: f in s.fired ==> Delivered(s, f))
  }

  /** Nothing that is due is left pending. */
  predicate Settled(s: Sys) {
    forall x :: x in s.queue && x in s.timers ==> s.timers[x].deadline > s.now
  }

  ghost function Due(s: Sys): set<nat> {
    set x | x in s.queue && x in s.timers && s.timers[x].deadline <= s.now
  }

  // ----- the queue -----

  lemma {:induction false} WithoutMembers(q: seq<nat>, t: nat)
    ensures forall x :: x in Without(q, t) ==> x in q
    ensures forall x :: x in q && x != t ==> x in Without(q, t)
    ensures |Without(q, t)| <= |q|
  {
    if q != [] && q[0] != t {
      WithoutMembers(q[1..], t);
    }
  }

  lemma {:induction false} WithoutDropped(q: seq<nat>, k: nat)
    requires k < |q| && forall i :: 0 <= i < k ==> q[i] != q[k]
    ensures Without(q, q[k]) == Dropped(q, k)
  {
    if k > 0 {
      WithoutDropped(q[1..], k - 1);
      assert q[1..][k - 1] == q[k];
      assert Dropped(q, k) == [q[0]] + Dropped(q[1..], k - 1);
    }
  }

  lemma {:induction false} WithoutAbsent(q: seq<nat>, t: nat)
    requires t !in q
    ensures Without(q, t) == q
  {
    if q != [] {
      WithoutAbsent(q[1..], t);
    }
  }

  lemma WithoutSorted(tm: map<nat, Timer>, q: seq<nat>, t: nat)
    requires Sorted(tm, q)
    ensures Sorted(tm, Without(q, t)) && t !in Without(q, t)
  {
    if t in q {
      var k :| 0 <= k < |q| && q[k] == t;
      DroppedSorted(tm, q, k);
      WithoutDropped(q, k);
    } else {
      WithoutAbsent(q, t);
    }
  }

  lemma DroppedSorted(tm: map<nat, Timer>, q: seq<nat>, k: nat)
    requires Sorted(tm, q) && k < |q|
    ensures Sorted(tm, Dropped(q, k)) && q[k] !in Dropped(q, k)
    ensures forall i :: 0 <= i < k ==> q[i] != q[k]
  {
    hide Earlier;
    var r := Dropped(q, k);
    forall i, j | 0 <= i < j < |r| ensures Ahead(tm, r[i], r[j]) {
      assert Ahead(tm, q[if i < k then i else i + 1], q[if j < k then j else j + 1]);
    }
    forall i | 0 <= i < |q| && i != k ensures q[i] != q[k] {
      assert Ahead(tm, q[if i < k then i else k], q[if i < k then k else i]);
      NotAhead(tm, q[k]);
    }
    forall i | 0 <= i < |r| ensures r[i] in tm && r[i] != q[k] {
      assert r[i] == q[if i < k then i else i + 1];
    }
  }

  lemma NotAhead(tm: map<nat, Timer>, x: nat)
    requires x in tm
    ensures !Ahead(tm, x, x)
  {
  }

  /** The order of a queue does not depend on timers that are not on it. */
  lemma SortedFrame(tm: map<nat, Timer>, tm': map<nat, Timer>, q: seq<nat>)
    requires Sorted(tm, q)
    requires forall x :: x in q ==> x in tm' && tm'[x].deadline == tm[x].deadline && tm'[x].stamp == tm[x].stamp
    ensures Sorted(tm', q)
  {
    forall i, j | 0 <= i < j < |q|
      ensures Ahead(tm', q[i], q[j])
    {
      assert Ahead(tm, q[i], q[j]) && q[i] in q && q[j] in q;
    }
  }

  lemma {:induction false} ScanFrame(tm: map<nat, Timer>, tm': map<nat, Timer>, q: seq<nat>, d: nat)
    requires forall x :: x in q ==> x in tm && x in tm' && tm'[x].deadline == tm[x].deadline
    ensures Scan(tm', q, d) == Scan(tm, q, d)
  {
    if q != [] {
      assert q[0] in q;
      ScanFrame(tm, tm', q[1..], d);
    }
  }

  /** Inserting where the scan stops keeps the queue sorted, behind equal deadlines. */
  lemma InsertSorted(tm: map<nat, Timer>, q: seq<nat>, t: nat)
    requires Sorted(tm, q) && t in tm && t !in q
    requires forall x :: x in q ==> tm[x].stamp < tm[t].stamp
    ensures Sorted(tm, Inserted(q, Scan(tm, q, tm[t].deadline), t))
  {
    hide Ahead;
    var k := Scan(tm, q, tm[t].deadline);
    var r := Inserted(q, k, t);
    InsertedMembers(q, k, t);
    forall i, j | 0 <= i < j < |r| ensures Ahead(tm, r[i], r[j]) {
      if j == k {
        NotBehind(tm, q, t, i);
      } else if i == k {
        InFront(tm, q, t, j - 1);
      }
    }
  }

  lemma NotBehind(tm: map<nat, Timer>, q: seq<nat>, t: nat, i: nat)
    requires Sorted(tm, q) && t in tm && i < Scan(tm, q, tm[t].deadline)
    requires forall x :: x in q ==> tm[x].stamp < tm[t].stamp
    ensures Ahead(tm, q[i], t)
  {
    assert q[i] in q;
  }

  lemma InFront(tm: map<nat, Timer>, q: seq<nat>, t: nat, j: nat)
    requires Sorted(tm, q) && t in tm && Scan(tm, q, tm[t].deadline) <= j < |q|
    ensures Ahead(tm, t, q[j])
  {
    var k := Scan(tm, q, tm[t].deadline);
    assert k < j ==> Ahead(tm, q[k], q[j]);
  }

  // ----- every operation keeps the invariant -----

  /** Taking a timer off its queue, whether it was on it or not. */
  lemma OffKeeps(s: Sys, t: nat, busy: set<nat>)
    requires Inv(s, busy) && t in s.timers
    ensures Inv(s.(queue := Without(s.queue, t)), busy + {t}) && t !in Without(s.queue, t)
  {
    var s' := s.(queue := Without(s.queue, t));
    WithoutMembers(s.queue, t);
    WithoutSorted(s.timers, s.queue, t);
    hide Without, Sorted, LogSorted;
    forall x | x in s'.queue ensures Pending(s', x) {
      assert Pending(s, x);
    }
    forall f | f in s'.fired ensures Delivered(s', f) {
      assert Delivered(s, f);
    }
  }

  lemma DeactivatedKeeps(s: Sys, t: nat, busy: set<nat>)
    requires Inv(s, busy + {t}) && t in s.timers && t !in s.queue
    ensures Inv(Deactivated(s, t), busy) && Due(Deactivated(s, t)) <= Due(s)
  {
    var s' := Deactivated(s, t);
    SortedFrame(s.timers, s'.timers, s'.queue);
    hide Sorted, LogSorted;
    forall f | f in s'.fired ensures Delivered(s', f) {
      assert Delivered(s, f);
    }
    forall x | x in s'.queue ensures Pending(s', x) {
      assert Pending(s, x);
    }
  }

  lemma TakenOffKeeps(s: Sys, t: nat, busy: set<nat>)
    requires Inv(s, busy) && t in s.timers
    ensures Inv(TakenOff(s, t), busy) && t !in TakenOff(s, t).queue
  {
    hide Inv, Without;
    var s1 := s.(queue := Without(s.queue, t));
    OffKeeps(s, t, busy);
    DeactivatedKeeps(s1, t, busy);
    assert TakenOff(s, t) == Deactivated(s1, t);
  }

  /** Setting the timeout of a timer keeps everything if and only if the queue stays sorted. */
  lemma TimedIff(s: Sys, t: nat, busy: set<nat>)
    requires Inv(s, busy) && t in s.timers
    ensures Inv(Timed(s, t), busy) <==> Sorted(Timed(s, t).timers, s.queue)
  {
    var s' := Timed(s, t);
    hide Sorted, LogSorted;
    if Sorted(s'.timers, s.queue) {
      forall x | x in s'.queue ensures Pending(s', x) {
        assert Pending(s, x);
      }
      forall f | f in s'.fired ensures Delivered(s', f) {
        assert Delivered(s, f);
      }
    }
  }

  lemma TimedKeeps(s: Sys, t: nat, busy: set<nat>)
    requires Inv(s, busy) && t in s.timers && t !in s.queue
    ensures Inv(Timed(s, t), busy)
  {
    SortedFrame(s.timers, Timed(s, t).timers, s.queue);
    TimedIff(s, t, busy);
  }

  lemma QueuedSorted(s: Sys, t: nat, busy: set<nat>)
    requires Inv(s, busy) && t in s.timers && t !in s.queue
    ensures var s' := Queued(s, t);
      && Sorted(s'.timers, s'.queue)
      && forall x :: x in s'.queue <==> x in s.queue || x == t
  {
    var q, s' := s.queue, Queued(s, t);
    SortedFrame(s.timers, s'.timers, q);
    ScanFrame(s.timers, s'.timers, q, s'.timers[t].deadline);
    InsertSorted(s'.timers, q, t);
    InsertedMembers(q, Scan(s.timers, q, s'.timers[t].deadline), t);
  }

  lemma QueuedKeeps(s: Sys, t: nat, busy: set<nat>)
    requires Inv(s, busy) && t in s.timers && t !in s.queue && s.now <= s.timers[t].deadline
    ensures Inv(Queued(s, t), busy)
  {
    var s' := Queued(s, t);
    QueuedSorted(s, t, busy);
    hide Scan, Sorted, LogSorted, Inserted;
    forall x | x in s'.queue ensures Pending(s', x) {
      assert x != t ==> Pending(s, x);
    }
    forall f | f in s'.fired ensures Delivered(s', f) {
      assert Delivered(s, f);
    }
  }

  lemma StartSorted(s: Sys, t: nat, busy: set<nat>)
    requires Inv(s, busy) && t in s.timers
    ensures var s' := StartSpec(s, t);
      && Sorted(s'.timers, s'.queue)
      && forall x :: x in s'.queue <==> x in s.queue || x == t
  {
    hide Inv, Without, Scan, Sorted, Inserted;
    TakenOffKeeps(s, t, busy);
    TimedKeeps(TakenOff(s, t), t, busy);
    WithoutMembers(s.queue, t);
    QueuedSorted(Timed(TakenOff(s, t), t), t, busy);
  }

  lemma StartKeeps(s: Sys, t: nat, busy: set<nat>)
    requires Inv(s, busy) && t in s.timers
    ensures forall x :: x in s.queue ==> x in s.timers
    ensures Inv(StartSpec(s, t), busy)
    ensures t in StartSpec(s, t).queue
  {
    InvQueue(s, busy);
    StartSorted(s, t, busy);
    hide Inv, Without, Scan, Sorted, Inserted;
    TakenOffKeeps(s, t, busy);
    TimedKeeps(TakenOff(s, t), t, busy);
    InvQueue(TakenOff(s, t), busy);
    QueuedKeeps(Timed(TakenOff(s, t), t), t, busy);
  }

  /**
   rt_timer_start when d ticks come between its reading of the tick and its second region: the
   timeout counts from the reading.
   */
  function LateStart(s: Sys, t: nat, d: nat): Sys
    requires t in s.timers && d <= s.now && forall x :: x in s.queue ==> x in s.timers
  {
    Queued(SetDeadline(s, t, s.now - d + s.timers[t].init), t)
  }

  lemma InvQueue(s: Sys, busy: set<nat>)
    requires Inv(s, busy)
    ensures forall x :: x in s.queue ==> x in s.timers
    ensures forall x :: x in s.timers ==> 1 <= s.timers[x].init < HALF && s.timers[x].deadline < s.now + HALF
  {
  }

  /** A timer on the queue twice. */
  lemma TwiceUnsorted(s: Sys, t: nat)
    requires t in s.timers && t in s.queue && forall x :: x in s.queue ==> x in s.timers
    ensures !Sorted(Queued(s, t).timers, Queued(s, t).queue)
  {
    var q, k, s' := s.queue, Scan(s.timers, s.queue, s.timers[t].deadline), Queued(s, t);
    var i :| 0 <= i < |q| && q[i] == t;
    assert s'.queue[k] == t && s'.queue[if i < k then i else i + 1] == t;
    assert !Ahead(s'.timers, t, t);
  }

  lemma TwiceBroken(s: Sys, t: nat, busy: set<nat>)
    requires t in s.timers && t in s.queue && forall x :: x in s.queue ==> x in s.timers
    ensures !Inv(Queued(s, t), busy)
  {
    hide Sorted, Queued, LogSorted;
    TwiceUnsorted(s, t);
  }

  /** The second region keeps everything, with nothing overdue, if and only if the timer is off
      the queue and its timeout lies ahead. */
  lemma QueuedIff(s: Sys, t: nat, busy: set<nat>)
    requires Inv(s, busy) && Settled(s) && t in s.timers
    ensures forall x :: x in s.queue ==> x in s.timers
    ensures Inv(Queued(s, t), busy) && Settled(Queued(s, t)) <==> t !in s.queue && s.now < s.timers[t].deadline
  {
    hide Scan, Inserted;
    InvQueue(s, busy);
    var k := Scan(s.timers, s.queue, s.timers[t].deadline);
    InsertedMembers(s.queue, k, t);
    if t in s.queue {
      TwiceUnsorted(s, t);
    } else if s.now < s.timers[t].deadline {
      QueuedKeeps(s, t, busy);
    }
  }

  /** A late start is in order, with nothing overdue, if and only if the timer is off the queue
      and fewer ticks came in between than it waits. */
  lemma LateStartIff(s: Sys, t: nat, d: nat)
    requires Inv(s, {}) && Settled(s) && t in s.timers && d <= s.now
    ensures forall x :: x in s.queue ==> x in s.timers
    ensures Inv(LateStart(s, t, d), {}) && Settled(LateStart(s, t, d)) <==> t !in s.queue && d < s.timers[t].init
  {
    hide Inv, Queued, Settled;
    InvQueue(s, {});
    var s1 := SetDeadline(s, t, s.now - d + s.timers[t].init);
    if t in s.queue {
      TwiceBroken(s1, t, {});
    } else {
      SetKeeps(s, t, s.now - d + s.timers[t].init);
      QueuedIff(s1, t, {});
    }
  }

  lemma SetKeeps(s: Sys, t: nat, d: nat)
    requires Inv(s, {}) && Settled(s) && t in s.timers && t !in s.queue && d < s.now + HALF
    ensures Inv(SetDeadline(s, t, d), {}) && Settled(SetDeadline(s, t, d))
  {
    var s' := SetDeadline(s, t, d);
    SortedFrame(s.timers, s'.timers, s.queue);
    hide Sorted, LogSorted;
    forall x | x in s'.queue ensures Pending(s', x) {
      assert Pending(s, x);
    }
    forall f | f in s'.fired ensures Delivered(s', f) {
      assert Delivered(s, f);
    }
  }

  lemma StopKeeps(s: Sys, t: nat, busy: set<nat>)
    requires Inv(s, busy) && t in s.timers
    ensures Inv(StopSpec(s, t), busy)
  {
    hide Inv, Without;
    if s.timers[t].active {
      TakenOffKeeps(s, t, busy);
    }
  }

  lemma ApplyKeeps(s: Sys, op: Op, busy: set<nat>)
    requires Inv(s, busy) && OpOk(s.timers.Keys, op)
    ensures Inv(Apply(s, op), busy)
  {
    match op
    case Start(t) => StartKeeps(s, t, busy);
    case Stop(t) => StopKeeps(s, t, busy);
    case _ =>
      var s' := Apply(s, op);
      SortedFrame(s.timers, s'.timers, s'.queue);
      forall f | f in s'.fired
        ensures Delivered(s', f)
      {
        assert Delivered(s, f);
      }
  }

  /** What an operation on another timer leaves alone. */
  lemma ApplyFrame(s: Sys, op: Op, t: nat)
    requires OpOk(s.timers.Keys, op) && (forall x :: x in s.queue ==> x in s.timers) && t in s.timers && op.id != t
    ensures var s' := Apply(s, op);
      && s'.timers.Keys == s.timers.Keys && s'.timers[t] == s.timers[t] && (t in s'.queue <==> t in s.queue)
      && s'.now == s.now && s'.fired == s.fired
  {
    WithoutMembers(s.queue, op.id);
    if op.Start? {
      var s1 := Timed(TakenOff(s, op.id), op.id);
      InsertedMembers(s1.queue, Scan(s1.timers, s1.queue, s1.timers[op.id].deadline), op.id);
    }
  }

  // ----- one tick -----

  predicate Closed(s: Sys) {
    forall x :: x in s.queue ==> x in s.timers
  }

  lemma ApplyClosed(s: Sys, op: Op)
    requires Closed(s) && OpOk(s.timers.Keys, op)
    ensures Closed(Apply(s, op)) && Apply(s, op).timers.Keys == s.timers.Keys
  {
    WithoutMembers(s.queue, op.id);
    if op.Start? {
      var s1 := Timed(TakenOff(s, op.id), op.id);
      InsertedMembers(s1.queue, Scan(s1.timers, s1.queue, s1.timers[op.id].deadline), op.id);
    }
  }

  function ApplyAll(s: Sys, ops: seq<Op>): (r: Sys)
    requires Closed(s) && AllOk(s.timers.Keys, ops)
    ensures Closed(r) && r.timers.Keys == s.timers.Keys
    decreases |ops|
  {
    if ops == [] then s
    else
      ApplyClosed(s, ops[0]);
      ApplyAll(Apply(s, ops[0]), ops[1..])
  }

  /** The front timer has been taken off the queue and its timeout logged. */
  function Popped(s: Sys): Sys
    requires s.queue != [] && s.queue[0] in s.timers
  {
    var t := s.queue[0];
    s.(queue := s.queue[1..], fired := s.fired + [Firing(t, s.timers[t].deadline, s.timers[t].stamp, s.now)])
  }

  /** After its timeout function. */
  function Rearmed(s: Sys, t: nat): Sys
    requires t in s.timers && Closed(s)
  {
    if s.timers[t].periodic && s.timers[t].active then StartSpec(Deactivated(s, t), t) else Deactivated(s, t)
  }

  /** The timer at the front is taken off, its timeout function runs, and it starts again
      if it is periodic and was not stopped meanwhile. */
  function Fire(s: Sys, script: Script): (r: Sys)
    requires s.queue != [] && Closed(s) && ScriptOk(s.timers.Keys, script)
    ensures r.timers.Keys == s.timers.Keys
  {
    var t := s.queue[0];
    Rearmed(ApplyAll(Popped(s), script(t)), t)
  }

  /** rt_timer_check: fire from the front while the front is due. */
  ghost function CheckSpec(s: Sys, script: Script, busy: set<nat>): Sys
    requires Inv(s, busy) && ScriptOk(s.timers.Keys, script)
    decreases Due(s)
  {
    if s.queue == [] || s.timers[s.queue[0]].deadline > s.now then s
    else
      FireKeeps(s, script, busy);
      CheckSpec(Fire(s, script), script, busy)
  }

  /** rt_tick_increase, as far as the timers are concerned. */
  ghost function TickSpec(s: Sys, script: Script, busy: set<nat>): Sys
    requires Inv(s, busy) && Settled(s) && ScriptOk(s.timers.Keys, script)
  {
    TickKeeps(s, busy);
    CheckSpec(s.(now := s.now + 1), script, busy)
  }

  lemma TickKeeps(s: Sys, busy: set<nat>)
    requires Inv(s, busy) && Settled(s)
    ensures Inv(s.(now := s.now + 1), busy)
  {
    var s' := s.(now := s.now + 1);
    forall f | f in s'.fired
      ensures Delivered(s', f)
    {
      assert Delivered(s, f);
    }
    assert forall x :: x in s.queue ==> Pending(s, x);
  }

  /** No operation makes a timer due: a start lies at least one tick ahead. */
  lemma ApplyDue(s: Sys, op: Op, busy: set<nat>)
    requires Inv(s, busy) && OpOk(s.timers.Keys, op)
    ensures Due(Apply(s, op)) <= Due(s)
    ensures Settled(s) ==> Settled(Apply(s, op))
  {
    WithoutMembers(s.queue, op.id);
    if op.Start? {
      StartSorted(s, op.id, busy);
    }
    hide Sorted, Without, Scan, Inserted;
  }

  lemma {:induction false} ApplyAllKeeps(s: Sys, ops: seq<Op>, busy: set<nat>)
    requires Inv(s, busy) && AllOk(s.timers.Keys, ops)
    ensures Inv(ApplyAll(s, ops), busy)
    ensures ApplyAll(s, ops).now == s.now && ApplyAll(s, ops).fired == s.fired
    ensures Due(ApplyAll(s, ops)) <= Due(s)
    decreases |ops|
  {
    if ops != [] {
      var s', op := Apply(s, ops[0]), ops[0];
      ApplyClosed(s, op);
      ApplyKeeps(s, op, busy);
      ApplyAllKeeps(s', ops[1..], busy);
      ApplyDue(s, op, busy);
    }
  }

  /** What a series of operations on other timers leaves alone. */
  lemma {:induction false} ApplyAllFrame(s: Sys, ops: seq<Op>, t: nat)
    requires Closed(s) && t in s.timers && AllOk(s.timers.Keys, ops) && forall op :: op in ops ==> op.id != t
    ensures var s' := ApplyAll(s, ops);
      s'.timers[t] == s.timers[t] && (t in s'.queue <==> t in s.queue) && s'.now == s.now && s'.fired == s.fired
    decreases |ops|
  {
    if ops != [] {
      ApplyClosed(s, ops[0]);
      ApplyFrame(s, ops[0], t);
      ApplyAllFrame(Apply(s, ops[0]), ops[1..], t);
    }
  }

  /** A timeout function that does not start its own timer leaves it off the queue. */
  lemma {:induction false} ApplyAllStaysOff(s: Sys, ops: seq<Op>, t: nat)
    requires Closed(s) && t in s.timers && t !in s.queue && AllOk(s.timers.Keys, ops) && Start(t) !in ops
    ensures t !in ApplyAll(s, ops).queue
    decreases |ops|
  {
    if ops != [] {
      ApplyClosed(s, ops[0]);
      WithoutMembers(s.queue, ops[0].id);
      if ops[0].Start? {
        ApplyFrame(s, ops[0], t);
      }
      ApplyAllStaysOff(Apply(s, ops[0]), ops[1..], t);
    }
  }

  /** The state in which the timeout function of the front timer runs. */
  lemma PopKeeps(s: Sys, busy: set<nat>)
    requires Inv(s, busy) && s.queue != [] && s.timers[s.queue[0]].deadline <= s.now
    ensures var t, s1 := s.queue[0], Popped(s);
      Inv(s1, busy + {t}) && t !in s1.queue && Due(s1) < Due(s) && s.timers[t].deadline == s.now
  {
    var t := s.queue[0];
    var s1 := Popped(s);
    assert t in s.queue && Pending(s, t);
    forall x | x in s1.queue ensures Pending(s1, x) {
      assert x in s.queue && Pending(s, x);
    }
    assert Sorted(s.timers, s1.queue) by {
      forall i, j | 0 <= i < j < |s1.queue| ensures Ahead(s.timers, s1.queue[i], s1.queue[j]) {
        assert Ahead(s.timers, s.queue[i + 1], s.queue[j + 1]);
      }
    }
    forall j | 0 <= j < |s1.queue| ensures s1.queue[j] != t {
      assert Ahead(s.timers, s.queue[0], s.queue[j + 1]);
    }
    assert t in Due(s) && t !in Due(s1);
    forall g | g in s1.fired
      ensures Delivered(s1, g)
    {
      if g in s.fired {
        assert Delivered(s, g);
      } else {
        forall x | x in s1.queue ensures Ahead(s.timers, t, x) {
          var j :| 0 <= j < |s1.queue| && s1.queue[j] == x;
          assert Ahead(s.timers, s.queue[0], s.queue[j + 1]);
        }
      }
    }
    forall i, j | 0 <= i < j < |s1.fired|
      ensures Earlier(s1.fired[i].deadline, s1.fired[i].stamp, s1.fired[j].deadline, s1.fired[j].stamp)
    {
      if j == |s.fired| {
        assert Delivered(s, s.fired[i]);
      }
    }
  }

  lemma RearmedKeeps(s: Sys, t: nat, busy: set<nat>)
    requires Inv(s, busy + {t}) && t in s.timers && t !in s.queue
    ensures Closed(s) && Inv(Rearmed(s, t), busy)
    ensures Rearmed(s, t).now == s.now && Due(Rearmed(s, t)) <= Due(s)
  {
    hide Inv, StartSpec, Due;
    InvQueue(s, busy + {t});
    DeactivatedKeeps(s, t, busy);
    var s' := Deactivated(s, t);
    StartKeeps(s', t, busy);
    StartNow(s', t);
    ApplyDue(s', Start(t), busy);
  }

  lemma FireKeeps(s: Sys, script: Script, busy: set<nat>)
    requires Inv(s, busy) && s.queue != [] && s.timers[s.queue[0]].deadline <= s.now
    requires ScriptOk(s.timers.Keys, script)
    ensures Closed(s) && Inv(Fire(s, script), busy)
    ensures Fire(s, script).now == s.now && Due(Fire(s, script)) < Due(s)
  {
    hide Inv, StartSpec, Rearmed, Due, ApplyAll, Deactivated;
    InvQueue(s, busy);
    var t, s1 := s.queue[0], Popped(s);
    PopKeeps(s, busy);
    ApplyAllKeeps(s1, script(t), busy + {t});
    ApplyAllStaysOff(s1, script(t), t);
    RearmedKeeps(ApplyAll(s1, script(t)), t, busy);
  }

  lemma StartNow(s: Sys, t: nat)
    requires t in s.timers && forall x :: x in s.queue ==> x in s.timers
    ensures StartSpec(s, t).now == s.now && StartSpec(s, t).timers.Keys == s.timers.Keys
    ensures StartSpec(s, t).fired == s.fired
  {
  }

  lemma {:induction false} CheckKeeps(s: Sys, script: Script, busy: set<nat>)
    requires Inv(s, busy) && ScriptOk(s.timers.Keys, script)
    ensures var s' := CheckSpec(s, script, busy);
      Inv(s', busy) && Settled(s') && s'.now == s.now && s'.timers.Keys == s.timers.Keys
    decreases Due(s)
  {
    if s.queue == [] {
    } else if s.timers[s.queue[0]].deadline > s.now {
      forall x | x in s.queue ensures s.timers[x].deadline > s.now {
        var j :| 0 <= j < |s.queue| && s.queue[j] == x;
        assert j > 0 ==> Ahead(s.timers, s.queue[0], s.queue[j]);
      }
    } else {
      FireKeeps(s, script, busy);
      CheckKeeps(Fire(s, script), script, busy);
    }
  }

  // ----- whole runs -----

  ghost predicate EventOk(ids: set<nat>, e: Event) {
    match e
    case Do(op) => OpOk(ids, op)
    case Tick(script) => ScriptOk(ids, script)
  }

  ghost function Next(s: Sys, e: Event): Sys
    requires Inv(s, {}) && Settled(s) && EventOk(s.timers.Keys, e)
  {
    match e
    case Do(op) => Apply(s, op)
    case Tick(script) => TickSpec(s, script, {})
  }

  lemma NextKeeps(s: Sys, e: Event)
    requires Inv(s, {}) && Settled(s) && EventOk(s.timers.Keys, e)
    ensures var s' := Next(s, e);
      Inv(s', {}) && Settled(s') && s'.timers.Keys == s.timers.Keys && s'.now == s.now + if e.Tick? then 1 else 0
  {
    match e
    case Do(op) =>
      ApplyKeeps(s, op, {});
      ApplyClosed(s, op);
      ApplyDue(s, op, {});
    case Tick(script) =>
      TickKeeps(s, {});
      CheckKeeps(s.(now := s.now + 1), script, {});
  }

  ghost function Run(s: Sys, es: seq<Event>): (r: Sys)
    requires Inv(s, {}) && Settled(s) && forall e :: e in es ==> EventOk(s.timers.Keys, e)
    ensures Inv(r, {}) && Settled(r) && r.timers.Keys == s.timers.Keys
    decreases |es|
  {
    if es == [] then s
    else
      NextKeeps(s, es[0]);
      Run(Next(s, es[0]), es[1..])
  }

  ghost predicate ScriptLeavesAlone(ids: set<nat>, script: Script, t: nat) {
    forall x, op :: x in ids && op in script(x) ==> op.id != t
  }

  /** No event, and no timeout function that runs, operates on timer `t`. */
  ghost predicate LeavesAlone(ids: set<nat>, e: Event, t: nat) {
    match e
    case Do(op) => op.id != t
    case Tick(script) => ScriptLeavesAlone(ids, script, t)
  }

  /** When the timeout function of `t` was called. */
  function TimesOf(fired: seq<Firing>, t: nat): seq<nat> {
    if fired == [] then []
    else TimesOf(fired[..|fired| - 1], t) + if fired[|fired| - 1].id == t then [fired[|fired| - 1].at] else []
  }

  /** The timeouts up to tick `n` of a timer due at `d`: one, or one at every period. */
  function Expected(d: nat, period: nat, periodic: bool, n: nat): seq<nat>
    requires period >= 1
    decreases n + 1 - d
  {
    if d > n then []
    else if periodic then [d] + Expected(d + period, period, periodic, n)
    else [d]
  }

  /** What timer `t` still owes by tick `n`. */
  function Owed(s: Sys, t: nat, n: nat): seq<nat> {
    if t in s.queue && t in s.timers && s.timers[t].init >= 1
      then Expected(s.timers[t].deadline, s.timers[t].init, s.timers[t].periodic, n)
      else []
  }

  /** What firing another timer leaves alone. */
  lemma FireFrame(s: Sys, script: Script, t: nat)
    requires s.queue != [] && Closed(s) && ScriptOk(s.timers.Keys, script) && s.queue[0] != t
    requires t in s.timers && ScriptLeavesAlone(s.timers.Keys, script, t)
    ensures var s' := Fire(s, script);
      s'.timers[t] == s.timers[t] && (t in s'.queue <==> t in s.queue) && s'.fired == Popped(s).fired
  {
    var x, s1 := s.queue[0], Popped(s);
    assert t in s1.queue <==> t in s.queue;
    ApplyAllFrame(s1, script(x), t);
    ApplyFrame(Deactivated(ApplyAll(s1, script(x)), x), Start(x), t);
  }

  /** What firing timer `t` itself does to it when its timeout function leaves it alone. */
  lemma FireSelf(s: Sys, script: Script)
    requires Inv(s, {}) && s.queue != [] && s.timers[s.queue[0]].deadline <= s.now && ScriptOk(s.timers.Keys, script)
    requires ScriptLeavesAlone(s.timers.Keys, script, s.queue[0])
    ensures var t, s' := s.queue[0], Fire(s, script);
      && s'.fired == Popped(s).fired
      && t in s.queue && s.timers[t].init >= 1 && s.timers[t].deadline == s.now
      && s'.timers[t].init == s.timers[t].init && s'.timers[t].periodic == s.timers[t].periodic
      && (t in s'.queue <==> s.timers[t].periodic)
      && (s.timers[t].periodic ==> s'.timers[t].deadline == s.now + s.timers[t].init)
  {
    hide Sorted, LogSorted, Scan, Inserted, Without;
    InvQueue(s, {});
    var t, s1 := s.queue[0], Popped(s);
    PopKeeps(s, {});
    ApplyAllFrame(s1, script(t), t);
    assert t in s.queue && Pending(s, t);
    assert {} + {t} == {t};
    ApplyAllKeeps(s1, script(t), {t});
    var s2 := ApplyAll(s1, script(t));
    DeactivatedKeeps(s2, t, {});
    InvQueue(Deactivated(s2, t), {});
    StartKeeps(Deactivated(s2, t), t, {});
  }

  /** The timeouts of `t` by tick `n`: delivered ones, then owed ones. */
  function Account(s: Sys, t: nat, n: nat): seq<nat> {
    TimesOf(s.fired, t) + Owed(s, t, n)
  }

  /** A logged timeout moves from what is owed to what is delivered. */
  lemma AccountStep(s: Sys, s': Sys, t: nat, n: nat)
    requires t in s.timers && t in s'.timers
    requires s.queue != [] && s.queue[0] in s.timers && s'.fired == Popped(s).fired
    requires s.queue[0] != t ==> s'.timers[t] == s.timers[t] && (t in s'.queue <==> t in s.queue)
    requires s.queue[0] == t ==> Owed(s, t, n) == [s.now] + Owed(s', t, n)
    ensures Account(s', t, n) == Account(s, t, n)
  {
    var f := Popped(s).fired;
    assert f[..|f| - 1] == s.fired;
    if s.queue[0] == t {
      assert TimesOf(f, t) == TimesOf(s.fired, t) + [s.now];
    } else {
      assert TimesOf(f, t) == TimesOf(s.fired, t) + [] == TimesOf(s.fired, t);
    }
  }

  lemma OwedNow(s: Sys, s': Sys, t: nat, n: nat)
    requires t in s.timers && t in s'.timers && t in s.queue
    requires s.timers[t].init >= 1 && s.timers[t].deadline == s.now <= n
    requires s'.timers[t].init == s.timers[t].init && s'.timers[t].periodic == s.timers[t].periodic
    requires t in s'.queue <==> s.timers[t].periodic
    requires s.timers[t].periodic ==> s'.timers[t].deadline == s.now + s.timers[t].init
    ensures Owed(s, t, n) == [s.now] + Owed(s', t, n)
  {
  }

  /** The account of a timer never changes, whichever timer a check fires. */
  lemma FireConserves(s: Sys, script: Script, t: nat, n: nat)
    requires Inv(s, {}) && s.queue != [] && s.timers[s.queue[0]].deadline <= s.now <= n
      && ScriptOk(s.timers.Keys, script)
    requires t in s.timers && ScriptLeavesAlone(s.timers.Keys, script, t)
    ensures Account(Fire(s, script), t, n) == Account(s, t, n)
  {
    FireKeeps(s, script, {});
    if s.queue[0] == t {
      FireSelf(s, script);
      OwedNow(s, Fire(s, script), t, n);
    } else {
      FireFrame(s, script, t);
    }
    AccountStep(s, Fire(s, script), t, n);
  }

  lemma {:induction false} CheckConserves(s: Sys, script: Script, t: nat, n: nat)
    requires Inv(s, {}) && ScriptOk(s.timers.Keys, script) && s.now <= n
    requires t in s.timers && ScriptLeavesAlone(s.timers.Keys, script, t)
    ensures Account(CheckSpec(s, script, {}), t, n) == Account(s, t, n)
    decreases Due(s)
  {
    CheckKeeps(s, script, {});
    if s.queue != [] && s.timers[s.queue[0]].deadline <= s.now {
      FireKeeps(s, script, {});
      FireConserves(s, script, t, n);
      CheckConserves(Fire(s, script), script, t, n);
    }
  }

  lemma AccountFrame(s: Sys, s': Sys, t: nat, n: nat)
    requires t in s.timers && t in s'.timers && s'.timers[t] == s.timers[t] && s'.fired == s.fired
    requires t in s'.queue <==> t in s.queue
    ensures Account(s', t, n) == Account(s, t, n)
  {
  }

  lemma DoConserves(s: Sys, op: Op, t: nat, n: nat)
    requires Inv(s, {}) && Settled(s) && t in s.timers && OpOk(s.timers.Keys, op) && op.id != t
    ensures Account(Apply(s, op), t, n) == Account(s, t, n)
  {
    ApplyFrame(s, op, t);
  }

  lemma TickConserves(s: Sys, script: Script, t: nat, n: nat)
    requires Inv(s, {}) && Settled(s) && t in s.timers && ScriptOk(s.timers.Keys, script) && s.now + 1 <= n
    requires ScriptLeavesAlone(s.timers.Keys, script, t)
    ensures Account(TickSpec(s, script, {}), t, n) == Account(s, t, n)
  {
    hide Inv, CheckSpec, Account;
    TickKeeps(s, {});
    CheckConserves(s.(now := s.now + 1), script, t, n);
    AccountFrame(s, s.(now := s.now + 1), t, n);
  }

  lemma NextConserves(s: Sys, e: Event, t: nat, n: nat)
    requires Inv(s, {}) && Settled(s) && t in s.timers && EventOk(s.timers.Keys, e) && LeavesAlone(s.timers.Keys, e, t)
    requires Next(s, e).now <= n
    ensures Account(Next(s, e), t, n) == Account(s, t, n)
  {
    NextKeeps(s, e);
    match e
    case Do(op) => DoConserves(s, op, t, n);
    case Tick(script) => TickConserves(s, script, t, n);
  }

  lemma {:induction false} RunConserves(s: Sys, es: seq<Event>, t: nat, n: nat)
    requires Inv(s, {}) && Settled(s) && t in s.timers
    requires forall e :: e in es ==> EventOk(s.timers.Keys, e) && LeavesAlone(s.timers.Keys, e, t)
    requires Run(s, es).now <= n
    ensures s.now <= n
    ensures Account(Run(s, es), t, n) == Account(s, t, n)
    decreases |es|
  {
    if es != [] {
      NextKeeps(s, es[0]);
      RunConserves(Next(s, es[0]), es[1..], t, n);
      NextConserves(s, es[0], t, n);
    }
  }

  /** Between ticks a timer owes nothing for the past. */
  lemma NothingOverdue(s: Sys, t: nat)
    requires Inv(s, {}) && Settled(s) && t in s.timers
    ensures Account(s, t, s.now) == TimesOf(s.fired, t)
  {
    assert Owed(s, t, s.now) == [];
  }

  /**
   A timer that is pending and is left alone is called exactly at its deadline, and at
   every further period after it when it is periodic: not early, not late, not twice,
   and without drift, whatever the other timers do and however long the run is.
   */
  lemma RunDeliversExactly(s: Sys, es: seq<Event>, t: nat)
    requires Inv(s, {}) && Settled(s) && t in s.timers && t in s.queue
    requires forall e :: e in es ==> EventOk(s.timers.Keys, e) && LeavesAlone(s.timers.Keys, e, t)
    ensures var s' := Run(s, es);
      TimesOf(s'.fired, t)
      == TimesOf(s.fired, t) + Expected(s.timers[t].deadline, s.timers[t].init, s.timers[t].periodic, s'.now)
  {
    RunConserves(s, es, t, Run(s, es).now);
    NothingOverdue(Run(s, es), t);
  }

  /** A timer that is not pending is never called. */
  lemma RunStaysSilent(s: Sys, es: seq<Event>, t: nat)
    requires Inv(s, {}) && Settled(s) && t in s.timers && t !in s.queue
    requires forall e :: e in es ==> EventOk(s.timers.Keys, e) && LeavesAlone(s.timers.Keys, e, t)
    ensures TimesOf(Run(s, es).fired, t) == TimesOf(s.fired, t)
  {
    RunConserves(s, es, t, Run(s, es).now);
    NothingOverdue(Run(s, es), t);
  }

  /** Every timeout of every run came at its deadline, in deadline order and, for equal
      deadlines, in the order of the starts. */
  lemma RunDeliversInOrder(s: Sys, es: seq<Event>, i: nat, j: nat)
    requires Inv(s, {}) && Settled(s) && forall e :: e in es ==> EventOk(s.timers.Keys, e)
    requires i < j < |Run(s, es).fired|
    ensures var f, g := Run(s, es).fired[i], Run(s, es).fired[j];
      && f.at == f.deadline && g.at == g.deadline
      && (f.at < g.at || (f.at == g.at && f.stamp < g.stamp))
  {
    var s' := Run(s, es);
    assert Delivered(s', s'.fired[i]) && Delivered(s', s'.fired[j]);
  }
}
