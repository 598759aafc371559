/**
 rt_timer_start and rt_timer_stop of src/timer.c part by part. A start takes its timer off in
 one region with interrupts off, sets the timeout from the tick, and links the timer in a
 second region, without taking it off again. A stop tests the active flag, takes the timer off
 in a region, and clears the flag behind it. In between, ticks with their timeout functions
 and other threads may start and stop the same timer.

 For each part there is a condition on the state before it, and a run keeps the queue in
 order, with nothing overdue, if and only if each of its steps is taken under its condition.
 */
module TimerRegions {
  import opened RtList
  import opened TimerSpec
  import SkipList

  /** What a call has still to do. */
  datatype Call = ToRead(t: nat) | ToQueue(t: nat) | ToTakeOff(t: nat) | ToClear(t: nat)

  /** The timers, and the calls on the way by their callers. */
  datatype Machine = Machine(s: Sys, calls: map<nat, Call>)

  /**
   Off, Read and Queue are rt_timer_start; Test, TakeOff and Clear rt_timer_stop. Whole is
   a tick, a control call, or a start or stop with interrupts off.
   */
  datatype Part =
    | Off(a: nat, t: nat) | Read(a: nat) | Queue(a: nat)
    | Test(a: nat, t: nat) | TakeOff(a: nat) | Clear(a: nat)
    | Whole(e: Event)

  /** Timers that a stop has taken off and whose flag it will clear. */
  function Clearing(calls: map<nat, Call>): set<nat> {
    set a | a in calls && calls[a].ToClear? :: calls[a].t
  }

  ghost predicate Ticks(m: Machine, script: Script) {
    Inv(m.s, Clearing(m.calls)) && Settled(m.s) && ScriptOk(m.s.timers.Keys, script)
  }

  /** One step; a step that is not enabled does nothing. */
  ghost function Step(m: Machine, p: Part): Machine {
    var s, calls := m.s, m.calls;
    match p
    case Off(a, t) =>
      if a !in calls && t in s.timers then Machine(TakenOff(s, t), calls[a := ToRead(t)]) else m
    case Read(a) =>
      if a in calls && calls[a].ToRead? && calls[a].t in s.timers
      then Machine(Timed(s, calls[a].t), calls[a := ToQueue(calls[a].t)]) else m
    case Queue(a) =>
      if a in calls && calls[a].ToQueue? && calls[a].t in s.timers && Closed(s)
      then Machine(Queued(s, calls[a].t), calls - {a}) else m
    case Test(a, t) =>
      if a !in calls && t in s.timers && s.timers[t].active then m.(calls := calls[a := ToTakeOff(t)]) else m
    case TakeOff(a) =>
      if a in calls && calls[a].ToTakeOff?
      then Machine(s.(queue := Without(s.queue, calls[a].t)), calls[a := ToClear(calls[a].t)]) else m
    case Clear(a) =>
      if a in calls && calls[a].ToClear? && calls[a].t in s.timers
      then Machine(Deactivated(s, calls[a].t), calls - {a}) else m
    case Whole(e) =>
      match e {
        case Do(op) => if Closed(s) && OpOk(s.timers.Keys, op) then m.(s := Apply(s, op)) else m
        case Tick(script) => if Ticks(m, script) then m.(s := TickSpec(s, script, Clearing(calls))) else m
      }
  }

  /**
   The queue is in order and nothing on it is overdue; a timer is on it if and only if it is
   active, except that a stop has yet to clear the flag of a timer it has taken off.
   */
  ghost predicate Ok(m: Machine) {
    && Inv(m.s, Clearing(m.calls)) && Settled(m.s)
    && forall a :: a in m.calls ==> m.calls[a].t in m.s.timers
  }

  // ----- the conditions -----

  /** Timer t could be due at d where it is on the queue, or is on no place of it. */
  predicate Fits(s: Sys, t: nat, d: nat) {
    forall k :: 0 <= k < |s.queue| && s.queue[k] == t && t in s.timers ==>
      && (k > 0 && s.queue[k - 1] in s.timers ==>
          var x := s.timers[s.queue[k - 1]]; Earlier(x.deadline, x.stamp, d, s.timers[t].stamp))
      && (k + 1 < |s.queue| && s.queue[k + 1] in s.timers ==>
          var y := s.timers[s.queue[k + 1]]; Earlier(d, s.timers[t].stamp, y.deadline, y.stamp))
  }

  /**
   The condition of a step, to be tested before it. A start sets the timeout of a timer that
   nobody has started in between, or one that may have that timeout where it is; its second
   region finds the timer off the queue and its timeout ahead; and a stop clears the flag of a
   timer that nobody has started since it took it off.
   */
  predicate Cond(m: Machine, p: Part) {
    var s, calls := m.s, m.calls;
    match p
    case Read(a) =>
      a in calls && calls[a].ToRead? && calls[a].t in s.timers ==>
        Fits(s, calls[a].t, s.now + s.timers[calls[a].t].init)
    case Queue(a) =>
      a in calls && calls[a].ToQueue? && calls[a].t in s.timers ==>
        calls[a].t !in s.queue && s.now < s.timers[calls[a].t].deadline
    case Clear(a) => a in calls && calls[a].ToClear? ==> calls[a].t !in s.queue
    case _ => true
  }

  // ----- every step -----

  lemma SameClearing(calls: map<nat, Call>, a: nat, c: Call)
    requires !c.ToClear? && (a in calls ==> !calls[a].ToClear?)
    ensures Clearing(calls[a := c]) == Clearing(calls) == Clearing(calls - {a})
  {
    var with, less := calls[a := c], calls - {a};
    forall x | x in Clearing(calls) ensures x in Clearing(with) && x in Clearing(less) {
      var b :| b in calls && calls[b].ToClear? && calls[b].t == x;
      assert with[b] == less[b] == ToClear(x);
    }
  }

  lemma OffIff(m: Machine, a: nat, t: nat)
    requires Ok(m)
    ensures Ok(Step(m, Off(a, t)))
  {
    hide Inv, TimerSpec.Without;
    if a !in m.calls && t in m.s.timers {
      TakenOffKeeps(m.s, t, Clearing(m.calls));
      WithoutMembers(m.s.queue, t);
      SameClearing(m.calls, a, ToRead(t));
    }
  }

  /** A new timeout keeps the queue sorted if and only if it fits between those next to it. */
  lemma FitsIff(s: Sys, t: nat, d: nat)
    requires Sorted(s.timers, s.queue) && t in s.timers
    ensures Sorted(SetDeadline(s, t, d).timers, s.queue) <==> Fits(s, t, d)
  {
    var tm, q := SetDeadline(s, t, d).timers, s.queue;
    if Sorted(tm, q) {
      SortedFits(s, t, d);
    }
    if Fits(s, t, d) {
      forall i, j | 0 <= i < j < |q| ensures Ahead(tm, q[i], q[j]) {
        FitsAhead(s, t, d, i, j);
      }
    }
  }

  lemma SortedFits(s: Sys, t: nat, d: nat)
    requires Sorted(s.timers, s.queue) && t in s.timers && Sorted(SetDeadline(s, t, d).timers, s.queue)
    ensures Fits(s, t, d)
  {
    var tm, q := SetDeadline(s, t, d).timers, s.queue;
    forall k | 0 <= k < |q| && q[k] == t
      ensures k > 0 ==> q[k - 1] != t && Ahead(tm, q[k - 1], t)
      ensures k + 1 < |q| ==> q[k + 1] != t && Ahead(tm, t, q[k + 1])
    {
      assert k > 0 ==> Ahead(s.timers, q[k - 1], q[k]) && Ahead(tm, q[k - 1], q[k]);
      assert k + 1 < |q| ==> Ahead(s.timers, q[k], q[k + 1]) && Ahead(tm, q[k], q[k + 1]);
    }
  }

  lemma FitsAhead(s: Sys, t: nat, d: nat, i: nat, j: nat)
    requires Sorted(s.timers, s.queue) && t in s.timers && Fits(s, t, d) && i < j < |s.queue|
    ensures Ahead(SetDeadline(s, t, d).timers, s.queue[i], s.queue[j])
  {
    var q := s.queue;
    assert Ahead(s.timers, q[i], q[j]);
    assert q[i] in s.timers && q[j] in s.timers && q[i + 1] in s.timers && q[j - 1] in s.timers;
    if q[i] == t {
      assert i + 1 < j ==> Ahead(s.timers, q[i + 1], q[j]);
    } else if q[j] == t {
      assert i < j - 1 ==> Ahead(s.timers, q[i], q[j - 1]);
    }
  }

  lemma InvSorted(s: Sys, busy: set<nat>)
    requires Inv(s, busy)
    ensures Sorted(s.timers, s.queue) && Closed(s)
  {
  }

  lemma ReadIff(m: Machine, a: nat)
    requires Ok(m)
    ensures Ok(Step(m, Read(a))) <==> Cond(m, Read(a))
  {
    hide Inv, Sorted, Fits;
    if a in m.calls && m.calls[a].ToRead? {
      var s, t, m' := m.s, m.calls[a].t, Step(m, Read(a));
      InvSorted(s, Clearing(m.calls));
      InvQueue(s, Clearing(m.calls));
      SameClearing(m.calls, a, ToQueue(t));
      TimedIff(s, t, Clearing(m.calls));
      FitsIff(s, t, s.now + s.timers[t].init);
      assert Settled(m'.s);
    }
  }

  lemma QueueIff(m: Machine, a: nat)
    requires Ok(m)
    ensures Ok(Step(m, Queue(a))) <==> Cond(m, Queue(a))
  {
    hide Inv, Queued, Settled;
    if a in m.calls && m.calls[a].ToQueue? {
      var s, t := m.s, m.calls[a].t;
      QueuedIff(s, t, Clearing(m.calls));
      SameClearing(m.calls, a, ToQueue(t));
      assert Queued(s, t).timers.Keys == s.timers.Keys by {
        QueuedKeys(s, t);
      }
    }
  }

  lemma QueuedKeys(s: Sys, t: nat)
    requires t in s.timers && Closed(s)
    ensures Queued(s, t).timers.Keys == s.timers.Keys && Queued(s, t).timers[t].active
    ensures Queued(s, t).queue == Inserted(s.queue, Scan(s.timers, s.queue, s.timers[t].deadline), t)
  {
  }

  lemma TakeOffKeeps(m: Machine, a: nat)
    requires Ok(m)
    ensures Ok(Step(m, TakeOff(a)))
  {
    hide Inv, TimerSpec.Without;
    if a in m.calls && m.calls[a].ToTakeOff? {
      var t := m.calls[a].t;
      OffKeeps(m.s, t, Clearing(m.calls));
      WithoutMembers(m.s.queue, t);
      MoreClearing(m.calls, a, t);
    }
  }

  lemma MoreClearing(calls: map<nat, Call>, a: nat, t: nat)
    requires a in calls && calls[a] == ToTakeOff(t)
    ensures Clearing(calls[a := ToClear(t)]) == Clearing(calls) + {t}
  {
    var calls' := calls[a := ToClear(t)];
    assert calls'[a] == ToClear(t) && t in Clearing(calls');
    forall x | x in Clearing(calls) ensures x in Clearing(calls') {
      var b :| b in calls && calls[b].ToClear? && calls[b].t == x;
      assert calls'[b] == ToClear(x);
    }
  }

  lemma LessClearing(calls: map<nat, Call>, a: nat, t: nat)
    requires a in calls && calls[a] == ToClear(t)
    ensures Clearing(calls) == Clearing(calls - {a}) + {t}
  {
    forall x | x in Clearing(calls) ensures x in Clearing(calls - {a}) + {t} {
      var b :| b in calls && calls[b].ToClear? && calls[b].t == x;
      assert b != a ==> (calls - {a})[b] == ToClear(x);
    }
    assert t in Clearing(calls);
  }

  lemma ClearIff(m: Machine, a: nat)
    requires Ok(m)
    ensures Ok(Step(m, Clear(a))) <==> Cond(m, Clear(a))
  {
    hide Inv;
    if a in m.calls && m.calls[a].ToClear? {
      var s, t, busy := m.s, m.calls[a].t, Clearing(m.calls - {a});
      LessClearing(m.calls, a, t);
      if t in s.queue {
        FlagLost(s, t, busy);
      } else {
        DeactivatedKeeps(s, t, busy);
      }
    }
  }

  /** A timer on the queue without its flag. */
  lemma FlagLost(s: Sys, t: nat, busy: set<nat>)
    requires t in s.timers && t in s.queue
    ensures !Inv(Deactivated(s, t), busy)
  {
    assert !Pending(Deactivated(s, t), t);
  }

  lemma WholeKeeps(m: Machine, e: Event)
    requires Ok(m)
    ensures Ok(Step(m, Whole(e)))
  {
    hide Inv, Apply, TickSpec, CheckSpec, Settled, OpOk, ScriptOk;
    var s, busy := m.s, Clearing(m.calls);
    InvQueue(s, busy);
    match e
    case Do(op) =>
      if OpOk(s.timers.Keys, op) {
        ApplyKeeps(s, op, busy);
        ApplyClosed(s, op);
        ApplyDue(s, op, busy);
      }
    case Tick(script) =>
      if ScriptOk(s.timers.Keys, script) {
        TickSpecKeeps(s, script, busy);
      }
  }

  lemma TickSpecKeeps(s: Sys, script: Script, busy: set<nat>)
    requires Inv(s, busy) && Settled(s) && ScriptOk(s.timers.Keys, script)
    ensures var s' := TickSpec(s, script, busy); Inv(s', busy) && Settled(s') && s'.timers.Keys == s.timers.Keys
  {
    hide Inv, CheckSpec, Settled, ScriptOk;
    TickKeeps(s, busy);
    CheckKeeps(s.(now := s.now + 1), script, busy);
  }

  /** A step keeps the queue in order, with nothing overdue, if and only if it is taken under its condition. */
  lemma StepIff(m: Machine, p: Part)
    requires Ok(m)
    ensures Ok(Step(m, p)) <==> Cond(m, p)
  {
    hide Ok, Cond;
    match p
    case Off(a, t) => OffIff(m, a, t); Unconditional(m, p);
    case Read(a) => ReadIff(m, a);
    case Queue(a) => QueueIff(m, a);
    case Test(a, t) => TestKeeps(m, a, t); Unconditional(m, p);
    case TakeOff(a) => TakeOffKeeps(m, a); Unconditional(m, p);
    case Clear(a) => ClearIff(m, a);
    case Whole(e) => WholeKeeps(m, e); Unconditional(m, p);
  }

  lemma Unconditional(m: Machine, p: Part)
    requires p.Off? || p.Test? || p.TakeOff? || p.Whole?
    ensures Cond(m, p)
  {
  }

  lemma TestKeeps(m: Machine, a: nat, t: nat)
    requires Ok(m)
    ensures Ok(Step(m, Test(a, t)))
  {
    hide Inv;
    if a !in m.calls {
      SameClearing(m.calls, a, ToTakeOff(t));
    }
  }

  // ----- every run -----

  /** In order in every state of a run. */
  ghost predicate Always(m: Machine, ps: seq<Part>)
    decreases |ps|
  {
    Ok(m) && (ps != [] ==> Always(Step(m, ps[0]), ps[1..]))
  }

  /** Every step of a run is taken under its condition. */
  ghost predicate Kept(m: Machine, ps: seq<Part>)
    decreases |ps|
  {
    ps != [] ==> Cond(m, ps[0]) && Kept(Step(m, ps[0]), ps[1..])
  }

  /**
   Whatever the interleaving of starts, stops, ticks and timeout functions: every state is in
   order if and only if each part was taken under its condition.
   */
  lemma {:induction false} RunIff(m: Machine, ps: seq<Part>)
    requires Ok(m)
    ensures Always(m, ps) <==> Kept(m, ps)
    decreases |ps|
  {
    hide Ok, Step, Cond;
    if ps != [] {
      StepIff(m, ps[0]);
      if Cond(m, ps[0]) {
        RunIff(Step(m, ps[0]), ps[1..]);
      }
    }
  }

  ghost function Run(m: Machine, ps: seq<Part>): Machine
    decreases |ps|
  {
    if ps == [] then m else Run(Step(m, ps[0]), ps[1..])
  }

  lemma RunOne(m: Machine, p: Part, ps: seq<Part>)
    ensures Run(m, [p] + ps) == Run(Step(m, p), ps)
  {
    hide Step;
    assert ([p] + ps)[1..] == ps;
  }

  lemma RunThree(m: Machine, p1: Part, p2: Part, p3: Part)
    ensures Run(m, [p1, p2, p3]) == Step(Step(Step(m, p1), p2), p3)
  {
    hide Step;
    RunOne(m, p1, [p2, p3]);
    RunOne(Step(m, p1), p2, [p3]);
    RunOne(Step(Step(m, p1), p2), p3, []);
    assert [p1] + [p2, p3] == [p1, p2, p3] && [p2] + [p3] == [p2, p3] && [p3] + [] == [p3];
  }

  // ----- calls with interrupts off, and what goes wrong otherwise -----

  /** The parts of a start in a row are the one step of a start with interrupts off. */
  lemma StartInRow(m: Machine, a: nat, t: nat)
    requires Ok(m) && a !in m.calls && t in m.s.timers
    ensures Closed(m.s) && Run(m, [Off(a, t), Read(a), Queue(a)]) == m.(s := StartSpec(m.s, t))
  {
    hide Inv, Run, TimerSpec.Without, Scan, Inserted;
    InvQueue(m.s, Clearing(m.calls));
    RunThree(m, Off(a, t), Read(a), Queue(a));
    WithoutMembers(m.s.queue, t);
    assert m.calls[a := ToRead(t)][a := ToQueue(t)] - {a} == m.calls;
  }

  lemma StopInRow(m: Machine, a: nat, t: nat)
    requires Ok(m) && a !in m.calls && t in m.s.timers && m.s.timers[t].active
    ensures Run(m, [Test(a, t), TakeOff(a), Clear(a)]) == m.(s := StopSpec(m.s, t))
  {
    hide Inv, Run, TimerSpec.Without;
    RunThree(m, Test(a, t), TakeOff(a), Clear(a));
    assert m.calls[a := ToTakeOff(t)][a := ToClear(t)] - {a} == m.calls;
  }

  /** Timer t is on the queue at two places. */
  predicate Twice(s: Sys, t: nat) {
    exists i, j :: 0 <= i < j < |s.queue| && s.queue[i] == t && s.queue[j] == t
  }

  lemma QueuedTwice(s: Sys, t: nat)
    requires t in s.timers && Closed(s) && t in s.queue
    ensures Twice(Queued(s, t), t)
  {
    var q, k, q' := s.queue, Scan(s.timers, s.queue, s.timers[t].deadline), Queued(s, t).queue;
    var i :| 0 <= i < |q| && q[i] == t;
    if i < k {
      assert q'[i] == t && q'[k] == t;
    } else {
      assert q'[k] == t && q'[i + 1] == t;
    }
  }

  /** The second region of a start that finds its timer on the queue links it again. */
  lemma QueuesTwice(m: Machine, a: nat)
    requires Ok(m) && a in m.calls && m.calls[a].ToQueue? && m.calls[a].t in m.s.queue
    ensures Twice(Step(m, Queue(a)).s, m.calls[a].t) && !Ok(Step(m, Queue(a)))
  {
    hide Inv, Queued;
    InvQueue(m.s, Clearing(m.calls));
    QueuedTwice(m.s, m.calls[a].t);
    QueueIff(m, a);
  }

  /** Two threads that start the same timer: both take it off, and both link it. */
  lemma TwoStarts(m: Machine, a: nat, b: nat, t: nat)
    requires Ok(m) && a != b && a !in m.calls && b !in m.calls && t in m.s.timers
    ensures var m' := Run(Run(m, [Off(a, t), Off(b, t), Read(a)]), [Read(b), Queue(a), Queue(b)]);
      Twice(m'.s, t) && !Ok(m')
  {
    hide Inv, Run, TimerSpec.Without, Scan, Inserted, Ok, Queued;
    var m1 := Step(m, Off(a, t));
    var m2 := Step(m1, Off(b, t));
    var m3 := Step(m2, Read(a));
    var m4 := Step(m3, Read(b));
    var m5 := Step(m4, Queue(a));
    RunThree(m, Off(a, t), Off(b, t), Read(a));
    RunThree(m3, Read(b), Queue(a), Queue(b));
    OkFacts(m);
    TakenOffKeeps(m.s, t, Clearing(m.calls));
    TakenOffKeeps(m1.s, t, Clearing(m.calls));
    StepIff(m, Off(a, t));
    StepIff(m1, Off(b, t));
    StepIff(m2, Read(a));
    StepIff(m3, Read(b));
    OkFacts(m4);
    StepIff(m4, Queue(a));
    QueuedKeys(m4.s, t);
    InsertedMembers(m4.s.queue, Scan(m4.s.timers, m4.s.queue, m4.s.timers[t].deadline), t);
    QueuesTwice(m5, b);
  }

  lemma OkFacts(m: Machine)
    requires Ok(m)
    ensures Inv(m.s, Clearing(m.calls)) && Closed(m.s) && Settled(m.s)
    ensures forall x :: x in m.s.timers ==> m.s.timers[x].init >= 1
  {
  }

  /**
   A tick between the reading of the tick and the second region whose timeout function starts
   the timer: the second region links it again, however long it waits.
   */
  lemma CallbackStarts(m: Machine, a: nat, t: nat, u: nat, script: Script)
    requires Ok(m) && m.calls == map[] && t in m.s.timers && t != u && m.s.queue == [u] && u in m.s.timers
    requires m.s.timers[u].deadline == m.s.now + 1 && ScriptOk(m.s.timers.Keys, script) && script(u) == [Start(t)]
    ensures var m' := Run(Run(m, [Off(a, t), Read(a)]), [Whole(Tick(script)), Queue(a)]);
      Twice(m'.s, t) && !Ok(m')
  {
    hide Inv, Run, TimerSpec.Without, Scan, Inserted, Ok, Queued, TickSpec, ScriptOk;
    var m1 := Step(m, Off(a, t));
    var m2 := Step(m1, Read(a));
    var m3 := Step(m2, Whole(Tick(script)));
    RunTwo(m, Off(a, t), Read(a));
    RunTwo(m2, Whole(Tick(script)), Queue(a));
    OkFacts(m);
    StepIff(m, Off(a, t));
    WithoutAbsent([u], t);
    StepIff(m1, Read(a));
    OkFacts(m2);
    StepIff(m2, Whole(Tick(script)));
    assert m2.s.timers.Keys == m.s.timers.Keys;
    TickStarts(m2.s, script, u, t, Clearing(m2.calls));
    QueuesTwice(m3, a);
  }

  lemma RunTwo(m: Machine, p1: Part, p2: Part)
    ensures Run(m, [p1, p2]) == Step(Step(m, p1), p2)
  {
    hide Step;
    RunOne(m, p1, [p2]);
    RunOne(Step(m, p1), p2, []);
    assert [p1] + [p2] == [p1, p2] && [p2] + [] == [p2];
  }

  /** A tick fires the one timer that is due, whose timeout function starts another. */
  lemma TickStarts(s: Sys, script: Script, u: nat, t: nat, busy: set<nat>)
    requires Inv(s, busy) && Settled(s) && ScriptOk(s.timers.Keys, script) && s.queue == [u] && u in s.timers && t != u
    requires s.timers[u].deadline == s.now + 1 && script(u) == [Start(t)] && t in s.timers
    ensures t in TickSpec(s, script, busy).queue
  {
    hide Inv, ScriptOk, StartSpec, TimerSpec.Without, Scan, Inserted;
    var s1 := s.(now := s.now + 1);
    TickKeeps(s, busy);
    InvQueue(s1, busy);
    FireKeeps(s1, script, busy);
    var s2 := Fire(s1, script);
    FireStarts(s1, script, u, t, busy);
    assert Due(s1) == {u} && Due(s2) < {u};
    assert Due(s2) == {};
    InvQueue(s2, busy);
    assert s2.queue != [] ==> s2.queue[0] in s2.queue && s2.queue[0] !in Due(s2);
    assert CheckSpec(s1, script, busy) == CheckSpec(s2, script, busy) == s2;
  }

  lemma FireStarts(s: Sys, script: Script, u: nat, t: nat, busy: set<nat>)
    requires Inv(s, busy) && ScriptOk(s.timers.Keys, script) && s.queue == [u] && u in s.timers && t != u
    requires s.timers[u].deadline == s.now && script(u) == [Start(t)] && t in s.timers
    ensures Closed(s) && t in Fire(s, script).queue
  {
    hide Inv, StartSpec, Rearmed;
    InvQueue(s, busy);
    PopKeeps(s, busy);
    var s1 := Popped(s);
    var s2 := StartSpec(s1, t);
    ApplyClosed(s1, Start(t));
    assert script(u)[1..] == [];
    assert ApplyAll(s1, script(u)) == ApplyAll(Apply(s1, Start(t)), []) == s2;
    StartKeeps(s1, t, busy + {u});
    RearmedHas(s2, u, t, busy);
  }

  lemma RearmedHas(s: Sys, u: nat, t: nat, busy: set<nat>)
    requires Inv(s, busy + {u}) && u in s.timers && t in s.queue && t != u
    ensures Closed(s) && t in Rearmed(s, u).queue
  {
    hide Inv, StartSpec;
    InvQueue(s, busy + {u});
    ApplyFrame(Deactivated(s, u), Start(u), t);
  }

  /**
   A timer that is started after a stop has taken it off: the stop clears its flag, and it stays
   on the queue. Stopping it again is refused, so it will fire.
   */
  lemma StartInStop(m: Machine, a: nat, t: nat)
    requires Ok(m) && a !in m.calls && t in m.s.timers && m.s.timers[t].active
    ensures var m' := Run(Run(m, [Test(a, t), TakeOff(a)]), [Whole(Do(Start(t))), Clear(a)]);
      && t in m'.s.queue && t in m'.s.timers && !m'.s.timers[t].active && !Ok(m')
      && Step(m', Whole(Do(Stop(t)))) == m'
  {
    hide Inv, Run, TimerSpec.Without, Ok, StartSpec;
    var m1 := Step(m, Test(a, t));
    var m2 := Step(m1, TakeOff(a));
    var m3 := Step(m2, Whole(Do(Start(t))));
    RunTwo(m, Test(a, t), TakeOff(a));
    RunTwo(m2, Whole(Do(Start(t))), Clear(a));
    StepIff(m, Test(a, t));
    StepIff(m1, TakeOff(a));
    OkFacts(m2);
    StepIff(m2, Whole(Do(Start(t))));
    StartKeeps(m2.s, t, Clearing(m2.calls));
    assert m3.s == StartSpec(m2.s, t) && t in m3.s.queue;
    OkFacts(m3);
    StepIff(m3, Clear(a));
  }

  /** Timer 1, due at the next tick, and timer 2, which waits ten ticks and is not started. */
  lemma TwoTimers() returns (m: Machine)
    ensures Ok(m) && m.calls == map[] && m.s.queue == [1] && m.s.timers.Keys == {1, 2} && m.s.timers[2].init == 10
    ensures m.s.timers[1].deadline == m.s.now + 1 && m.s.timers[1].active
  {
    m := Machine(Sys(0, 1, map[1 := Timer(1, false, true, 1, 0), 2 := Timer(10, false, false, 0, 0)], [1], []), map[]);
    assert forall x :: x in m.s.queue ==> x == 1;
    assert Pending(m.s, 1);
  }

  /** So each of the overlaps leads out of order from some state that is in order. */
  lemma OverlapsFail(script: Script) returns (m: Machine)
    requires script(1) == [Start(2)] && script(2) == []
    ensures Ok(m)
    ensures !Ok(Run(Run(m, [Off(0, 2), Read(0)]), [Whole(Tick(script)), Queue(0)]))
    ensures !Ok(Run(Run(m, [Off(0, 2), Off(1, 2), Read(0)]), [Read(1), Queue(0), Queue(1)]))
    ensures !Ok(Run(Run(m, [Test(0, 1), TakeOff(0)]), [Whole(Do(Start(1))), Clear(0)]))
  {
    hide Ok, Run;
    m := TwoTimers();
    CallbackStarts(m, 0, 2, 1, script);
    TwoStarts(m, 0, 1, 2);
    StartInStop(m, 0, 1);
  }

  // ----- the parts on the skip list -----

  lemma OkCalls(m: Machine)
    requires Ok(m)
    ensures forall a :: a in m.calls ==> m.calls[a].t in m.s.timers
  {
  }

  /** What runs with interrupts off. */
  method PerformWhole(list: SkipList.TimerList, calls: map<nat, Call>, e: Event)
    requires list.Valid(Clearing(calls)) && Ok(Machine(list.spec, calls)) && EventOk(list.timers.Keys, e)
    modifies list
    ensures list.Valid(Clearing(calls)) && list.timers.Keys == old(list.timers.Keys)
    ensures Machine(list.spec, calls) == Step(Machine(old(list.spec), calls), Whole(e))
  {
    hide SkipList.RowsOk, Inv, SkipList.AllStored, Settled, Apply, TickSpec, ScriptOk, OpOk;
    SkipList.StoredKeys(list.timers, list.spec);
    InvQueue(list.spec, Clearing(calls));
    match e
    case Do(op) => list.Perform(op, Clearing(calls));
    case Tick(script) => list.TickIncrease(script, Clearing(calls));
  }

  /** A call of rt_timer_start takes its next part on the links, if it is its turn. */
  method PerformStart(list: SkipList.TimerList, calls: map<nat, Call>, p: Part) returns (calls': map<nat, Call>)
    requires p.Off? || p.Read? || p.Queue?
    requires list.Valid(Clearing(calls)) && Ok(Machine(list.spec, calls)) && Cond(Machine(list.spec, calls), p)
    modifies list
    ensures list.Valid(Clearing(calls')) && Machine(list.spec, calls') == Step(Machine(old(list.spec), calls), p)
    ensures list.timers.Keys == old(list.timers.Keys)
  {
    hide SkipList.RowsOk, Inv, SkipList.AllStored, Ok, Apply, TickSpec, TimerSpec.Without, Queued, Fits, Settled;
    OkFacts(Machine(list.spec, calls));
    OkCalls(Machine(list.spec, calls));
    SkipList.StoredKeys(list.timers, list.spec);
    calls' := calls;
    if p.Off? {
      if p.a !in calls && p.t in list.timers {
        SameClearing(calls, p.a, ToRead(p.t));
        list.StartOff(p.t, Clearing(calls));
        calls' := calls[p.a := ToRead(p.t)];
      }
    } else if p.a in calls {
      var t := calls[p.a].t;
      if p.Read? && calls[p.a].ToRead? {
        SameClearing(calls, p.a, ToQueue(t));
        InvSorted(list.spec, Clearing(calls));
        FitsIff(list.spec, t, list.spec.now + list.spec.timers[t].init);
        list.ReadTick(t, Clearing(calls));
        calls' := calls[p.a := ToQueue(t)];
      } else if p.Queue? && calls[p.a].ToQueue? {
        SameClearing(calls, p.a, ToQueue(t));
        list.Queue(t, Clearing(calls));
        calls' := calls - {p.a};
      }
    }
  }

  /** A call of rt_timer_stop takes its next part on the links, if it is its turn. */
  method PerformStop(list: SkipList.TimerList, calls: map<nat, Call>, p: Part) returns (calls': map<nat, Call>)
    requires p.Test? || p.TakeOff? || p.Clear?
    requires list.Valid(Clearing(calls)) && Ok(Machine(list.spec, calls)) && Cond(Machine(list.spec, calls), p)
    modifies list
    ensures list.Valid(Clearing(calls')) && Machine(list.spec, calls') == Step(Machine(old(list.spec), calls), p)
    ensures list.timers.Keys == old(list.timers.Keys)
  {
    hide SkipList.RowsOk, Inv, SkipList.AllStored, Ok, Apply, TickSpec, TimerSpec.Without, Queued, Fits, Settled;
    OkFacts(Machine(list.spec, calls));
    OkCalls(Machine(list.spec, calls));
    SkipList.StoredKeys(list.timers, list.spec);
    calls' := calls;
    if p.Test? {
      if p.a !in calls && p.t in list.timers {
        SkipList.StopFacts(list.timers, list.spec, p.t);
        if list.timers[p.t].activated {
          SameClearing(calls, p.a, ToTakeOff(p.t));
          calls' := calls[p.a := ToTakeOff(p.t)];
        }
      }
    } else if p.a in calls {
      var t := calls[p.a].t;
      if p.TakeOff? && calls[p.a].ToTakeOff? {
        MoreClearing(calls, p.a, t);
        list.TakeOff(t, Clearing(calls));
        calls' := calls[p.a := ToClear(t)];
      } else if p.Clear? && calls[p.a].ToClear? {
        LessClearing(calls, p.a, t);
        list.Deactivate(t, Clearing(calls - {p.a}));
        calls' := calls - {p.a};
      }
    }
  }

  /** The next part of any call, or a whole operation. */
  method Perform(list: SkipList.TimerList, calls: map<nat, Call>, p: Part) returns (calls': map<nat, Call>)
    requires list.Valid(Clearing(calls)) && Ok(Machine(list.spec, calls)) && Cond(Machine(list.spec, calls), p)
    requires p.Whole? ==> EventOk(list.timers.Keys, p.e)
    modifies list
    ensures list.Valid(Clearing(calls')) && Machine(list.spec, calls') == Step(Machine(old(list.spec), calls), p)
    ensures Ok(Machine(list.spec, calls')) && list.timers.Keys == old(list.timers.Keys)
  {
    hide SkipList.RowsOk, Inv, SkipList.AllStored, Ok, Step, Cond, EventOk;
    StepIff(Machine(list.spec, calls), p);
    calls' := calls;
    if p.Off? || p.Read? || p.Queue? {
      calls' := PerformStart(list, calls, p);
    } else if p.Whole? {
      PerformWhole(list, calls, p.e);
    } else {
      calls' := PerformStop(list, calls, p);
    }
  }

  /**
   Any interleaving of parts, each taken under its condition, does on the skip list with its
   32-bit ticks what it does on the sorted queue.
   */
  method Execute(list: SkipList.TimerList, ps: seq<Part>) returns (calls: map<nat, Call>)
    requires list.Valid({}) && Settled(list.spec) && Kept(Machine(list.spec, map[]), ps)
    requires forall i :: 0 <= i < |ps| && ps[i].Whole? ==> EventOk(list.timers.Keys, ps[i].e)
    modifies list
    ensures list.Valid(Clearing(calls)) && Ok(Machine(list.spec, calls))
    ensures Machine(list.spec, calls) == Run(Machine(old(list.spec), map[]), ps)
  {
    hide SkipList.RowsOk, Inv, SkipList.AllStored, Settled, Step, Cond, Ok, EventOk;
    ghost var m0 := Machine(list.spec, map[]);
    calls := map[];
    NoneClearing();
    FreshOk(list.spec);
    var i := 0;
    while i < |ps|
      invariant 0 <= i <= |ps| && list.timers.Keys == old(list.timers.Keys)
      invariant list.Valid(Clearing(calls)) && Ok(Machine(list.spec, calls))
      invariant Kept(Machine(list.spec, calls), ps[i..])
      invariant Run(Machine(list.spec, calls), ps[i..]) == Run(m0, ps)
    {
      assert ps[i..][0] == ps[i] && ps[i..][1..] == ps[i + 1..];
      calls := Perform(list, calls, ps[i]);
      i := i + 1;
    }
    assert ps[i..] == [];
  }

  lemma NoneClearing()
    ensures Clearing(map[]) == {}
  {
  }

  lemma FreshOk(s: Sys)
    requires Inv(s, {}) && Settled(s)
    ensures Ok(Machine(s, map[]))
  {
    NoneClearing();
  }
}
