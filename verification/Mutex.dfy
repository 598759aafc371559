/**
 The mutex of src/ipc.c over the scheduler: recursive holding, hand-off to the first waiter,
 and priority inheritance for a mutex that queues by priority.
 */
module MutexState {
  import opened RtList
  import opened ThreadLists
  import opened WaitList
  import opened KernelState
  import opened Threads

  /**
   The fields of a mutex, the threads that blocked in rt_mutex_take and have not returned, and
   those among them that were not taken off the list by a release or a timeout, but that somebody
   else resumed by rt_thread_resume.
   */
  datatype State = State(value: nat, owner: int, original: nat, hold: nat, inside: set<int>, pulled: set<int>)

  /** There is an owner exactly while the value is 0; nobody waits for a mutex that is free. */
  ghost predicate Safe(k: Kernel, N: nat, m: State, h: nat) {
    && h in k.queues
    && (m.value == 1 <==> m.owner == NONE) && m.value <= 1 && (m.owner == NONE <==> m.hold == 0)
    && (m.owner != NONE ==> m.owner in k.stat && m.owner in k.prio && m.owner !in k.queues[h] && m.original < N)
    && (k.queues[h] != [] ==> m.owner != NONE)
  }

  /** Where a thread inside rt_mutex_take is: waiting, the owner or resumed by somebody else
      without an error, or on its way out with one. */
  predicate Placed(k: Kernel, m: State, h: nat, t: int)
    requires h in k.queues
  {
    t in k.error && (k.error[t] == EOK <==> t in k.queues[h] || t == m.owner || t in m.pulled)
  }

  ghost predicate InsideOk(k: Kernel, m: State, h: nat)
    requires h in k.queues
  {
    && (forall t :: t in m.inside ==> t != NONE && Placed(k, m, h, t))
    && (forall t :: t in k.queues[h] ==> t in m.inside)
    && (forall t :: t in m.pulled ==> t in m.inside && t !in k.queues[h] && t != m.owner)
  }

  /** Waiters by priority; the owner is at least as urgent as each of them and as it was by
      itself; everybody else has the priority of their own. */
  ghost predicate Inherits(k: Kernel, m: State, h: nat, base: map<int, nat>)
    requires h in k.queues
  {
    && Sorted(k.queues[h], k.prio) && NONE !in k.prio
    && (forall t :: t in k.prio && t != m.owner ==> t in base && k.prio[t] == base[t])
    && (m.owner != NONE ==>
          && m.owner in k.prio && m.owner in base && m.original == base[m.owner] && k.prio[m.owner] <= base[m.owner]
          && forall i :: 0 <= i < |k.queues[h]| ==>
            k.queues[h][i] in k.prio && k.prio[m.owner] <= k.prio[k.queues[h][i]])
  }

  ghost predicate Ok(k: Kernel, N: nat, m: State, h: nat, flag: Flag, base: map<int, nat>) {
    h in k.queues && Safe(k, N, m, h) && InsideOk(k, m, h) && (flag == Prio ==> Inherits(k, m, h, base))
  }

  /** What other activity may do to the threads and keep the mutex: its list and the
      priorities stay, and so do the error codes of threads inside the call. */
  ghost predicate Elsewhere(k: Kernel, k': Kernel, m: State, h: nat) {
    && h in k.queues && h in k'.queues && k'.queues[h] == k.queues[h] && k'.prio == k.prio
    && (forall t :: t in k.stat ==> t in k'.stat)
    && (forall t :: t in m.inside && t in k.error ==> t in k'.error && k'.error[t] == k.error[t])
  }

  lemma ElsewhereKeeps(k: Kernel, k': Kernel, N: nat, m: State, h: nat, flag: Flag, base: map<int, nat>)
    requires Ok(k, N, m, h, flag, base) && Elsewhere(k, k', m, h)
    ensures Ok(k', N, m, h, flag, base)
  {
    hide Sorted;
    forall t | t in m.inside ensures Placed(k', m, h, t) {
      assert Placed(k, m, h, t);
    }
  }

  /** A waiter whose time is up leaves; the owner keeps the priority it has. */
  lemma TimeoutKeeps(k: Kernel, k': Kernel, N: nat, m: State, h: nat, flag: Flag, base: map<int, nat>, t: int)
    requires KernelState.Ok(k, N) && h > N && Ok(k, N, m, h, flag, base) && t in k.queues[h]
      && IsWoken(k, k', t, TimedOut)
    requires k'.error == k.error[t := ETIMEOUT]
    ensures Ok(k', N, m, h, flag, base)
  {
    hide KernelState.Almost, Sorted, Less;
    QueueLess(k, k', N, h, t);
    var q := k.queues[h];
    if flag == Prio {
      SortedLess(q, k.prio, t);
    }
    assert m.owner != NONE && m.owner != t;
    forall x | x in m.inside ensures Placed(k', m, h, x) {
      PlacedStill(k, k', m, h, t, x);
    }
    forall i | 0 <= i < |k'.queues[h]| ensures k'.queues[h][i] in q {
      LessFrom(q, t, i);
    }
    InQueue(q);
  }

  lemma PlacedStill(k: Kernel, k': Kernel, m: State, h: nat, t: int, x: int)
    requires h in k.queues && Placed(k, m, h, x) && m.owner != t && t !in m.pulled && k'.error == k.error[t := ETIMEOUT]
    requires h in k'.queues && (x in k'.queues[h] <==> x in k.queues[h] && x != t)
    ensures Placed(k', m, h, x)
  {
  }

  lemma InQueue(q: seq<int>)
    ensures forall x :: x in q ==> exists i :: 0 <= i < |q| && q[i] == x
  {
  }

  lemma {:induction false} SortedLess(q: seq<int>, prio: map<int, nat>, t: int)
    requires Sorted(q, prio)
    ensures Sorted(Less(q, t), prio)
  {
    if q != [] {
      SortedLess(q[1..], prio, t);
      if q[0] != t {
        var d := Less(q[1..], t);
        forall i | 0 <= i < |d| ensures d[i] in prio && prio[q[0]] <= prio[d[i]] {
          LessFrom(q[1..], t, i);
          var j :| 0 <= j < |q[1..]| && q[1..][j] == d[i];
          assert q[j + 1] == d[i];
        }
      }
    }
  }

  lemma {:induction false} LessFrom(q: seq<int>, t: int, i: nat)
    requires i < |Less(q, t)|
    ensures Less(q, t)[i] in q
  {
    if q[0] != t && i > 0 {
      LessFrom(q[1..], t, i - 1);
    }
  }

  // ----- what the operations keep -----

  lemma FreshMutex(k: Kernel, m: State, N: nat, h: nat, flag: Flag)
    requires h in k.queues && k.queues[h] == [] && NONE !in k.prio && m == State(1, NONE, 0xFF, 0, {}, {})
    ensures Ok(k, N, m, h, flag, k.prio)
  {
  }

  /** The error code of a thread outside the call does not matter. */
  lemma ErrorElse(k: Kernel, N: nat, m: State, h: nat, flag: Flag, base: map<int, nat>, t: int, err: Err)
    requires Ok(k, N, m, h, flag, base) && t !in m.inside
    ensures Ok(k.(error := k.error[t := err]), N, m, h, flag, base)
  {
    ElsewhereKeeps(k, k.(error := k.error[t := err]), N, m, h, flag, base);
  }

  /** Holding once more, or once less but not for the last time. */
  lemma HoldKeeps(k: Kernel, N: nat, m: State, h: nat, flag: Flag, base: map<int, nat>, hold: nat)
    requires Ok(k, N, m, h, flag, base) && m.owner != NONE && hold > 0
    ensures Ok(k, N, m.(hold := hold), h, flag, base)
  {
    hide Sorted;
    forall t | t in m.inside ensures Placed(k, m.(hold := hold), h, t) {
      assert Placed(k, m, h, t);
    }
  }

  /** The value says whether there is an owner. */
  lemma FreeIff(k: Kernel, N: nat, m: State, h: nat, flag: Flag, base: map<int, nat>)
    requires Ok(k, N, m, h, flag, base)
    ensures m.value <= 1 && (m.value == 1 <==> m.owner == NONE) && (m.value == 1 <==> m.hold == 0)
    ensures m.owner != NONE ==> m.owner in k.stat && m.owner in k.prio && m.original < N
    ensures h in k.queues && (m.owner != NONE ==> m.owner !in k.queues[h])
  {
  }

  /** A free mutex is taken. */
  lemma TakeKeeps(k: Kernel, N: nat, m: State, h: nat, flag: Flag, base: map<int, nat>, t: int)
    requires Ok(k, N, m, h, flag, base) && m.owner == NONE && t != NONE && t !in m.inside
    requires t in k.stat && t in k.prio && k.prio[t] < N
    ensures k.queues[h] == []
      && Ok(k, N, m.(value := 0, owner := t, original := k.prio[t], hold := m.hold + 1), h, flag, base)
  {
    var m' := m.(value := 0, owner := t, original := k.prio[t], hold := m.hold + 1);
    forall x | x in m.inside ensures Placed(k, m', h, x) {
      assert Placed(k, m, h, x);
    }
  }

  /** The owner gets the priority of a more urgent thread that is about to wait. */
  lemma BoostKeeps(k: Kernel, k': Kernel, N: nat, m: State, h: nat, flag: Flag, base: map<int, nat>, p: nat)
    requires KernelState.Ok(k, N) && h > N && Ok(k, N, m, h, flag, base) && m.owner != NONE && p < k.prio[m.owner]
    requires k'.prio == k.prio[m.owner := p] && k'.stat == k.stat && k'.error == k.error && h in k'.queues
      && k'.queues[h] == k.queues[h]
    ensures Ok(k', N, m, h, flag, base)
  {
    forall x | x in m.inside ensures Placed(k', m, h, x) {
      assert Placed(k, m, h, x);
    }
    forall i | 0 <= i < |k.queues[h]| ensures k.queues[h][i] != m.owner {
      assert k.queues[h][i] in k.queues[h];
    }
  }

  /** Changing the priority of a thread that does not wait here leaves the list. */
  lemma ListAside(k: Kernel, N: nat, h: nat, t: int, p: nat, queues: map<nat, seq<int>>)
    requires KernelState.Ok(k, N) && h > N && h in k.queues && t !in k.queues[h] && p <= N && p in k.queues
    requires queues == k.queues || queues == Off(k.queues, t)[p := Less(k.queues[p], t) + [t]]
    ensures h in queues && queues[h] == k.queues[h]
  {
    hide IndexAgrees, LogOk, Ring, Less;
    RingOf(k.links, k.queues, k.stat.Keys, h);
    RingApart(k.links, HeadOf(h), k.queues[h]);
    LessIs(k.queues[h], t);
  }

  /** A thread that is no more urgent than the owner begins to wait. */
  lemma WaitKeeps(k: Kernel, k': Kernel, N: nat, m: State, h: nat, flag: Flag, base: map<int, nat>, t: int)
    requires KernelState.Ok(k, N) && h > N && Ok(k, N, m, h, flag, base) && m.owner != NONE && m.owner != t
    requires t in k.stat && k.stat[t] == Ready && t in k.prio && t !in m.inside && t != NONE
    requires m.owner in k.prio && k.prio[m.owner] <= k.prio[t]
    requires k'.prio == k.prio && k'.stat == k.stat[t := Suspended] && k'.error == k.error[t := EOK]
    requires k'.queues == Off(k.queues, t)[h := Joining(k.queues[h], k.prio, flag, t)]
    ensures Ok(k', N, m.(inside := m.inside + {t}), h, flag, base) && t in k'.queues[h]
  {
    hide KernelState.Almost, Sorted, Joining, Off;
    var m', q := m.(inside := m.inside + {t}), k.queues[h];
    JoiningMembers(q, k.prio, flag, t);
    forall x | x in m'.inside ensures Placed(k', m', h, x) {
      assert x != t ==> Placed(k, m, h, x);
    }
    if flag == Prio {
      JoiningSorted(q, k.prio, t);
      forall i | 0 <= i < |k'.queues[h]|
        ensures k'.queues[h][i] in k.prio && k.prio[m.owner] <= k.prio[k'.queues[h][i]] {
        assert k'.queues[h][i] in k'.queues[h];
        assert k'.queues[h][i] == t || k'.queues[h][i] in q;
        InQueue(q);
      }
    }
  }

  lemma JoiningMembers(q: seq<int>, prio: map<int, nat>, flag: Flag, t: int)
    requires t in prio
    ensures forall x :: x in Joining(q, prio, flag, t) <==> x in q || x == t
  {
    InsertedMembers(q, Place(q, prio, flag, t), t);
  }

  /** Nobody waits: the mutex becomes free. */
  lemma FreeKeeps(k: Kernel, N: nat, m: State, h: nat, flag: Flag, base: map<int, nat>)
    requires SafeAfter(k, N, m, h, flag, base) && m.owner != NONE && k.queues[h] == [] && m.owner !in m.inside
    ensures Ok(k, N, m.(value := 1, owner := NONE, original := 0xFF, hold := 0), h, flag, base)
  {
    var m' := m.(value := 1, owner := NONE, original := 0xFF, hold := 0);
    forall x | x in m.inside ensures Placed(k, m', h, x) {
      assert Placed(k, m, h, x);
    }
  }

  /** The first waiter becomes the owner and is woken: it is the most urgent one. */
  lemma HandKeeps(k: Kernel, k': Kernel, N: nat, m: State, h: nat, flag: Flag, base: map<int, nat>)
    requires KernelState.Ok(k, N) && h > N && SafeAfter(k, N, m, h, flag, base) && m.owner != NONE
      && m.owner !in m.inside
    requires k.queues[h] != [] && k.queues[h][0] in k.prio && k.prio[k.queues[h][0]] < N && k.queues[h][0] >= 0
    requires IsWoken(k, k', k.queues[h][0], Resumed) && k'.error == k.error
    ensures h in k'.queues && k'.queues[h] == k.queues[h][1..]
    ensures Ok(k', N, m.(owner := k.queues[h][0], original := k.prio[k.queues[h][0]], hold := 1), h, flag, base)
  {
    hide KernelState.Almost, Less, Off;
    var q, t := k.queues[h], k.queues[h][0];
    QueueLess(k, k', N, h, t);
    LessHead(q);
    var m' := m.(owner := t, original := k.prio[t], hold := 1);
    forall x | x in m'.inside ensures Placed(k', m', h, x) {
      assert Placed(k, m, h, x);
    }
    InQueue(q);
  }

  lemma LessHead(q: seq<int>)
    requires q != []
    ensures Less(q, q[0]) == q[1..]
  {
  }

  /** The owner has its own priority again. */
  lemma RestoreKeeps(k: Kernel, k': Kernel, N: nat, m: State, h: nat, flag: Flag, base: map<int, nat>)
    requires KernelState.Ok(k, N) && h > N && Ok(k, N, m, h, flag, base) && m.owner != NONE
    requires k'.prio == k.prio[m.owner := m.original] && k'.stat == k.stat && k'.error == k.error
    requires h in k'.queues && k'.queues[h] == k.queues[h]
    ensures SafeAfter(k', N, m, h, flag, base)
  {
    forall x | x in m.inside ensures Placed(k', m, h, x) {
      assert Placed(k, m, h, x);
    }
    forall i | 0 <= i < |k.queues[h]| ensures k.queues[h][i] != m.owner {
      assert k.queues[h][i] in k.queues[h];
    }
  }

  /** Between restoring the owner's priority and handing over, the owner need not be the most urgent. */
  ghost predicate SafeAfter(k: Kernel, N: nat, m: State, h: nat, flag: Flag, base: map<int, nat>) {
    && h in k.queues && Safe(k, N, m, h) && InsideOk(k, m, h)
    && (flag == Prio ==> Sorted(k.queues[h], k.prio) && NONE !in k.prio
                         && (forall t :: t in k.prio ==> t in base && k.prio[t] == base[t]))
  }

  /** Whoever waits, waits for an owner that is at least as urgent and has the mutex. */
  lemma OwnerOutranks(k: Kernel, N: nat, m: State, h: nat, base: map<int, nat>, t: int)
    requires Ok(k, N, m, h, Prio, base) && t in k.queues[h]
    ensures m.owner != NONE && m.owner != t && m.value == 0 && m.hold > 0
    ensures m.owner in k.prio && t in k.prio && k.prio[m.owner] <= k.prio[t]
    ensures m.owner in base && k.prio[m.owner] <= base[m.owner]
  {
    InQueue(k.queues[h]);
  }

  /**
   A thread inside the call that no longer waits, and finds no error for the owner only: this is
   so if and only if nobody else has resumed it.
   */
  lemma NoErrorIffOwner(k: Kernel, N: nat, m: State, h: nat, flag: Flag, base: map<int, nat>, t: int)
    requires Ok(k, N, m, h, flag, base) && t in m.inside && t !in k.queues[h]
    ensures t in k.error && ((k.error[t] == EOK <==> m.owner == t) <==> t !in m.pulled)
    ensures t in m.pulled ==> k.error[t] == EOK && m.owner != t
  {
    assert Placed(k, m, h, t);
  }

  /** A waiter that somebody else resumes leaves the list without an error and without the mutex. */
  lemma PulledKeeps(k: Kernel, k': Kernel, N: nat, m: State, h: nat, flag: Flag, base: map<int, nat>, t: int)
    requires KernelState.Ok(k, N) && h > N && Ok(k, N, m, h, flag, base) && t in k.queues[h]
      && IsWoken(k, k', t, Resumed)
    requires k'.error == k.error
    ensures Ok(k', N, m.(pulled := m.pulled + {t}), h, flag, base)
    ensures m.owner != NONE && m.owner != t && t in k'.error && k'.error[t] == EOK && t !in k'.queues[h]
  {
    hide KernelState.Almost, Sorted, Less;
    QueueLess(k, k', N, h, t);
    var q, m' := k.queues[h], m.(pulled := m.pulled + {t});
    if flag == Prio {
      SortedLess(q, k.prio, t);
    }
    forall x | x in m.inside ensures Placed(k', m', h, x) {
      assert Placed(k, m, h, x);
      assert x in k'.queues[h] <==> x in q && x != t;
    }
    forall i | 0 <= i < |k'.queues[h]| ensures k'.queues[h][i] in q {
      LessFrom(q, t, i);
    }
    InQueue(q);
  }

  lemma LeaveKeeps(k: Kernel, N: nat, m: State, h: nat, flag: Flag, base: map<int, nat>, t: int)
    requires Ok(k, N, m, h, flag, base) && t in m.inside && t !in k.queues[h]
    ensures Ok(k, N, m.(inside := m.inside - {t}, pulled := m.pulled - {t}), h, flag, base)
  {
    var m' := m.(inside := m.inside - {t}, pulled := m.pulled - {t});
    forall x | x in m'.inside ensures Placed(k, m', h, x) {
      assert Placed(k, m, h, x);
    }
  }

  lemma WaiterKnown(k: Kernel, N: nat, m: State, h: nat, flag: Flag, base: map<int, nat>, t: int)
    requires KernelState.Ok(k, N) && h > N && Ok(k, N, m, h, flag, base) && t in k.queues[h]
    ensures t in m.inside && t in k.error && k.error[t] == EOK && t in k.stat && k.stat[t] == Suspended
  {
    assert Placed(k, m, h, t);
    assert On(k.queues, h, t);
  }

  lemma KnownWaiter(k: Kernel, N: nat, h: nat)
    requires KernelState.Ok(k, N) && h in k.queues && h > N && k.queues[h] != []
    ensures k.queues[h][0] >= 0 && k.queues[h][0] in k.prio && k.prio[k.queues[h][0]] < N
  {
    assert On(k.queues, h, k.queues[h][0]);
  }

  lemma Numbered(k: Kernel, N: nat, t: int)
    requires KernelState.Ok(k, N) && t in k.stat
    ensures t >= 0
  {
  }
}

module Mutexes {
  import opened RtList
  import opened ThreadLists
  import opened WaitList
  import opened ReadyIndex
  import opened KernelState
  import opened Threads
  import MutexState

  /** What a caller of rt_mutex_take gets at once, or that it has to wait. */
  datatype Outcome = Taken | Failed(err: Err) | Blocked

  function Least(a: nat, b: nat): nat {
    if a < b then a else b
  }

  class Mutex {
    const sched: Scheduler
    const h: nat
    const flag: Flag
    var value: nat
    var owner: int
    var original: nat
    var hold: nat
    ghost var inside: set<int>
    ghost var pulled: set<int>
    /** The priorities the threads have by themselves. */
    ghost var base: map<int, nat>

    ghost function Here(): MutexState.State
      reads this
    {
      MutexState.State(value, owner, original, hold, inside, pulled)
    }

    ghost predicate Valid()
      reads this, sched
    {
      sched.Valid() && h > sched.N && MutexState.Ok(sched.Now(), sched.N, Here(), h, flag, base)
    }

    /** The current thread runs, and it is not on its way through rt_mutex_take. */
    ghost predicate Running()
      reads this, sched
    {
      sched.current in sched.stat && sched.stat[sched.current] == Ready && sched.current !in inside
    }

    /** rt_mutex_init */
    constructor (s: Scheduler, list: nat, f: Flag)
      requires s.Valid() && list > s.N && list in s.queues && s.queues[list] == []
      ensures Valid() && sched == s && h == list && flag == f && owner == NONE && base == s.prio
      ensures inside == {} && pulled == {}
    {
      sched, h, flag := s, list, f;
      value, owner, original, hold := 1, NONE, 0xFF, 0;
      inside, pulled, base := {}, {}, s.prio;
      new;
      MutexState.FreshMutex(s.Now(), Here(), s.N, h, f);
    }

    /** rt_mutex_take up to the point where the thread has the mutex, has failed or waits. */
    method Take(time: int) returns (r: Outcome)
      requires Valid() && Running() && hold < 0xFF
      modifies this`value, this`owner, this`original, this`hold, this`inside
      modifies sched`links, sched`stat, sched`armed, sched`index, sched`queues, sched`error, sched`log, sched`prio
      ensures Valid() && sched.current in sched.error && sched.current in old(sched.prio)
      ensures r.Taken? <==> old(owner) == NONE || old(owner) == sched.current
      ensures r.Failed? <==> !r.Taken? && time == 0
      ensures r.Taken? ==> owner == sched.current && hold == old(hold) + 1 && inside == old(inside)
      ensures r.Taken? ==> original == if old(owner) == NONE then old(sched.prio)[sched.current] else old(original)
      ensures r.Failed? ==> r.err == ETIMEOUT && sched.error == old(sched.error)[sched.current := ETIMEOUT]
      ensures !r.Blocked? ==>
        sched.prio == old(sched.prio) && sched.queues == old(sched.queues) && sched.stat == old(sched.stat)
      ensures !r.Taken? ==> owner == old(owner) && hold == old(hold) && original == old(original) && value == old(value)
      ensures r.Blocked? ==> inside == old(inside) + {sched.current} && h in old(sched.queues) && h in sched.queues
      ensures r.Blocked? ==>
        sched.current in sched.prio && sched.queues[h] == Joining(old(sched.queues)[h], sched.prio, flag, sched.current)
      ensures r.Blocked? ==> (sched.current in sched.armed <==> time > 0)
      ensures r.Blocked? ==> owner in old(sched.prio)
      ensures r.Blocked? && owner in old(sched.prio) ==>
        sched.prio == old(sched.prio)[owner := Least(old(sched.prio)[owner], old(sched.prio)[sched.current])]
    {
      hide KernelState.Ok, MutexState.Ok, Off, ReadyIndex.Ok, Joining;
      var t := sched.current;
      SetCode(t, EOK);
      if owner == t {
        MutexState.HoldKeeps(sched.Now(), sched.N, Here(), h, flag, base, hold + 1);
        hold := hold + 1;
        return Taken;
      }
      MutexState.FreeIff(sched.Now(), sched.N, Here(), h, flag, base);
      if value > 0 {
        MutexState.TakeKeeps(sched.Now(), sched.N, Here(), h, flag, base, t);
        value := value - 1;
        owner, original, hold := t, sched.prio[t], hold + 1;
        return Taken;
      }
      if time == 0 {
        SetCode(t, ETIMEOUT);
        return Failed(ETIMEOUT);
      }
      Block(t, time);
      return Blocked;
    }

    /** thread->error = err for the current thread */
    method SetCode(t: int, err: Err)
      requires Valid() && Running() && t == sched.current
      modifies sched`error
      ensures Valid() && sched.error == old(sched.error)[t := err] && t in sched.prio && sched.prio[t] < sched.N
        && t >= 0
    {
      hide KernelState.Ok, MutexState.Ok, ReadyIndex.Ok;
      ghost var k := sched.Now();
      KnownThread(k, sched.N, t);
      MutexState.Numbered(k, sched.N, t);
      MutexState.ErrorElse(k, sched.N, Here(), h, flag, base, t, err);
      sched.SetError(t, err);
      assert sched.Now() == k.(error := k.error[t := err]);
    }

    /** The owner gets the priority of the current thread if that is more urgent; the thread
        goes to the list of the mutex. */
    method Block(t: int, time: int)
      requires Valid() && Running() && t == sched.current && owner != NONE && owner != t && time != 0
      modifies this`inside
      modifies sched`links, sched`stat, sched`armed, sched`index, sched`queues, sched`error, sched`log, sched`prio
      ensures Valid() && inside == old(inside) + {t} && h in old(sched.queues) && h in sched.queues
      ensures t in sched.prio && sched.queues[h] == Joining(old(sched.queues)[h], sched.prio, flag, t)
      ensures owner in old(sched.prio) && t in old(sched.prio) && t in sched.error && (t in sched.armed <==> time > 0)
      ensures sched.prio == old(sched.prio)[owner := Least(old(sched.prio)[owner], old(sched.prio)[t])]
    {
      hide KernelState.Ok, MutexState.Ok, ReadyIndex.Ok;
      KnownThread(sched.Now(), sched.N, t);
      Boost(t);
      KnownThread(sched.Now(), sched.N, t);
      WaitFor(t, time);
    }

    /** The owner gets the priority of thread t if that is more urgent. */
    method Boost(t: int)
      requires Valid() && owner != NONE && t in sched.prio && t in sched.stat
      modifies sched`links, sched`stat, sched`index, sched`queues, sched`prio
      ensures Valid() && owner in old(sched.prio) && sched.stat == old(sched.stat)
      ensures h in old(sched.queues) && h in sched.queues && sched.queues[h] == old(sched.queues)[h]
      ensures sched.prio == old(sched.prio)[owner := Least(old(sched.prio)[owner], old(sched.prio)[t])]
    {
      hide KernelState.Ok, MutexState.Ok, Off, ReadyIndex.Ok, Less;
      ghost var k := sched.Now();
      KnownThread(k, sched.N, t);
      MutexState.FreeIff(k, sched.N, Here(), h, flag, base);
      if sched.prio[t] < sched.prio[owner] {
        var p := sched.prio[t];
        sched.ChangePriority(owner, p);
        MutexState.ListAside(k, sched.N, h, owner, p, sched.queues);
        MutexState.BoostKeeps(k, sched.Now(), sched.N, Here(), h, flag, base, p);
      } else {
        assert sched.prio[owner := sched.prio[owner]] == sched.prio;
      }
    }

    /** The current thread goes to the list of the mutex. */
    method WaitFor(t: int, time: int)
      requires Valid() && owner != NONE && owner != t && t in sched.stat && sched.stat[t] == Ready && t !in inside
        && time != 0
      requires t in sched.prio && owner in sched.prio && sched.prio[owner] <= sched.prio[t]
      modifies this`inside, sched`links, sched`stat, sched`armed, sched`index, sched`queues, sched`error, sched`log
      ensures Valid() && inside == old(inside) + {t} && h in old(sched.queues) && h in sched.queues
      ensures sched.queues[h] == Joining(old(sched.queues)[h], sched.prio, flag, t)
      ensures sched.error.Keys == old(sched.error).Keys && (t in sched.armed <==> time > 0)
    {
      hide KernelState.Ok, MutexState.Ok, Off, ReadyIndex.Ok, Joining;
      ghost var k := sched.Now();
      MutexState.Numbered(k, sched.N, t);
      KnownThread(k, sched.N, t);
      MutexState.FreeIff(k, sched.N, Here(), h, flag, base);
      sched.Wait(t, h, flag, time);
      MutexState.WaitKeeps(k, sched.Now(), sched.N, Here(), h, flag, base, t);
      inside := inside + {t};
    }

    /** The end of rt_mutex_take for a thread that had to wait and runs again. */
    method Continue(t: int) returns (r: Outcome)
      requires Valid() && t in inside && t in sched.stat && sched.stat[t] == Ready
      modifies this`inside, this`pulled
      ensures Valid() && inside == old(inside) - {t} && pulled == old(pulled) - {t} && t in sched.error
      ensures r == if sched.error[t] == EOK then Taken else Failed(sched.error[t])
      ensures (r == Taken <==> owner == t) <==> t !in old(pulled)
      ensures t in old(pulled) ==> r == Taken && owner != t
    {
      hide KernelState.Ok, MutexState.Ok, ReadyIndex.Ok;
      MutexState.FreeIff(sched.Now(), sched.N, Here(), h, flag, base);
      AwayFrom(sched.Now(), sched.N, h, t);
      MutexState.NoErrorIffOwner(sched.Now(), sched.N, Here(), h, flag, base, t);
      MutexState.LeaveKeeps(sched.Now(), sched.N, Here(), h, flag, base, t);
      inside, pulled := inside - {t}, pulled - {t};
      return if sched.error[t] == EOK then Taken else Failed(sched.error[t]);
    }

    /** rt_thread_resume for a waiter by somebody who does not release the mutex. */
    method Pull(t: int)
      requires Valid() && h in sched.queues && t in sched.queues[h]
      modifies this`pulled, sched`links, sched`stat, sched`armed, sched`index, sched`queues, sched`log
      ensures Valid() && IsWoken(old(sched.Now()), sched.Now(), t, Resumed) && pulled == old(pulled) + {t}
      ensures owner != NONE && owner != t && t in inside && t in sched.error && sched.error[t] == EOK
      ensures h in sched.queues && sched.queues[h] == Less(old(sched.queues)[h], t)
    {
      hide KernelState.Ok, MutexState.Ok, ReadyIndex.Ok, Less, Off;
      ghost var k := sched.Now();
      MutexState.WaiterKnown(k, sched.N, Here(), h, flag, base, t);
      assert sched.error[t := sched.error[t]] == sched.error;
      var _ := sched.Resume(t, Resumed, sched.error[t]);
      QueueLess(k, sched.Now(), sched.N, h, t);
      MutexState.PulledKeeps(k, sched.Now(), sched.N, Here(), h, flag, base, t);
      pulled := pulled + {t};
    }

    /** The time of a waiter is up. */
    method Expire(t: int)
      requires Valid() && t in sched.armed && h in sched.queues && t in sched.queues[h]
      modifies sched`links, sched`stat, sched`armed, sched`index, sched`queues, sched`error, sched`log
      ensures Valid() && IsWoken(old(sched.Now()), sched.Now(), t, TimedOut)
      ensures t in sched.error && sched.error == old(sched.error)[t := ETIMEOUT]
      ensures h in sched.queues && sched.queues[h] == Less(old(sched.queues)[h], t)
    {
      hide KernelState.Ok, MutexState.Ok, ReadyIndex.Ok, Less, Off;
      ghost var k := sched.Now();
      sched.Timeout(t);
      QueueLess(k, sched.Now(), sched.N, h, t);
      MutexState.TimeoutKeeps(k, sched.Now(), sched.N, Here(), h, flag, base, t);
    }

    /** rt_mutex_release, without the scheduling behind it. */
    method Release() returns (r: Err)
      requires Valid() && Running()
      modifies this`value, this`owner, this`original, this`hold
      modifies sched`links, sched`stat, sched`armed, sched`index, sched`queues, sched`error, sched`log, sched`prio
      ensures Valid() && h in old(sched.queues) && h in sched.queues
      ensures r == if old(owner) == sched.current then EOK else EERROR
      ensures r == EERROR ==> sched.error == old(sched.error)[sched.current := EERROR] && Here() == old(Here())
      ensures r == EERROR || old(hold) > 1 ==> sched.queues == old(sched.queues) && sched.prio == old(sched.prio)
      ensures r == EOK && old(hold) > 1 ==> Here() == old(Here()).(hold := old(hold) - 1)
      ensures r == EOK ==> old(hold) > 0
      ensures r == EOK && old(hold) == 1 ==> sched.prio == old(sched.prio)[sched.current := old(original)]
      ensures r == EOK && old(hold) == 1 && old(sched.queues)[h] == [] ==> value == 1 && owner == NONE && hold == 0
      ensures r == EOK && old(hold) == 1 && old(sched.queues)[h] != [] ==>
        && value == 0 && owner == old(sched.queues)[h][0] && hold == 1 && owner in sched.prio
        && original == sched.prio[owner]
        && sched.queues[h] == old(sched.queues)[h][1..]
        && owner in sched.stat && sched.stat[owner] == Ready
    {
      hide KernelState.Ok, MutexState.Ok, ReadyIndex.Ok, Less, Off;
      ghost var k := sched.Now();
      var t := sched.current;
      KnownThread(k, sched.N, t);
      MutexState.FreeIff(k, sched.N, Here(), h, flag, base);
      if t != owner {
        SetCode(t, EERROR);
        return EERROR;
      }
      MutexState.Numbered(k, sched.N, t);
      if hold > 1 {
        MutexState.HoldKeeps(k, sched.N, Here(), h, flag, base, hold - 1);
      }
      hold := hold - 1;
      if hold == 0 {
        Restore(k);
        HandOver();
      }
      return EOK;
    }

    /** The owner, which holds the mutex no more, gets back the priority it came with. */
    method Restore(ghost k: Kernel)
      requires sched.Valid() && h > sched.N && k == sched.Now() && owner != NONE && hold == 0
      requires MutexState.Ok(k, sched.N, Here().(hold := 1), h, flag, base)
      modifies sched`links, sched`stat, sched`index, sched`queues, sched`prio
      ensures sched.Valid() && MutexState.SafeAfter(sched.Now(), sched.N, Here().(hold := 1), h, flag, base)
      ensures sched.prio == old(sched.prio)[owner := original] && sched.stat == old(sched.stat)
      ensures h in old(sched.queues) && h in sched.queues && sched.queues[h] == old(sched.queues)[h]
    {
      hide KernelState.Ok, MutexState.Ok, MutexState.SafeAfter, ReadyIndex.Ok, Less, Off;
      MutexState.FreeIff(k, sched.N, Here().(hold := 1), h, flag, base);
      if original != sched.prio[owner] {
        sched.ChangePriority(owner, original);
        MutexState.ListAside(k, sched.N, h, owner, original, sched.queues);
      } else {
        assert sched.prio[owner := original] == sched.prio;
      }
      MutexState.RestoreKeeps(k, sched.Now(), sched.N, Here().(hold := 1), h, flag, base);
    }

    /** The first waiter gets the mutex, or it becomes free. */
    method HandOver()
      requires sched.Valid() && h > sched.N && owner != NONE && owner !in inside && hold == 0 && value == 0
      requires h in sched.queues && MutexState.SafeAfter(sched.Now(), sched.N, Here().(hold := 1), h, flag, base)
      modifies this`value, this`owner, this`original, this`hold
      modifies sched`links, sched`stat, sched`armed, sched`index, sched`queues, sched`log
      ensures Valid() && h in sched.queues
      ensures old(sched.queues)[h] == [] ==> value == 1 && owner == NONE && hold == 0
      ensures old(sched.queues)[h] != [] ==>
        && value == 0 && owner == old(sched.queues)[h][0] && hold == 1 && owner in sched.prio
        && original == sched.prio[owner]
        && sched.queues[h] == old(sched.queues)[h][1..]
        && owner in sched.stat && sched.stat[owner] == Ready
    {
      hide KernelState.Ok, MutexState.Ok, MutexState.SafeAfter, ReadyIndex.Ok, Less, Off;
      ghost var k, m := sched.Now(), Here().(hold := 1);
      ListWalk(k, sched.N, h, 0);
      if !IsEmpty(sched.links, HeadOf(h)) {
        MutexState.KnownWaiter(k, sched.N, h);
        owner := sched.links.next[HeadOf(h)];
        original := sched.prio[owner];
        hold := hold + 1;
        sched.ResumeFirst(h);
        MutexState.HandKeeps(k, sched.Now(), sched.N, m, h, flag, base);
      } else {
        MutexState.FreeKeeps(k, sched.N, m, h, flag, base);
        value := value + 1;
        owner, original := NONE, 0xFF;
      }
    }
  }
}
