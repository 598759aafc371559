/**
 The thread operations of src/thread.c region by region: rt_thread_resume, rt_thread_suspend
 and rt_thread_delete test the state of a thread with interrupts on and then work in one or
 more regions with interrupts off, between which anything may happen.

 `Regions` is a machine whose steps are these regions and the operations that are one region.
 For each step there is a condition on the state before it, and a run keeps the lists, the
 bitmap and the waits in order if and only if each of its steps is taken under its condition.
 */
module RegionOps {
  import opened RtList
  import opened ThreadLists
  import opened WaitList
  import opened ReadyIndex
  import opened KernelState
  import opened Threads

  // ----- one region each -----

  /** The second region of rt_thread_resume, which ends the wait. */
  function Put(k: Kernel, t: int): Kernel
    requires t in k.prio && k.prio[t] in k.queues && ReadyIndex.Ok(k.index) && k.prio[t] < Limit(k.index)
      && t in k.error
  {
    PutReady(k.(log := k.log + [Wakes(t, Resumed, k.error[t])]), t)
  }

  /** rt_thread_delete: the state is changed; a wait the thread was in is over. */
  function Shut(k: Kernel, t: int): Kernel
    requires t in k.stat
  {
    k.(stat := k.stat[t := Closed], log := if k.stat[t] == Suspended then k.log + [Ends(t)] else k.log)
  }

  ghost predicate Usable(k: Kernel, t: int) {
    && Has(k.links, t) && t in k.stat && t in k.prio && t in k.error && k.prio[t] in k.queues && ReadyIndex.Ok(k.index)
    && k.prio[t] < Limit(k.index)
  }

  lemma UsableOf(k: Kernel, N: nat, t: int)
    requires KernelState.Ok(k, N) && t in k.stat
    ensures Usable(k, t) && k.prio[t] < N
  {
    hide Almost;
    TakeOffKeeps(k, N, t);
    KnownThread(k, N, t);
  }

  // ----- the regions of rt_thread_resume -----

  /** A thread that is not ready leaves its list and stays in order; its wait goes on. */
  lemma UnlinkedKeeps(k: Kernel, N: nat, t: int)
    requires KernelState.Ok(k, N) && t in k.stat && k.stat[t] != Ready
    ensures Has(k.links, t) && KernelState.Ok(Unlinked(k, t), N) && Loose(Unlinked(k, t).queues, t)
  {
    hide ListsOk, IndexAgrees, Alternates, Waiting, Clean, ReadyIndex.Ok, Clear, Off, Fits;
    TakeOffKeeps(k, N, t);
    var k1, k' := Removed(k, t), Unlinked(k, t);
    SameIndex(k1, k', N);
    SameLog(k, k');
    forall h: nat, x: int | On(k'.queues, h, x) ensures Fits(k', N, h, x) {
      FitsSame(k1, k', N, h, x);
    }
  }

  /** The first region keeps the threads in order if and only if the thread is not ready. */
  lemma UnlinkedIff(k: Kernel, N: nat, t: int)
    requires KernelState.Ok(k, N) && t in k.stat
    ensures Has(k.links, t) && (KernelState.Ok(Unlinked(k, t), N) <==> k.stat[t] != Ready)
  {
    hide Almost;
    UsableOf(k, N, t);
    if k.stat[t] != Ready {
      UnlinkedKeeps(k, N, t);
    } else {
      OffIsLoose(k, N, t);
      ReadyOff(Unlinked(k, t), N, t);
    }
  }

  lemma OffIsLoose(k: Kernel, N: nat, t: int)
    requires KernelState.Ok(k, N) && t in k.stat
    ensures Loose(Off(k.queues, t), t)
    ensures forall h: nat, x: int :: On(Off(k.queues, t), h, x) <==> On(k.queues, h, x) && x != t
  {
    hide PlacesOk, IndexAgrees, LogOk;
    RemovedLists(k, N, {}, t);
  }

  /** A ready thread on no list is not in order. */
  lemma ReadyOff(k: Kernel, N: nat, t: int)
    requires t in k.stat && k.stat[t] == Ready && Loose(k.queues, t) && t in k.prio
    ensures !KernelState.Ok(k, N)
  {
    hide ListsOk, IndexAgrees, LogOk;
    var p: nat := k.prio[t];
    assert PlacesOk(k, N, {}) ==> On(k.queues, p, t);
  }

  /** Putting a thread that is suspended on no list with its timer stopped is waking it. */
  lemma PutIsWoken(k: Kernel, N: nat, t: int)
    requires KernelState.Ok(k, N) && t in k.stat && Loose(k.queues, t) && t !in k.armed
    ensures Usable(k, t) && Unlinked(k, t) == k && Put(k, t) == Woken(k, t, Resumed, k.error[t])
  {
    hide Almost;
    UsableOf(k, N, t);
    LooseSame(k, N, t);
    assert k.armed - {t} == k.armed && k.error[t := k.error[t]] == k.error;
  }

  lemma LooseSame(k: Kernel, N: nat, t: int)
    requires KernelState.Ok(k, N) && t in k.stat && Loose(k.queues, t)
    ensures Has(k.links, t) && Unthreaded(k.links, t) == k.links && Off(k.queues, t) == k.queues
  {
    hide PlacesOk, IndexAgrees, LogOk, ListsOk, Loose;
    LooseOff(k.links, k.queues, k.stat.Keys, t);
  }

  lemma WokenKeeps(k: Kernel, N: nat, t: int, why: Why, err: Err)
    requires KernelState.Ok(k, N) && t in k.stat && k.stat[t] == Suspended && t in k.error
    requires err == if why == Resumed then k.error[t] else CodeOf(why)
    ensures Usable(k, t) && KernelState.Ok(Woken(k, t, why, err), N)
  {
    hide Almost, ReadyIndex.Ok, Waiting, Clean;
    UsableOf(k, N, t);
    WakingKeeps(k, N, t, why, err);
    PutReadyKeeps(Waking(k, t, why, err), N, t);
  }

  /**
   The second region keeps the threads in order if and only if the thread is suspended on no
   list with its timer stopped.
   */
  lemma PutIff(k: Kernel, N: nat, t: int)
    requires KernelState.Ok(k, N) && t in k.stat
    ensures Usable(k, t)
    ensures KernelState.Ok(Put(k, t), N) <==> k.stat[t] == Suspended && Loose(k.queues, t) && t !in k.armed
  {
    hide Almost, ReadyIndex.Ok, Loose, Insert, Threaded, Before;
    UsableOf(k, N, t);
    if k.stat[t] != Suspended {
      WakesNobody(k, N, t);
    } else if !Loose(k.queues, t) {
      LinkedTwice(k, N, t);
    } else if t in k.armed {
      ReadyArmed(Put(k, t), N, t);
    } else {
      PutIsWoken(k, N, t);
      WokenKeeps(k, N, t, Resumed, k.error[t]);
    }
  }

  /** Waking a thread that does not wait. */
  lemma WakesNobody(k: Kernel, N: nat, t: int)
    requires KernelState.Ok(k, N) && t in k.stat && k.stat[t] != Suspended && Usable(k, t)
    ensures !Alternates(Put(k, t).log) && !KernelState.Ok(Put(k, t), N)
  {
    hide ListsOk, IndexAgrees, PlacesOk, Waiting, Clean, ReadyIndex.Ok, Insert;
    var e := Wakes(t, Resumed, k.error[t]);
    assert (k.log + [e])[..|k.log|] == k.log;
    assert !Waiting(k.log, t);
  }

  /** Linking a thread that is on a list. */
  lemma LinkedTwice(k: Kernel, N: nat, t: int)
    requires KernelState.Ok(k, N) && t in k.stat && !Loose(k.queues, t) && Usable(k, t)
    ensures !KernelState.Ok(Put(k, t), N)
  {
    hide IndexAgrees, PlacesOk, LogOk, ReadyIndex.Ok, Insert, Threaded, Idle;
    var h: nat :| On(k.queues, h, t);
    var p: nat, k' := k.prio[t], Put(k, t);
    assert On(k'.queues, p, t) by {
      assert k'.queues[p][|k.queues[p]|] == t;
    }
    TwiceOnOne(k, k', h, p, t);
  }

  lemma TwiceOnOne(k: Kernel, k': Kernel, h: nat, p: nat, t: int)
    requires p in k.queues && k'.queues == k.queues[p := k.queues[p] + [t]] && On(k.queues, h, t)
    ensures !ListsOk(k'.links, k'.queues, k'.stat.Keys)
  {
    hide Idle, Loose, Ring, ListsOk;
    var q, q' := k.queues[p], k'.queues[p];
    assert q'[|q|] == t;
    assert On(k'.queues, p, t);
    var i: nat :| i < |k.queues[h]| && k.queues[h][i] == t;
    assert k'.queues[h][i] == t;
    assert On(k'.queues, h, t);
    if ListsOk(k'.links, k'.queues, k'.stat.Keys) {
      OneListOnly(k', h, p, t);
      assert false;
    }
  }

  lemma OneListOnly(k: Kernel, h: nat, p: nat, t: int)
    requires ListsOk(k.links, k.queues, k.stat.Keys) && On(k.queues, h, t) && On(k.queues, p, t)
    ensures h == p && forall i, j :: 0 <= i < j < |k.queues[p]| ==> k.queues[p][i] != k.queues[p][j]
  {
    hide Idle, Loose, Ring;
    RingOf(k.links, k.queues, k.stat.Keys, p);
    RingApart(k.links, HeadOf(p), k.queues[p]);
  }

  lemma ReadyArmed(k: Kernel, N: nat, t: int)
    requires t in k.stat && k.stat[t] == Ready && t in k.armed
    ensures !KernelState.Ok(k, N)
  {
    hide ListsOk, IndexAgrees, LogOk;
  }

  /** Both regions in a row: in order again if and only if the thread is suspended. */
  lemma ResumedIff(k: Kernel, N: nat, t: int)
    requires KernelState.Ok(k, N) && t in k.stat
    ensures Usable(k, t) && Usable(Unlinked(k, t), t)
    ensures KernelState.Ok(Put(Unlinked(k, t), t), N) <==> k.stat[t] == Suspended
    ensures k.stat[t] == Suspended ==> Put(Unlinked(k, t), t) == Woken(k, t, Resumed, k.error[t])
  {
    hide Almost, ReadyIndex.Ok, Loose, Waiting, Alternates;
    UsableOf(k, N, t);
    OffKeys(k, t);
    if k.stat[t] == Suspended {
      assert k.error[t := k.error[t]] == k.error;
      WokenKeeps(k, N, t, Resumed, k.error[t]);
    } else {
      WakesNobodyOff(k, N, t);
    }
  }

  lemma OffKeys(k: Kernel, t: int)
    requires Usable(k, t)
    ensures Usable(Unlinked(k, t), t)
  {
  }

  lemma WakesNobodyOff(k: Kernel, N: nat, t: int)
    requires KernelState.Ok(k, N) && t in k.stat && k.stat[t] != Suspended && Usable(k, t) && Usable(Unlinked(k, t), t)
    ensures !KernelState.Ok(Put(Unlinked(k, t), t), N)
  {
    hide ListsOk, IndexAgrees, PlacesOk, Waiting, Clean, ReadyIndex.Ok, Insert;
    var e := Wakes(t, Resumed, k.error[t]);
    assert (k.log + [e])[..|k.log|] == k.log;
    assert !Waiting(k.log, t);
  }

  // ----- the region of rt_thread_suspend -----

  /** It keeps the waits in order if and only if the thread is not suspended already. */
  lemma SuspendingIff(k: Kernel, N: nat, t: int)
    requires KernelState.Ok(k, N) && t in k.stat
    ensures Usable(k, t) && (KernelState.Ok(Suspending(k, t, false), N) <==> k.stat[t] != Suspended)
  {
    hide Almost, ReadyIndex.Ok;
    UsableOf(k, N, t);
    if k.stat[t] != Suspended {
      SuspendingKeeps(k, N, t, false);
    } else {
      BlocksTwice(k, N, t);
    }
  }

  lemma BlocksTwice(k: Kernel, N: nat, t: int)
    requires KernelState.Ok(k, N) && t in k.stat && k.stat[t] == Suspended && Usable(k, t)
    ensures !KernelState.Ok(Suspending(k, t, false), N)
  {
    hide ListsOk, IndexAgrees, PlacesOk, Waiting, Clean, ReadyIndex.Ok, Clear, TakeOff;
    var e := Blocks(t, false);
    assert (k.log + [e])[..|k.log|] == k.log;
    assert Waiting(k.log, t);
  }

  // ----- the regions of rt_thread_delete -----

  /** A ready thread taken off is in order if it counts as closed. */
  lemma ReadyGoneKeeps(k: Kernel, N: nat, t: int)
    requires KernelState.Ok(k, N) && t in k.stat && k.stat[t] == Ready
    ensures Usable(k, t) && Loose(Off(k.queues, t), t)
    ensures KernelState.Ok(TakeOff(k, t).(stat := k.stat[t := Closed]), N)
  {
    hide ListsOk, IndexAgrees, Alternates, Waiting, Clean, ReadyIndex.Ok, Clear, Off, Fits;
    UsableOf(k, N, t);
    TakeOffKeeps(k, N, t);
    var k1 := TakeOff(k, t);
    var k' := k1.(stat := k.stat[t := Closed]);
    assert k'.stat.Keys == k.stat.Keys && t !in k.armed && k1.armed - {t} == k1.armed;
    SettledPlaces(k1, k', N, t);
    SameIndex(k1, k', N);
  }

  /** A suspended thread is taken off and stays suspended. */
  lemma TakeOffSuspended(k: Kernel, N: nat, t: int)
    requires KernelState.Ok(k, N) && t in k.stat && k.stat[t] == Suspended
    ensures Usable(k, t) && Loose(Off(k.queues, t), t) && KernelState.Ok(TakeOff(k, t), N)
  {
    hide ListsOk, IndexAgrees, Alternates, Waiting, Clean, ReadyIndex.Ok, Clear, Off, Fits;
    UsableOf(k, N, t);
    TakeOffKeeps(k, N, t);
    var k' := TakeOff(k, t);
    SameLog(k, k');
  }

  lemma DisarmKeeps(k: Kernel, N: nat, t: int)
    requires KernelState.Ok(k, N)
    ensures KernelState.Ok(k.(armed := k.armed - {t}), N)
  {
    hide ListsOk, IndexAgrees, LogOk, Fits;
    var k' := k.(armed := k.armed - {t});
    SameLog(k, k');
    SameIndex(k, k', N);
    forall h: nat, x: int | On(k'.queues, h, x) ensures Fits(k', N, h, x) {
      FitsSame(k, k', N, h, x);
    }
  }

  /** A thread that is on no list with its timer stopped is closed. */
  lemma ShutKeeps(k: Kernel, N: nat, t: int)
    requires KernelState.Ok(k, N) && t in k.stat && Loose(k.queues, t) && t !in k.armed && k.stat[t] != Ready
    ensures KernelState.Ok(Shut(k, t), N)
  {
    hide ListsOk, IndexAgrees, Alternates, Waiting, Clean, ReadyIndex.Ok, Fits;
    var k' := Shut(k, t);
    assert k'.stat.Keys == k.stat.Keys && k.armed - {t} == k.armed;
    Logged(k.log, Ends(t));
    CleanWaits(k.log, t);
    if k.stat[t] == Suspended {
      AlternatesMore(k.log, Ends(t));
    }
    MovingLoose(k, N, t);
    SettledPlaces(k, k', N, t);
    SameIndex(k, k', N);
  }

  lemma MovingLoose(k: Kernel, N: nat, t: int)
    requires PlacesOk(k, N, {}) && t in k.stat && Loose(k.queues, t)
    ensures PlacesOk(k, N, {t})
  {
  }

  // ----- operations that are one region -----

  /** rt_ipc_list_suspend with the timer of the thread. */
  ghost function Blocked(k: Kernel, t: int, h: nat, flag: Flag, timed: bool): Kernel
    requires Usable(k, t) && h in k.queues
  {
    var k1 := Suspending(k.(error := k.error[t := EOK]), t, true);
    var k2 := PutWaiting(k1, h, Place(k1.queues[h], k.prio, flag, t), t);
    if timed then k2.(armed := k2.armed + {t}) else k2
  }

  lemma BlockedKeeps(k: Kernel, N: nat, t: int, h: nat, flag: Flag, timed: bool)
    requires KernelState.Ok(k, N) && t in k.stat && k.stat[t] == Ready && h > N && h in k.queues
    ensures Usable(k, t) && KernelState.Ok(Blocked(k, t, h, flag, timed), N)
  {
    hide Almost, ReadyIndex.Ok, Suspending, PutWaiting, Place, Loose;
    UsableOf(k, N, t);
    var k0 := k.(error := k.error[t := EOK]);
    KernelState.ResetKeeps(k, N, t, EOK);
    SuspendingKeeps(k0, N, t, true);
    var k1 := Suspending(k0, t, true);
    SuspendingIs(k0, t, true);
    var at := Place(k1.queues[h], k.prio, flag, t);
    PutWaitingKeeps(k1, N, h, at, t);
    PutWaitingIs(k1, h, at, t);
    if timed {
      ArmKeeps(PutWaiting(k1, h, at, t), N, t);
    }
  }

  lemma SuspendingIs(k: Kernel, t: int, clean: bool)
    requires Usable(k, t)
    ensures var k1 := Suspending(k, t, clean);
      && k1.queues == Off(k.queues, t) && k1.stat == k.stat[t := Suspended] && k1.armed == k.armed - {t}
      && k1.prio == k.prio && k1.error == k.error
  {
  }

  lemma PutWaitingIs(k: Kernel, h: nat, at: nat, t: int)
    requires h in k.queues && at <= |k.queues[h]|
    ensures var k1 := PutWaiting(k, h, at, t);
      && k1.queues == k.queues[h := Inserted(k.queues[h], at, t)] && k1.stat == k.stat && k1.armed == k.armed
      && k1.prio == k.prio && k1.error == k.error
  {
  }

  /** rt_thread_sleep */
  ghost function Slept(k: Kernel, t: int): Kernel
    requires Usable(k, t)
  {
    var k1 := Suspending(k, t, false);
    k1.(armed := k1.armed + {t})
  }

  lemma SleptKeeps(k: Kernel, N: nat, t: int)
    requires KernelState.Ok(k, N) && t in k.stat && k.stat[t] != Suspended
    ensures Usable(k, t) && KernelState.Ok(Slept(k, t), N)
  {
    hide Almost, ReadyIndex.Ok, Suspending;
    UsableOf(k, N, t);
    SuspendingKeeps(k, N, t, false);
    SuspendingIs(k, t, false);
    ArmKeeps(Suspending(k, t, false), N, t);
  }

  /** What changing the priority of a ready thread needs. */
  ghost predicate Movable(k: Kernel, t: int, p: nat) {
    Usable(k, t) && p in k.queues && ReadyIndex.Ok(TakeOff(k, t).index) && p < Limit(TakeOff(k, t).index)
  }

  /** rt_thread_control with RT_THREAD_CTRL_CHANGE_PRIORITY */
  ghost function Reprioritized(k: Kernel, t: int, p: nat): Kernel
    requires Movable(k, t, p)
  {
    if k.stat[t] == Ready then PutReady(TakeOff(k, t).(prio := k.prio[t := p]), t) else k.(prio := k.prio[t := p])
  }

  lemma MovableOf(k: Kernel, N: nat, t: int, p: nat)
    requires KernelState.Ok(k, N) && t in k.stat && p < N
    ensures Movable(k, t, p)
  {
    hide ListsOk, LogOk, Marked, ReadyIndex.Ok, Clear;
    UsableOf(k, N, t);
    ClearUnmarks(k.index, k.prio[t]);
  }

  lemma ReprioritizedKeeps(k: Kernel, N: nat, t: int, p: nat)
    requires KernelState.Ok(k, N) && t in k.stat && p < N
    ensures Movable(k, t, p) && KernelState.Ok(Reprioritized(k, t, p), N)
  {
    hide Almost, ReadyIndex.Ok, Clear, Waiting, Clean, PutReady;
    MovableOf(k, N, t, p);
    if k.stat[t] == Ready {
      ReadySilent(k, N, t);
      TakeOffKeeps(k, N, t);
      PrioKeeps(TakeOff(k, t), N, {t}, t, p);
      PutReadyKeeps(TakeOff(k, t).(prio := k.prio[t := p]), N, t);
    } else {
      PrioKeeps(k, N, {}, t, p);
    }
  }

  /** rt_thread_exit */
  ghost function Exited(k: Kernel, N: nat, t: int): Kernel
    requires Usable(k, t) && N in k.queues
  {
    PutWaiting(Closing(k, t), N, 0, t)
  }

  lemma ExitedKeeps(k: Kernel, N: nat, t: int)
    requires KernelState.Ok(k, N) && t in k.stat && k.stat[t] != Closed
    ensures Usable(k, t) && N in k.queues && KernelState.Ok(Exited(k, N, t), N)
  {
    hide Almost, ReadyIndex.Ok, PutWaiting, Loose;
    UsableOf(k, N, t);
    QueueExists(k, N, N);
    ClosingKeeps(k, N, t);
    PutWaitingKeeps(Closing(k, t), N, N, 0, t);
  }

  // ----- what an operation on one thread does to the others -----

  /** The other threads are where they were. */
  ghost predicate Aside(k: Kernel, k': Kernel, t: int) {
    && k'.stat.Keys == k.stat.Keys
    && (forall u :: u != t && u in k.stat ==> k'.stat[u] == k.stat[u] && (u in k'.armed <==> u in k.armed))
    && (forall h: nat, u: int :: u != t ==> (On(k'.queues, h, u) <==> On(k.queues, h, u)))
  }

  lemma AsideTwice(k: Kernel, k1: Kernel, k2: Kernel, t: int)
    requires Aside(k, k1, t) && Aside(k1, k2, t)
    ensures Aside(k, k2, t)
  {
  }

  lemma AsideOff(k: Kernel, k': Kernel, t: int)
    requires t in k.stat && t in k'.stat && k'.queues == Off(k.queues, t) && k'.stat == k.stat[t := k'.stat[t]]
    requires forall h: nat, x: int :: On(Off(k.queues, t), h, x) <==> On(k.queues, h, x) && x != t
    requires forall u :: u != t ==> (u in k'.armed <==> u in k.armed)
    ensures Aside(k, k', t)
  {
    hide Off, On;
  }

  lemma AsideIn(k: Kernel, k': Kernel, t: int, h: nat, at: nat)
    requires h in k.queues && at <= |k.queues[h]| && k'.queues == k.queues[h := Inserted(k.queues[h], at, t)]
    requires t in k.stat && t in k'.stat && k'.stat == k.stat[t := k'.stat[t]]
    requires forall u :: u != t ==> (u in k'.armed <==> u in k.armed)
    ensures Aside(k, k', t) && On(k'.queues, h, t)
  {
    hide Inserted;
    InsertedMembers(k.queues[h], at, t);
  }

  /** Nothing is linked or unlinked. */
  lemma AsideStill(k: Kernel, k': Kernel, t: int)
    requires t in k.stat && t in k'.stat && k'.queues == k.queues && k'.stat == k.stat[t := k'.stat[t]]
    requires forall u :: u != t ==> (u in k'.armed <==> u in k.armed)
    ensures Aside(k, k', t)
  {
  }

  lemma PutReadyIs(k: Kernel, t: int)
    requires t in k.prio && k.prio[t] in k.queues && ReadyIndex.Ok(k.index) && k.prio[t] < Limit(k.index) && t in k.stat
    ensures var k', q := PutReady(k, t), k.queues[k.prio[t]];
      && k'.stat == k.stat[t := Ready] && k'.queues == k.queues[k.prio[t] := Inserted(q, |q|, t)] && k'.armed == k.armed
      && k'.log == k.log && k'.prio == k.prio && k'.error == k.error
  {
    var q := k.queues[k.prio[t]];
    assert Inserted(q, |q|, t) == q + [t];
  }
}

module Regions {
  import opened RtList
  import opened ThreadLists
  import opened WaitList
  import opened ReadyIndex
  import opened KernelState
  import opened Threads
  import opened RegionOps

  /**
   A call of rt_thread_resume, rt_thread_suspend or rt_thread_delete between two steps: the
   test has passed, or the next region is still to come.
   */
  datatype Pc = ToTake(t: int) | ToPut(t: int) | ToSuspend(t: int) | ToDetach(t: int) | ToShut(t: int) | ToBury(t: int)

  /** The threads, the calls on the way by their callers, and the threads on the defunct list. */
  datatype Machine = Machine(k: Kernel, pcs: map<nat, Pc>, ended: set<int>)

  /**
   TestResume, Take and Put are rt_thread_resume; TestSuspend and DoSuspend rt_thread_suspend;
   Delete, Detach, Shut and Bury rt_thread_delete. The others are one region each: what ipc.c
   does to threads with interrupts off, the timer, a change of priority, and a thread's own
   exit. Start is rt_thread_startup before it calls rt_thread_resume.
   */
  datatype Event =
    | TestResume(a: nat, t: int) | Take(a: nat) | Put(a: nat)
    | TestSuspend(a: nat, t: int) | DoSuspend(a: nat)
    | Delete(a: nat, t: int) | Detach(a: nat) | Shut(a: nat) | Bury(a: nat)
    | Block(t: int, h: nat, flag: Flag, timed: bool) | Sleep(t: int) | Expire(t: int) | Wake(h: nat, flush: bool)
    | SetPrio(t: int, p: nat) | Exit(t: int) | Start(t: int, p: nat)

  /** How rt_ipc_list_resume and rt_ipc_list_resume_all wake a thread. */
  ghost function Called(k: Kernel, t: int, flush: bool): Kernel
    requires Usable(k, t)
  {
    if flush then Woken(k, t, Flushed, EERROR) else Woken(k, t, Resumed, k.error[t])
  }

  /** One step; a step that is not enabled does nothing. */
  ghost function Step(m: Machine, N: nat, e: Event): Machine {
    var k := m.k;
    match e
    case TestResume(a, t) =>
      if a !in m.pcs && t in k.stat && k.stat[t] == Suspended then m.(pcs := m.pcs[a := ToTake(t)]) else m
    case Take(a) =>
      if a in m.pcs && m.pcs[a].ToTake? && Usable(k, m.pcs[a].t)
      then m.(k := Unlinked(k, m.pcs[a].t), pcs := m.pcs[a := ToPut(m.pcs[a].t)]) else m
    case Put(a) =>
      if a in m.pcs && m.pcs[a].ToPut? && Usable(k, m.pcs[a].t)
      then m.(k := RegionOps.Put(k, m.pcs[a].t), pcs := m.pcs - {a}) else m
    case TestSuspend(a, t) =>
      if a !in m.pcs && t in k.stat && k.stat[t] == Ready then m.(pcs := m.pcs[a := ToSuspend(t)]) else m
    case DoSuspend(a) =>
      if a in m.pcs && m.pcs[a].ToSuspend? && Usable(k, m.pcs[a].t)
      then m.(k := Suspending(k, m.pcs[a].t, false), pcs := m.pcs - {a}) else m
    case Delete(a, t) =>
      if a !in m.pcs && Usable(k, t)
      then m.(k := if k.stat[t] == Init then k else TakeOff(k, t), pcs := m.pcs[a := ToDetach(t)]) else m
    case Detach(a) =>
      if a in m.pcs && m.pcs[a].ToDetach?
      then m.(k := k.(armed := k.armed - {m.pcs[a].t}), pcs := m.pcs[a := ToShut(m.pcs[a].t)]) else m
    case Shut(a) =>
      if a in m.pcs && m.pcs[a].ToShut? && m.pcs[a].t in k.stat
      then m.(k := RegionOps.Shut(k, m.pcs[a].t), pcs := m.pcs[a := ToBury(m.pcs[a].t)]) else m
    case Bury(a) =>
      if a in m.pcs && m.pcs[a].ToBury? && N in k.queues
      then m.(k := PutWaiting(k, N, 0, m.pcs[a].t), pcs := m.pcs - {a}, ended := m.ended + {m.pcs[a].t}) else m
    case Block(t, h, flag, timed) =>
      if Usable(k, t) && k.stat[t] == Ready && h > N && h in k.queues then m.(k := Blocked(k, t, h, flag, timed)) else m
    case Sleep(t) => if Usable(k, t) && k.stat[t] == Ready then m.(k := Slept(k, t)) else m
    case Expire(t) => if Usable(k, t) && t in k.armed then m.(k := Woken(k, t, TimedOut, ETIMEOUT)) else m
    case Wake(h, flush) =>
      if h > N && h in k.queues && k.queues[h] != [] && Usable(k, k.queues[h][0])
      then m.(k := Called(k, k.queues[h][0], flush)) else m
    case SetPrio(t, p) => if p < N && Movable(k, t, p) then m.(k := Reprioritized(k, t, p)) else m
    case Exit(t) =>
      if Usable(k, t) && k.stat[t] == Ready && N in k.queues
      then m.(k := Exited(k, N, t), ended := m.ended + {t}) else m
    case Start(t, p) => if t in k.stat && k.stat[t] == Init && p < N then m.(k := Starting(k, t, p)) else m
  }

  // ----- the invariant -----

  /** The call is between two regions and has the thread in its hands. */
  predicate Holds(c: Pc) {
    !c.ToTake? && !c.ToSuspend?
  }

  /** Nobody has thread t in hand. */
  predicate Free(m: Machine, t: int) {
    forall a :: a in m.pcs && Holds(m.pcs[a]) ==> m.pcs[a].t != t
  }

  predicate Going(c: Pc) {
    c.ToDetach? || c.ToShut?
  }

  /** Threads being deleted. */
  function Dying(pcs: map<nat, Pc>): set<int> {
    set a | a in pcs && Going(pcs[a]) :: pcs[a].t
  }

  function SeenOne(s: Stat, dying: bool): Stat {
    if dying && s == Ready then Closed else s
  }

  /** A ready thread that is being deleted is off its queue: it counts as closed. */
  function Seen(stat: map<int, Stat>, dying: set<int>): map<int, Stat> {
    map t | t in stat :: SeenOne(stat[t], t in dying)
  }

  function View(k: Kernel, dying: set<int>): Kernel {
    k.(stat := Seen(k.stat, dying))
  }

  /** What a call on the way relies on. */
  ghost predicate PcOk(k: Kernel, c: Pc) {
    c.t in k.stat &&
    match c
    case ToTake(t) => k.stat[t] != Init
    case ToSuspend(t) => k.stat[t] != Init
    case ToPut(t) => k.stat[t] == Suspended && Loose(k.queues, t) && t !in k.armed
    case ToDetach(t) => k.stat[t] != Closed && Loose(k.queues, t)
    case ToShut(t) => k.stat[t] != Closed && Loose(k.queues, t) && t !in k.armed
    case ToBury(t) => k.stat[t] == Closed && Loose(k.queues, t)
  }

  predicate Buried(m: Machine, t: int) {
    t in m.ended || exists a :: a in m.pcs && m.pcs[a] == ToBury(t)
  }

  ghost predicate OneHolder(pcs: map<nat, Pc>) {
    forall a, b :: a in pcs && b in pcs && Holds(pcs[a]) && Holds(pcs[b]) && pcs[a].t == pcs[b].t ==> a == b
  }

  /**
   The threads are in order, those being deleted aside; every call finds what its next region
   relies on, and no two have the same thread in hand; a closed thread stays closed, on the
   defunct list or on its way there.
   */
  ghost predicate Ok(m: Machine, N: nat) {
    && KernelState.Ok(View(m.k, Dying(m.pcs)), N)
    && (forall a :: a in m.pcs ==> PcOk(m.k, m.pcs[a]))
    && OneHolder(m.pcs)
    && (forall t :: t in m.ended ==> On(m.k.queues, N, t))
    && (forall t :: t in m.k.stat && m.k.stat[t] == Closed ==> Buried(m, t))
  }

  // ----- the conditions -----

  /**
   The condition of a step, to be tested before it: a resume begins its first region while the
   thread is still suspended and nobody else has it in hand; a suspend while it is still ready;
   and whoever has a thread in hand is the only one to move it.
   */
  predicate Cond(m: Machine, N: nat, e: Event) {
    var k := m.k;
    match e
    case Take(a) =>
      a in m.pcs && m.pcs[a].ToTake? && m.pcs[a].t in k.stat ==> k.stat[m.pcs[a].t] == Suspended && Free(m, m.pcs[a].t)
    case DoSuspend(a) =>
      a in m.pcs && m.pcs[a].ToSuspend? && m.pcs[a].t in k.stat ==> k.stat[m.pcs[a].t] == Ready
    case Delete(a, t) => a !in m.pcs && t in k.stat ==> k.stat[t] != Closed && Free(m, t)
    case Block(t, h, _, _) => t in k.stat && k.stat[t] == Ready && h > N && h in k.queues ==> Free(m, t)
    case Sleep(t) => t in k.stat && k.stat[t] == Ready ==> forall a :: a in m.pcs ==> m.pcs[a] != ToShut(t)
    case Expire(t) => t in k.armed ==> Free(m, t)
    case SetPrio(t, p) => p < N && t in k.stat && k.stat[t] == Ready ==> Free(m, t)
    case Exit(t) => t in k.stat && k.stat[t] == Ready ==> Free(m, t)
    case _ => true
  }

  // ----- the threads as they count -----

  lemma SeenSet(stat: map<int, Stat>, dying: set<int>, t: int, s: Stat)
    requires t in stat
    ensures Seen(stat[t := s], dying) == Seen(stat, dying)[t := SeenOne(s, t in dying)]
  {
  }

  lemma SeenGone(stat: map<int, Stat>, dying: set<int>, t: int)
    requires t in stat
    ensures Seen(stat, dying + {t}) == Seen(stat, dying)[t := SeenOne(stat[t], true)]
  {
  }

  lemma SeenBack(stat: map<int, Stat>, dying: set<int>, t: int, s: Stat)
    requires t in stat && s != Ready
    ensures Seen(stat[t := s], dying - {t}) == Seen(stat, dying)[t := s]
  {
  }

  /** What a machine in order knows of a thread. */
  lemma KnownTo(m: Machine, N: nat, t: int)
    requires Ok(m, N) && t in m.k.stat
    ensures Usable(m.k, t) && Usable(View(m.k, Dying(m.pcs)), t) && m.k.prio[t] < N
    ensures Free(m, t) ==> t !in Dying(m.pcs) && View(m.k, Dying(m.pcs)).stat[t] == m.k.stat[t]
    ensures m.k.stat[t] != Ready ==> View(m.k, Dying(m.pcs)).stat[t] == m.k.stat[t]
    ensures N in m.k.queues && (t in m.ended ==> m.k.stat[t] == Closed)
  {
    hide KernelState.Ok, PcOk, OneHolder, ReadyIndex.Ok;
    var v := View(m.k, Dying(m.pcs));
    assert t in v.stat;
    UsableOf(v, N, t);
    QueueExists(v, N, N);
    if t in m.ended {
      EndedClosed(m, N, t);
    }
  }

  /** A thread on the defunct list is closed. */
  lemma EndedClosed(m: Machine, N: nat, t: int)
    requires Ok(m, N) && t in m.ended
    ensures t in m.k.stat && m.k.stat[t] == Closed
  {
    hide OneHolder, Dying, ListsOk, IndexAgrees, LogOk;
    var v := View(m.k, Dying(m.pcs));
    assert On(v.queues, N, t);
    assert Fits(v, N, N, t);
    if t in Dying(m.pcs) {
      DyingLoose(m, N, t);
    }
  }

  lemma DyingLoose(m: Machine, N: nat, t: int)
    requires Ok(m, N) && t in Dying(m.pcs)
    ensures t in m.k.stat && m.k.stat[t] != Closed && Loose(m.k.queues, t)
  {
    hide OneHolder, KernelState.Ok;
    var a :| a in m.pcs && Going(m.pcs[a]) && m.pcs[a].t == t;
    assert PcOk(m.k, m.pcs[a]);
  }

  /** An armed thread is suspended. */
  lemma ArmedTo(m: Machine, N: nat, t: int)
    requires Ok(m, N) && t in m.k.armed
    ensures t in m.k.stat && m.k.stat[t] == Suspended
  {
    hide PcOk, OneHolder;
    ArmedSuspended(View(m.k, Dying(m.pcs)), N, t);
  }

  /** The calls on thread t, if nobody holds it or only caller a does. */
  ghost predicate CallsOk(m: Machine, t: int) {
    && (forall b :: b in m.pcs && m.pcs[b].t == t ==> PcOk(m.k, m.pcs[b]))
    && (forall b, c ::
      b in m.pcs && c in m.pcs && Holds(m.pcs[b]) && Holds(m.pcs[c]) && m.pcs[b].t == m.pcs[c].t == t ==> b == c)
  }

  /** Calls on other threads are as before. */
  ghost predicate SameCalls(m: Machine, m': Machine, t: int) {
    && (forall b :: b in m'.pcs && m'.pcs[b].t != t ==> b in m.pcs && m.pcs[b] == m'.pcs[b])
    && (forall b :: b in m.pcs && m.pcs[b].t != t ==> b in m'.pcs && m.pcs[b] == m'.pcs[b])
  }

  /** A step that moves thread t only: what is to be checked of it. */
  lemma Settle(m: Machine, m': Machine, N: nat, t: int)
    requires Ok(m, N) && t in m.k.stat && Aside(m.k, m'.k, t) && SameCalls(m, m', t) && CallsOk(m', t)
    requires KernelState.Ok(View(m'.k, Dying(m'.pcs)), N)
    requires m'.ended == m.ended || m'.ended == m.ended + {t}
    requires t in m'.ended ==> On(m'.k.queues, N, t)
    requires m'.k.stat[t] == Closed ==> Buried(m', t)
    ensures Ok(m', N)
  {
    hide KernelState.Ok, Dying, View;
    forall a | a in m'.pcs ensures PcOk(m'.k, m'.pcs[a]) {
      if m'.pcs[a].t != t {
        assert PcOk(m.k, m.pcs[a]);
        PcAside(m.k, m'.k, t, m.pcs[a]);
      }
    }
    forall u | u in m'.k.stat && m'.k.stat[u] == Closed ensures Buried(m', u) {
      if u != t {
        assert Buried(m, u);
        if a :| a in m.pcs && m.pcs[a] == ToBury(u) {
          assert m'.pcs[a] == ToBury(u);
        }
      }
    }
  }

  lemma PcAside(k: Kernel, k': Kernel, t: int, c: Pc)
    requires Aside(k, k', t) && c.t != t && PcOk(k, c)
    ensures PcOk(k', c)
  {
    hide On;
  }

  /** Thread t has been taken off its list, and the rest stays. */
  lemma AsideUnlinked(m: Machine, N: nat, t: int)
    requires Ok(m, N) && t in m.k.stat
    ensures forall h: nat, x: int :: On(Off(m.k.queues, t), h, x) <==> On(m.k.queues, h, x) && x != t
    ensures Loose(Off(m.k.queues, t), t)
  {
    hide KernelState.Ok, PcOk, OneHolder;
    OffIsLoose(View(m.k, Dying(m.pcs)), N, t);
  }

  lemma DyingSame(pcs: map<nat, Pc>, a: nat, c: Pc)
    requires !Going(c) && (a in pcs ==> !Going(pcs[a]))
    ensures Dying(pcs[a := c]) == Dying(pcs) == Dying(pcs - {a})
  {
    var pcs' := pcs[a := c];
    forall t ensures t in Dying(pcs') <==> t in Dying(pcs) {
      if t in Dying(pcs) {
        var b :| b in pcs && Going(pcs[b]) && pcs[b].t == t;
        assert b in pcs' && pcs'[b] == pcs[b];
      }
    }
    forall t ensures t in Dying(pcs - {a}) <==> t in Dying(pcs) {
      if t in Dying(pcs) {
        var b :| b in pcs && Going(pcs[b]) && pcs[b].t == t;
        assert b in pcs - {a};
      }
    }
  }

  // ----- resume -----

  lemma TakeKeeps(m: Machine, N: nat, a: nat)
    requires Ok(m, N) && a in m.pcs && m.pcs[a].ToTake? && m.pcs[a].t in m.k.stat
    requires m.k.stat[m.pcs[a].t] == Suspended && Free(m, m.pcs[a].t)
    ensures Ok(Step(m, N, Take(a)), N)
  {
    hide KernelState.Ok, Off, Loose, ReadyIndex.Ok, Dying;
    var t, m' := m.pcs[a].t, Step(m, N, Take(a));
    var v := View(m.k, Dying(m.pcs));
    KnownTo(m, N, t);
    AsideUnlinked(m, N, t);
    UnlinkedKeeps(v, N, t);
    DyingSame(m.pcs, a, ToPut(t));
    assert View(m'.k, Dying(m'.pcs)) == Unlinked(v, t);
    AsideOff(m.k, m'.k, t);
    CallsAfter(m, m', t, a);
    Settle(m, m', N, t);
  }

  /** Calls by others are as before and still find what they rely on; caller a's own is checked. */
  lemma CallsAfter(m: Machine, m': Machine, t: int, a: nat)
    requires (forall b :: b in m.pcs ==> PcOk(m.k, m.pcs[b])) && OneHolder(m.pcs) && t in m.k.stat && t in m'.k.stat
    requires forall b :: b != a ==> (b in m'.pcs <==> b in m.pcs) && (b in m.pcs ==> m'.pcs[b] == m.pcs[b])
    requires forall b :: b in m.pcs && b != a && Holds(m.pcs[b]) && m.pcs[b].t == t ==> PcOk(m'.k, m.pcs[b])
    requires a in m.pcs ==> m.pcs[a].t == t
    requires a in m'.pcs ==> m'.pcs[a].t == t && PcOk(m'.k, m'.pcs[a])
    requires a in m'.pcs && Holds(m'.pcs[a]) ==> forall b :: b in m.pcs && b != a && Holds(m.pcs[b]) ==> m.pcs[b].t != t
    requires m.k.stat[t] != Init ==> m'.k.stat[t] != Init
    ensures CallsOk(m', t) && SameCalls(m, m', t)
  {
    forall b | b in m'.pcs && m'.pcs[b].t == t ensures PcOk(m'.k, m'.pcs[b]) {
      if b != a {
        assert PcOk(m.k, m.pcs[b]);
      }
    }
  }

  lemma CallsStill(m: Machine, m': Machine, t: int)
    requires (forall b :: b in m.pcs ==> PcOk(m.k, m.pcs[b])) && OneHolder(m.pcs) && t in m.k.stat && t in m'.k.stat
    requires m'.pcs == m.pcs
    requires forall b :: b in m.pcs && Holds(m.pcs[b]) && m.pcs[b].t == t ==> PcOk(m'.k, m.pcs[b])
    requires m.k.stat[t] != Init ==> m'.k.stat[t] != Init
    ensures CallsOk(m', t) && SameCalls(m, m', t)
  {
    forall b | b in m'.pcs && m'.pcs[b].t == t ensures PcOk(m'.k, m'.pcs[b]) {
      assert PcOk(m.k, m.pcs[b]);
    }
  }

  /** Who has a thread in hand is the only one. */
  lemma OnlyHolder(m: Machine, N: nat, a: nat)
    requires Ok(m, N) && a in m.pcs && Holds(m.pcs[a])
    ensures forall b :: b in m.pcs && b != a && Holds(m.pcs[b]) ==> m.pcs[b].t != m.pcs[a].t
    ensures !Going(m.pcs[a]) ==> m.pcs[a].t !in Dying(m.pcs)
    ensures PcOk(m.k, m.pcs[a]) && m.pcs[a].t in m.k.stat && Loose(m.k.queues, m.pcs[a].t)
  {
    hide KernelState.Ok;
    assert PcOk(m.k, m.pcs[a]);
  }

  lemma PutKeeps(m: Machine, N: nat, a: nat)
    requires Ok(m, N) && a in m.pcs && m.pcs[a].ToPut?
    ensures Ok(Step(m, N, Event.Put(a)), N)
  {
    hide KernelState.Ok, Off, Loose, ReadyIndex.Ok, Dying, PutReady;
    var t, m' := m.pcs[a].t, Step(m, N, Event.Put(a));
    var v := View(m.k, Dying(m.pcs));
    OnlyHolder(m, N, a);
    KnownTo(m, N, t);
    PutIff(v, N, t);
    DyingSame(m.pcs, a, ToTake(t));
    PutView(m.k, Dying(m.pcs), t);
    PutIs(m.k, t);
    AsideIn(m.k, m'.k, t, m.k.prio[t], |m.k.queues[m.k.prio[t]]|);
    CallsAfter(m, m', t, a);
    Settle(m, m', N, t);
  }

  lemma PutView(k: Kernel, dying: set<int>, t: int)
    requires Usable(k, t) && t !in dying
    ensures Usable(View(k, dying), t) && View(RegionOps.Put(k, t), dying) == RegionOps.Put(View(k, dying), t)
  {
    hide Insert, Threaded;
    SeenSet(k.stat, dying, t, Ready);
  }

  lemma PutIs(k: Kernel, t: int)
    requires Usable(k, t)
    ensures var k', q := RegionOps.Put(k, t), k.queues[k.prio[t]];
      k'.stat == k.stat[t := Ready] && k'.queues == k.queues[k.prio[t] := Inserted(q, |q|, t)] && k'.armed == k.armed
  {
    hide PutReady;
    PutReadyIs(k.(log := k.log + [Wakes(t, Resumed, k.error[t])]), t);
  }

  // ----- suspend -----

  lemma SuspendView(k: Kernel, dying: set<int>, t: int)
    requires Usable(k, t)
    ensures Usable(View(k, dying), t) && View(Suspending(k, t, false), dying) == Suspending(View(k, dying), t, false)
  {
    hide Clear, Off, Unthreaded;
    SeenSet(k.stat, dying, t, Suspended);
  }

  lemma DoSuspendKeeps(m: Machine, N: nat, a: nat)
    requires Ok(m, N) && a in m.pcs && m.pcs[a].ToSuspend? && m.pcs[a].t in m.k.stat && m.k.stat[m.pcs[a].t] == Ready
    ensures Ok(Step(m, N, DoSuspend(a)), N)
  {
    hide KernelState.Ok, Off, Loose, ReadyIndex.Ok, Dying, Suspending;
    var t, m' := m.pcs[a].t, Step(m, N, DoSuspend(a));
    var v := View(m.k, Dying(m.pcs));
    KnownTo(m, N, t);
    AsideUnlinked(m, N, t);
    SuspendingIff(v, N, t);
    DyingSame(m.pcs, a, ToTake(t));
    SuspendView(m.k, Dying(m.pcs), t);
    SuspendingIs(m.k, t, false);
    AsideOff(m.k, m'.k, t);
    HoldersReady(m, N, t, m'.k);
    CallsAfter(m, m', t, a);
    Settle(m, m', N, t);
  }

  /** Who has a ready thread in hand is deleting it, and does not mind it being suspended. */
  lemma HoldersReady(m: Machine, N: nat, t: int, k': Kernel)
    requires Ok(m, N) && t in m.k.stat && m.k.stat[t] == Ready && t in k'.stat && k'.stat[t] != Closed
      && Loose(k'.queues, t)
    requires t !in k'.armed || forall b :: b in m.pcs ==> m.pcs[b] != ToShut(t)
    ensures forall b :: b in m.pcs && Holds(m.pcs[b]) && m.pcs[b].t == t ==> PcOk(k', m.pcs[b])
  {
    hide KernelState.Ok;
    forall b | b in m.pcs && Holds(m.pcs[b]) && m.pcs[b].t == t ensures PcOk(k', m.pcs[b]) {
      assert PcOk(m.k, m.pcs[b]);
    }
  }

  // ----- delete -----

  lemma DyingMore(pcs: map<nat, Pc>, a: nat, c: Pc)
    requires Going(c) && a !in pcs
    ensures Dying(pcs[a := c]) == Dying(pcs) + {c.t}
  {
    var pcs' := pcs[a := c];
    forall t ensures t in Dying(pcs') <==> t in Dying(pcs) || t == c.t {
      if t in Dying(pcs) {
        var b :| b in pcs && Going(pcs[b]) && pcs[b].t == t;
        assert b in pcs' && pcs'[b] == pcs[b];
      }
      if t == c.t {
        assert a in pcs' && pcs'[a] == c;
      }
    }
  }

  /** Caller a goes on with the same thread, deleting it or done with that. */
  lemma DyingOn(pcs: map<nat, Pc>, a: nat, c: Pc)
    requires a in pcs && Going(pcs[a]) && c.t == pcs[a].t
    requires forall b :: b in pcs && b != a && Holds(pcs[b]) ==> pcs[b].t != c.t
    ensures Dying(pcs[a := c]) == if Going(c) then Dying(pcs) else Dying(pcs) - {c.t}
  {
    var pcs' := pcs[a := c];
    forall t ensures t in Dying(pcs') <==> t in Dying(pcs) && (t != c.t || Going(c)) {
      if t in Dying(pcs) {
        var b :| b in pcs && Going(pcs[b]) && pcs[b].t == t;
        assert b in pcs';
      }
      if t in Dying(pcs') {
        var b :| b in pcs' && Going(pcs'[b]) && pcs'[b].t == t;
        assert b in pcs;
      }
    }
  }

  lemma DeleteKeeps(m: Machine, N: nat, a: nat, t: int)
    requires Ok(m, N) && a !in m.pcs && t in m.k.stat && m.k.stat[t] != Closed && Free(m, t)
    ensures Ok(Step(m, N, Delete(a, t)), N)
  {
    hide KernelState.Ok, Off, Loose, ReadyIndex.Ok, Dying, TakeOff;
    var m' := Step(m, N, Delete(a, t));
    var G := Dying(m.pcs);
    var v := View(m.k, G);
    KnownTo(m, N, t);
    AsideUnlinked(m, N, t);
    DyingMore(m.pcs, a, ToDetach(t));
    SeenGone(m.k.stat, G, t);
    TakeOffIs(m.k, t);
    if m.k.stat[t] == Init {
      InitIsLoose(v, N, t);
      assert v.stat[t := Init] == v.stat;
      assert View(m'.k, Dying(m'.pcs)) == v;
      assert m.k.stat[t := m.k.stat[t]] == m.k.stat;
      AsideStill(m.k, m'.k, t);
    } else {
      TakeOffView(m.k, G, t);
      AsideOff(m.k, m'.k, t) by {
        assert m.k.stat[t := m.k.stat[t]] == m.k.stat;
      }
      if m.k.stat[t] == Ready {
        ReadyGoneKeeps(v, N, t);
        assert View(m'.k, G + {t}) == TakeOff(v, t).(stat := v.stat[t := Closed]);
      } else {
        TakeOffSuspended(v, N, t);
        TakeOffIs(v, t);
        assert v.stat[t := v.stat[t]] == v.stat;
        assert View(m'.k, G + {t}) == TakeOff(v, t);
      }
    }
    CallsAfter(m, m', t, a);
    Settle(m, m', N, t);
  }

  lemma InitIsLoose(k: Kernel, N: nat, t: int)
    requires KernelState.Ok(k, N) && t in k.stat && k.stat[t] == Init
    ensures Loose(k.queues, t)
  {
    hide ListsOk, IndexAgrees, LogOk;
    InitLoose(k, N, t);
  }

  lemma TakeOffIs(k: Kernel, t: int)
    requires Usable(k, t)
    ensures var k' := TakeOff(k, t);
      k'.queues == Off(k.queues, t) && k'.stat == k.stat && k'.armed == k.armed && k'.prio == k.prio && k'.log == k.log
  {
  }

  lemma TakeOffView(k: Kernel, dying: set<int>, t: int)
    requires Usable(k, t)
    ensures Usable(View(k, dying), t)
    ensures View(TakeOff(k, t), dying + {t}) == TakeOff(View(k, dying), t).(stat := Seen(k.stat, dying + {t}))
  {
    hide Clear, Off, Unthreaded;
  }

  lemma DetachKeeps(m: Machine, N: nat, a: nat)
    requires Ok(m, N) && a in m.pcs && m.pcs[a].ToDetach?
    ensures Ok(Step(m, N, Detach(a)), N)
  {
    hide KernelState.Ok, Loose, ReadyIndex.Ok, Dying;
    var t, m' := m.pcs[a].t, Step(m, N, Detach(a));
    var v := View(m.k, Dying(m.pcs));
    OnlyHolder(m, N, a);
    KnownTo(m, N, t);
    DyingOn(m.pcs, a, ToShut(t));
    DisarmKeeps(v, N, t);
    assert View(m'.k, Dying(m'.pcs)) == v.(armed := v.armed - {t});
    assert m.k.stat[t := m.k.stat[t]] == m.k.stat;
    AsideStill(m.k, m'.k, t);
    CallsAfter(m, m', t, a);
    Settle(m, m', N, t);
  }

  lemma ShutDownKeeps(m: Machine, N: nat, a: nat)
    requires Ok(m, N) && a in m.pcs && m.pcs[a].ToShut?
    ensures Ok(Step(m, N, Event.Shut(a)), N)
  {
    hide KernelState.Ok, Loose, ReadyIndex.Ok, Dying;
    var t, m' := m.pcs[a].t, Step(m, N, Event.Shut(a));
    var G := Dying(m.pcs);
    var v := View(m.k, G);
    OnlyHolder(m, N, a);
    InDying(m.pcs, a);
    KnownTo(m, N, t);
    DyingOn(m.pcs, a, ToBury(t));
    SeenBack(m.k.stat, G, t, Closed);
    assert View(m'.k, Dying(m'.pcs)) == RegionOps.Shut(v, t);
    RegionOps.ShutKeeps(v, N, t);
    AsideStill(m.k, m'.k, t);
    CallsAfter(m, m', t, a);
    assert m'.pcs[a] == ToBury(t);
    Settle(m, m', N, t);
  }

  lemma InDying(pcs: map<nat, Pc>, a: nat)
    requires a in pcs && Going(pcs[a])
    ensures pcs[a].t in Dying(pcs)
  {
  }

  lemma BuryKeeps(m: Machine, N: nat, a: nat)
    requires Ok(m, N) && a in m.pcs && m.pcs[a].ToBury?
    ensures Ok(Step(m, N, Bury(a)), N)
  {
    hide KernelState.Ok, Loose, ReadyIndex.Ok, Dying, PutWaiting;
    var t, m' := m.pcs[a].t, Step(m, N, Bury(a));
    var v := View(m.k, Dying(m.pcs));
    OnlyHolder(m, N, a);
    KnownTo(m, N, t);
    DyingSame(m.pcs, a, ToTake(t));
    PutWaitingKeeps(v, N, N, 0, t);
    PutWaitingView(m.k, Dying(m.pcs), N, 0, t);
    PutWaitingIs(m.k, N, 0, t);
    assert m.k.stat[t := m.k.stat[t]] == m.k.stat;
    AsideIn(m.k, m'.k, t, N, 0);
    CallsAfter(m, m', t, a);
    Settle(m, m', N, t);
  }

  lemma PutWaitingView(k: Kernel, dying: set<int>, h: nat, at: nat, t: int)
    requires h in k.queues && at <= |k.queues[h]|
    ensures View(PutWaiting(k, h, at, t), dying) == PutWaiting(View(k, dying), h, at, t)
  {
    hide Seen, Threaded, Inserted;
  }

  // ----- tests -----

  lemma TestKeeps(m: Machine, N: nat, a: nat, c: Pc)
    requires Ok(m, N) && a !in m.pcs && (c.ToTake? || c.ToSuspend?) && c.t in m.k.stat && m.k.stat[c.t] != Init
    ensures Ok(m.(pcs := m.pcs[a := c]), N)
  {
    hide KernelState.Ok, Loose, ReadyIndex.Ok, Dying;
    var m', t := m.(pcs := m.pcs[a := c]), c.t;
    DyingSame(m.pcs, a, c);
    KnownTo(m, N, t);
    assert m.k.stat[t := m.k.stat[t]] == m.k.stat;
    AsideStill(m.k, m'.k, t);
    HoldersSame(m, N);
    CallsAfter(m, m', t, a);
    StillBuried(m, m', N, t);
    Settle(m, m', N, t);
  }

  lemma HoldersSame(m: Machine, N: nat)
    requires Ok(m, N)
    ensures forall b :: b in m.pcs ==> PcOk(m.k, m.pcs[b])
  {
  }

  lemma StillBuried(m: Machine, m': Machine, N: nat, t: int)
    requires Ok(m, N) && t in m.k.stat && m'.ended == m.ended && forall b :: b in m.pcs ==>
      b in m'.pcs && m'.pcs[b] == m.pcs[b]
    ensures m.k.stat[t] == Closed ==> Buried(m', t)
    ensures t in m.ended ==> On(m.k.queues, N, t)
  {
    hide KernelState.Ok, PcOk, OneHolder;
    if m.k.stat[t] == Closed && t !in m.ended {
      var a :| a in m.pcs && m.pcs[a] == ToBury(t);
      assert m'.pcs[a] == ToBury(t);
    }
  }

  // ----- operations that are one region -----

  /** A thread moves from where it is to place `at` of list h. */
  lemma AsideMoved(m: Machine, k': Kernel, N: nat, t: int, h: nat, at: nat)
    requires Ok(m, N) && t in m.k.stat && t in k'.stat && h in m.k.queues && at <= |Off(m.k.queues, t)[h]|
    requires k'.queues == Off(m.k.queues, t)[h := Inserted(Off(m.k.queues, t)[h], at, t)]
    requires k'.stat == m.k.stat[t := k'.stat[t]] && forall u :: u != t ==> (u in k'.armed <==> u in m.k.armed)
    ensures Aside(m.k, k', t) && On(k'.queues, h, t)
  {
    hide KernelState.Ok, PcOk, OneHolder, Loose, Inserted, Off;
    AsideUnlinked(m, N, t);
    var k1 := m.k.(queues := Off(m.k.queues, t));
    OffHas(m.k.queues, h, t);
    assert m.k.stat[t := m.k.stat[t]] == m.k.stat;
    AsideOff(m.k, k1, t);
    AsideIn(k1, k', t, h, at);
    AsideTwice(m.k, k1, k', t);
  }

  lemma OffHas(queues: map<nat, seq<int>>, h: nat, t: int)
    requires h in queues
    ensures h in Off(queues, t)
  {
  }

  /** Somebody who has a thread in hand that is on a list has lost. */
  lemma HeldLinked(m: Machine, N: nat, b: nat, h: nat)
    requires b in m.pcs && Holds(m.pcs[b]) && On(m.k.queues, h, m.pcs[b].t)
    ensures !Ok(m, N)
  {
    hide KernelState.Ok, OneHolder;
    var c, k := m.pcs[b], m.k;
    assert !Loose(k.queues, c.t);
    assert !PcOk(k, c);
  }

  lemma PcBroken(m: Machine, N: nat, b: nat)
    requires b in m.pcs && !PcOk(m.k, m.pcs[b])
    ensures !Ok(m, N)
  {
    hide KernelState.Ok, OneHolder, PcOk;
  }

  lemma TwoHolders(m: Machine, N: nat, a: nat, b: nat)
    requires a in m.pcs && b in m.pcs && a != b && Holds(m.pcs[a]) && Holds(m.pcs[b]) && m.pcs[a].t == m.pcs[b].t
    ensures !Ok(m, N)
  {
    hide KernelState.Ok, PcOk;
  }

  lemma BlockedIs(k: Kernel, t: int, h: nat, flag: Flag, timed: bool)
    requires Usable(k, t) && h in k.queues
    ensures h in Off(k.queues, t) && Place(Off(k.queues, t)[h], k.prio, flag, t) <= |Off(k.queues, t)[h]|
    ensures var k', q := Blocked(k, t, h, flag, timed), Off(k.queues, t)[h];
      && k'.queues == Off(k.queues, t)[h := Inserted(q, Place(q, k.prio, flag, t), t)]
      && k'.stat == k.stat[t := Suspended]
      && k'.armed == if timed then k.armed - {t} + {t} else k.armed - {t}
  {
    hide Suspending, PutWaiting, Place, ReadyIndex.Ok;
    var k0 := k.(error := k.error[t := EOK]);
    SuspendingIs(k0, t, true);
    var k1 := Suspending(k0, t, true);
    PutWaitingIs(k1, h, Place(k1.queues[h], k.prio, flag, t), t);
  }

  lemma BlockedView(k: Kernel, dying: set<int>, t: int, h: nat, flag: Flag, timed: bool)
    requires Usable(k, t) && h in k.queues
    ensures Usable(View(k, dying), t)
    ensures View(Blocked(k, t, h, flag, timed), dying) == Blocked(View(k, dying), t, h, flag, timed)
  {
    hide Clear, Off, Unthreaded, Threaded, Place, Inserted;
    SeenSet(k.stat, dying, t, Suspended);
  }

  lemma BlockIff(m: Machine, N: nat, t: int, h: nat, flag: Flag, timed: bool)
    requires Ok(m, N)
    ensures Ok(Step(m, N, Block(t, h, flag, timed)), N) <==> Cond(m, N, Block(t, h, flag, timed))
  {
    hide KernelState.Ok, Off, Loose, ReadyIndex.Ok, Dying, Blocked, PcOk, OneHolder, Place;
    if t in m.k.stat && m.k.stat[t] == Ready && h > N && h in m.k.queues {
      var m' := Step(m, N, Block(t, h, flag, timed));
      KnownTo(m, N, t);
      BlockedIs(m.k, t, h, flag, timed);
      AsideMoved(m, m'.k, N, t, h, Place(Off(m.k.queues, t)[h], m.k.prio, flag, t));
      if Free(m, t) {
        BlockedKeeps(View(m.k, Dying(m.pcs)), N, t, h, flag, timed);
        BlockedView(m.k, Dying(m.pcs), t, h, flag, timed);
        HoldersSame(m, N);
        FreeCalls(m, m', N, t);
        Settle(m, m', N, t);
      } else {
        var b :| b in m.pcs && Holds(m.pcs[b]) && m.pcs[b].t == t;
        HeldLinked(m', N, b, h);
      }
    }
  }

  /** Nobody has the thread in hand: its calls are tests that have passed. */
  lemma FreeCalls(m: Machine, m': Machine, N: nat, t: int)
    requires Ok(m, N) && m'.pcs == m.pcs && Free(m, t) && t in m.k.stat && t in m'.k.stat
    requires m.k.stat[t] != Init ==> m'.k.stat[t] != Init
    ensures CallsOk(m', t) && SameCalls(m, m', t)
  {
    hide KernelState.Ok, PcOk;
    CallsStill(m, m', t);
  }

  lemma SleptView(k: Kernel, dying: set<int>, t: int)
    requires Usable(k, t)
    ensures Usable(View(k, dying), t) && View(Slept(k, t), dying) == Slept(View(k, dying), t)
  {
    hide Suspending, ReadyIndex.Ok;
    SuspendView(k, dying, t);
  }

  lemma SleepIff(m: Machine, N: nat, t: int)
    requires Ok(m, N)
    ensures Ok(Step(m, N, Sleep(t)), N) <==> Cond(m, N, Sleep(t))
  {
    hide KernelState.Ok, Off, Loose, ReadyIndex.Ok, Dying, Slept, PcOk, OneHolder;
    if t in m.k.stat && m.k.stat[t] == Ready {
      var m' := Step(m, N, Sleep(t));
      KnownTo(m, N, t);
      SleptIs(m.k, t);
      AsideUnlinked(m, N, t);
      AsideOff(m.k, m'.k, t);
      if b :| b in m.pcs && m.pcs[b] == ToShut(t) {
        ShutArmed(m', b);
        PcBroken(m', N, b);
      } else {
        SleptKeeps(View(m.k, Dying(m.pcs)), N, t);
        SleptView(m.k, Dying(m.pcs), t);
        HoldersReady(m, N, t, m'.k);
        HoldersSame(m, N);
        CallsOfHolders(m, m', N, t);
        Settle(m, m', N, t);
      }
    }
  }

  lemma SleptIs(k: Kernel, t: int)
    requires Usable(k, t)
    ensures var k' := Slept(k, t);
      k'.queues == Off(k.queues, t) && k'.stat == k.stat[t := Suspended] && k'.armed == k.armed - {t} + {t}
  {
    hide Suspending, ReadyIndex.Ok;
    SuspendingIs(k, t, false);
  }

  lemma ShutArmed(m: Machine, b: nat)
    requires b in m.pcs && m.pcs[b].ToShut? && m.pcs[b].t in m.k.armed
    ensures !PcOk(m.k, m.pcs[b])
  {
  }

  lemma CallsOfHolders(m: Machine, m': Machine, N: nat, t: int)
    requires Ok(m, N) && m'.pcs == m.pcs && t in m.k.stat && t in m'.k.stat
      && (m.k.stat[t] != Init ==> m'.k.stat[t] != Init)
    requires forall b :: b in m.pcs && Holds(m.pcs[b]) && m.pcs[b].t == t ==> PcOk(m'.k, m.pcs[b])
    ensures CallsOk(m', t) && SameCalls(m, m', t)
  {
    hide KernelState.Ok, PcOk;
    CallsStill(m, m', t);
  }

  /** A woken thread is at the end of its ready queue. */
  lemma WokenHas(k: Kernel, t: int, why: Why, err: Err)
    requires Usable(k, t)
    ensures k.prio[t] in Off(k.queues, t)
    ensures var k', q := Woken(k, t, why, err), Off(k.queues, t)[k.prio[t]];
      && k'.queues == Off(k.queues, t)[k.prio[t] := Inserted(q, |q|, t)] && k'.stat == k.stat[t := Ready]
      && k'.armed == k.armed - {t}
  {
    hide PutReady, Off, ReadyIndex.Ok;
    OffHas(k.queues, k.prio[t], t);
    PutReadyIs(Waking(k, t, why, err), t);
  }

  lemma WokenView(k: Kernel, dying: set<int>, t: int, why: Why, err: Err)
    requires Usable(k, t) && t !in dying
    ensures Usable(View(k, dying), t) && View(Woken(k, t, why, err), dying) == Woken(View(k, dying), t, why, err)
  {
    hide Insert, Threaded, Unthreaded, Off;
    SeenSet(k.stat, dying, t, Ready);
  }

  lemma ExpireIff(m: Machine, N: nat, t: int)
    requires Ok(m, N)
    ensures Ok(Step(m, N, Expire(t)), N) <==> Cond(m, N, Expire(t))
  {
    hide KernelState.Ok, Off, Loose, ReadyIndex.Ok, Dying, Woken, PcOk, OneHolder;
    if t in m.k.armed {
      var m' := Step(m, N, Expire(t));
      ArmedTo(m, N, t);
      KnownTo(m, N, t);
      WokenHas(m.k, t, TimedOut, ETIMEOUT);
      AsideMoved(m, m'.k, N, t, m.k.prio[t], |Off(m.k.queues, t)[m.k.prio[t]]|);
      if Free(m, t) {
        WokenKeeps(View(m.k, Dying(m.pcs)), N, t, TimedOut, ETIMEOUT);
        WokenView(m.k, Dying(m.pcs), t, TimedOut, ETIMEOUT);
        FreeCalls(m, m', N, t);
        Settle(m, m', N, t);
      } else {
        var b :| b in m.pcs && Holds(m.pcs[b]) && m.pcs[b].t == t;
        HeldLinked(m', N, b, m.k.prio[t]);
      }
    }
  }

  /** Nobody has a thread in hand that is on a wait list, and it is suspended. */
  lemma WaiterFree(m: Machine, N: nat, h: nat, t: int)
    requires Ok(m, N) && On(m.k.queues, h, t) && h > N
    ensures Free(m, t) && t in m.k.stat && m.k.stat[t] == Suspended
  {
    hide ListsOk, IndexAgrees, LogOk, OneHolder, Dying;
    var v := View(m.k, Dying(m.pcs));
    assert On(v.queues, h, t);
    assert Fits(v, N, h, t);
    forall a | a in m.pcs && Holds(m.pcs[a]) ensures m.pcs[a].t != t {
      assert PcOk(m.k, m.pcs[a]);
    }
  }

  lemma WakeKeeps(m: Machine, N: nat, h: nat, flush: bool)
    requires Ok(m, N)
    ensures Ok(Step(m, N, Wake(h, flush)), N)
  {
    hide KernelState.Ok, Off, Loose, ReadyIndex.Ok, Dying, Woken, PcOk, OneHolder;
    if h > N && h in m.k.queues && m.k.queues[h] != [] {
      var t, m' := m.k.queues[h][0], Step(m, N, Wake(h, flush));
      assert On(m.k.queues, h, t);
      WaiterFree(m, N, h, t);
      KnownTo(m, N, t);
      var why, err := if flush then Flushed else Resumed, if flush then EERROR else m.k.error[t];
      assert m'.k == Woken(m.k, t, why, err);
      WokenHas(m.k, t, why, err);
      AsideMoved(m, m'.k, N, t, m.k.prio[t], |Off(m.k.queues, t)[m.k.prio[t]]|);
      WokenKeeps(View(m.k, Dying(m.pcs)), N, t, why, err);
      WokenView(m.k, Dying(m.pcs), t, why, err);
      FreeCalls(m, m', N, t);
      Settle(m, m', N, t);
    }
  }

  lemma MovedView(k: Kernel, dying: set<int>, t: int, p: nat)
    requires Movable(k, t, p) && (k.stat[t] == Ready ==> t !in dying)
    ensures Movable(View(k, dying), t, p) && View(Reprioritized(k, t, p), dying) == Reprioritized(View(k, dying), t, p)
  {
    hide Clear, Insert, Threaded, Unthreaded, Off;
    SeenSet(k.stat, dying, t, Ready);
  }

  lemma MovedHas(k: Kernel, t: int, p: nat)
    requires Movable(k, t, p)
    ensures p in Off(k.queues, t)
    ensures var k', q := Reprioritized(k, t, p), Off(k.queues, t)[p];
      && k'.armed == k.armed
      && (k.stat[t] == Ready ==>
        k'.queues == Off(k.queues, t)[p := Inserted(q, |q|, t)] && k'.stat == k.stat[t := Ready])
      && (k.stat[t] != Ready ==> k'.queues == k.queues && k'.stat == k.stat)
  {
    hide PutReady, Off, ReadyIndex.Ok, TakeOff;
    OffHas(k.queues, p, t);
    TakeOffIs(k, t);
    if k.stat[t] == Ready {
      PutReadyIs(TakeOff(k, t).(prio := k.prio[t := p]), t);
    }
  }

  lemma SetPrioIff(m: Machine, N: nat, t: int, p: nat)
    requires Ok(m, N)
    ensures Ok(Step(m, N, SetPrio(t, p)), N) <==> Cond(m, N, SetPrio(t, p))
  {
    hide KernelState.Ok, Off, Loose, ReadyIndex.Ok, Dying, Reprioritized, PcOk, OneHolder;
    if p < N && t in m.k.stat {
      var v := View(m.k, Dying(m.pcs));
      KnownTo(m, N, t);
      ReprioritizedKeeps(v, N, t, p);
      MovableView(m.k, Dying(m.pcs), t, p);
      MovedHas(m.k, t, p);
      var m' := Step(m, N, SetPrio(t, p));
      if m.k.stat[t] == Ready {
        AsideMoved(m, m'.k, N, t, p, |Off(m.k.queues, t)[p]|);
        if Free(m, t) {
          MovedView(m.k, Dying(m.pcs), t, p);
          FreeCalls(m, m', N, t);
          Settle(m, m', N, t);
        } else {
          var b :| b in m.pcs && Holds(m.pcs[b]) && m.pcs[b].t == t;
          HeldLinked(m', N, b, p);
        }
      } else {
        MovedView(m.k, Dying(m.pcs), t, p);
        assert m.k.stat[t := m.k.stat[t]] == m.k.stat;
        AsideStill(m.k, m'.k, t);
        CallsSame(m, m', N, t);
        StillBuried(m, m', N, t);
        Settle(m, m', N, t);
      }
    }
  }

  lemma MovableView(k: Kernel, dying: set<int>, t: int, p: nat)
    requires Movable(View(k, dying), t, p) && t in k.stat
    ensures Movable(k, t, p)
  {
    hide Clear, Unthreaded, Off;
  }

  /** States, lists and timers stay. */
  lemma CallsSame(m: Machine, m': Machine, N: nat, t: int)
    requires Ok(m, N) && m'.pcs == m.pcs && t in m.k.stat
    requires m'.k.stat == m.k.stat && m'.k.queues == m.k.queues && m'.k.armed == m.k.armed
    ensures CallsOk(m', t) && SameCalls(m, m', t)
  {
    hide KernelState.Ok, Loose;
    forall b | b in m.pcs ensures PcOk(m'.k, m.pcs[b]) {
      assert PcOk(m.k, m.pcs[b]);
    }
  }

  lemma ExitedView(k: Kernel, dying: set<int>, N: nat, t: int)
    requires Usable(k, t) && N in k.queues && t !in dying
    ensures Usable(View(k, dying), t) && View(Exited(k, N, t), dying) == Exited(View(k, dying), N, t)
  {
    hide Clear, Threaded, Unthreaded, Off, Inserted;
    SeenSet(k.stat, dying, t, Closed);
  }

  lemma ExitedHas(k: Kernel, N: nat, t: int)
    requires Usable(k, t) && N in k.queues && k.stat[t] != Init
    ensures N in Off(k.queues, t)
    ensures var k' := Exited(k, N, t);
      && k'.queues == Off(k.queues, t)[N := Inserted(Off(k.queues, t)[N], 0, t)] && k'.stat == k.stat[t := Closed]
      && k'.armed == k.armed - {t}
  {
    hide PutWaiting, Off, ReadyIndex.Ok, TakeOff;
    OffHas(k.queues, N, t);
    TakeOffIs(k, t);
    PutWaitingIs(Closing(k, t), N, 0, t);
  }

  lemma ExitIff(m: Machine, N: nat, t: int)
    requires Ok(m, N)
    ensures Ok(Step(m, N, Exit(t)), N) <==> Cond(m, N, Exit(t))
  {
    hide KernelState.Ok, Off, Loose, ReadyIndex.Ok, Dying, Exited, PcOk, OneHolder;
    if t in m.k.stat && m.k.stat[t] == Ready {
      var m' := Step(m, N, Exit(t));
      KnownTo(m, N, t);
      ExitedHas(m.k, N, t);
      AsideMoved(m, m'.k, N, t, N, 0);
      if Free(m, t) {
        ExitedKeeps(View(m.k, Dying(m.pcs)), N, t);
        ExitedView(m.k, Dying(m.pcs), N, t);
        FreeCalls(m, m', N, t);
        Settle(m, m', N, t);
      } else {
        var b :| b in m.pcs && Holds(m.pcs[b]) && m.pcs[b].t == t;
        HeldLinked(m', N, b, N);
      }
    }
  }

  lemma StartKeeps(m: Machine, N: nat, t: int, p: nat)
    requires Ok(m, N)
    ensures Ok(Step(m, N, Start(t, p)), N)
  {
    hide KernelState.Ok, Loose, ReadyIndex.Ok, Dying, OneHolder;
    if t in m.k.stat && m.k.stat[t] == Init && p < N {
      var m', v := Step(m, N, Start(t, p)), View(m.k, Dying(m.pcs));
      KnownTo(m, N, t);
      StartingKeeps(v, N, t, p);
      SeenSet(m.k.stat, Dying(m.pcs), t, Suspended);
      assert View(m'.k, Dying(m'.pcs)) == Starting(v, t, p);
      AsideStill(m.k, m'.k, t);
      forall b | b in m.pcs && Holds(m.pcs[b]) && m.pcs[b].t == t ensures PcOk(m'.k, m.pcs[b]) {
        assert PcOk(m.k, m.pcs[b]);
      }
      CallsOfHolders(m, m', N, t);
      Settle(m, m', N, t);
    }
  }

  // ----- steps that begin a region -----

  lemma TakeIff(m: Machine, N: nat, a: nat)
    requires Ok(m, N)
    ensures Ok(Step(m, N, Take(a)), N) <==> Cond(m, N, Take(a))
  {
    hide KernelState.Ok, Off, Loose, ReadyIndex.Ok, Dying, OneHolder, Unlinked;
    if a in m.pcs && m.pcs[a].ToTake? {
      var t, m' := m.pcs[a].t, Step(m, N, Take(a));
      assert PcOk(m.k, m.pcs[a]);
      KnownTo(m, N, t);
      if Cond(m, N, Take(a)) {
        TakeKeeps(m, N, a);
      } else if m.k.stat[t] != Suspended {
        UnlinkedIs(m.k, t);
        assert !PcOk(m'.k, m'.pcs[a]);
        PcBroken(m', N, a);
      } else {
        var b :| b in m.pcs && Holds(m.pcs[b]) && m.pcs[b].t == t;
        TwoHolders(m', N, a, b);
      }
    }
  }

  lemma UnlinkedIs(k: Kernel, t: int)
    requires Has(k.links, t)
    ensures var k' := Unlinked(k, t); k'.queues == Off(k.queues, t) && k'.stat == k.stat && k'.armed == k.armed - {t}
  {
  }

  lemma DoSuspendIff(m: Machine, N: nat, a: nat)
    requires Ok(m, N)
    ensures Ok(Step(m, N, DoSuspend(a)), N) <==> Cond(m, N, DoSuspend(a))
  {
    hide KernelState.Ok, Off, Loose, ReadyIndex.Ok, Dying, OneHolder, Suspending;
    if a in m.pcs && m.pcs[a].ToSuspend? {
      var t, m' := m.pcs[a].t, Step(m, N, DoSuspend(a));
      assert PcOk(m.k, m.pcs[a]);
      KnownTo(m, N, t);
      if m.k.stat[t] == Ready {
        DoSuspendKeeps(m, N, a);
      } else if m.k.stat[t] == Suspended {
        var v := View(m.k, Dying(m.pcs));
        SuspendingIff(v, N, t);
        SuspendView(m.k, Dying(m.pcs), t);
        DyingSame(m.pcs, a, ToTake(t));
        NotInOrder(m', N);
      } else {
        SuspendsClosed(m, N, a);
      }
    }
  }

  lemma NotInOrder(m: Machine, N: nat)
    requires !KernelState.Ok(View(m.k, Dying(m.pcs)), N)
    ensures !Ok(m, N)
  {
    hide KernelState.Ok, PcOk, OneHolder, Dying;
  }

  /** A closed thread is suspended: it is not on the defunct list any more. */
  lemma SuspendsClosed(m: Machine, N: nat, a: nat)
    requires Ok(m, N) && a in m.pcs && m.pcs[a].ToSuspend? && m.pcs[a].t in m.k.stat && m.k.stat[m.pcs[a].t] == Closed
    requires Usable(m.k, m.pcs[a].t)
    ensures !Ok(Step(m, N, DoSuspend(a)), N)
  {
    hide KernelState.Ok, Off, ReadyIndex.Ok, Dying, OneHolder, Suspending;
    var t, m' := m.pcs[a].t, Step(m, N, DoSuspend(a));
    SuspendingIs(m.k, t, false);
    AsideUnlinked(m, N, t);
    assert Buried(m, t);
    if t in m.ended {
      EndedOff(m', N, t);
    } else {
      var b :| b in m.pcs && m.pcs[b] == ToBury(t);
      assert b in m'.pcs && m'.pcs[b] == ToBury(t);
      PcBroken(m', N, b);
    }
  }

  lemma EndedOff(m: Machine, N: nat, t: int)
    requires t in m.ended && Loose(m.k.queues, t)
    ensures !Ok(m, N)
  {
    hide KernelState.Ok, PcOk, OneHolder;
    assert !On(m.k.queues, N, t);
  }

  lemma DeleteIff(m: Machine, N: nat, a: nat, t: int)
    requires Ok(m, N)
    ensures Ok(Step(m, N, Delete(a, t)), N) <==> Cond(m, N, Delete(a, t))
  {
    hide KernelState.Ok, Off, Loose, ReadyIndex.Ok, Dying, OneHolder, TakeOff, PcOk;
    if a !in m.pcs && t in m.k.stat {
      var m' := Step(m, N, Delete(a, t));
      KnownTo(m, N, t);
      TakeOffIs(m.k, t);
      if Cond(m, N, Delete(a, t)) {
        DeleteKeeps(m, N, a, t);
      } else if !Free(m, t) {
        var b :| b in m.pcs && Holds(m.pcs[b]) && m.pcs[b].t == t;
        TwoHolders(m', N, a, b);
      } else {
        FreeEnded(m, N, t);
        AsideUnlinked(m, N, t);
        EndedOff(m', N, t);
      }
    }
  }

  lemma FreeEnded(m: Machine, N: nat, t: int)
    requires Ok(m, N) && t in m.k.stat && m.k.stat[t] == Closed && Free(m, t)
    ensures t in m.ended
  {
    hide KernelState.Ok, PcOk, OneHolder;
    assert Buried(m, t);
    forall b | b in m.pcs ensures m.pcs[b] != ToBury(t) {
      assert Holds(m.pcs[b]) ==> m.pcs[b].t != t;
    }
  }

  // ----- every step, every run -----

  /** A step keeps everything in order if and only if it is taken under its condition. */
  lemma StepIff(m: Machine, N: nat, e: Event)
    requires Ok(m, N)
    ensures Ok(Step(m, N, e), N) <==> Cond(m, N, e)
  {
    hide KernelState.Ok, Ok, Cond;
    match e
    case TestResume(a, t) => TestIff(m, N, e);
    case Take(a) => TakeIff(m, N, a);
    case Put(a) => CarryOn(m, N, e);
    case TestSuspend(a, t) => TestIff(m, N, e);
    case DoSuspend(a) => DoSuspendIff(m, N, a);
    case Delete(a, t) => DeleteIff(m, N, a, t);
    case Detach(a) => CarryOn(m, N, e);
    case Shut(a) => CarryOn(m, N, e);
    case Bury(a) => CarryOn(m, N, e);
    case Block(t, h, flag, timed) => BlockIff(m, N, t, h, flag, timed);
    case Sleep(t) => SleepIff(m, N, t);
    case Expire(t) => ExpireIff(m, N, t);
    case Wake(h, flush) => WakeKeeps(m, N, h, flush); Free1(m, N, e);
    case SetPrio(t, p) => SetPrioIff(m, N, t, p);
    case Exit(t) => ExitIff(m, N, t);
    case Start(t, p) => StartKeeps(m, N, t, p); Free1(m, N, e);
  }

  lemma Free1(m: Machine, N: nat, e: Event)
    requires e.Wake? || e.Start? || e.TestResume? || e.TestSuspend? || e.Put? || e.Detach? || e.Shut? || e.Bury?
    ensures Cond(m, N, e)
  {
  }

  lemma TestIff(m: Machine, N: nat, e: Event)
    requires Ok(m, N) && (e.TestResume? || e.TestSuspend?)
    ensures Ok(Step(m, N, e), N) && Cond(m, N, e)
  {
    hide Ok;
    if e.TestResume? && e.a !in m.pcs && e.t in m.k.stat && m.k.stat[e.t] == Suspended {
      TestKeeps(m, N, e.a, ToTake(e.t));
    }
    if e.TestSuspend? && e.a !in m.pcs && e.t in m.k.stat && m.k.stat[e.t] == Ready {
      TestKeeps(m, N, e.a, ToSuspend(e.t));
    }
  }

  /** Later regions need no condition: whoever began has the thread in hand. */
  lemma CarryOn(m: Machine, N: nat, e: Event)
    requires Ok(m, N) && (e.Put? || e.Detach? || e.Shut? || e.Bury?)
    ensures Ok(Step(m, N, e), N) && Cond(m, N, e)
  {
    hide Ok;
    match e
    case Put(a) => if a in m.pcs && m.pcs[a].ToPut? { PutKeeps(m, N, a); }
    case Detach(a) => if a in m.pcs && m.pcs[a].ToDetach? { DetachKeeps(m, N, a); }
    case Shut(a) => if a in m.pcs && m.pcs[a].ToShut? { ShutDownKeeps(m, N, a); }
    case Bury(a) => if a in m.pcs && m.pcs[a].ToBury? { BuryKeeps(m, N, a); }
  }

  /** In order in every state of a run. */
  ghost predicate Always(m: Machine, N: nat, es: seq<Event>)
    decreases |es|
  {
    Ok(m, N) && (es != [] ==> Always(Step(m, N, es[0]), N, es[1..]))
  }

  /** Every step of a run is taken under its condition. */
  ghost predicate Kept(m: Machine, N: nat, es: seq<Event>)
    decreases |es|
  {
    es != [] ==> Cond(m, N, es[0]) && Kept(Step(m, N, es[0]), N, es[1..])
  }

  /**
   Whatever the interleaving: every state of a run is in order if and only if each region of
   the run began under its condition.
   */
  lemma {:induction false} RunIff(m: Machine, N: nat, es: seq<Event>)
    requires Ok(m, N)
    ensures Always(m, N, es) <==> Kept(m, N, es)
    decreases |es|
  {
    hide Ok, Step, Cond;
    if es != [] {
      StepIff(m, N, es[0]);
      if Cond(m, N, es[0]) {
        RunIff(Step(m, N, es[0]), N, es[1..]);
      }
    }
  }

  /**
   What a state in order means for a thread, between the regions of any calls: waits have
   ended once; it is on one list at most and its timer runs only while it is suspended; it is
   on the queue of its priority if and only if it is ready and nobody is deleting it; and the
   bitmap marks exactly the queues that are not empty.
   */
  lemma InOrder(m: Machine, N: nat, t: int)
    requires Ok(m, N) && t in m.k.stat
    ensures Alternates(m.k.log) && t in m.k.prio
    ensures forall g: nat, h: nat :: On(m.k.queues, g, t) && On(m.k.queues, h, t) ==> g == h
    ensures On(m.k.queues, m.k.prio[t], t) <==> m.k.stat[t] == Ready && t !in Dying(m.pcs)
    ensures t in m.k.armed ==> m.k.stat[t] == Suspended
    ensures forall p: nat :: Marked(m.k.index, p) <==> p < N && p in m.k.queues && m.k.queues[p] != []
  {
    hide PcOk, OneHolder, Dying, ListsOk, PlacesOk, Marked;
    var v := View(m.k, Dying(m.pcs));
    WhereThreadsAre(v, N, t);
  }

  // ----- calls with interrupts off, and what goes wrong otherwise -----

  ghost function Run(m: Machine, N: nat, es: seq<Event>): Machine
    decreases |es|
  {
    if es == [] then m else Run(Step(m, N, es[0]), N, es[1..])
  }

  lemma RunOne(m: Machine, N: nat, e: Event, es: seq<Event>)
    ensures Run(m, N, [e] + es) == Run(Step(m, N, e), N, es)
  {
    hide Step;
    assert ([e] + es)[1..] == es;
  }

  lemma RunThree(m: Machine, N: nat, e1: Event, e2: Event, e3: Event)
    ensures Run(m, N, [e1, e2, e3]) == Step(Step(Step(m, N, e1), N, e2), N, e3)
  {
    hide Step;
    RunOne(m, N, e1, [e2, e3]);
    RunOne(Step(m, N, e1), N, e2, [e3]);
    RunOne(Step(Step(m, N, e1), N, e2), N, e3, []);
    assert [e1] + [e2, e3] == [e1, e2, e3] && [e2] + [e3] == [e2, e3] && [e3] + [] == [e3];
  }

  /**
   rt_thread_resume with interrupts off, as ipc.c calls it: test and regions in a row are the
   one step that wakes the thread.
   */
  lemma AtomicIsRegions(m: Machine, N: nat, a: nat, t: int)
    requires Ok(m, N) && a !in m.pcs && t in m.k.stat && m.k.stat[t] == Suspended
    ensures Usable(m.k, t)
    ensures Run(m, N, [TestResume(a, t), Take(a), Event.Put(a)]) == m.(k := Woken(m.k, t, Resumed, m.k.error[t]))
  {
    hide Ok, Run, ReadyIndex.Ok, Off, PutReady, Unthreaded;
    KnownTo(m, N, t);
    OffKeys(m.k, t);
    RunThree(m, N, TestResume(a, t), Take(a), Event.Put(a));
    assert m.pcs[a := ToTake(t)][a := ToPut(t)] - {a} == m.pcs;
    assert m.k.error[t := m.k.error[t]] == m.k.error;
  }

  /**
   A tick between the test and the first region: thread t, asleep and alone at its priority, is
   woken by its timer and then taken off the ready queue. Its bit stays set over an empty
   queue, whose first node is its own head.
   */
  lemma TickInResume(m: Machine, N: nat, a: nat, t: int)
    requires Ok(m, N) && m.pcs == map[] && t in m.k.armed && t in m.k.prio && m.k.prio[t] in m.k.queues
    requires m.k.queues[m.k.prio[t]] == []
    ensures var m', p := Run(m, N, [TestResume(a, t), Expire(t), Take(a)]), m.k.prio[t];
      && t in m'.k.stat && m'.k.stat[t] == Ready && Loose(m'.k.queues, t) && !Ok(m', N)
      && p in m'.k.queues && m'.k.queues[p] == [] && Marked(m'.k.index, p)
      && Has(m'.k.links, HeadOf(p)) && m'.k.links.next[HeadOf(p)] == HeadOf(p)
  {
    hide Ok, Run, ReadyIndex.Ok, Off, Woken, Loose, Marked, KernelState.Ok;
    var m1 := Step(m, N, TestResume(a, t));
    ArmedTo(m, N, t);
    KnownTo(m, N, t);
    RunThree(m, N, TestResume(a, t), Expire(t), Take(a));
    StepIff(m, N, TestResume(a, t));
    assert m1 == m.(pcs := map[a := ToTake(t)]);
    NoneHeld(m1, a, t);
    StepIff(m1, N, Expire(t));
    var m2 := Step(m1, N, Expire(t));
    WokenHas(m.k, t, TimedOut, ETIMEOUT);
    assert m2.k == Woken(m.k, t, TimedOut, ETIMEOUT);
    KnownTo(m2, N, t);
    TakeIff(m2, N, a);
    AloneThere(m, m2, N, t);
    OffTheQueue(m2, N, a, t, m.k.prio[t]);
  }

  lemma NoneHeld(m: Machine, a: nat, t: int)
    requires m.pcs == map[a := ToTake(t)]
    ensures Free(m, t)
  {
  }

  lemma AloneThere(m: Machine, m2: Machine, N: nat, t: int)
    requires Ok(m, N) && t in m.k.stat && Usable(m.k, t) && m.k.queues[m.k.prio[t]] == []
    requires m2.k == Woken(m.k, t, TimedOut, ETIMEOUT)
    ensures m2.k.queues == Off(m.k.queues, t)[m.k.prio[t] := [t]] && m2.k.stat[t] == Ready
  {
    hide Ok, Woken, ReadyIndex.Ok;
    WokenHas(m.k, t, TimedOut, ETIMEOUT);
    assert Inserted([], 0, t) == [t];
  }

  lemma OffTheQueue(m: Machine, N: nat, a: nat, t: int, p: nat)
    requires Ok(m, N) && a in m.pcs && m.pcs[a] == ToTake(t) && t in m.k.stat && m.k.stat[t] == Ready && Usable(m.k, t)
    requires p < N && p in m.k.queues && m.k.queues[p] == [t]
    ensures var m' := Step(m, N, Take(a));
      && m'.k.stat[t] == Ready && Loose(m'.k.queues, t) && p in m'.k.queues && m'.k.queues[p] == []
      && Marked(m'.k.index, p) && Has(m'.k.links, HeadOf(p)) && m'.k.links.next[HeadOf(p)] == HeadOf(p)
  {
    hide ReadyIndex.Ok, Loose, Marked, PcOk, OneHolder, Dying, Ring, Idle, PlacesOk;
    AsideUnlinked(m, N, t);
    var v, m' := View(m.k, Dying(m.pcs)), Step(m, N, Take(a));
    assert Marked(v.index, p) && v.stat.Keys == m.k.stat.Keys;
    RemovedLists(v, N, {}, t);
    RingOf(m'.k.links, m'.k.queues, m.k.stat.Keys, p);
    EmptyRing(m'.k.links, HeadOf(p), m'.k.queues[p]);
  }

  /**
   Two resumes of one thread that overlap: both pass the test and take the thread off; the
   second to put it back links it behind itself and ends its one wait again.
   */
  lemma TwoResumes(m: Machine, N: nat, a: nat, b: nat, t: int)
    requires Ok(m, N) && m.pcs == map[] && a != b && t in m.k.stat && m.k.stat[t] == Suspended
    ensures Usable(m.k, t)
    ensures var e, p := Wakes(t, Resumed, m.k.error[t]), m.k.prio[t];
      var m5 := Run(Run(m, N, [TestResume(a, t), TestResume(b, t), Take(a)]), N, [Take(b), Event.Put(a), Event.Put(b)]);
      && m5.k.log == m.k.log + [e] + [e] && !Alternates(m5.k.log) && !Ok(m5, N)
      && p in Off(m.k.queues, t) && p in m5.k.queues && m5.k.queues[p] == Off(m.k.queues, t)[p] + [t] + [t]
  {
    hide Ok, Run, ReadyIndex.Ok, Off, Loose, KernelState.Ok, Unlinked, PutReady;
    KnownTo(m, N, t);
    OffKeys(m.k, t);
    RunThree(m, N, TestResume(a, t), TestResume(b, t), Take(a));
    var m1 := Step(Step(Step(m, N, TestResume(a, t)), N, TestResume(b, t)), N, Take(a));
    assert m1 == Machine(Unlinked(m.k, t), map[a := ToPut(t), b := ToTake(t)], m.ended);
    RunThree(m1, N, Take(b), Event.Put(a), Event.Put(b));
    var v := View(m.k, Dying(m.pcs));
    NobodyDies(m);
    KernelOf(m, N);
    UnlinkedKeeps(m.k, N, t);
    var k1 := Unlinked(m.k, t);
    UnlinkedIs(m.k, t);
    UnlinkedRest(m.k, t);
    PutIsWoken(k1, N, t);
    assert Step(m1, N, Take(b)) == Machine(k1, map[a := ToPut(t), b := ToPut(t)], m.ended);
    PutTwice(m.k, k1, N, t, m.ended, a, b);
  }

  lemma NobodyDies(m: Machine)
    requires m.pcs == map[]
    ensures Dying(m.pcs) == {}
  {
  }

  lemma KernelOf(m: Machine, N: nat)
    requires Ok(m, N) && Dying(m.pcs) == {}
    ensures KernelState.Ok(m.k, N)
  {
    hide KernelState.Ok, Dying, Ok;
    var stat := m.k.stat;
    forall t | t in stat ensures t in Seen(stat, {}) && Seen(stat, {})[t] == stat[t] {
    }
    assert Seen(stat, {}) == stat;
    assert View(m.k, {}) == m.k;
    InOrderView(m, N);
  }

  lemma InOrderView(m: Machine, N: nat)
    requires Ok(m, N)
    ensures KernelState.Ok(View(m.k, Dying(m.pcs)), N)
  {
  }

  lemma UnlinkedRest(k: Kernel, t: int)
    requires Has(k.links, t)
    ensures var k' := Unlinked(k, t); k'.prio == k.prio && k'.error == k.error && k'.log == k.log && k'.index == k.index
  {
  }

  lemma PutTwice(k: Kernel, k1: Kernel, N: nat, t: int, ended: set<int>, a: nat, b: nat)
    requires a != b && Usable(k, t) && Usable(k1, t) && KernelState.Ok(k1, N) && k1.stat[t] == Suspended
      && Loose(k1.queues, t)
    requires t !in k1.armed && k1.prio == k.prio && k1.error == k.error && k1.log == k.log
      && k1.queues == Off(k.queues, t)
    ensures k.prio[t] in Off(k.queues, t)
    ensures var m, e, p := Machine(k1, map[a := ToPut(t), b := ToPut(t)], ended), Wakes(t, Resumed, k.error[t]),
      k.prio[t];
      var m' := Step(Step(m, N, Event.Put(a)), N, Event.Put(b));
      && m'.k.log == k.log + [e] + [e] && !Alternates(m'.k.log) && !Ok(m', N)
      && p in m'.k.queues && m'.k.queues[p] == Off(k.queues, t)[p] + [t] + [t]
  {
    hide Ok, ReadyIndex.Ok, Off, Loose, KernelState.Ok, PutReady;
    var e, p := Wakes(t, Resumed, k.error[t]), k.prio[t];
    var m := Machine(k1, map[a := ToPut(t), b := ToPut(t)], ended);
    PutIff(k1, N, t);
    var k2 := RegionOps.Put(k1, t);
    UsableOf(k2, N, t) by {
      PutKeys(k1, t);
    }
    PutKeys(k1, t);
    PutKeys(k2, t);
    assert Step(m, N, Event.Put(a)) == Machine(k2, m.pcs - {a}, ended);
    var m' := Step(Machine(k2, m.pcs - {a}, ended), N, Event.Put(b));
    assert m' == Machine(RegionOps.Put(k2, t), m.pcs - {a} - {b}, ended);
    WakesNobody(k2, N, t);
    assert m'.pcs == map[];
    NobodyDies(m');
    LogBroken(m', N);
  }

  lemma PutKeys(k: Kernel, t: int)
    requires Usable(k, t)
    ensures var k' := RegionOps.Put(k, t);
      && t in k'.stat && k'.stat[t] == Ready && k'.log == k.log + [Wakes(t, Resumed, k.error[t])] && k'.error == k.error
      && k'.prio == k.prio && k.prio[t] in k'.queues && k'.queues[k.prio[t]] == k.queues[k.prio[t]] + [t]
  {
    hide Insert, Threaded;
  }

  lemma LogBroken(m: Machine, N: nat)
    requires !Alternates(m.k.log)
    ensures !Ok(m, N)
  {
    hide PcOk, OneHolder, ListsOk, PlacesOk, IndexAgrees;
  }

  /** One thread, asleep with its timer running. */
  lemma OneSleeper() returns (m: Machine)
    ensures Ok(m, 1) && m.pcs == map[] && m.k.armed == {0} && m.k.stat == map[0 := Suspended] && m.k.prio == map[0 := 0]
    ensures 0 in m.k.queues && m.k.queues[0] == []
  {
    hide KernelState.Ok, ReadyIndex.Ok;
    var k := Kernel(SelfLinked({-2, -1, 0}), map[0 := [], 1 := []], map[0 := Init], map[0 := 0], map[0 := EOK], {},
                    OneWord(0), []);
    FreshKernel(k, 1, {0});
    StartingKeeps(k, 1, 0, 0);
    ArmKeeps(Starting(k, 0, 0), 1, 0);
    var k' := Starting(k, 0, 0).(armed := {0});
    assert k' == Starting(k, 0, 0).(armed := Starting(k, 0, 0).armed + {0});
    m := Machine(k', map[], {});
    NobodyDies(m);
    assert Seen(k'.stat, {}) == k'.stat;
    assert View(k', {}) == k';
  }

  /** So both kinds of overlap lead out of order from some state that is in order. */
  lemma OverlapsFail() returns (m: Machine)
    ensures Ok(m, 1) && m.pcs == map[]
    ensures !Ok(Run(m, 1, [TestResume(1, 0), Expire(0), Take(1)]), 1)
    ensures !Ok(Run(Run(m, 1, [TestResume(1, 0), TestResume(2, 0), Take(1)]), 1,
      [Take(2), Event.Put(1), Event.Put(2)]), 1)
  {
    hide Ok, Run;
    m := OneSleeper();
    TickInResume(m, 1, 1, 0);
    TwoResumes(m, 1, 1, 2, 0);
  }
}
