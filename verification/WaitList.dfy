/**
 The order of the threads that wait on a kernel object: rt_ipc_list_suspend in src/ipc.c.
 A list is a sequence of thread numbers; `prio` gives their current priorities, a smaller
 number being more urgent.
 */
module WaitList {
  import opened RtList

  /** RT_IPC_FLAG_FIFO, RT_IPC_FLAG_PRIO */
  datatype Flag = Fifo | Prio

  /** More urgent threads first. */
  ghost predicate Sorted<T>(q: seq<T>, prio: map<T, nat>) {
    && (forall i :: 0 <= i < |q| ==> q[i] in prio)
    && forall i, j :: 0 <= i < j < |q| ==> prio[q[i]] <= prio[q[j]]
  }

  ghost predicate Known<T>(q: seq<T>, prio: map<T, nat>) {
    forall i :: 0 <= i < |q| ==> q[i] in prio
  }

  /** The place of a thread in a list by its flag: behind everyone, or in front of the first
      thread that is less urgent. */
  function Place<T(==)>(q: seq<T>, prio: map<T, nat>, flag: Flag, t: T): (k: nat)
    requires t in prio
    ensures k <= |q|
  {
    if flag == Fifo || q == [] then |q|
    else if q[0] in prio && prio[t] < prio[q[0]] then 0
    else 1 + Place(q[1..], prio, flag, t)
  }

  function Joining<T(==)>(q: seq<T>, prio: map<T, nat>, flag: Flag, t: T): seq<T>
    requires t in prio
  {
    Inserted(q, Place(q, prio, flag, t), t)
  }

  lemma {:induction false} PlaceIs<T>(q: seq<T>, prio: map<T, nat>, t: T)
    requires t in prio && Known(q, prio)
    ensures var k := Place(q, prio, Prio, t);
      (forall i :: 0 <= i < k ==> prio[q[i]] <= prio[t]) && (k < |q| ==> prio[t] < prio[q[k]])
  {
    if q != [] && prio[t] >= prio[q[0]] {
      PlaceIs(q[1..], prio, t);
    }
  }

  /** A list by priority stays sorted, and among equals the one who came first stays first. */
  lemma JoiningSorted<T>(q: seq<T>, prio: map<T, nat>, t: T)
    requires t in prio && Sorted(q, prio)
    ensures Sorted(Joining(q, prio, Prio, t), prio)
    ensures forall i :: 0 <= i < |q| && prio[q[i]] == prio[t] ==> i < Place(q, prio, Prio, t)
  {
    PlaceIs(q, prio, t);
  }

  /** The search of rt_ipc_list_suspend. */
  method FindPlace<T(==)>(q: seq<T>, prio: map<T, nat>, flag: Flag, t: T) returns (k: nat)
    requires t in prio && Known(q, prio)
    ensures k == Place(q, prio, flag, t)
  {
    if flag == Fifo {
      return |q|;
    }
    k := 0;
    while k < |q|
      invariant k <= |q| && Place(q, prio, flag, t) == k + Place(q[k..], prio, flag, t)
    {
      if prio[t] < prio[q[k]] {
        return;
      }
      assert q[k..][1..] == q[k + 1..];
      k := k + 1;
    }
  }
}
