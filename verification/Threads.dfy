/**
 Threads, their lists and the scheduler: src/thread.c, src/scheduler.c, src/clock.c and the
 suspend and resume helpers of src/ipc.c.

 Every thread has one list node, `tlist`, which is on a ready queue, on the wait list of a
 kernel object, on the list of defunct threads, or on none. Threads are numbered from 0;
 list h has the head node -1 - h. Lists below N are the ready queues by priority, list N
 is rt_thread_defunct, the others belong to kernel objects.
 */
module ThreadLists {
  import opened RtList

  function HeadOf(h: nat): int {
    -1 - h
  }

  predicate On(queues: map<nat, seq<int>>, h: nat, t: int) {
    h in queues && t in queues[h]
  }

  /** Every list is a ring of threads, no thread is on two, and one on none points to itself. */
  ghost predicate ListsOk(links: Links<int>, queues: map<nat, seq<int>>, threads: set<int>) {
    && (forall h: nat :: h in queues ==> Ring(links, HeadOf(h), queues[h]))
    && (forall h: nat, t: int :: On(queues, h, t) ==> t in threads)
    && (forall g: nat, h: nat, t: int :: On(queues, g, t) && On(queues, h, t) ==> g == h)
    && (forall t :: t in threads ==> t >= 0 && (Loose(queues, t) ==> Idle(links, t)))
  }

  ghost predicate Loose(queues: map<nat, seq<int>>, t: int) {
    forall h: nat :: !On(queues, h, t)
  }

  /** A list without thread t. */
  function Less(q: seq<int>, t: int): seq<int> {
    if q == [] then [] else if q[0] == t then q[1..] else [q[0]] + Less(q[1..], t)
  }

  lemma {:induction false} LessAt(q: seq<int>, t: int, k: nat)
    requires (forall i, j :: 0 <= i < j < |q| ==> q[i] != q[j]) && k < |q| && q[k] == t
    ensures Less(q, t) == Dropped(q, k)
  {
    if k > 0 {
      LessAt(q[1..], t, k - 1);
      assert [q[0]] + Dropped(q[1..], k - 1) == Dropped(q, k);
    }
  }

  lemma {:induction false} LessNone(q: seq<int>, t: int)
    requires t !in q
    ensures Less(q, t) == q
  {
    if q != [] {
      LessNone(q[1..], t);
      assert [q[0]] + q[1..] == q;
    }
  }

  lemma LessIs(q: seq<int>, t: int)
    requires forall i, j :: 0 <= i < j < |q| ==> q[i] != q[j]
    ensures t !in q ==> Less(q, t) == q
    ensures forall k :: 0 <= k < |q| && q[k] == t ==> Less(q, t) == Dropped(q, k)
    ensures forall x :: x in Less(q, t) <==> x in q && x != t
  {
    hide Less, Dropped;
    if t in q {
      var k :| 0 <= k < |q| && q[k] == t;
      LessAt(q, t, k);
      DroppedMembers(q, k);
    } else {
      LessNone(q, t);
    }
  }

  /** All lists without thread t. */
  function Off(queues: map<nat, seq<int>>, t: int): map<nat, seq<int>> {
    map h | h in queues :: Less(queues[h], t)
  }

  lemma RingOf(links: Links<int>, queues: map<nat, seq<int>>, threads: set<int>, h: nat)
    requires ListsOk(links, queues, threads) && h in queues
    ensures Ring(links, HeadOf(h), queues[h])
  {
  }

  /** Two lists have no node in common. */
  lemma NodesApart(links: Links<int>, queues: map<nat, seq<int>>, threads: set<int>, g: nat, h: nat, x: int)
    requires ListsOk(links, queues, threads) && g in queues && h in queues && g != h
    requires x == HeadOf(g) || x in queues[g]
    ensures x != HeadOf(h) && x !in queues[h]
  {
    hide Ring, Loose;
    assert x in queues[g] ==> On(queues, g, x);
    assert x in queues[h] ==> On(queues, h, x);
  }

  /** A ring stays if none of its nodes is written. */
  lemma OtherRing(links: Links<int>, links': Links<int>, queues: map<nat, seq<int>>, threads: set<int>, g: nat, h: nat,
                  a: int, b: int, c: int)
    requires ListsOk(links, queues, threads) && g in queues && h in queues && g != h
    requires (a == HeadOf(g) || a in queues[g]) && (b == HeadOf(g) || b in queues[g])
    requires c != HeadOf(h) && c !in queues[h]
    requires forall x :: Has(links, x) && x != a && x != b && x != c ==>
      Has(links', x) && links'.next[x] == links.next[x] && links'.prev[x] == links.prev[x]
    ensures Ring(links', HeadOf(h), queues[h])
  {
    hide Ring, Loose;
    NodesApart(links, queues, threads, g, h, a);
    NodesApart(links, queues, threads, g, h, b);
    RingOf(links, queues, threads, h);
    RingNodes(links, HeadOf(h), queues[h]);
    forall x | x == HeadOf(h) || x in queues[h]
      ensures Has(links', x) && links'.next[x] == links.next[x] && links'.prev[x] == links.prev[x] {
      assert Has(links, x);
    }
    RingFrame(links, links', HeadOf(h), queues[h]);
  }

  lemma RingNodes(m: Links<int>, h: int, s: seq<int>)
    requires Ring(m, h, s)
    ensures forall x :: x == h || x in s ==> Has(m, x)
  {
    assert JoinedAt(m, h, s, 0);
    forall x | x in s ensures Has(m, x) {
      var k :| 0 <= k < |s| && s[k] == x;
      assert JoinedAt(m, h, s, k);
    }
  }

  lemma RingNeighbours(m: Links<int>, h: int, s: seq<int>, k: nat)
    requires Ring(m, h, s) && k < |s|
    ensures Has(m, s[k]) && m.prev[s[k]] == Before(h, s, k) && m.next[s[k]] == After(h, s, k + 1)
  {
    assert JoinedAt(m, h, s, k) && JoinedAt(m, h, s, k + 1);
  }

  /** rt_list_remove on a thread that is on a list takes it off that list. */
  lemma TakenOff(links: Links<int>, queues: map<nat, seq<int>>, threads: set<int>, h: nat, t: int)
    requires ListsOk(links, queues, threads) && On(queues, h, t)
    ensures Has(links, t) && ListsOk(Unthreaded(links, t), Off(queues, t), threads)
    ensures Off(queues, t) == queues[h := Less(queues[h], t)] && Loose(Off(queues, t), t)
  {
    hide Ring, Idle, Less;
    var q := queues[h];
    var k :| 0 <= k < |q| && q[k] == t;
    RingOf(links, queues, threads, h);
    RingNeighbours(links, HeadOf(h), q, k);
    RingUnthreaded(links, HeadOf(h), q, k);
    RingApart(links, HeadOf(h), q);
    LessIs(q, t);
    var links', queues' := Unthreaded(links, t), Off(queues, t);
    forall g: nat | g in queues && g != h
      ensures queues'[g] == queues[g] && Ring(links', HeadOf(g), queues[g])
    {
      NotOther(links, queues, threads, h, g, t);
      RingOf(links, queues, threads, g);
      RingApart(links, HeadOf(g), queues[g]);
      LessIs(queues[g], t);
      OtherRing(links, links', queues, threads, h, g, links.prev[t], links.next[t], t);
    }
    OffLists(links, links', queues, threads, h, t);
  }

  lemma NotOther(links: Links<int>, queues: map<nat, seq<int>>, threads: set<int>, h: nat, g: nat, t: int)
    requires ListsOk(links, queues, threads) && On(queues, h, t) && g in queues && g != h
    ensures t !in queues[g] && t >= 0
  {
    hide Ring, Idle;
    assert t in queues[g] ==> On(queues, g, t);
  }

  lemma RingApart(m: Links<int>, h: int, s: seq<int>)
    requires Ring(m, h, s)
    ensures forall i, j :: 0 <= i < j < |s| ==> s[i] != s[j]
  {
  }

  lemma OffLists(links: Links<int>, links': Links<int>, queues: map<nat, seq<int>>, threads: set<int>, h: nat, t: int)
    requires ListsOk(links, queues, threads) && On(queues, h, t) && Has(links, t) && links' == Unthreaded(links, t)
    requires (forall g: nat :: g in queues && g != h ==>
      Off(queues, t)[g] == queues[g] && Ring(links', HeadOf(g), queues[g]))
    requires Ring(links', HeadOf(h), Less(queues[h], t)) && Idle(links', t)
    requires forall x :: x in Less(queues[h], t) <==> x in queues[h] && x != t
    ensures ListsOk(links', Off(queues, t), threads) && Loose(Off(queues, t), t)
    ensures Off(queues, t) == queues[h := Less(queues[h], t)]
  {
    hide Ring, Less;
    var queues' := Off(queues, t);
    assert queues' == queues[h := Less(queues[h], t)];
    forall g: nat, x: int ensures On(queues', g, x) <==> On(queues, g, x) && x != t {
      if On(queues, g, t) {
        assert g == h;
      }
    }
    forall x | x in threads && Loose(queues', x) ensures Idle(links', x) {
      if x != t {
        forall g: nat ensures !On(queues, g, x) {
          assert !On(queues', g, x);
        }
        LooseApart(links, queues, threads, h, t, x);
      }
    }
  }

  /** A loose thread is no neighbour of one on a list. */
  lemma LooseApart(links: Links<int>, queues: map<nat, seq<int>>, threads: set<int>, h: nat, t: int, x: int)
    requires ListsOk(links, queues, threads) && On(queues, h, t) && x in threads && Loose(queues, x)
    ensures Has(links, t) && Idle(links, x) && x != links.prev[t] && x != links.next[t] && x != t
  {
    hide Ring;
    var q := queues[h];
    var k :| 0 <= k < |q| && q[k] == t;
    RingOf(links, queues, threads, h);
    RingNeighbours(links, HeadOf(h), q, k);
    assert !On(queues, h, x);
  }

  /** rt_list_remove on a loose thread changes nothing. */
  lemma LooseOff(links: Links<int>, queues: map<nat, seq<int>>, threads: set<int>, t: int)
    requires ListsOk(links, queues, threads) && t in threads && Loose(queues, t)
    ensures Has(links, t) && Unthreaded(links, t) == links && Off(queues, t) == queues
  {
    hide Ring, Less;
    IdleUnthreaded(links, t);
    forall h: nat | h in queues ensures Less(queues[h], t) == queues[h] {
      assert !On(queues, h, t);
      RingOf(links, queues, threads, h);
      RingApart(links, HeadOf(h), queues[h]);
      LessIs(queues[h], t);
    }
  }

  /** A loose thread is threaded in at position k of list h. */
  lemma PutOn(links: Links<int>, queues: map<nat, seq<int>>, threads: set<int>, h: nat, k: nat, t: int)
    requires ListsOk(links, queues, threads) && h in queues && k <= |queues[h]| && t in threads && Loose(queues, t)
    ensures ListsOk(Threaded(links, Before(HeadOf(h), queues[h], k), t, After(HeadOf(h), queues[h], k)),
                    queues[h := Inserted(queues[h], k, t)], threads)
  {
    hide Ring, Idle;
    var q := queues[h];
    assert !On(queues, h, t);
    RingOf(links, queues, threads, h);
    RingThreaded(links, HeadOf(h), q, k, t);
    InsertedMembers(q, k, t);
    var l, r := Before(HeadOf(h), q, k), After(HeadOf(h), q, k);
    var links', queues' := Threaded(links, l, t, r), queues[h := Inserted(q, k, t)];
    forall g: nat | g in queues && g != h ensures Ring(links', HeadOf(g), queues[g]) {
      assert !On(queues, g, t);
      OtherRing(links, links', queues, threads, h, g, l, r, t);
    }
    OnLists(links, links', queues, threads, h, k, t);
  }

  lemma OnLists(links: Links<int>, links': Links<int>, queues: map<nat, seq<int>>, threads: set<int>, h: nat, k: nat,
      t: int)
    requires ListsOk(links, queues, threads) && h in queues && k <= |queues[h]| && t in threads && Loose(queues, t)
    requires links' == Threaded(links, Before(HeadOf(h), queues[h], k), t, After(HeadOf(h), queues[h], k))
    requires (forall g: nat :: g in queues && g != h ==> Ring(links', HeadOf(g), queues[g]))
    requires Ring(links', HeadOf(h), Inserted(queues[h], k, t))
    requires forall x :: x in Inserted(queues[h], k, t) <==> x in queues[h] || x == t
    ensures ListsOk(links', queues[h := Inserted(queues[h], k, t)], threads)
  {
    hide Ring, Inserted;
    var queues' := queues[h := Inserted(queues[h], k, t)];
    forall g: nat, x: int ensures On(queues', g, x) <==> On(queues, g, x) || (g == h && x == t) {
    }
    forall x | x in threads && Loose(queues', x) ensures Idle(links', x) {
      assert !On(queues', h, x);
      forall g: nat ensures !On(queues, g, x) {
        assert !On(queues', g, x);
      }
      var q := queues[h];
      assert forall i :: 0 <= i < |q| ==> q[i] in q;
    }
  }
}

module KernelState {
  import opened RtList
  import opened ThreadLists
  import opened ReadyIndex

  /** RT_THREAD_INIT, _READY, _SUSPEND, _CLOSE */
  datatype Stat = Init | Ready | Suspended | Closed

  datatype Err = EOK | EERROR | ETIMEOUT

  /** How a thread comes out of a wait. */
  datatype Why = Resumed | Flushed | TimedOut

  /** A thread starts to wait (having reset its error code or not), is woken, or is deleted while waiting. */
  datatype Event = Blocks(t: int, clean: bool) | Wakes(t: int, why: Why, err: Err) | Ends(t: int)

  datatype Kernel = Kernel(links: Links<int>, queues: map<nat, seq<int>>, stat: map<int, Stat>, prio: map<int, nat>,
                           error: map<int, Err>, armed: set<int>, index: Index, log: seq<Event>)

  // ----- waits in the log -----

  /** Thread t waits at the end of the log. */
  predicate Waiting(log: seq<Event>, t: int) {
    if log == [] then false
    else if log[|log| - 1].t == t then log[|log| - 1].Blocks?
    else Waiting(log[..|log| - 1], t)
  }

  /** It does so with a reset error code. */
  predicate Clean(log: seq<Event>, t: int) {
    if log == [] then false
    else if log[|log| - 1].t == t then log[|log| - 1].Blocks? && log[|log| - 1].clean
    else Clean(log[..|log| - 1], t)
  }

  function CodeOf(why: Why): Err {
    match why
    case Resumed => EOK
    case Flushed => EERROR
    case TimedOut => ETIMEOUT
  }

  /** Waits begin only outside of waits and end only inside, once; how a clean one ended is
      what the error code says. */
  predicate Alternates(log: seq<Event>) {
    log == [] || (
      var old', e := log[..|log| - 1], log[|log| - 1];
      && Alternates(old')
      && (e.Blocks? <==> !Waiting(old', e.t))
      && (e.Wakes? && Clean(old', e.t) ==> e.err == CodeOf(e.why)))
  }

  lemma Logged(log: seq<Event>, e: Event)
    ensures (log + [e])[..|log|] == log
    ensures Waiting(log + [e], e.t) == e.Blocks? && Clean(log + [e], e.t) == (e.Blocks? && e.clean)
    ensures forall t :: t != e.t ==> Waiting(log + [e], t) == Waiting(log, t) && Clean(log + [e], t) == Clean(log, t)
  {
    assert (log + [e])[..|log|] == log;
  }

  lemma {:induction false} AlternatesPrefix(log: seq<Event>, j: nat)
    requires Alternates(log) && j <= |log|
    ensures Alternates(log[..j])
    decreases |log|
  {
    if j == |log| {
      assert log[..j] == log;
    } else {
      AlternatesPrefix(log[..|log| - 1], j);
      assert log[..|log| - 1][..j] == log[..j];
    }
  }

  lemma {:induction false} WaitingSince(log: seq<Event>, i: nat)
    requires i < |log| && forall m :: i < m < |log| ==> log[m].t != log[i].t
    ensures Waiting(log, log[i].t) == log[i].Blocks? && Clean(log, log[i].t) == (log[i].Blocks? && log[i].clean)
    decreases |log|
  {
    if i < |log| - 1 {
      var l := log[..|log| - 1];
      assert l[i] == log[i] && forall m :: i < m < |l| ==> l[m] == log[m];
      WaitingSince(l, i);
    }
  }

  /** Every wait that ends, ends once: the next that the log says of a thread that began to
      wait is how it was woken or that it was deleted; and what woke it is what its error code
      says. */
  lemma WaitEndsOnce(log: seq<Event>, i: nat, j: nat)
    requires Alternates(log) && i < j < |log| && log[i].t == log[j].t
    requires forall m :: i < m < j ==> log[m].t != log[i].t
    ensures log[i].Blocks? <==> !log[j].Blocks?
    ensures log[i].Blocks? && log[i].clean && log[j].Wakes? ==> log[j].err == CodeOf(log[j].why)
  {
    AlternatesPrefix(log, j + 1);
    assert log[..j + 1][..j] == log[..j];
    assert forall m :: 0 <= m < j ==> log[..j][m] == log[m];
    WaitingSince(log[..j], i);
  }

  // ----- the invariant -----

  /** What list h is for, by the state of the threads on it. */
  predicate Fits(k: Kernel, N: nat, h: nat, t: int) {
    t in k.stat && t in k.prio &&
    if h < N then k.stat[t] == Ready && k.prio[t] == h
    else if h == N then k.stat[t] == Closed
    else k.stat[t] == Suspended
  }

  /** The threads but those in `moving` are where their state says; a started thread timer
      means a suspended thread. */
  ghost predicate PlacesOk(k: Kernel, N: nat, moving: set<int>) {
    && k.stat.Keys == k.prio.Keys == k.error.Keys
    && (forall h: nat :: h <= N ==> h in k.queues)
    && (forall h: nat, t: int :: On(k.queues, h, t) ==> Fits(k, N, h, t))
    && (forall t :: t in k.stat && t !in moving && k.stat[t] == Ready ==> On(k.queues, k.prio[t], t))
    && (forall t :: t in moving ==> t in k.stat && Loose(k.queues, t))
    && (forall t :: t in k.prio ==> k.prio[t] < N)
    && (forall t :: t in k.armed ==> t in k.stat && k.stat[t] == Suspended)
  }

  /** A priority is marked if and only if its queue is not empty. */
  ghost predicate IndexAgrees(k: Kernel, N: nat) {
    && ReadyIndex.Ok(k.index) && N <= Limit(k.index)
    && (forall p: nat :: Marked(k.index, p) <==> p < N && p in k.queues && k.queues[p] != [])
  }

  ghost predicate LogOk(k: Kernel, moving: set<int>) {
    && Alternates(k.log)
    && (forall t :: t !in moving ==> (Waiting(k.log, t) <==> t in k.stat && k.stat[t] == Suspended))
    && (forall t :: t in k.error && t !in moving && Clean(k.log, t) ==> k.error[t] == EOK)
  }

  ghost predicate Almost(k: Kernel, N: nat, moving: set<int>) {
    && ListsOk(k.links, k.queues, k.stat.Keys) && PlacesOk(k, N, moving) && IndexAgrees(k, N) && LogOk(k, moving)
  }

  ghost predicate Ok(k: Kernel, N: nat) {
    Almost(k, N, {})
  }

  // ----- the moves -----

  /** rt_schedule_insert_thread */
  function PutReady(k: Kernel, t: int): Kernel
    requires t in k.prio && k.prio[t] in k.queues && ReadyIndex.Ok(k.index) && k.prio[t] < Limit(k.index)
  {
    var p: nat := k.prio[t];
    var q := k.queues[p];
    k.(stat := k.stat[t := Ready], links := Threaded(k.links, Before(HeadOf(p), q, |q|), t, HeadOf(p)),
       queues := k.queues[p := q + [t]], index := Insert(k.index, p))
  }

  lemma PutReadyKeeps(k: Kernel, N: nat, t: int)
    requires Almost(k, N, {t}) && t !in k.armed && !Waiting(k.log, t) && !Clean(k.log, t)
    ensures t in k.stat && t in k.prio && k.prio[t] in k.queues && ReadyIndex.Ok(k.index)
      && k.prio[t] < N <= Limit(k.index)
    ensures Has(k.links, HeadOf(k.prio[t]))
      && k.links.prev[HeadOf(k.prio[t])] == Before(HeadOf(k.prio[t]), k.queues[k.prio[t]], |k.queues[k.prio[t]]|)
    ensures HeadOf(k.prio[t]) != t && k.links.prev[HeadOf(k.prio[t])] != t
    ensures Ok(PutReady(k, t), N)
  {
    hide Ring, Idle, Alternates, Waiting, Clean, Marked, ReadyIndex.Ok, Insert;
    var p: nat := k.prio[t];
    var q := k.queues[p];
    var threads := k.stat.Keys;
    assert Loose(k.queues, t) && !On(k.queues, p, t);
    RingOf(k.links, k.queues, threads, p);
    RingEnds(k.links, HeadOf(p), q);
    PutOn(k.links, k.queues, threads, p, |q|, t);
    assert Inserted(q, |q|, t) == q + [t];
    InsertMarks(k.index, p);
    var k' := PutReady(k, t);
    assert k'.stat.Keys == threads;
    ReadyPlaces(k, N, t);
  }

  lemma RingEnds(m: Links<int>, h: int, s: seq<int>)
    requires Ring(m, h, s)
    ensures Has(m, h) && m.prev[h] == Before(h, s, |s|) && m.next[h] == After(h, s, 0)
  {
    assert JoinedAt(m, h, s, 0) && JoinedAt(m, h, s, |s|);
  }

  lemma ReadyPlaces(k: Kernel, N: nat, t: int)
    requires PlacesOk(k, N, {t}) && t !in k.armed && k.prio[t] in k.queues && ReadyIndex.Ok(k.index)
      && k.prio[t] < Limit(k.index)
    ensures PlacesOk(PutReady(k, t), N, {})
  {
    hide ReadyIndex.Ok, Insert;
    var k' := PutReady(k, t);
    var p: nat := k.prio[t];
    forall h: nat, x: int ensures On(k'.queues, h, x) <==> On(k.queues, h, x) || (h == p && x == t) {
    }
    forall h: nat, x: int | On(k'.queues, h, x) ensures Fits(k', N, h, x) {
      if x != t {
        assert Fits(k, N, h, x);
      } else {
        assert !On(k.queues, h, t);
      }
    }
    forall x | x in k'.stat && k'.stat[x] == Ready ensures On(k'.queues, k'.prio[x], x) {
      if x != t {
        assert On(k.queues, k.prio[x], x);
      }
    }
  }

  /** rt_list_remove on the node of a thread, wherever it is */
  function Removed(k: Kernel, t: int): Kernel
    requires Has(k.links, t)
  {
    k.(links := Unthreaded(k.links, t), queues := Off(k.queues, t))
  }

  /** The first region of rt_thread_resume: off the list, the timer stopped. */
  function Unlinked(k: Kernel, t: int): Kernel
    requires Has(k.links, t)
  {
    Removed(k, t).(armed := k.armed - {t})
  }

  /** rt_schedule_remove_thread */
  function TakeOff(k: Kernel, t: int): Kernel
    requires Has(k.links, t) && t in k.prio && k.prio[t] in k.queues && ReadyIndex.Ok(k.index)
      && k.prio[t] < Limit(k.index)
  {
    var k1 := Removed(k, t);
    k1.(index := if k1.queues[k.prio[t]] == [] then Clear(k.index, k.prio[t]) else k.index)
  }

  lemma RemovedLists(k: Kernel, N: nat, moving: set<int>, t: int)
    requires Almost(k, N, moving) && t in k.stat
    ensures Has(k.links, t) && ListsOk(Removed(k, t).links, Removed(k, t).queues, k.stat.Keys)
    ensures Loose(Off(k.queues, t), t)
    ensures forall h: nat, x: int :: On(Off(k.queues, t), h, x) <==> On(k.queues, h, x) && x != t
    ensures forall h: nat :: h in k.queues && !On(k.queues, h, t) ==> Off(k.queues, t)[h] == k.queues[h]
  {
    hide Ring, Idle, PlacesOk, IndexAgrees, LogOk, Less;
    if h: nat :| On(k.queues, h, t) {
      TakenOff(k.links, k.queues, k.stat.Keys, h, t);
    } else {
      LooseOff(k.links, k.queues, k.stat.Keys, t);
    }
    forall h: nat | h in k.queues
      ensures forall x: int :: On(Off(k.queues, t), h, x) <==> On(k.queues, h, x) && x != t
      ensures !On(k.queues, h, t) ==> Off(k.queues, t)[h] == k.queues[h]
    {
      RingOf(k.links, k.queues, k.stat.Keys, h);
      RingApart(k.links, HeadOf(h), k.queues[h]);
      LessIs(k.queues[h], t);
    }
  }

  /** A thread leaves its list; with rt_schedule_remove_thread the bitmap follows. */
  lemma TakeOffKeeps(k: Kernel, N: nat, t: int)
    requires Ok(k, N) && t in k.stat
    ensures Has(k.links, t) && t in k.prio && k.prio[t] in k.queues && ReadyIndex.Ok(k.index)
      && k.prio[t] < N <= Limit(k.index)
    ensures Has(Unthreaded(k.links, t), HeadOf(k.prio[t]))
    ensures IsEmpty(Unthreaded(k.links, t), HeadOf(k.prio[t])) <==> Off(k.queues, t)[k.prio[t]] == []
    ensures Almost(TakeOff(k, t), N, {t})
    ensures k.stat[t] != Ready ==> Almost(Removed(k, t), N, {t})
  {
    hide Ring, Idle, Alternates, Waiting, Clean, Marked, ReadyIndex.Ok, Clear, Less;
    RemovedLists(k, N, {}, t);
    var p: nat := k.prio[t];
    var k1 := Removed(k, t);
    RingOf(k1.links, k1.queues, k.stat.Keys, p);
    EmptyRing(k1.links, HeadOf(p), k1.queues[p]);
    ClearUnmarks(k.index, p);
    OffPlaces(k, N, t);
    OffIndex(k, N, t);
  }

  lemma OffPlaces(k: Kernel, N: nat, t: int)
    requires PlacesOk(k, N, {}) && Has(k.links, t) && t in k.stat && Loose(Off(k.queues, t), t)
    requires forall h: nat, x: int :: On(Off(k.queues, t), h, x) <==> On(k.queues, h, x) && x != t
    ensures PlacesOk(Removed(k, t), N, {t})
  {
    hide Less;
    var k1 := Removed(k, t);
    forall h: nat, x: int | On(k1.queues, h, x) ensures Fits(k1, N, h, x) {
      assert Fits(k, N, h, x);
    }
  }

  lemma OffIndex(k: Kernel, N: nat, t: int)
    requires Ok(k, N) && t in k.stat && Has(k.links, t)
    requires t in k.prio && k.prio[t] in k.queues && ReadyIndex.Ok(k.index) && k.prio[t] < N <= Limit(k.index)
    requires forall h: nat, x: int :: On(Off(k.queues, t), h, x) <==> On(k.queues, h, x) && x != t
    requires forall h: nat :: h in k.queues && !On(k.queues, h, t) ==> Off(k.queues, t)[h] == k.queues[h]
    requires ReadyIndex.Ok(Clear(k.index, k.prio[t])) && Limit(Clear(k.index, k.prio[t])) == Limit(k.index)
    requires forall q: nat :: Marked(Clear(k.index, k.prio[t]), q) <==> Marked(k.index, q) && q != k.prio[t]
    ensures IndexAgrees(TakeOff(k, t), N)
    ensures k.stat[t] != Ready ==> IndexAgrees(Removed(k, t), N)
  {
    hide ListsOk, LogOk, Marked, ReadyIndex.Ok, Clear, Less;
    var p: nat := k.prio[t];
    var queues' := Off(k.queues, t);
    forall q: nat | q < N && q != p ensures queues'[q] == k.queues[q] {
      assert !On(k.queues, q, t) by {
        assert On(k.queues, q, t) ==> Fits(k, N, q, t);
      }
    }
    if k.stat[t] != Ready {
      assert !On(k.queues, p, t) by {
        assert On(k.queues, p, t) ==> Fits(k, N, p, t);
      }
    }
    if queues'[p] != [] {
      assert On(queues', p, queues'[p][0]);
      assert k.queues[p] != [];
    }
  }

  // ----- what the operations keep -----

  function Suspending(k: Kernel, t: int, clean: bool): Kernel
    requires Has(k.links, t) && t in k.prio && k.prio[t] in k.queues && ReadyIndex.Ok(k.index)
      && k.prio[t] < Limit(k.index)
  {
    TakeOff(k, t).(stat := k.stat[t := Suspended], armed := k.armed - {t}, log := k.log + [Blocks(t, clean)])
  }

  lemma SuspendingKeeps(k: Kernel, N: nat, t: int, clean: bool)
    requires Ok(k, N) && t in k.stat && k.stat[t] != Suspended && t in k.error && (clean ==> k.error[t] == EOK)
    ensures Has(k.links, t) && t in k.prio && k.prio[t] in k.queues && ReadyIndex.Ok(k.index)
      && k.prio[t] < Limit(k.index)
    ensures Ok(Suspending(k, t, clean), N) && Loose(Suspending(k, t, clean).queues, t)
  {
    hide ListsOk, IndexAgrees, Alternates, Waiting, Clean, ReadyIndex.Ok, Clear, Off;
    TakeOffKeeps(k, N, t);
    var k1 := TakeOff(k, t);
    var k' := Suspending(k, t, clean);
    assert k'.stat.Keys == k1.stat.Keys;
    Logged(k.log, Blocks(t, clean));
    AlternatesMore(k.log, Blocks(t, clean));
    SettledPlaces(k1, k', N, t);
    SameIndex(k1, k', N);
  }

  lemma AlternatesMore(log: seq<Event>, e: Event)
    requires Alternates(log) && (e.Blocks? <==> !Waiting(log, e.t))
    requires e.Wakes? && Clean(log, e.t) ==> e.err == CodeOf(e.why)
    ensures Alternates(log + [e])
  {
    assert (log + [e])[..|log|] == log;
  }

  lemma SameIndex(k: Kernel, k': Kernel, N: nat)
    requires IndexAgrees(k, N) && k'.index == k.index && k'.queues == k.queues
    ensures IndexAgrees(k', N)
  {
  }

  /** A thread that is on no list gets a state that belongs there. */
  lemma SettledPlaces(k: Kernel, k': Kernel, N: nat, t: int)
    requires PlacesOk(k, N, {t}) && t in k'.stat && k'.stat[t] != Ready
    requires k' == k.(stat := k.stat[t := k'.stat[t]], armed := k'.armed, log := k'.log, error := k'.error)
    requires k'.armed == k.armed - {t} && k'.error.Keys == k.error.Keys
    ensures PlacesOk(k', N, {})
  {
    assert k'.stat.Keys == k.stat.Keys;
    forall h: nat, x: int | On(k'.queues, h, x) ensures Fits(k', N, h, x) {
      assert Fits(k, N, h, x) && x != t;
    }
  }

  /** A waiting thread has been taken off its list, its timer is stopped, its error code set. */
  function Waking(k: Kernel, t: int, why: Why, err: Err): Kernel
    requires Has(k.links, t)
  {
    Removed(k, t).(armed := k.armed - {t}, error := k.error[t := err], log := k.log + [Wakes(t, why, err)])
  }

  lemma WakingKeeps(k: Kernel, N: nat, t: int, why: Why, err: Err)
    requires Ok(k, N) && t in k.stat && k.stat[t] == Suspended && t in k.error
    requires err == if why == Resumed then k.error[t] else CodeOf(why)
    ensures Has(k.links, t) && Almost(Waking(k, t, why, err), N, {t})
    ensures !Waiting(Waking(k, t, why, err).log, t) && !Clean(Waking(k, t, why, err).log, t)
  {
    hide ListsOk, IndexAgrees, Alternates, Waiting, Clean, ReadyIndex.Ok, Clear, Off;
    TakeOffKeeps(k, N, t);
    var k1, k' := Removed(k, t), Waking(k, t, why, err);
    Logged(k.log, Wakes(t, why, err));
    AlternatesMore(k.log, Wakes(t, why, err));
    assert k'.error.Keys == k.error.Keys;
    SameIndex(k1, k', N);
    MovingPlaces(k1, k', N, t);
  }

  lemma MovingPlaces(k: Kernel, k': Kernel, N: nat, t: int)
    requires PlacesOk(k, N, {t}) && k' == k.(armed := k'.armed, log := k'.log, error := k'.error)
    requires k'.armed <= k.armed && k'.error.Keys == k.error.Keys
    ensures PlacesOk(k', N, {t})
  {
    forall h: nat, x: int | On(k'.queues, h, x) ensures Fits(k', N, h, x) {
      assert Fits(k, N, h, x);
    }
  }

  /** A thread becomes ready again. */
  function Woken(k: Kernel, t: int, why: Why, err: Err): Kernel
    requires Has(k.links, t) && t in k.prio && k.prio[t] in k.queues && ReadyIndex.Ok(k.index)
      && k.prio[t] < Limit(k.index)
  {
    PutReady(Waking(k, t, why, err), t)
  }

  /** A suspended thread goes to place `at` of a wait list, or a closed one to the defunct ones. */
  function PutWaiting(k: Kernel, h: nat, at: nat, t: int): Kernel
    requires h in k.queues && at <= |k.queues[h]|
  {
    var q := k.queues[h];
    k.(links := Threaded(k.links, Before(HeadOf(h), q, at), t, After(HeadOf(h), q, at)),
       queues := k.queues[h := Inserted(q, at, t)])
  }

  lemma PutWaitingKeeps(k: Kernel, N: nat, h: nat, at: nat, t: int)
    requires Ok(k, N) && h >= N && h in k.queues && at <= |k.queues[h]| && t in k.stat && Loose(k.queues, t)
    requires k.stat[t] == if h == N then Closed else Suspended
    ensures Ok(PutWaiting(k, h, at, t), N)
    ensures Has(k.links, After(HeadOf(h), k.queues[h], at)) && After(HeadOf(h), k.queues[h], at) != t
    ensures var r := After(HeadOf(h), k.queues[h], at);
      k.links.prev[r] == Before(HeadOf(h), k.queues[h], at) && k.links.prev[r] != t
  {
    hide Ring, Idle, LogOk, Marked, ReadyIndex.Ok, Inserted;
    var q := k.queues[h];
    PutOn(k.links, k.queues, k.stat.Keys, h, at, t);
    InsertedMembers(q, at, t);
    RingOf(k.links, k.queues, k.stat.Keys, h);
    RingPlace(k.links, HeadOf(h), q, at);
    assert !On(k.queues, h, t);
    var k' := PutWaiting(k, h, at, t);
    forall g: nat, x: int ensures On(k'.queues, g, x) <==> On(k.queues, g, x) || (g == h && x == t) {
    }
    forall g: nat, x: int | On(k'.queues, g, x) ensures Fits(k', N, g, x) {
      assert x != t ==> Fits(k, N, g, x);
    }
    SameLog(k, k');
  }

  lemma SameLog(k: Kernel, k': Kernel)
    requires LogOk(k, {}) && k'.log == k.log && k'.stat == k.stat && k'.error == k.error
    ensures LogOk(k', {})
  {
    hide Alternates, Waiting, Clean;
  }

  lemma RingPlace(m: Links<int>, h: int, s: seq<int>, k: nat)
    requires Ring(m, h, s) && k <= |s|
    ensures Has(m, After(h, s, k)) && m.prev[After(h, s, k)] == Before(h, s, k)
    ensures forall x :: x !in s && x != h ==> After(h, s, k) != x && Before(h, s, k) != x
  {
    assert JoinedAt(m, h, s, k);
  }

  /** Starting the timer of a suspended thread. */
  lemma ArmKeeps(k: Kernel, N: nat, t: int)
    requires Ok(k, N) && t in k.stat && k.stat[t] == Suspended
    ensures Ok(k.(armed := k.armed + {t}), N)
  {
    hide ListsOk, IndexAgrees, LogOk, Fits;
    var k' := k.(armed := k.armed + {t});
    SameLog(k, k');
    SameIndex(k, k', N);
    forall h: nat, x: int | On(k'.queues, h, x) ensures Fits(k', N, h, x) {
      FitsSame(k, k', N, h, x);
    }
  }

  lemma FitsSame(k: Kernel, k': Kernel, N: nat, h: nat, x: int)
    requires Fits(k, N, h, x) && k'.stat == k.stat && k'.prio == k.prio
    ensures Fits(k', N, h, x)
  {
  }

  /** A ready thread resets its error code, or any thread has another priority while it is not ready. */
  lemma ResetKeeps(k: Kernel, N: nat, t: int, err: Err)
    requires Ok(k, N) && t in k.stat && k.stat[t] != Suspended
    ensures Ok(k.(error := k.error[t := err]), N)
  {
    hide ListsOk, IndexAgrees, Fits, Alternates, Waiting, Clean;
    var k' := k.(error := k.error[t := err]);
    assert k'.error.Keys == k.error.Keys;
    SameIndex(k, k', N);
    forall h: nat, x: int | On(k'.queues, h, x) ensures Fits(k', N, h, x) {
      FitsSame(k, k', N, h, x);
    }
    forall x | x in k'.error && Clean(k'.log, x) ensures k'.error[x] == EOK {
      if x == t {
        CleanWaits(k.log, t);
      }
    }
  }

  lemma {:induction false} CleanWaits(log: seq<Event>, t: int)
    ensures Clean(log, t) ==> Waiting(log, t)
    decreases |log|
  {
    if log != [] {
      CleanWaits(log[..|log| - 1], t);
    }
  }

  lemma PrioKeeps(k: Kernel, N: nat, moving: set<int>, t: int, p: nat)
    requires Almost(k, N, moving) && t in k.stat && p < N && (k.stat[t] == Ready ==> t in moving)
    ensures Almost(k.(prio := k.prio[t := p]), N, moving)
  {
    hide ListsOk, IndexAgrees, LogOk;
    var k' := k.(prio := k.prio[t := p]);
    assert k'.prio.Keys == k.prio.Keys;
    forall h: nat, x: int | On(k'.queues, h, x) ensures Fits(k', N, h, x) {
      assert Fits(k, N, h, x);
    }
    forall x | x in k'.stat && x !in moving && k'.stat[x] == Ready ensures On(k'.queues, k'.prio[x], x) {
      assert On(k.queues, k.prio[x], x);
    }
    MovedIndex(k, k', N, moving);
  }

  lemma MovedIndex(k: Kernel, k': Kernel, N: nat, moving: set<int>)
    requires IndexAgrees(k, N) && LogOk(k, moving) && k'.index == k.index && k'.queues == k.queues
    requires k'.log == k.log && k'.stat == k.stat && k'.error == k.error
    ensures IndexAgrees(k', N) && LogOk(k', moving)
  {
    hide Alternates, Waiting, Clean, Marked, ReadyIndex.Ok;
  }

  /** A thread is closed; a wait it was in ends with it. */
  function Closing(k: Kernel, t: int): Kernel
    requires Has(k.links, t) && t in k.prio && k.prio[t] in k.queues && ReadyIndex.Ok(k.index)
      && k.prio[t] < Limit(k.index)
    requires t in k.stat
  {
    (if k.stat[t] == Init then k else TakeOff(k, t))
      .(stat := k.stat[t := Closed], armed := k.armed - {t}, log := if k.stat[t] == Suspended then k.log + [Ends(t)]
        else k.log)
  }

  lemma ClosingKeeps(k: Kernel, N: nat, t: int)
    requires Ok(k, N) && t in k.stat && k.stat[t] != Closed
    ensures Has(k.links, t) && t in k.prio && k.prio[t] in k.queues && ReadyIndex.Ok(k.index)
      && k.prio[t] < Limit(k.index)
    ensures Ok(Closing(k, t), N) && Loose(Closing(k, t).queues, t)
  {
    hide ListsOk, IndexAgrees, Alternates, Waiting, Clean, ReadyIndex.Ok, Clear, Off, Fits;
    TakeOffKeeps(k, N, t);
    var k' := Closing(k, t);
    assert k'.stat.Keys == k.stat.Keys;
    Logged(k.log, Ends(t));
    CleanWaits(k.log, t);
    if k.stat[t] == Suspended {
      AlternatesMore(k.log, Ends(t));
    }
    if k.stat[t] == Init {
      InitLoose(k, N, t);
      SettledPlaces(k, k', N, t);
      SameIndex(k, k', N);
    } else {
      SettledPlaces(TakeOff(k, t), k', N, t);
      SameIndex(TakeOff(k, t), k', N);
    }
  }

  /** A thread that has not been started is on no list. */
  lemma InitLoose(k: Kernel, N: nat, t: int)
    requires PlacesOk(k, N, {}) && t in k.stat && k.stat[t] == Init
    ensures Loose(k.queues, t) && PlacesOk(k, N, {t})
  {
    forall h: nat ensures !On(k.queues, h, t) {
      assert On(k.queues, h, t) ==> Fits(k, N, h, t);
    }
  }

  /** rt_thread_startup up to the resume. */
  function Starting(k: Kernel, t: int, p: nat): Kernel {
    k.(prio := k.prio[t := p], stat := k.stat[t := Suspended], log := k.log + [Blocks(t, false)])
  }

  lemma StartingKeeps(k: Kernel, N: nat, t: int, p: nat)
    requires Ok(k, N) && t in k.stat && k.stat[t] == Init && p < N
    ensures Ok(Starting(k, t, p), N)
  {
    hide ListsOk, IndexAgrees, Alternates, Waiting, Clean, ReadyIndex.Ok;
    PrioKeeps(k, N, {}, t, p);
    var k1, k' := k.(prio := k.prio[t := p]), Starting(k, t, p);
    InitLoose(k1, N, t);
    assert k'.stat.Keys == k.stat.Keys && k1.armed - {t} == k1.armed by {
      assert t !in k1.armed;
    }
    Logged(k.log, Blocks(t, false));
    AlternatesMore(k.log, Blocks(t, false));
    SettledPlaces(k1, k', N, t);
    SameIndex(k1, k', N);
  }

  /** The current thread goes to the end of its ready queue. */
  function Yielded(k: Kernel, t: int): Kernel
    requires Has(k.links, t) && t in k.prio && k.prio[t] in k.queues
  {
    var p: nat := k.prio[t];
    var q := Less(k.queues[p], t);
    k.(links := Threaded(Unthreaded(k.links, t), Before(HeadOf(p), q, |q|), t, HeadOf(p)),
      queues := k.queues[p := q + [t]])
  }

  lemma YieldedKeeps(k: Kernel, N: nat, t: int)
    requires Ok(k, N) && t in k.stat && k.stat[t] == Ready
    ensures Has(k.links, t) && t in k.prio && k.prio[t] in k.queues && t in k.queues[k.prio[t]]
    ensures k.links.next[t] != k.links.prev[t] <==> |k.queues[k.prio[t]]| > 1
    ensures Ok(Yielded(k, t), N)
    ensures var l, p := Unthreaded(k.links, t), k.prio[t];
      Has(l, HeadOf(p)) && HeadOf(p) != t && l.prev[HeadOf(p)] != t
      && l.prev[HeadOf(p)] == Before(HeadOf(p), Less(k.queues[p], t), |Less(k.queues[p], t)|)
  {
    hide Ring, Idle, LogOk, Marked, ReadyIndex.Ok, Less;
    var p: nat := k.prio[t];
    assert On(k.queues, p, t);
    TakenOff(k.links, k.queues, k.stat.Keys, p, t);
    var links', queues' := Unthreaded(k.links, t), Off(k.queues, t);
    var q := queues'[p];
    RingOf(links', queues', k.stat.Keys, p);
    RingEnds(links', HeadOf(p), q);
    assert !On(queues', p, t);
    PutOn(links', queues', k.stat.Keys, p, |q|, t);
    assert Inserted(q, |q|, t) == q + [t] && queues'[p := q + [t]] == k.queues[p := q + [t]];
    RingAlone(k.links, k.queues, k.stat.Keys, p, t);
    RingOf(k.links, k.queues, k.stat.Keys, p);
    RingApart(k.links, HeadOf(p), k.queues[p]);
    LessIs(k.queues[p], t);
    YieldedPlaces(k, N, t);
  }

  lemma RingAlone(links: Links<int>, queues: map<nat, seq<int>>, threads: set<int>, p: nat, t: int)
    requires ListsOk(links, queues, threads) && On(queues, p, t) && Has(links, t)
    ensures links.next[t] != links.prev[t] <==> |queues[p]| > 1
  {
    var q := queues[p];
    var i :| 0 <= i < |q| && q[i] == t;
    RingOf(links, queues, threads, p);
    RingNeighbours(links, HeadOf(p), q, i);
    if |q| > 1 {
      if i > 0 {
        assert On(queues, p, q[i - 1]);
      }
      if i + 1 < |q| {
        assert On(queues, p, q[i + 1]);
      }
    }
  }

  lemma YieldedPlaces(k: Kernel, N: nat, t: int)
    requires Ok(k, N) && t in k.stat && k.stat[t] == Ready && Has(k.links, t) && t in k.prio && k.prio[t] in k.queues
    requires forall x :: x in Less(k.queues[k.prio[t]], t) <==> x in k.queues[k.prio[t]] && x != t
    ensures PlacesOk(Yielded(k, t), N, {}) && IndexAgrees(Yielded(k, t), N) && LogOk(Yielded(k, t), {})
  {
    hide Less, Alternates, Waiting, Clean, Marked, ReadyIndex.Ok, ListsOk;
    var p: nat := k.prio[t];
    var k' := Yielded(k, t);
    assert On(k.queues, p, t);
    forall h: nat, x: int ensures On(k'.queues, h, x) <==> On(k.queues, h, x) {
    }
    forall h: nat, x: int | On(k'.queues, h, x) ensures Fits(k', N, h, x) {
      assert Fits(k, N, h, x);
    }
    forall x | x in k'.stat && k'.stat[x] == Ready ensures On(k'.queues, k'.prio[x], x) {
      assert On(k.queues, k.prio[x], x);
    }
    forall x: nat ensures Marked(k'.index, x) <==> x < N && x in k'.queues && k'.queues[x] != [] {
      assert x == p ==> k.queues[p] != [];
    }
  }

  /** A thread is ready if and only if it is on the queue of its priority; it is on one list at
      most, and its timer runs only while it is suspended. */
  lemma WhereThreadsAre(k: Kernel, N: nat, t: int)
    requires Ok(k, N) && t in k.stat
    ensures t in k.prio && (k.stat[t] == Ready <==> On(k.queues, k.prio[t], t))
    ensures forall g: nat, h: nat :: On(k.queues, g, t) && On(k.queues, h, t) ==> g == h
    ensures t in k.armed ==> k.stat[t] == Suspended
    ensures forall h: nat :: On(k.queues, h, t) && h > N ==> k.stat[t] == Suspended
  {
    hide IndexAgrees, LogOk, Ring, Idle;
    forall h: nat | On(k.queues, h, t) ensures Fits(k, N, h, t) {
    }
  }

  /** Some thread is ready exactly when the bitmap is not 0. */
  lemma SomeReady(k: Kernel, N: nat)
    requires Ok(k, N)
    ensures ReadyIndex.Ok(k.index)
    ensures k.index.group != 0 <==> exists t :: t in k.stat && k.stat[t] == Ready
  {
    hide ListsOk, LogOk, Marked, ReadyIndex.Ok;
    EmptyIff(k.index);
    if k.index.group != 0 {
      HighestIsLeast(k.index);
      var p: nat := Highest(k.index);
      assert On(k.queues, p, k.queues[p][0]);
      assert Fits(k, N, p, k.queues[p][0]);
    } else if t :| t in k.stat && k.stat[t] == Ready {
      ReadyMarked(k, N, t);
    }
  }

  lemma ReadyMarked(k: Kernel, N: nat, t: int)
    requires Ok(k, N) && t in k.stat && k.stat[t] == Ready
    ensures t in k.prio && Marked(k.index, k.prio[t])
  {
    hide ListsOk, LogOk, Marked, ReadyIndex.Ok;
    assert On(k.queues, k.prio[t], t);
  }

  /** The scheduler's choice: the first of the most urgent ready threads. */
  lemma Choice(k: Kernel, N: nat)
    requires Ok(k, N) && k.index.group != 0
    ensures ReadyIndex.Ok(k.index)
    ensures var p: nat := Highest(k.index);
      && p < N && p in k.queues && k.queues[p] != []
      && Has(k.links, HeadOf(p)) && k.links.next[HeadOf(p)] == k.queues[p][0]
      && k.queues[p][0] in k.stat && k.stat[k.queues[p][0]] == Ready && k.prio[k.queues[p][0]] == p
      && forall t :: t in k.stat && k.stat[t] == Ready ==> p <= k.prio[t]
  {
    hide LogOk, Marked, ReadyIndex.Ok, Ring, Idle;
    HighestIsLeast(k.index);
    var p: nat := Highest(k.index);
    RingOf(k.links, k.queues, k.stat.Keys, p);
    RingEnds(k.links, HeadOf(p), k.queues[p]);
    assert On(k.queues, p, k.queues[p][0]);
    assert Fits(k, N, p, k.queues[p][0]);
    forall t | t in k.stat && k.stat[t] == Ready ensures p <= k.prio[t] {
      assert On(k.queues, k.prio[t], t);
      assert Marked(k.index, k.prio[t]);
    }
  }
}

/** The time slices of the threads of one priority while only ticks occur. */
module RoundRobin {
  /** The ready queue, whose first thread runs, and what is left of each thread's slice. */
  datatype Slice = Slice(q: seq<int>, left: map<int, nat>)

  /** rt_tick_increase with rt_thread_yield and rt_schedule. */
  function Tick(s: Slice, init: map<int, nat>): Slice {
    if s.q == [] || s.q[0] !in s.left || s.left[s.q[0]] == 0 || s.q[0] !in init then s
    else (
      var t := s.q[0];
      var n: nat := s.left[t] - 1;
      if n == 0 then Slice(s.q[1..] + [t], s.left[t := init[t]]) else s.(left := s.left[t := n]))
  }

  function Ticks(s: Slice, init: map<int, nat>, n: nat): Slice {
    if n == 0 then s else Tick(Ticks(s, init, n - 1), init)
  }

  lemma {:induction false} TicksAdd(s: Slice, init: map<int, nat>, m: nat, n: nat)
    ensures Ticks(s, init, m + n) == Ticks(Ticks(s, init, m), init, n)
    decreases n
  {
    if n > 0 {
      TicksAdd(s, init, m, n - 1);
    }
  }

  /** All threads of the queue have slices, none empty. */
  ghost predicate Sliced(q: seq<int>, init: map<int, nat>) {
    q != [] && forall i :: 0 <= i < |q| ==> q[i] in init && init[q[i]] > 0
  }

  /** The first thread runs for its slice and nobody else gets ahead. */
  lemma {:induction false} WithinSlice(s: Slice, init: map<int, nat>, k: nat)
    requires Sliced(s.q, init) && s.q[0] in s.left && k < s.left[s.q[0]]
    ensures Ticks(s, init, k) == s.(left := s.left[s.q[0] := s.left[s.q[0]] - k])
  {
    if k == 0 {
      assert s.left[s.q[0] := s.left[s.q[0]]] == s.left;
    } else {
      WithinSlice(s, init, k - 1);
      var t := s.q[0];
      assert s.left[t := s.left[t] - (k - 1)][t := s.left[t] - k] == s.left[t := s.left[t] - k];
    }
  }

  /** At the end of its slice it goes to the end of the queue with a new one. */
  lemma SliceEnds(s: Slice, init: map<int, nat>)
    requires Sliced(s.q, init) && s.q[0] in s.left && s.left[s.q[0]] > 0
    ensures Ticks(s, init, s.left[s.q[0]]) == Slice(s.q[1..] + [s.q[0]], s.left[s.q[0] := init[s.q[0]]])
  {
    var t := s.q[0];
    WithinSlice(s, init, s.left[t] - 1);
    assert s.left[t := 1][t := init[t]] == s.left[t := init[t]];
  }

  /** The slices of the first i threads together. */
  function Sum(q: seq<int>, init: map<int, nat>, i: nat): nat
    requires i <= |q|
  {
    if i == 0 then 0 else Sum(q, init, i - 1) + if q[i - 1] in init then init[q[i - 1]] else 0
  }

  /** Everybody has a full slice. */
  ghost predicate Full(s: Slice, init: map<int, nat>) {
    Sliced(s.q, init) && forall i :: 0 <= i < |s.q| ==> s.q[i] in s.left && s.left[s.q[i]] == init[s.q[i]]
  }

  function Rotated(q: seq<int>, i: nat): seq<int>
    requires i <= |q|
  {
    q[i..] + q[..i]
  }

  lemma RotatedNext(q: seq<int>, i: nat)
    requires 0 < i <= |q|
    ensures Rotated(q, i - 1) != [] && Rotated(q, i - 1)[0] == q[i - 1]
    ensures Rotated(q, i - 1)[1..] + [q[i - 1]] == Rotated(q, i)
  {
  }

  lemma RotatedFull(s: Slice, init: map<int, nat>, i: nat)
    requires Full(s, init) && i <= |s.q|
    ensures Full(s.(q := Rotated(s.q, i)), init)
    ensures i < |s.q| ==> Rotated(s.q, i)[0] == s.q[i]
  {
    var r := Rotated(s.q, i);
    assert forall j :: 0 <= j < |r| ==> r[j] == if j < |s.q| - i then s.q[i + j] else s.q[j - (|s.q| - i)];
  }

  /** After the slices of the first i threads it is the turn of the next, with all slices full again. */
  lemma {:induction false} Turns(s: Slice, init: map<int, nat>, i: nat)
    requires Full(s, init) && i <= |s.q|
    ensures Ticks(s, init, Sum(s.q, init, i)) == s.(q := Rotated(s.q, i))
    decreases i
  {
    if i == 0 {
      assert Rotated(s.q, 0) == s.q;
    } else {
      Turns(s, init, i - 1);
      TurnEnds(s, init, i);
    }
  }

  lemma TurnEnds(s: Slice, init: map<int, nat>, i: nat)
    requires Full(s, init) && 0 < i <= |s.q| && Ticks(s, init, Sum(s.q, init, i - 1)) == s.(q := Rotated(s.q, i - 1))
    ensures Ticks(s, init, Sum(s.q, init, i)) == s.(q := Rotated(s.q, i))
  {
    hide Rotated, Tick, Ticks, Sliced;
    var r := s.(q := Rotated(s.q, i - 1));
    var t := s.q[i - 1];
    RotatedFull(s, init, i - 1);
    RotatedNext(s.q, i);
    FullFirst(s, init, i - 1);
    FullFirst(r, init, 0);
    SliceEnds(r, init);
    TicksAdd(s, init, Sum(s.q, init, i - 1), init[t]);
    assert r.left[t := init[t]] == r.left;
  }

  lemma FullFirst(s: Slice, init: map<int, nat>, i: nat)
    requires Full(s, init) && i < |s.q|
    ensures s.q[i] in init && s.q[i] in s.left && s.left[s.q[i]] == init[s.q[i]] > 0
  {
  }

  /** Everybody but the running thread has a full slice, of which it has used up a part or nothing. */
  ghost predicate Started(s: Slice, init: map<int, nat>) {
    && Sliced(s.q, init) && s.q[0] in s.left && 0 < s.left[s.q[0]] <= init[s.q[0]]
    && forall i :: 0 < i < |s.q| ==> s.q[i] in s.left && s.left[s.q[i]] == init[s.q[i]]
  }

  /** How much of its slice the running thread has used. */
  function UsedUp(s: Slice, init: map<int, nat>): nat
    requires s.q != [] && s.q[0] in init && s.q[0] in s.left && s.left[s.q[0]] <= init[s.q[0]]
  {
    init[s.q[0]] - s.left[s.q[0]]
  }

  /** It is where it was that many ticks after it had a full slice, too. */
  lemma SinceFull(s: Slice, init: map<int, nat>) returns (full: Slice)
    requires Started(s, init)
    ensures full == s.(left := s.left[s.q[0] := init[s.q[0]]])
    ensures Full(full, init) && Ticks(full, init, UsedUp(s, init)) == s
  {
    full := s.(left := s.left[s.q[0] := init[s.q[0]]]);
    WithinSlice(full, init, UsedUp(s, init));
    assert full.left[s.q[0] := s.left[s.q[0]]] == s.left;
  }

  /**
   Round robin, from anywhere in the running thread's slice: thread i of the queue runs for
   exactly its slice, after those before it have had theirs.
   */
  lemma RunsInTurn(s: Slice, init: map<int, nat>, i: nat, k: nat)
    requires Started(s, init) && i < |s.q| && k < init[s.q[i]] && UsedUp(s, init) <= Sum(s.q, init, i) + k
    ensures var s' := Ticks(s, init, Sum(s.q, init, i) + k - UsedUp(s, init));
      s'.q != [] && s'.q[0] == s.q[i] && s.q[i] in s'.left && s'.left[s.q[i]] == init[s.q[i]] - k
  {
    var full := SinceFull(s, init);
    FullRunsInTurn(full, init, i, k);
    TicksAdd(full, init, UsedUp(s, init), Sum(s.q, init, i) + k - UsedUp(s, init));
  }

  lemma FullRunsInTurn(s: Slice, init: map<int, nat>, i: nat, k: nat)
    requires Full(s, init) && i < |s.q| && k < init[s.q[i]]
    ensures var s' := Ticks(s, init, Sum(s.q, init, i) + k);
      s'.q != [] && s'.q[0] == s.q[i] && s.q[i] in s'.left && s'.left[s.q[i]] == init[s.q[i]] - k
  {
    Turns(s, init, i);
    var r := s.(q := Rotated(s.q, i));
    RotatedFull(s, init, i);
    WithinSlice(r, init, k);
    TicksAdd(s, init, Sum(s.q, init, i), k);
  }

  /** After the sum of the slices everything is as it was, the used part of a slice included. */
  lemma Recurs(s: Slice, init: map<int, nat>)
    requires Started(s, init)
    ensures Ticks(s, init, Sum(s.q, init, |s.q|)) == s
  {
    var full := SinceFull(s, init);
    var d, n := UsedUp(s, init), Sum(s.q, init, |s.q|);
    Turns(full, init, |s.q|);
    assert Rotated(s.q, |s.q|) == s.q;
    TicksAdd(full, init, d, n);
    TicksAdd(full, init, n, d);
  }

  /** Nobody in the queue is without a slice or without something left of it. */
  ghost predicate Running(s: Slice, init: map<int, nat>) {
    Sliced(s.q, init) && forall i :: 0 <= i < |s.q| ==> s.q[i] in s.left && s.left[s.q[i]] > 0
  }

  lemma TickRuns(s: Slice, init: map<int, nat>)
    requires Running(s, init)
    ensures Running(Tick(s, init), init)
  {
    var s' := Tick(s, init);
    forall i | 0 <= i < |s'.q| ensures s'.q[i] in s.q {
    }
  }
}

module Threads {
  import opened RtList
  import opened ThreadLists
  import opened WaitList
  import opened Words
  import opened ReadyIndex
  import opened KernelState
  import opened RoundRobin

  const NONE: int := -1

  /** The threads with their nodes, the ready table and its bitmap. */
  class Scheduler {
    const N: nat
    var links: Links<int>
    var stat: map<int, Stat>
    var prio: map<int, nat>
    var initPrio: map<int, nat>
    var error: map<int, Err>
    var armed: set<int>
    var index: Index
    var current: int
    var lockNest: nat
    var initTick: map<int, nat>
    var remaining: map<int, nat>
    ghost var queues: map<nat, seq<int>>
    ghost var log: seq<Event>

    ghost function Now(): Kernel
      reads this
    {
      Kernel(links, queues, stat, prio, error, armed, index, log)
    }

    ghost predicate Valid()
      reads this
    {
      KernelState.Ok(Now(), N) && PrioritiesOk()
    }

    /** rt_system_scheduler_init and rt_thread_init, with the threads and the number of wait
        lists that there will be. */
    constructor (n: nat, twoLevel: bool, threads: set<int>, waits: nat, priority: map<int, nat>, ticks: map<int, nat>)
      requires n <= if twoLevel then 256 else 32
      requires (forall t :: t in threads ==> t >= 0) && priority.Keys == threads
      requires forall t :: t in priority ==> priority[t] < n
      ensures Valid() && N == n && stat.Keys == threads && (forall t :: t in stat ==> stat[t] == Init)
      ensures forall h: nat :: h in queues <==> h <= n + waits
      ensures forall h: nat :: h in queues ==> queues[h] == []
      ensures log == [] && armed == {} && current == NONE
    {
      N := n;
      links := SelfLinked(Heads(n + waits) + threads);
      stat := map t | t in threads :: Init;
      prio, initPrio := priority, priority;
      error := map t | t in threads :: EOK;
      armed, current, lockNest := {}, NONE, 0;
      index := if twoLevel then TwoLevel(0, seq(32, _ => 0)) else OneWord(0);
      initTick, remaining := ticks, ticks;
      queues := EmptyLists(n + waits);
      log := [];
      new;
      FreshKernel(Now(), N, threads);
    }

    /** rt_schedule_insert_thread */
    method InsertThread(t: int)
      requires Almost(Now(), N, {t}) && t !in armed && !Waiting(log, t) && !Clean(log, t)
      requires PrioritiesOk()
      modifies this`links, this`stat, this`index, this`queues
      ensures Valid() && t in prio && old(prio[t] in queues && ReadyIndex.Ok(index) && prio[t] < Limit(index))
      ensures Now() == PutReady(old(Now()), t)
    {
      hide Almost, Or, Pow2, Ring, Idle, ReadyIndex.Ok;
      ghost var k := Now();
      PutReadyKeeps(k, N, t);
      PutReadyKeys(k, t);
      TableSize(index);
      var p := prio[t];
      stat := stat[t := Ready];
      links := RtList.InsertBefore(links, HeadOf(p), t);
      match index {
        case OneWord(group) => index := OneWord(Or(group, Pow2(p)));
        case TwoLevel(group, table) =>
          var number := p / 8;
          index := TwoLevel(Or(group, Pow2(number)), table[number := Or(table[number], Pow2(p % 8))]);
      }
      queues := queues[p := queues[p] + [t]];
    }

    /** rt_schedule_remove_thread */
    method RemoveThread(t: int)
      requires Valid() && t in stat
      modifies this`links, this`index, this`queues
      ensures old(Has(links, t) && t in prio && prio[t] in queues && ReadyIndex.Ok(index) && prio[t] < Limit(index))
      ensures Now() == TakeOff(old(Now()), t) && Almost(Now(), N, {t})
    {
      hide Almost, AndNot, Pow2, Ring, Idle, Off, ReadyIndex.Ok;
      ghost var k := Now();
      TakeOffKeeps(k, N, t);
      TableSize(index);
      links := RtList.Remove(links, t);
      var p := prio[t];
      if IsEmpty(links, HeadOf(p)) {
        match index {
          case OneWord(group) => index := OneWord(AndNot(group, Pow2(p)));
          case TwoLevel(group, table) =>
            var number := p / 8;
            table := table[number := AndNot(table[number], Pow2(p % 8))];
            index := TwoLevel(if table[number] == 0 then AndNot(group, Pow2(number)) else group, table);
        }
      }
      queues := Off(queues, t);
    }

    /** rt_thread_suspend; `clean` says that the caller has reset the thread's error code. */
    method Suspend(t: int, ghost clean: bool) returns (ok: bool)
      requires Valid() && t in stat && (clean ==> t in error && error[t] == EOK)
      modifies this`links, this`stat, this`armed, this`index, this`queues, this`log
      ensures Valid() && ok == (old(stat)[t] == Ready)
      ensures !ok ==> Now() == old(Now())
      ensures ok ==> stat == old(stat)[t := Suspended] && queues == Off(old(queues), t) && Loose(queues, t)
      ensures ok ==> armed == old(armed) - {t} && log == old(log) + [Blocks(t, clean)]
    {
      hide Almost, Ring, Idle, Off, Loose, ReadyIndex.Ok;
      if stat[t] != Ready {
        return false;
      }
      SuspendNow(t, clean);
      return true;
    }

    /** The region of rt_thread_suspend, after its test. */
    method SuspendNow(t: int, ghost clean: bool)
      requires Valid() && t in stat && stat[t] != Suspended && (clean ==> t in error && error[t] == EOK)
      modifies this`links, this`stat, this`armed, this`index, this`queues, this`log
      ensures old(Has(links, t) && t in prio && prio[t] in queues && ReadyIndex.Ok(index) && prio[t] < Limit(index))
      ensures Valid() && Now() == Suspending(old(Now()), t, clean) && queues == Off(old(queues), t) && Loose(queues, t)
    {
      hide Almost, Ring, Idle, Off, Loose, ReadyIndex.Ok;
      ghost var k := Now();
      KnownThread(k, N, t);
      SuspendingKeeps(k, N, t, clean);
      RemoveThread(t);
      stat := stat[t := Suspended];
      armed := armed - {t};
      log := log + [Blocks(t, clean)];
      assert Now() == Suspending(k, t, clean);
      assert stat.Keys == k.stat.Keys;
    }

    /**
     rt_thread_resume. `why` says what for, and `was` is the thread's error code before
     rt_ipc_list_resume_all has set it; otherwise it is the one the thread has.
     */
    method Resume(t: int, ghost why: Why, ghost was: Err) returns (ok: bool)
      requires t in stat && t in error && PrioritiesOk() && KernelState.Ok(Now().(error := error[t := was]), N)
      requires (why == Resumed && was == error[t]) || (why == Flushed && error[t] == EERROR && stat[t] == Suspended)
      modifies this`links, this`stat, this`armed, this`index, this`queues, this`log
      ensures Valid() && ok == (old(stat)[t] == Suspended)
      ensures !ok ==> Now() == old(Now())
      ensures ok ==> IsWoken(old(Now()), Now(), t, why)
    {
      hide Almost, Ring, Idle, Off, Loose, ReadyIndex.Ok, Alternates, Waiting, Clean;
      ghost var k := Now().(error := error[t := was]);
      if stat[t] != Suspended {
        assert error[t := was] == error;
        return false;
      }
      WakingKeeps(k, N, t, why, error[t]);
      WokenIs(k, N, t, why, error[t]);
      ResumeTake(t);
      log := log + [Wakes(t, why, error[t])];
      assert error == k.error[t := error[t]];
      assert Now() == Waking(k, t, why, error[t]);
      InsertThread(t);
      return true;
    }

    /** The first region of rt_thread_resume; the second is InsertThread. */
    method ResumeTake(t: int)
      requires Has(links, t)
      modifies this`links, this`armed, this`queues
      ensures Now() == Unlinked(old(Now()), t)
    {
      links := RtList.Remove(links, t);
      armed := armed - {t};
      queues := Off(queues, t);
    }

    /** The timer of a suspended thread has expired and is taken off the timer list: rt_thread_timeout. */
    method Timeout(t: int)
      requires Valid() && t in armed
      modifies this`links, this`stat, this`armed, this`index, this`queues, this`error, this`log
      ensures Valid() && IsWoken(old(Now()), Now(), t, TimedOut)
      ensures t in error && error == old(error)[t := ETIMEOUT]
    {
      hide Almost, Ring, Idle, Off, Loose, ReadyIndex.Ok, Alternates, Waiting, Clean;
      ghost var k := Now();
      ArmedSuspended(k, N, t);
      armed := armed - {t};
      assert stat[t] == Suspended;
      WakingKeeps(k, N, t, TimedOut, ETIMEOUT);
      WokenIs(k, N, t, TimedOut, ETIMEOUT);
      error := error[t := ETIMEOUT];
      links := RtList.Remove(links, t);
      queues := Off(queues, t);
      log := log + [Wakes(t, TimedOut, ETIMEOUT)];
      assert Now() == Waking(k, t, TimedOut, ETIMEOUT);
      InsertThread(t);
    }

    ghost predicate PrioritiesOk()
      reads this
    {
      initPrio.Keys == stat.Keys && forall t :: t in initPrio ==> initPrio[t] < N
    }

    /**
     The blocking part of a take or receive: the error code is reset, the thread goes to wait
     list h by its flag, and with a positive timeout its timer is started.
     */
    method Wait(t: int, h: nat, flag: Flag, timeout: int)
      requires Valid() && t in stat && stat[t] == Ready && h > N && h in queues
      modifies this`links, this`stat, this`armed, this`index, this`queues, this`error, this`log
      ensures Valid() && t in prio && h in old(queues)
      ensures stat == old(stat)[t := Suspended] && error == old(error)[t := EOK] && prio == old(prio)
      ensures log == old(log) + [Blocks(t, true)]
      ensures queues == Off(old(queues), t)[h := Joining(old(queues)[h], prio, flag, t)]
      ensures armed == if timeout > 0 then old(armed) + {t} else old(armed) - {t}
    {
      hide Almost, Ring, Idle, Off, Loose, ReadyIndex.Ok, Joining;
      KnownThread(Now(), N, t);
      ResetKeeps(Now(), N, t, EOK);
      error := error[t := EOK];
      ghost var was := queues[h];
      NotWaiting(Now(), N, h, t);
      var _ := Suspend(t, true);
      Enqueue(t, h, flag);
      JoiningPlace(was, prio, flag, t);
      if timeout > 0 {
        ArmKeeps(Now(), N, t);
        armed := armed + {t};
      }
    }

    /** A suspended thread is put on a wait list: the end of rt_ipc_list_suspend. */
    method Enqueue(t: int, h: nat, flag: Flag)
      requires Valid() && t in stat && stat[t] == Suspended && Loose(queues, t) && h > N && h in queues && t in prio
      modifies this`links, this`queues
      ensures Valid() && queues == old(queues)[h := Inserted(old(queues)[h], Place(old(queues)[h], prio, flag, t), t)]
    {
      hide Almost, Ring, Idle, Loose, ReadyIndex.Ok;
      ghost var k := Now();
      var at := FindWaiter(h, flag, t);
      var next := if at.NoOne? then HeadOf(h) else at.t;
      ghost var i := Place(queues[h], prio, flag, t);
      PutWaitingKeeps(k, N, h, i, t);
      links := RtList.InsertBefore(links, next, t);
      queues := queues[h := Inserted(queues[h], i, t)];
      assert Now() == PutWaiting(k, h, i, t);
    }

    /** thread->error = err, for a thread that is not waiting */
    method SetError(t: int, err: Err)
      requires Valid() && t in stat && stat[t] != Suspended
      modifies this`error
      ensures Valid() && error == old(error)[t := err]
    {
      hide Almost;
      ResetKeeps(Now(), N, t, err);
      error := error[t := err];
    }

    /** The search of rt_ipc_list_suspend: the thread in front of which to insert. */
    method FindWaiter(h: nat, flag: Flag, t: int) returns (at: Waiter)
      requires Valid() && h in queues && h > N && t in prio
      ensures Place(queues[h], prio, flag, t) <= |queues[h]|
      ensures at == if Place(queues[h], prio, flag, t) == |queues[h]| then NoOne
        else Is(queues[h][Place(queues[h], prio, flag, t)])
    {
      hide Almost, Idle, ReadyIndex.Ok;
      ghost var q := queues[h];
      if flag == Fifo {
        FifoPlace(q, prio, t);
        return NoOne;
      }
      ListWalk(Now(), N, h, 0);
      var n := links.next[HeadOf(h)];
      ghost var i: nat := 0;
      while n != HeadOf(h)
        invariant i <= |q| && n == After(HeadOf(h), q, i) && (n == HeadOf(h) <==> i == |q|)
        invariant Place(q, prio, flag, t) == i + Place(q[i..], prio, flag, t)
        decreases |q| - i
      {
        ListWalk(Now(), N, h, i);
        if prio[t] < prio[n] {
          return Is(n);
        }
        n := links.next[n];
        assert q[i..][1..] == q[i + 1..];
        i := i + 1;
        ListWalk(Now(), N, h, i);
      }
      return NoOne;
    }

    /** rt_ipc_list_resume: the first waiter goes on with its error code as it is. */
    method ResumeFirst(h: nat)
      requires Valid() && h in queues && h > N && queues[h] != []
      modifies this`links, this`stat, this`armed, this`index, this`queues, this`log
      ensures Valid() && IsWoken(old(Now()), Now(), old(queues)[h][0], Resumed)
    {
      hide Almost, Ring, Idle, ReadyIndex.Ok;
      ListWalk(Now(), N, h, 0);
      var t := links.next[HeadOf(h)];
      assert error[t := error[t]] == error;
      var _ := Resume(t, Resumed, error[t]);
    }

    /** rt_ipc_list_resume_all: every waiter goes on with an error code. */
    method ResumeAll(h: nat)
      requires Valid() && h in queues && h > N
      modifies this`links, this`stat, this`armed, this`index, this`queues, this`error, this`log
      ensures Valid() && h in queues && queues[h] == []
      ensures log == old(log) + FlushedAll(old(queues)[h]) && error == AllFailed(old(error), old(queues)[h])
    {
      hide Almost, Ring, Idle, ReadyIndex.Ok, Off;
      ListWalk(Now(), N, h, 0);
      while !IsEmpty(links, HeadOf(h))
        invariant Valid() && h in queues && Has(links, HeadOf(h))
        invariant IsEmpty(links, HeadOf(h)) <==> queues[h] == []
        invariant log + FlushedAll(queues[h]) == old(log) + FlushedAll(old(queues)[h])
        invariant AllFailed(error, queues[h]) == AllFailed(old(error), old(queues)[h])
        decreases |queues[h]|
      {
        FlushFirst(h);
        ListWalk(Now(), N, h, 0);
      }
    }

    method FlushFirst(h: nat)
      requires Valid() && h in queues && h > N && queues[h] != []
      modifies this`links, this`stat, this`armed, this`index, this`queues, this`error, this`log
      ensures Valid() && h in queues && queues[h] == old(queues)[h][1..]
      ensures log == old(log) + [Wakes(old(queues)[h][0], Flushed, EERROR)]
      ensures error == old(error)[old(queues)[h][0] := EERROR]
    {
      hide Almost, Ring, Idle, ReadyIndex.Ok, Off;
      ListWalk(Now(), N, h, 0);
      var t := links.next[HeadOf(h)];
      ghost var was, k := error[t], Now();
      error := error[t := EERROR];
      assert error[t := was] == k.error;
      var _ := Resume(t, Flushed, was);
      WokenQueue(k, Now(), N, h, t, Flushed, EERROR);
    }

    /** rt_thread_sleep of a ready thread: its timer is what wakes it. */
    method Sleep(t: int)
      requires Valid() && t in stat && stat[t] == Ready
      modifies this`links, this`stat, this`armed, this`index, this`queues, this`log
      ensures Valid() && stat == old(stat)[t := Suspended] && armed == old(armed) + {t}
      ensures queues == Off(old(queues), t) && log == old(log) + [Blocks(t, false)]
    {
      hide Almost, ReadyIndex.Ok, Off;
      var _ := Suspend(t, false);
      ArmKeeps(Now(), N, t);
      armed := armed + {t};
    }

    /** The end of rt_thread_sleep, when the thread runs again: that its time was up is no error. */
    method Awake(t: int)
      requires Valid() && t in stat && stat[t] != Suspended && t in error
      modifies this`error
      ensures Valid() && error == old(error)[t := if old(error)[t] == ETIMEOUT then EOK else old(error)[t]]
    {
      if error[t] == ETIMEOUT {
        SetError(t, EOK);
      } else {
        assert error[t := error[t]] == error;
      }
    }

    /** rt_thread_control with RT_THREAD_CTRL_CHANGE_PRIORITY: a ready thread changes its queue. */
    method ChangePriority(t: int, p: nat)
      requires Valid() && t in stat && p < N
      modifies this`links, this`stat, this`index, this`queues, this`prio
      ensures Valid() && t in old(prio) && p in old(queues) && prio == old(prio)[t := p] && stat == old(stat)
      ensures old(stat)[t] == Ready ==> queues == Off(old(queues), t)[p := Less(old(queues)[p], t) + [t]]
      ensures old(stat)[t] != Ready ==> queues == old(queues)
    {
      hide Almost, Ring, Idle, Off, Less, Loose, ReadyIndex.Ok, Alternates, Waiting, Clean;
      KnownThread(Now(), N, t);
      QueueExists(Now(), N, p);
      if stat[t] == Ready {
        ghost var k := Now();
        ReadySilent(k, N, t);
        RemoveThread(t);
        PrioKeeps(Now(), N, {t}, t, p);
        prio := prio[t := p];
        InsertThread(t);
        assert stat == k.stat;
        OffAt(k.queues, p, t);
      } else {
        PrioKeeps(Now(), N, {}, t, p);
        prio := prio[t := p];
      }
    }

    /** rt_thread_startup */
    method Startup(t: int)
      requires Valid() && t in stat && stat[t] == Init
      modifies this
      ensures Valid() && stat == old(stat)[t := Ready] && t in initPrio && prio == old(prio)[t := initPrio[t]]
      ensures lockNest == old(lockNest)
      ensures old(current) == NONE ==> current == NONE
    {
      hide Almost, Off, ReadyIndex.Ok;
      MakeReady(t);
      if current != NONE {
        ReadyIsSome(Now(), N, t);
        Schedule();
      }
    }

    /** rt_thread_startup up to the scheduling. */
    method MakeReady(t: int)
      requires Valid() && t in stat && stat[t] == Init
      modifies this`links, this`stat, this`prio, this`armed, this`index, this`queues, this`log
      ensures Valid() && stat == old(stat)[t := Ready] && t in initPrio && prio == old(prio)[t := initPrio[t]]
    {
      hide Almost, Ring, Idle, Off, Loose, ReadyIndex.Ok;
      StartingKeeps(Now(), N, t, initPrio[t]);
      ghost var k := Now();
      prio := prio[t := initPrio[t]];
      stat := stat[t := Suspended];
      log := log + [Blocks(t, false)];
      assert stat.Keys == k.stat.Keys;
      assert Now() == Starting(k, t, initPrio[t]);
      KnownThread(Now(), N, t);
      assert error[t := error[t]] == error;
      var _ := Resume(t, Resumed, error[t]);
      assert stat == k.stat[t := Ready];
    }

    /**
     rt_thread_exit, and rt_thread_delete and rt_thread_detach as long as nothing comes between
     their regions. A static thread without a cleanup function does not go to the defunct list.
     */
    method Close(t: int, defunct: bool)
      requires Valid() && t in stat && stat[t] != Closed
      modifies this`links, this`stat, this`armed, this`index, this`queues, this`log
      ensures Valid() && stat == old(stat)[t := Closed] && armed == old(armed) - {t}
      ensures log == if old(stat)[t] == Suspended then old(log) + [Ends(t)] else old(log)
      ensures if defunct then On(queues, N, t) else Loose(queues, t)
    {
      hide Almost, Ring, Idle, Off, Loose, ReadyIndex.Ok;
      ghost var k := Now();
      ClosingKeeps(k, N, t);
      if stat[t] != Init {
        RemoveThread(t);
      }
      armed := armed - {t};
      if stat[t] == Suspended {
        log := log + [Ends(t)];
      }
      stat := stat[t := Closed];
      assert Now() == Closing(k, t) && stat.Keys == k.stat.Keys;
      if defunct {
        PutDefunct(t);
      }
    }

    method PutDefunct(t: int)
      requires Valid() && t in stat && stat[t] == Closed && Loose(queues, t)
      modifies this`links, this`queues
      ensures Valid() && On(queues, N, t)
    {
      hide Almost, Ring, Idle, Off, Loose, ReadyIndex.Ok;
      QueueExists(Now(), N, N);
      ListWalk(Now(), N, N, 0);
      ghost var k1 := Now();
      PutWaitingKeeps(k1, N, N, 0, t);
      InFront(k1, N, N, t);
      links := RtList.InsertAfter(links, HeadOf(N), t);
      queues := queues[N := Inserted(queues[N], 0, t)];
      assert Now() == PutWaiting(k1, N, 0, t);
      assert queues[N][0] == t;
    }

    /** rt_thread_yield, without the scheduling behind it. */
    method Yield()
      requires Valid() && current in stat
      modifies this`links, this`queues
      ensures Valid() && current in prio
      ensures prio[current] in old(queues) && queues == if stat[current] == Ready
        then old(queues)[prio[current] := Less(old(queues)[prio[current]], current) + [current]] else old(queues)
    {
      hide Almost, Ring, Idle, Less, ReadyIndex.Ok;
      var t := current;
      KnownThread(Now(), N, t);
      QueueExists(Now(), N, prio[t]);
      if stat[t] == Ready {
        ghost var k := Now();
        YieldedKeeps(k, N, t);
        if links.next[t] != links.prev[t] {
          links := RtList.Remove(links, t);
          links := RtList.InsertBefore(links, HeadOf(prio[t]), t);
          queues := Yielded(k, t).queues;
          assert Now() == Yielded(k, t);
        } else {
          OneOnly(queues[prio[t]], t);
          assert queues[prio[t] := queues[prio[t]]] == queues;
        }
      }
    }

    /** rt_schedule, when some thread is ready. */
    method Schedule()
      requires Valid() && exists t :: t in stat && stat[t] == Ready
      modifies this`current
      ensures lockNest > 0 ==> current == old(current)
      ensures lockNest == 0 ==>
        && current in stat && stat[current] == Ready && current in prio && prio[current] in queues
        && queues[prio[current]] != [] && queues[prio[current]][0] == current
        && forall t :: t in stat && stat[t] == Ready ==> t in prio && prio[current] <= prio[t]
    {
      hide Almost, Ring, Idle, ReadyIndex.Ok;
      if lockNest == 0 {
        SomeReady(Now(), N);
        Choice(Now(), N);
        FirstByte(index);
        TableSize(index);
        AllKnown(Now(), N);
        var highest;
        match index {
          case OneWord(group) => highest := Ffs(group) - 1;
          case TwoLevel(group, table) =>
            var number := Ffs(group) - 1;
            highest := number * 8 + Ffs(table[number]) - 1;
        }
        assert highest == Highest(index);
        var to := links.next[HeadOf(highest)];
        if to != current {
          current := to;
        }
      }
    }

    /** rt_tick_increase up to the timer check, while the current thread heads the most urgent
        queue: its slice shrinks, and when it is used up the next thread of the queue runs. */
    method TickIncrease()
      requires Valid() && lockNest == 0 && current in stat && stat[current] == Ready
      requires current in prio && prio[current] in queues && queues[prio[current]] != []
        && queues[prio[current]][0] == current
      requires current in initTick && initTick[current] > 0 && current in remaining && remaining[current] > 0
      requires forall t :: t in stat && stat[t] == Ready ==> t in prio && prio[current] <= prio[t]
      modifies this`links, this`queues, this`remaining, this`current
      ensures Valid() && old(prio[current]) in queues
      ensures Slice(queues[old(prio[current])], remaining)
        == Tick(Slice(old(queues)[old(prio[current])], old(remaining)), initTick)
      ensures queues[old(prio[current])] != [] && current == queues[old(prio[current])][0]
    {
      hide Almost, Ring, Idle, Less, ReadyIndex.Ok;
      ghost var p, q := prio[current], queues[prio[current]];
      LessFirst(q);
      remaining := remaining[current := remaining[current] - 1];
      if remaining[current] == 0 {
        remaining := remaining[current := initTick[current]];
        Yield();
        KnownThread(Now(), N, current);
        ReadyIsSome(Now(), N, current);
        HeadOfQueue(Now(), N, p);
        Schedule();
      }
    }

    /** Ticks in a row while nothing else happens. */
    method TickRepeatedly(n: nat)
      requires Valid() && lockNest == 0 && current in stat && stat[current] == Ready
      requires current in prio && prio[current] in queues && queues[prio[current]] != []
      requires queues[prio[current]][0] == current && Running(Slice(queues[prio[current]], remaining), initTick)
      requires forall t :: t in stat && stat[t] == Ready ==> t in prio && prio[current] <= prio[t]
      modifies this`links, this`queues, this`remaining, this`current
      ensures Valid() && old(prio[current]) in queues && queues[old(prio[current])] != []
      ensures Slice(queues[old(prio[current])], remaining)
        == Ticks(Slice(old(queues)[old(prio[current])], old(remaining)), initTick, n)
      ensures current == queues[old(prio[current])][0]
    {
      hide Almost, Ring, Idle, Less, ReadyIndex.Ok, Tick, KernelState.Ok;
      ghost var p := prio[current];
      KnownThread(Now(), N, current);
      var i := 0;
      while i < n
        invariant 0 <= i <= n && Valid() && p in queues && queues[p] != [] && current == queues[p][0]
        invariant Running(Slice(queues[p], remaining), initTick)
        invariant Slice(queues[p], remaining) == Ticks(Slice(old(queues)[p], old(remaining)), initTick, i)
      {
        HeadOfQueue(Now(), N, p);
        TickRuns(Slice(queues[p], remaining), initTick);
        TickIncrease();
        i := i + 1;
      }
    }

    /** rt_enter_critical, rt_exit_critical */
    method EnterCritical()
      modifies this`lockNest
      ensures lockNest == old(lockNest) + 1
    {
      lockNest := lockNest + 1;
    }

    method ExitCritical()
      requires Valid() && exists t :: t in stat && stat[t] == Ready
      modifies this`lockNest, this`current
      ensures lockNest == (if old(lockNest) > 0 then old(lockNest) - 1 else 0)
      ensures lockNest > 0 ==> current == old(current)
      ensures lockNest == 0 ==> current in stat && stat[current] == Ready && current in prio
      ensures lockNest == 0 && current in prio ==> forall t :: t in stat && stat[t] == Ready ==>
        t in prio && prio[current] <= prio[t]
    {
      if lockNest > 0 {
        lockNest := lockNest - 1;
      }
      if lockNest == 0 {
        Schedule();
      }
    }
  }

  /** What the log says of waiters that are woken with an error, one after the other. */
  function FlushedAll(q: seq<int>): seq<Event> {
    if q == [] then [] else [Wakes(q[0], Flushed, EERROR)] + FlushedAll(q[1..])
  }

  /** The error codes after that. */
  function AllFailed(error: map<int, Err>, q: seq<int>): map<int, Err>
    decreases |q|
  {
    if q == [] then error else AllFailed(error[q[0] := EERROR], q[1..])
  }

  lemma {:induction false} FailedIs(error: map<int, Err>, q: seq<int>, x: int)
    ensures x in q || x in error ==>
      x in AllFailed(error, q) && AllFailed(error, q)[x] == if x in q then EERROR else error[x]
    decreases |q|
  {
    if q != [] {
      FailedIs(error[q[0] := EERROR], q[1..], x);
    }
  }

  datatype Waiter = NoOne | Is(t: int)

  /** Thread t has been woken: off its list, its timer stopped, at the end of its ready queue;
      the log tells how it ended its wait. */
  ghost predicate IsWoken(k: Kernel, k': Kernel, t: int, why: Why) {
    && t in k.stat && t in k.prio && t in k'.error && k.stat[t] == Suspended && k.prio[t] in Off(k.queues, t)
    && k'.stat == k.stat[t := Ready] && k'.prio == k.prio && k'.armed == k.armed - {t}
    && k'.queues == Off(k.queues, t)[k.prio[t] := Off(k.queues, t)[k.prio[t]] + [t]]
    && k'.error == k.error[t := k'.error[t]]
    && k'.log == k.log + [Wakes(t, why, k'.error[t])]
  }

  lemma WokenIs(k: Kernel, N: nat, t: int, why: Why, err: Err)
    requires Has(k.links, t) && Almost(Waking(k, t, why, err), N, {t}) && !Waiting(Waking(k, t, why, err).log, t)
    requires !Clean(Waking(k, t, why, err).log, t) && t in k.stat && k.stat[t] == Suspended
    ensures t in k.prio && k.prio[t] in k.queues && ReadyIndex.Ok(k.index) && k.prio[t] < Limit(k.index)
    ensures IsWoken(k.(error := k.error[t := err]), Woken(k, t, why, err), t, why)
    ensures Woken(k, t, why, err) == PutReady(Waking(k, t, why, err), t)
  {
    hide Almost, Alternates, Waiting, Clean, Less, ReadyIndex.Ok;
    PutReadyKeeps(Waking(k, t, why, err), N, t);
    assert k.error[t := err][t := err] == k.error[t := err];
  }

  /** The heads of lists 0 to m. */
  function Heads(m: nat): (s: set<int>)
    ensures forall x :: x in s <==> -1 - m <= x < 0
  {
    if m == 0 then {-1} else Heads(m - 1) + {-1 - m}
  }

  /** Every node is on its own. */
  function SelfLinked(nodes: set<int>): (m: Links<int>)
    ensures forall x :: x in nodes ==> Idle(m, x)
  {
    var self := map x | x in nodes :: x;
    Links(self, self)
  }

  ghost function EmptyLists(m: nat): (q: map<nat, seq<int>>)
    ensures forall h: nat :: h in q <==> h <= m
    ensures forall h: nat :: h in q ==> q[h] == []
  {
    if m == 0 then map[0 := []] else EmptyLists(m - 1)[m := []]
  }

  lemma TableSize(ix: Index)
    requires ReadyIndex.Ok(ix)
    ensures ix.group < 0x1_0000_0000 && (ix.TwoLevel? ==> |ix.table| == 32)
  {
  }

  lemma PutReadyKeys(k: Kernel, t: int)
    requires t in k.prio && k.prio[t] in k.queues && ReadyIndex.Ok(k.index) && k.prio[t] < Limit(k.index) && t in k.stat
    ensures PutReady(k, t).stat.Keys == k.stat.Keys
  {
  }

  lemma KnownThread(k: Kernel, N: nat, t: int)
    requires KernelState.Ok(k, N) && t in k.stat
    ensures t in k.error && t in k.prio && k.prio[t] < N
  {
  }

  lemma ArmedSuspended(k: Kernel, N: nat, t: int)
    requires KernelState.Ok(k, N) && t in k.armed
    ensures t in k.stat && k.stat[t] == Suspended && t in k.error
  {
  }

  lemma QueueExists(k: Kernel, N: nat, h: nat)
    requires KernelState.Ok(k, N) && h <= N
    ensures h in k.queues
  {
  }

  lemma AllKnown(k: Kernel, N: nat)
    requires KernelState.Ok(k, N)
    ensures k.stat.Keys == k.prio.Keys
  {
  }

  /** A ready thread is not waiting, nor is its timer running. */
  lemma ReadySilent(k: Kernel, N: nat, t: int)
    requires KernelState.Ok(k, N) && t in k.stat && k.stat[t] != Suspended
    ensures t !in k.armed && !Waiting(k.log, t) && !Clean(k.log, t)
  {
    hide ListsOk, IndexAgrees, Alternates;
    CleanWaits(k.log, t);
  }

  lemma ReadyIsSome(k: Kernel, N: nat, t: int)
    requires t in k.stat && k.stat[t] == Ready
    ensures exists x :: x in k.stat && k.stat[x] == Ready
  {
  }

  /** Following a list from its head. */
  lemma ListWalk(k: Kernel, N: nat, h: nat, i: nat)
    requires KernelState.Ok(k, N) && h in k.queues && h >= N && i <= |k.queues[h]|
    ensures Has(k.links, HeadOf(h)) && k.links.next[HeadOf(h)] == After(HeadOf(h), k.queues[h], 0)
    ensures IsEmpty(k.links, HeadOf(h)) <==> k.queues[h] == []
    ensures After(HeadOf(h), k.queues[h], i) == HeadOf(h) <==> i == |k.queues[h]|
    ensures i < |k.queues[h]| ==>
      Has(k.links, k.queues[h][i]) && k.links.next[k.queues[h][i]] == After(HeadOf(h), k.queues[h], i + 1)
    ensures i < |k.queues[h]| ==> k.queues[h][i] in k.prio && k.queues[h][i] in k.stat && k.queues[h][i] in k.error
    ensures i < |k.queues[h]| && h > N ==> k.stat[k.queues[h][i]] == Suspended
  {
    hide IndexAgrees, LogOk, Idle;
    var q := k.queues[h];
    RingOf(k.links, k.queues, k.stat.Keys, h);
    EmptyRing(k.links, HeadOf(h), q);
    RingEnds(k.links, HeadOf(h), q);
    if i < |q| {
      RingNeighbours(k.links, HeadOf(h), q, i);
      assert On(k.queues, h, q[i]);
      assert KernelState.Fits(k, N, h, q[i]);
    }
  }

  /** A ready thread is on no wait list. */
  lemma NotWaiting(k: Kernel, N: nat, h: nat, t: int)
    requires KernelState.Ok(k, N) && h in k.queues && h > N && t in k.stat && k.stat[t] == Ready
    ensures h in Off(k.queues, t) && Off(k.queues, t)[h] == k.queues[h]
  {
    hide IndexAgrees, LogOk, Idle, Ring, Less;
    assert On(k.queues, h, t) ==> KernelState.Fits(k, N, h, t);
    RingOf(k.links, k.queues, k.stat.Keys, h);
    RingApart(k.links, HeadOf(h), k.queues[h]);
    LessIs(k.queues[h], t);
  }

  /** A ready thread is on no wait list. */
  lemma AwayFrom(k: Kernel, N: nat, h: nat, t: int)
    requires KernelState.Ok(k, N) && h in k.queues && h > N && t in k.stat && k.stat[t] == Ready
    ensures t !in k.queues[h]
  {
    assert On(k.queues, h, t) ==> KernelState.Fits(k, N, h, t);
  }

  /** A wait list after waking thread t. */
  lemma QueueLess(k: Kernel, k': Kernel, N: nat, h: nat, t: int)
    requires KernelState.Ok(k, N) && h > N && h in k.queues && t in k.prio
    requires k.prio[t] in Off(k.queues, t)
      && k'.queues == Off(k.queues, t)[k.prio[t] := Off(k.queues, t)[k.prio[t]] + [t]]
    ensures h in k'.queues && k'.queues[h] == Less(k.queues[h], t)
    ensures forall x :: x in Less(k.queues[h], t) <==> x in k.queues[h] && x != t
  {
    hide IndexAgrees, LogOk, Ring, Less;
    RingOf(k.links, k.queues, k.stat.Keys, h);
    RingApart(k.links, HeadOf(h), k.queues[h]);
    LessIs(k.queues[h], t);
  }

  lemma JoiningPlace(q: seq<int>, prio: map<int, nat>, flag: Flag, t: int)
    requires t in prio
    ensures Place(q, prio, flag, t) <= |q| && Joining(q, prio, flag, t) == Inserted(q, Place(q, prio, flag, t), t)
  {
  }

  lemma FifoPlace(q: seq<int>, prio: map<int, nat>, t: int)
    requires t in prio
    ensures Place(q, prio, Fifo, t) == |q|
  {
  }

  /** Waking the first of a list leaves the rest of it. */
  lemma WokenQueue(k: Kernel, k': Kernel, N: nat, h: nat, t: int, why: Why, err: Err)
    requires KernelState.Ok(k, N) && h in k.queues && h > N && k.queues[h] != [] && k.queues[h][0] == t
    requires t in k.error && IsWoken(k.(error := k.error[t := err]), k', t, why)
    ensures h in k'.queues && k'.queues[h] == k.queues[h][1..]
  {
    hide IndexAgrees, LogOk, Idle, Ring, Less;
    assert On(k.queues, h, t);
    RingOf(k.links, k.queues, k.stat.Keys, h);
    RingApart(k.links, HeadOf(h), k.queues[h]);
    LessIs(k.queues[h], t);
    assert Dropped(k.queues[h], 0) == k.queues[h][1..];
  }

  lemma OffAt(queues: map<nat, seq<int>>, p: nat, t: int)
    requires p in queues
    ensures p in Off(queues, t) && Off(queues, t)[p] == Less(queues[p], t)
  {
  }

  /** The node behind the head of a list is not a loose thread. */
  lemma InFront(k: Kernel, N: nat, h: nat, t: int)
    requires KernelState.Ok(k, N) && h in k.queues && t in k.stat && Loose(k.queues, t)
    ensures Has(k.links, HeadOf(h)) && HeadOf(h) != t && k.links.next[HeadOf(h)] != t
    ensures k.links.next[HeadOf(h)] == After(HeadOf(h), k.queues[h], 0)
  {
    hide IndexAgrees, LogOk, Idle, PlacesOk;
    RingOf(k.links, k.queues, k.stat.Keys, h);
    RingEnds(k.links, HeadOf(h), k.queues[h]);
    assert !On(k.queues, h, t);
  }

  lemma LessFirst(q: seq<int>)
    requires q != []
    ensures Less(q, q[0]) + [q[0]] == q[1..] + [q[0]]
  {
  }

  lemma HeadOfQueue(k: Kernel, N: nat, p: nat)
    requires KernelState.Ok(k, N) && p < N && p in k.queues && k.queues[p] != []
    ensures k.queues[p][0] in k.stat && k.stat[k.queues[p][0]] == Ready && k.queues[p][0] in k.prio
      && k.prio[k.queues[p][0]] == p
  {
    assert On(k.queues, p, k.queues[p][0]);
    assert KernelState.Fits(k, N, p, k.queues[p][0]);
  }

  lemma OneOnly(q: seq<int>, t: int)
    requires |q| <= 1 && t in q
    ensures Less(q, t) + [t] == q
  {
  }

  lemma FreshKernel(k: Kernel, N: nat, threads: set<int>)
    requires (forall t :: t in threads ==> t >= 0) && k.prio.Keys == threads
    requires (forall t :: t in k.prio ==> k.prio[t] < N) && k.stat.Keys == threads && k.error.Keys == threads
    requires (forall t :: t in k.stat ==> k.stat[t] == Init) && k.armed == {} && k.log == []
    requires forall h: nat :: h <= N ==> h in k.queues
    requires forall h: nat :: h in k.queues ==> k.queues[h] == [] && Idle(k.links, HeadOf(h))
    requires forall t :: t in threads ==> Idle(k.links, t)
    requires k.index == OneWord(0) || k.index == TwoLevel(0, seq(32, _ => 0))
    requires N <= Limit(k.index)
    ensures KernelState.Ok(k, N)
  {
    hide Bit;
    forall h: nat | h in k.queues ensures Ring(k.links, HeadOf(h), k.queues[h]) {
      assert JoinedAt(k.links, HeadOf(h), [], 0);
    }
    forall n ensures !Bit(0, n) {
      ZeroBit(n);
    }
    forall p: nat ensures !Marked(k.index, p) {
    }
  }
}
