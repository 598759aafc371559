/**
 The message queue of src/ipc.c. Messages live in fixed blocks of a pool; send and
 receive take a block out of a list with interrupts disabled, copy bytes with interrupts
 enabled, and put the block back with interrupts disabled. The steps of different
 threads may interleave in any way, also between two bytes of a copy.

 `Bounded` is the simple form: a deque of byte strings with a bound on its messages and
 in-flight copies together, with no blocks and no pointers. `MsgQueue` is the code's own
 form, proved to refine it while each block has exactly one owner.
 */
module BoundedDeque {
  type Data = seq<bv8>

  /** A thread inside send or receive: `left` counts its steps outside critical sections. */
  datatype Proc =
    | Sender(data: Data, urgent: bool, left: nat)
    | Receiver(data: Data, want: nat, left: nat)

  /** The queue, the threads inside a call, and what has been linked, taken, dropped by a
      reset and handed to receivers so far. */
  datatype Bounded = Bounded(queue: seq<Data>, procs: map<nat, Proc>,
                             linked: seq<Data>, taken: seq<Data>, dropped: seq<Data>, delivered: seq<Data>)

  datatype Event =
    | SendBegin(pid: nat, data: Data, urgent: bool)
    | Work(pid: nat)
    | Link(pid: nat)
    | RecvBegin(pid: nat, want: nat)
    | Finish(pid: nat)
    | Reset

  const Empty := Bounded([], map[], [], [], [], [])

  function Min(a: nat, b: nat): nat { if a < b then a else b }

  predicate Admits(b: Bounded, msgSize: nat, maxMsgs: nat, pid: nat, data: Data) {
    pid !in b.procs && 0 < |data| <= msgSize && |b.queue| + |b.procs| < maxMsgs
  }

  /** One step of one thread; a step that is not enabled does nothing. */
  function Step(b: Bounded, msgSize: nat, maxMsgs: nat, e: Event): Bounded {
    match e
    case SendBegin(pid, data, urgent) =>
      if Admits(b, msgSize, maxMsgs, pid, data)
      then b.(procs := b.procs[pid := Sender(data, urgent, |data| + if urgent then 0 else 1)])
      else b
    case Work(pid) =>
      if pid in b.procs && b.procs[pid].left > 0
      then b.(procs := b.procs[pid := b.procs[pid].(left := b.procs[pid].left - 1)])
      else b
    case Link(pid) =>
      if pid in b.procs && b.procs[pid].Sender? && b.procs[pid].left == 0
      then
        var p := b.procs[pid];
        b.(procs := b.procs - {pid},
           queue := if p.urgent then [p.data] + b.queue else b.queue + [p.data],
           linked := b.linked + [p.data])
      else b
    case RecvBegin(pid, want) =>
      if pid !in b.procs && want > 0 && b.queue != []
      then b.(procs := b.procs[pid := Receiver(b.queue[0], want, Min(want, msgSize))],
              queue := b.queue[1..],
              taken := b.taken + [b.queue[0]])
      else b
    case Finish(pid) =>
      if pid in b.procs && b.procs[pid].Receiver? && b.procs[pid].left == 0
      then b.(procs := b.procs - {pid},
              delivered := b.delivered + [b.procs[pid].data[..Min(|b.procs[pid].data|, b.procs[pid].want)]])
      else b
    case Reset => b.(queue := [], dropped := b.dropped + b.queue)
  }

  function Run(b: Bounded, msgSize: nat, maxMsgs: nat, es: seq<Event>): Bounded
    decreases |es|
  {
    if es == [] then b else Run(Step(b, msgSize, maxMsgs, es[0]), msgSize, maxMsgs, es[1..])
  }

  /** No message is lost, duplicated or made up: what was linked is queued, taken or dropped. */
  ghost predicate Conserved(b: Bounded) {
    multiset(b.linked) == multiset(b.taken) + multiset(b.queue) + multiset(b.dropped)
  }

  lemma StepConserves(b: Bounded, msgSize: nat, maxMsgs: nat, e: Event)
    requires Conserved(b)
    ensures Conserved(Step(b, msgSize, maxMsgs, e))
  {
    if e.RecvBegin? && b.queue != [] {
      assert b.queue == [b.queue[0]] + b.queue[1..];
    }
  }

  lemma KeyAdded<V>(m: map<nat, V>, k: nat, v: V)
    ensures |m[k := v]| == if k in m then |m| else |m| + 1
  {
    assert m[k := v].Keys == m.Keys + {k};
  }

  lemma KeyDropped<V>(m: map<nat, V>, k: nat)
    requires k in m
    ensures |m - {k}| == |m| - 1
  {
    assert (m - {k}).Keys == m.Keys - {k};
  }

  /** Queued messages and in-flight copies together never exceed the blocks of the pool. */
  lemma StepBounded(b: Bounded, msgSize: nat, maxMsgs: nat, e: Event)
    requires |b.queue| + |b.procs| <= maxMsgs
    ensures var b' := Step(b, msgSize, maxMsgs, e); |b'.queue| + |b'.procs| <= maxMsgs
  {
    if !e.Reset? {
      var b' := Step(b, msgSize, maxMsgs, e);
      if e.pid in b'.procs {
        KeyAdded(b.procs, e.pid, b'.procs[e.pid]);
      } else if e.pid in b.procs {
        KeyDropped(b.procs, e.pid);
      }
    }
  }

  /** In every run messages are conserved and the pool is never over-committed. */
  lemma {:induction false} RunConserves(b: Bounded, msgSize: nat, maxMsgs: nat, es: seq<Event>)
    requires Conserved(b) && |b.queue| + |b.procs| <= maxMsgs
    ensures var b' := Run(b, msgSize, maxMsgs, es); Conserved(b') && |b'.queue| + |b'.procs| <= maxMsgs
    decreases |es|
  {
    if es != [] {
      StepConserves(b, msgSize, maxMsgs, es[0]);
      StepBounded(b, msgSize, maxMsgs, es[0]);
      RunConserves(Step(b, msgSize, maxMsgs, es[0]), msgSize, maxMsgs, es[1..]);
    }
  }

  predicate Plain(p: Proc) {
    p.Sender? ==> !p.urgent
  }

  /** Without urgent messages and resets, messages are taken in the order they were linked. */
  lemma {:induction false} RunIsFifo(b: Bounded, msgSize: nat, maxMsgs: nat, es: seq<Event>)
    requires b.linked == b.taken + b.queue
    requires forall pid :: pid in b.procs ==> Plain(b.procs[pid])
    requires forall i :: 0 <= i < |es| ==> es[i] != Reset && (es[i].SendBegin? ==> !es[i].urgent)
    ensures var b' := Run(b, msgSize, maxMsgs, es); b'.linked == b'.taken + b'.queue
    decreases |es|
  {
    if es != [] {
      var b1 := Step(b, msgSize, maxMsgs, es[0]);
      if es[0].RecvBegin? && b1 != b {
        assert b.queue == [b.queue[0]] + b.queue[1..];
      }
      assert forall i :: 0 <= i < |es[1..]| ==> es[1..][i] == es[i + 1];
      RunIsFifo(b1, msgSize, maxMsgs, es[1..]);
    }
  }
}

module MsgQueue {
  import opened BoundedDeque

  /** Blocks of the pool are numbered from 1; 0 is RT_NULL. */
  const NULL: nat := 0

  datatype Status = OK | ERROR | FULL | EMPTY

  /** Where a thread inside a call is: its block, and how far its copy has come. */
  datatype Pc =
    | Sending(msg: nat, data: Data, urgent: bool, cleared: bool, copied: nat)
    | Receiving(msg: nat, want: nat, buf: Data)

  datatype Owner = Free | Queued | Held(pid: nat)

  // ----- chains of blocks -----

  function At(s: seq<nat>, k: nat): nat {
    if k < |s| then s[k] else NULL
  }

  ghost predicate LinkedAt(next: map<nat, nat>, s: seq<nat>, k: nat)
    requires k < |s|
  {
    s[k] != NULL && s[k] in next && next[s[k]] == At(s, k + 1)
  }

  /** Following `next` from `head` meets the blocks of `s` and then RT_NULL. */
  ghost predicate Chain(next: map<nat, nat>, head: nat, s: seq<nat>) {
    && head == At(s, 0)
    && (forall i, j :: 0 <= i < j < |s| ==> s[i] != s[j])
    && (forall k :: 0 <= k < |s| ==> LinkedAt(next, s, k))
  }

  lemma ChainPush(next: map<nat, nat>, head: nat, s: seq<nat>, n: nat)
    requires Chain(next, head, s) && n !in s && n != NULL
    ensures Chain(next[n := head], n, [n] + s)
  {
    var t, m := [n] + s, next[n := head];
    forall k | 0 <= k < |t| ensures LinkedAt(m, t, k) {
      if k > 0 {
        assert LinkedAt(next, s, k - 1) && s[k - 1] in s;
      }
    }
  }

  lemma ChainPop(next: map<nat, nat>, head: nat, s: seq<nat>)
    requires Chain(next, head, s) && s != []
    ensures head in next && head != NULL && Chain(next, next[head], s[1..]) && head !in s[1..]
  {
    assert LinkedAt(next, s, 0);
    forall k | 0 <= k < |s[1..]| ensures LinkedAt(next, s[1..], k) {
      assert LinkedAt(next, s, k + 1);
    }
  }

  /** A block whose `next` is RT_NULL goes behind the last one. */
  lemma ChainAppend(next: map<nat, nat>, head: nat, s: seq<nat>, n: nat)
    requires Chain(next, head, s) && n !in s && n != NULL && n in next && next[n] == NULL
    ensures s == [] ==> Chain(next, n, [n])
    ensures s != [] ==> Chain(next[s[|s| - 1] := n], head, s + [n])
  {
    if s != [] {
      var t, m := s + [n], next[s[|s| - 1] := n];
      forall k | 0 <= k < |t| ensures LinkedAt(m, t, k) {
        if k < |s| {
          assert LinkedAt(next, s, k) && s[k] in s;
        }
      }
    }
  }

  lemma ChainFrame(next: map<nat, nat>, next': map<nat, nat>, head: nat, s: seq<nat>)
    requires Chain(next, head, s)
    requires forall k :: 0 <= k < |s| ==> s[k] in next' && (s[k] in next ==> next'[s[k]] == next[s[k]])
    ensures Chain(next', head, s)
  {
    forall k | 0 <= k < |s| ensures LinkedAt(next', s, k) {
      assert LinkedAt(next, s, k);
    }
  }

  // ----- who owns which block -----

  ghost predicate OwnsAll(owner: map<nat, Owner>, s: seq<nat>, o: Owner) {
    && (forall k :: 0 <= k < |s| ==> s[k] in owner && owner[s[k]] == o)
    && (forall m :: m in owner && owner[m] == o ==> m in s)
  }

  ghost predicate Holders(owner: map<nat, Owner>, pcs: map<nat, Pc>) {
    && (forall pid :: pid in pcs ==> pcs[pid].msg in owner && owner[pcs[pid].msg] == Held(pid))
    && (forall m :: m in owner && owner[m].Held? ==> owner[m].pid in pcs && pcs[owner[m].pid].msg == m)
  }

  /** Each block is on the free list, in the queue, or held by one thread. */
  ghost predicate Owned(owner: map<nat, Owner>, free: seq<nat>, queue: seq<nat>, pcs: map<nat, Pc>) {
    OwnsAll(owner, free, Free) && OwnsAll(owner, queue, Queued) && Holders(owner, pcs)
  }

  // ----- what is in the blocks -----

  predicate Contains(block: Data, data: Data) {
    data <= block
  }

  ghost predicate QueueHolds(payload: map<nat, Data>, q: seq<nat>, queue: seq<Data>) {
    |q| == |queue| && forall k :: 0 <= k < |q| ==> q[k] in payload && Contains(payload[q[k]], queue[k])
  }

  /** A thread's block and local state agree with its simple form. */
  ghost predicate ProcOk(c: Pc, p: Proc, next: map<nat, nat>, payload: map<nat, Data>, msgSize: nat) {
    c.msg in next && c.msg in payload &&
    match c
    case Sending(m, data, urgent, cleared, copied) =>
      && p.Sender? && p.data == data && p.urgent == urgent
      && copied <= |data| <= msgSize
      && p.left == |data| - copied + (if urgent || cleared then 0 else 1)
      && (urgent || cleared || copied == 0)
      && (!urgent && cleared ==> next[m] == NULL)
      && copied <= |payload[m]| && payload[m][..copied] == data[..copied]
    case Receiving(m, want, buf) =>
      && p.Receiver? && p.want == want
      && |buf| + p.left == Min(want, msgSize)
      && buf <= payload[m] && Contains(payload[m], p.data)
  }

  ghost predicate ProcsOk(pcs: map<nat, Pc>, procs: map<nat, Proc>, next: map<nat, nat>, payload: map<nat, Data>,
      msgSize: nat) {
    && pcs.Keys == procs.Keys
    && forall pid :: pid in pcs && pid in procs ==> ProcOk(pcs[pid], procs[pid], next, payload, msgSize)
  }

  ghost predicate PoolOk(next: map<nat, nat>, payload: map<nat, Data>, owner: map<nat, Owner>, msgSize: nat) {
    && next.Keys == payload.Keys == owner.Keys && NULL !in owner
    && forall m :: m in payload ==> |payload[m]| == msgSize
  }

  /** What one thread does outside the critical sections does not touch another's block. */
  lemma OthersOk(pcs: map<nat, Pc>, procs: map<nat, Proc>, owner: map<nat, Owner>, pid: nat, msgSize: nat,
                 next: map<nat, nat>, payload: map<nat, Data>, next': map<nat, nat>, payload': map<nat, Data>)
    requires ProcsOk(pcs, procs, next, payload, msgSize) && Holders(owner, pcs)
    requires next'.Keys >= next.Keys && payload'.Keys >= payload.Keys
    requires forall m :: m in owner && owner[m] != Held(pid) && owner[m].Held? ==>
      (m in next ==> next'[m] == next[m]) && (m in payload ==> payload'[m] == payload[m])
    ensures forall x :: x in pcs && x in procs && x != pid ==> ProcOk(pcs[x], procs[x], next', payload', msgSize)
  {
    forall x | x in pcs && x in procs && x != pid ensures ProcOk(pcs[x], procs[x], next', payload', msgSize) {
      assert ProcOk(pcs[x], procs[x], next, payload, msgSize);
      assert owner[pcs[x].msg] == Held(x);
    }
  }

  // ----- how each step keeps the parts of the invariant -----

  lemma TakeFree(owner: map<nat, Owner>, fl: seq<nat>, q: seq<nat>, pcs: map<nat, Pc>, pid: nat, c: Pc)
    requires Owned(owner, fl, q, pcs) && fl != [] && fl[0] !in fl[1..] && pid !in pcs && c.msg == fl[0]
    ensures Owned(owner[fl[0] := Held(pid)], fl[1..], q, pcs[pid := c])
  {
  }

  lemma TakeQueued(owner: map<nat, Owner>, fl: seq<nat>, q: seq<nat>, pcs: map<nat, Pc>, pid: nat, c: Pc)
    requires Owned(owner, fl, q, pcs) && q != [] && q[0] !in q[1..] && pid !in pcs && c.msg == q[0]
    ensures Owned(owner[q[0] := Held(pid)], fl, q[1..], pcs[pid := c])
  {
  }

  lemma GiveFree(owner: map<nat, Owner>, fl: seq<nat>, q: seq<nat>, pcs: map<nat, Pc>, pid: nat)
    requires Owned(owner, fl, q, pcs) && pid in pcs
    ensures Owned(owner[pcs[pid].msg := Free], [pcs[pid].msg] + fl, q, pcs - {pid})
  {
    var m := pcs[pid].msg;
    assert ([m] + fl)[0] == m && forall x :: x in fl ==> x in [m] + fl;
  }

  lemma GiveQueued(owner: map<nat, Owner>, fl: seq<nat>, q: seq<nat>, pcs: map<nat, Pc>, pid: nat, q': seq<nat>)
    requires Owned(owner, fl, q, pcs) && pid in pcs
    requires q' == q + [pcs[pid].msg] || q' == [pcs[pid].msg] + q
    ensures Owned(owner[pcs[pid].msg := Queued], fl, q', pcs - {pid})
  {
    assert forall x :: x in q' <==> x in q || x == pcs[pid].msg;
  }

  /** A block leaves the queue for the free list. */
  lemma MoveFree(owner: map<nat, Owner>, fl: seq<nat>, q: seq<nat>, pcs: map<nat, Pc>)
    requires Owned(owner, fl, q, pcs) && q != [] && q[0] !in q[1..]
    ensures Owned(owner[q[0] := Free], [q[0]] + fl, q[1..], pcs) && q[0] !in fl
  {
    assert forall x :: x in [q[0]] + fl <==> x in fl || x == q[0];
  }

  lemma SameHolder(owner: map<nat, Owner>, fl: seq<nat>, q: seq<nat>, pcs: map<nat, Pc>, pid: nat, c: Pc)
    requires Owned(owner, fl, q, pcs) && pid in pcs && c.msg == pcs[pid].msg
    ensures Owned(owner, fl, q, pcs[pid := c])
  {
  }

  /** A held block is on neither list. */
  lemma HeldApart(owner: map<nat, Owner>, fl: seq<nat>, q: seq<nat>, pcs: map<nat, Pc>, pid: nat)
    requires Owned(owner, fl, q, pcs) && pid in pcs
    ensures pcs[pid].msg in owner && pcs[pid].msg !in fl && pcs[pid].msg !in q
  {
  }

  lemma ListsApart(owner: map<nat, Owner>, fl: seq<nat>, q: seq<nat>, pcs: map<nat, Pc>)
    requires Owned(owner, fl, q, pcs)
    ensures forall k, j :: 0 <= k < |fl| && 0 <= j < |q| ==> fl[k] != q[j]
    ensures forall k :: 0 <= k < |fl| ==> fl[k] in owner
    ensures forall k :: 0 <= k < |q| ==> q[k] in owner
  {
  }

  /** Writing the `next` of a block off a chain leaves the chain. */
  lemma ChainApart(next: map<nat, nat>, head: nat, s: seq<nat>, m: nat, v: nat)
    requires Chain(next, head, s) && m !in s
    ensures Chain(next[m := v], head, s)
  {
    forall k | 0 <= k < |s| ensures s[k] != m && s[k] in next {
      assert s[k] in s && LinkedAt(next, s, k);
    }
    ChainFrame(next, next[m := v], head, s);
  }

  /** A thread enters a call with a block nobody else holds. */
  lemma ProcsAdd(pcs: map<nat, Pc>, procs: map<nat, Proc>, next: map<nat, nat>, payload: map<nat, Data>, msgSize: nat,
                 pid: nat, c: Pc, p: Proc)
    requires ProcsOk(pcs, procs, next, payload, msgSize) && ProcOk(c, p, next, payload, msgSize)
    ensures ProcsOk(pcs[pid := c], procs[pid := p], next, payload, msgSize)
  {
  }

  /** A thread leaves its call, and its block's `next` is written. */
  lemma ProcsLeave(pcs: map<nat, Pc>, procs: map<nat, Proc>, owner: map<nat, Owner>, next: map<nat, nat>,
                   next': map<nat, nat>, payload: map<nat, Data>, msgSize: nat, pid: nat)
    requires ProcsOk(pcs, procs, next, payload, msgSize) && Holders(owner, pcs) && pid in pcs
    requires next'.Keys >= next.Keys
    requires forall m :: m in owner && owner[m].Held? && owner[m] != Held(pid) && m in next ==> next'[m] == next[m]
    ensures ProcsOk(pcs - {pid}, procs - {pid}, next', payload, msgSize)
  {
    OthersOk(pcs, procs, owner, pid, msgSize, next, payload, next', payload);
  }

  /** Writing the `next` of a block that no thread holds disturbs no thread. */
  lemma ProcsFrame(pcs: map<nat, Pc>, procs: map<nat, Proc>, owner: map<nat, Owner>, next: map<nat, nat>,
                   payload: map<nat, Data>, msgSize: nat, m: nat, v: nat)
    requires ProcsOk(pcs, procs, next, payload, msgSize) && Holders(owner, pcs) && m in owner && !owner[m].Held?
    ensures ProcsOk(pcs, procs, next[m := v], payload, msgSize)
  {
    forall x | x in pcs && x in procs ensures ProcOk(pcs[x], procs[x], next[m := v], payload, msgSize) {
      assert ProcOk(pcs[x], procs[x], next, payload, msgSize) && owner[pcs[x].msg] == Held(x);
    }
  }

  /** A thread's own step: its local state, its simple form and its block change together. */
  lemma ProcsOwn(pcs: map<nat, Pc>, procs: map<nat, Proc>, owner: map<nat, Owner>, msgSize: nat, pid: nat, c: Pc,
      p: Proc, next: map<nat, nat>, payload: map<nat, Data>, next': map<nat, nat>, payload': map<nat, Data>)
    requires ProcsOk(pcs, procs, next, payload, msgSize) && Holders(owner, pcs) && pid in pcs
    requires next'.Keys == next.Keys && payload'.Keys == payload.Keys
    requires forall m :: m in next && m != pcs[pid].msg ==> next'[m] == next[m]
    requires forall m :: m in payload && m != pcs[pid].msg ==> payload'[m] == payload[m]
    requires ProcOk(c, p, next', payload', msgSize)
    ensures ProcsOk(pcs[pid := c], procs[pid := p], next', payload', msgSize)
  {
    OthersOk(pcs, procs, owner, pid, msgSize, next, payload, next', payload');
  }

  lemma QueueHoldsApart(payload: map<nat, Data>, q: seq<nat>, queue: seq<Data>, m: nat, v: Data)
    requires QueueHolds(payload, q, queue) && m !in q
    ensures QueueHolds(payload[m := v], q, queue)
  {
  }

  /** The fields of a message queue with what is known of them. */
  datatype State = State(next: map<nat, nat>, payload: map<nat, Data>, head: nat, tail: nat, free: nat,
                         pcs: map<nat, Pc>, procs: map<nat, Proc>, q: seq<nat>, fl: seq<nat>, owner: map<nat, Owner>)

  /** Everything but the message count, for the queue contents `queue`. */
  ghost predicate Linked(s: State, queue: seq<Data>, msgSize: nat, maxMsgs: nat) {
    && PoolOk(s.next, s.payload, s.owner, msgSize)
    && Chain(s.next, s.head, s.q) && s.tail == (if s.q == [] then NULL else s.q[|s.q| - 1])
    && Chain(s.next, s.free, s.fl)
    && Owned(s.owner, s.fl, s.q, s.pcs)
    && QueueHolds(s.payload, s.q, queue)
    && ProcsOk(s.pcs, s.procs, s.next, s.payload, msgSize)
    && |s.fl| + |s.q| + |s.pcs| == maxMsgs
  }

  lemma SendBeginKeeps(s: State, queue: seq<Data>, msgSize: nat, maxMsgs: nat, pid: nat, data: Data, urgent: bool)
    requires Linked(s, queue, msgSize, maxMsgs) && pid !in s.pcs && |data| <= msgSize
    ensures s.pcs.Keys == s.procs.Keys && |queue| == |s.q| && |s.procs| == |s.pcs|
    ensures s.free == NULL <==> |queue| + |s.procs| == maxMsgs
    ensures s.free != NULL ==> s.free in s.next && s.fl != [] && Linked(
        s.(free := s.next[s.free], fl := s.fl[1..], owner := s.owner[s.free := Held(pid)],
           pcs := s.pcs[pid := Sending(s.free, data, urgent, false, 0)],
           procs := s.procs[pid := Sender(data, urgent, |data| + if urgent then 0 else 1)]), queue, msgSize, maxMsgs)
  {
    hide Owned, QueueHolds, ProcsOk, ProcOk, Chain, PoolOk;
    SameSizes(s.pcs, s.procs, s.next, s.payload, msgSize, s.q, queue);
    ChainFront(s.next, s.free, s.fl);
    if s.fl != [] {
      ChainPop(s.next, s.free, s.fl);
      var c, p := Sending(s.free, data, urgent, false, 0), Sender(data, urgent, |data| + if urgent then 0 else 1);
      TakeFree(s.owner, s.fl, s.q, s.pcs, pid, c);
      KeyAdded(s.pcs, pid, c);
      FreshSender(s.next, s.payload, s.owner, s.fl, s.q, s.pcs, msgSize, c, p, pid);
      ProcsAdd(s.pcs, s.procs, s.next, s.payload, msgSize, pid, c, p);
    }
  }

  lemma ClearNextKeeps(s: State, queue: seq<Data>, msgSize: nat, maxMsgs: nat, pid: nat)
    requires Linked(s, queue, msgSize, maxMsgs) && pid in s.pcs
    requires s.pcs[pid].Sending? && !s.pcs[pid].urgent && !s.pcs[pid].cleared
    ensures pid in s.procs && s.procs[pid].Sender? && s.procs[pid].left > 0
    ensures var c, p := s.pcs[pid], s.procs[pid];
      Linked(s.(next := s.next[c.msg := NULL], pcs := s.pcs[pid := c.(cleared := true)],
                procs := s.procs[pid := Sender(p.data, p.urgent, p.left - 1)]), queue, msgSize, maxMsgs)
  {
    hide Owned, QueueHolds, ProcsOk, Chain, PoolOk, Holders;
    ThreadFacts(s.pcs, s.procs, s.next, s.payload, s.owner, s.fl, s.q, msgSize, pid);
    var c, p := s.pcs[pid], s.procs[pid];
    var next', c', p' := s.next[c.msg := NULL], c.(cleared := true), Sender(p.data, p.urgent, p.left - 1);
    WroteNext(s.next, s.payload, s.owner, s.head, s.q, s.free, s.fl, msgSize, c.msg, NULL);
    SameKeys(s.next, c.msg, NULL);
    ProcsOwn(s.pcs, s.procs, s.owner, msgSize, pid, c', p', s.next, s.payload, next', s.payload);
    SameHolder(s.owner, s.fl, s.q, s.pcs, pid, c');
    KeyAdded(s.pcs, pid, c');
  }

  lemma CopyInKeeps(s: State, queue: seq<Data>, msgSize: nat, maxMsgs: nat, pid: nat)
    requires Linked(s, queue, msgSize, maxMsgs) && pid in s.pcs
    requires s.pcs[pid].Sending? && (s.pcs[pid].urgent || s.pcs[pid].cleared) && s.pcs[pid].copied < |s.pcs[pid].data|
    ensures pid in s.procs && s.procs[pid].Sender? && s.procs[pid].left > 0
    ensures s.pcs[pid].msg in s.payload && s.pcs[pid].copied < |s.payload[s.pcs[pid].msg]|
    ensures var c, p := s.pcs[pid], s.procs[pid];
      Linked(s.(payload := s.payload[c.msg := s.payload[c.msg][c.copied := c.data[c.copied]]],
                pcs := s.pcs[pid := c.(copied := c.copied + 1)],
                procs := s.procs[pid := Sender(p.data, p.urgent, p.left - 1)]), queue, msgSize, maxMsgs)
  {
    hide Owned, QueueHolds, ProcsOk, Chain, PoolOk, Holders;
    ThreadFacts(s.pcs, s.procs, s.next, s.payload, s.owner, s.fl, s.q, msgSize, pid);
    var c, p := s.pcs[pid], s.procs[pid];
    var block := s.payload[c.msg][c.copied := c.data[c.copied]];
    var payload', c', p' := s.payload[c.msg := block], c.(copied := c.copied + 1), Sender(p.data, p.urgent, p.left - 1);
    ByteCopied(s.payload[c.msg], c.data, c.copied);
    WrotePayload(s.next, s.payload, s.owner, s.q, queue, msgSize, c.msg, block);
    SameKeys(s.payload, c.msg, block);
    ProcsOwn(s.pcs, s.procs, s.owner, msgSize, pid, c', p', s.next, s.payload, s.next, payload');
    SameHolder(s.owner, s.fl, s.q, s.pcs, pid, c');
    KeyAdded(s.pcs, pid, c');
  }

  lemma CopyOutKeeps(s: State, queue: seq<Data>, msgSize: nat, maxMsgs: nat, pid: nat)
    requires Linked(s, queue, msgSize, maxMsgs) && pid in s.pcs
    requires s.pcs[pid].Receiving? && |s.pcs[pid].buf| < Min(s.pcs[pid].want, msgSize)
    ensures pid in s.procs && s.procs[pid].Receiver? && s.procs[pid].left > 0
    ensures s.pcs[pid].msg in s.payload && |s.pcs[pid].buf| < |s.payload[s.pcs[pid].msg]|
    ensures var c, p := s.pcs[pid], s.procs[pid];
      Linked(s.(pcs := s.pcs[pid := c.(buf := c.buf + [s.payload[c.msg][|c.buf|]])],
                procs := s.procs[pid := Receiver(p.data, p.want, p.left - 1)]), queue, msgSize, maxMsgs)
  {
    hide Owned, QueueHolds, ProcsOk, Chain, PoolOk, Holders;
    ThreadFacts(s.pcs, s.procs, s.next, s.payload, s.owner, s.fl, s.q, msgSize, pid);
    var c, p := s.pcs[pid], s.procs[pid];
    var c', p' := c.(buf := c.buf + [s.payload[c.msg][|c.buf|]]), Receiver(p.data, p.want, p.left - 1);
    ProcsOwn(s.pcs, s.procs, s.owner, msgSize, pid, c', p', s.next, s.payload, s.next, s.payload);
    SameHolder(s.owner, s.fl, s.q, s.pcs, pid, c');
    KeyAdded(s.pcs, pid, c');
  }

  lemma LinkTailKeeps(s: State, queue: seq<Data>, msgSize: nat, maxMsgs: nat, pid: nat)
    requires Linked(s, queue, msgSize, maxMsgs) && pid in s.pcs
    requires s.pcs[pid].Sending? && !s.pcs[pid].urgent && s.pcs[pid].cleared && s.pcs[pid].copied == |s.pcs[pid].data|
    ensures pid in s.procs && s.procs[pid].Sender? && s.procs[pid].left == 0 && !s.procs[pid].urgent
    ensures s.tail != NULL ==> s.tail in s.next
    ensures var m := s.pcs[pid].msg;
      Linked(s.(next := if s.tail != NULL then s.next[s.tail := m] else s.next, tail := m,
                head := if s.head == NULL then m else s.head, q := s.q + [m], owner := s.owner[m := Queued],
                pcs := s.pcs - {pid}, procs := s.procs - {pid}), queue + [s.procs[pid].data], msgSize, maxMsgs)
  {
    hide Owned, QueueHolds, ProcsOk, Chain, PoolOk, Holders;
    ThreadFacts(s.pcs, s.procs, s.next, s.payload, s.owner, s.fl, s.q, msgSize, pid);
    var m := s.pcs[pid].msg;
    ChainEnds(s.next, s.head, s.q, s.tail);
    ChainAppend(s.next, s.head, s.q, m);
    var next' := if s.tail != NULL then s.next[s.tail := m] else s.next;
    assert s.q == [] ==> s.q + [m] == [m];
    assert next'.Keys == s.next.Keys;
    LinkedRest(s.next, next', s.payload, s.owner, s.free, s.fl, s.q, s.pcs, s.procs, queue, msgSize, pid);
    GiveQueued(s.owner, s.fl, s.q, s.pcs, pid, s.q + [m]);
    KeyDropped(s.pcs, pid);
  }

  lemma LinkHeadKeeps(s: State, queue: seq<Data>, msgSize: nat, maxMsgs: nat, pid: nat)
    requires Linked(s, queue, msgSize, maxMsgs) && pid in s.pcs
    requires s.pcs[pid].Sending? && s.pcs[pid].urgent && s.pcs[pid].copied == |s.pcs[pid].data|
    ensures pid in s.procs && s.procs[pid].Sender? && s.procs[pid].left == 0 && s.procs[pid].urgent
    ensures var m := s.pcs[pid].msg;
      Linked(s.(next := s.next[m := s.head], head := m, tail := if s.tail == NULL then m else s.tail,
                q := [m] + s.q, owner := s.owner[m := Queued],
                pcs := s.pcs - {pid}, procs := s.procs - {pid}), [s.procs[pid].data] + queue, msgSize, maxMsgs)
  {
    hide Owned, QueueHolds, ProcsOk, Chain, PoolOk, Holders;
    ThreadFacts(s.pcs, s.procs, s.next, s.payload, s.owner, s.fl, s.q, msgSize, pid);
    var m := s.pcs[pid].msg;
    ChainEnds(s.next, s.head, s.q, s.tail);
    ChainPush(s.next, s.head, s.q, m);
    SameKeys(s.next, m, s.head);
    LinkedRest(s.next, s.next[m := s.head], s.payload, s.owner, s.free, s.fl, s.q, s.pcs, s.procs, queue, msgSize, pid);
    GiveQueued(s.owner, s.fl, s.q, s.pcs, pid, [m] + s.q);
    KeyDropped(s.pcs, pid);
  }

  lemma RecvBeginKeeps(s: State, queue: seq<Data>, msgSize: nat, maxMsgs: nat, pid: nat, want: nat)
    requires Linked(s, queue, msgSize, maxMsgs) && pid !in s.pcs && s.q != []
    ensures pid !in s.procs && |queue| == |s.q| && s.head in s.next && s.head == s.q[0]
    ensures Linked(s.(head := s.next[s.head], tail := if s.tail == s.head then NULL else s.tail, q := s.q[1..],
                      owner := s.owner[s.head := Held(pid)], pcs := s.pcs[pid := Receiving(s.head, want, [])],
                      procs := s.procs[pid := Receiver(queue[0], want, Min(want, msgSize))]),
                    queue[1..], msgSize, maxMsgs)
  {
    hide Owned, QueueHolds, ProcsOk, ProcOk, Chain, PoolOk;
    SameSizes(s.pcs, s.procs, s.next, s.payload, msgSize, s.q, queue);
    ChainFront(s.next, s.head, s.q);
    ChainPop(s.next, s.head, s.q);
    ChainTail(s.next, s.head, s.q);
    var c, p := Receiving(s.head, want, []), Receiver(queue[0], want, Min(want, msgSize));
    TakeQueued(s.owner, s.fl, s.q, s.pcs, pid, c);
    KeyAdded(s.pcs, pid, c);
    FreshReceiver(s.next, s.payload, s.owner, s.fl, s.q, s.pcs, msgSize, c, queue, p, pid);
    ProcsAdd(s.pcs, s.procs, s.next, s.payload, msgSize, pid, c, p);
  }

  lemma FinishKeeps(s: State, queue: seq<Data>, msgSize: nat, maxMsgs: nat, pid: nat)
    requires Linked(s, queue, msgSize, maxMsgs) && pid in s.pcs
    requires s.pcs[pid].Receiving? && |s.pcs[pid].buf| == Min(s.pcs[pid].want, msgSize)
    ensures pid in s.procs && s.procs[pid].Receiver? && s.procs[pid].left == 0 && s.procs[pid].want == s.pcs[pid].want
    ensures var m := s.pcs[pid].msg;
      Linked(s.(next := s.next[m := s.free], free := m, fl := [m] + s.fl, owner := s.owner[m := Free],
                pcs := s.pcs - {pid}, procs := s.procs - {pid}), queue, msgSize, maxMsgs)
    ensures var data, n := s.procs[pid].data, Min(|s.procs[pid].data|, s.procs[pid].want);
      |data| <= msgSize && n <= |s.pcs[pid].buf| && s.pcs[pid].buf[..n] == data[..n]
  {
    hide Owned, QueueHolds, ProcsOk, Chain, PoolOk, Holders;
    ThreadFacts(s.pcs, s.procs, s.next, s.payload, s.owner, s.fl, s.q, msgSize, pid);
    var m := s.pcs[pid].msg;
    ChainPush(s.next, s.free, s.fl, m);
    FinishedRest(s.next, s.payload, s.owner, s.head, s.free, s.fl, s.q, s.pcs, s.procs, msgSize, pid);
    GiveFree(s.owner, s.fl, s.q, s.pcs, pid);
    KeyDropped(s.pcs, pid);
  }

  lemma ResetKeeps(s: State, queue: seq<Data>, msgSize: nat, maxMsgs: nat)
    requires Linked(s, queue, msgSize, maxMsgs)
    ensures (s.head == NULL <==> s.q == []) && |queue| == |s.q|
    ensures s.q != [] ==> s.head in s.next && Linked(
        s.(head := s.next[s.head], tail := if s.tail == s.head then NULL else s.tail, q := s.q[1..],
           next := s.next[s.head := s.free], free := s.head, fl := [s.head] + s.fl, owner := s.owner[s.head := Free]),
        queue[1..], msgSize, maxMsgs)
  {
    hide Owned, QueueHolds, ProcsOk, Chain, PoolOk;
    SameSizes(s.pcs, s.procs, s.next, s.payload, msgSize, s.q, queue);
    ChainFront(s.next, s.head, s.q);
    if s.q != [] {
      ChainPop(s.next, s.head, s.q);
      ChainTail(s.next, s.head, s.q);
      MovedRest(s.next, s.payload, s.owner, s.head, s.free, s.fl, s.q, s.pcs, s.procs, queue, msgSize);
      MoveFree(s.owner, s.fl, s.q, s.pcs);
    }
  }

  /** RT_ALIGN to whole words. */
  function Align4(n: nat): nat {
    (n + 3) / 4 * 4
  }

  /** Each block of the pool has a link word in front of its message. */
  function PoolBlocks(poolSize: nat, msgSize: nat): nat {
    poolSize / (msgSize + 4)
  }

  class MessageQueue {
    const msgSize: nat
    const maxMsgs: nat
    var next: map<nat, nat>
    var payload: map<nat, Data>
    var head: nat
    var tail: nat
    var free: nat
    var entry: nat
    var pcs: map<nat, Pc>

    ghost var b: Bounded
    ghost var q: seq<nat>
    ghost var fl: seq<nat>
    ghost var owner: map<nat, Owner>

    ghost function Now(): State
      reads this
    {
      State(next, payload, head, tail, free, pcs, b.procs, q, fl, owner)
    }

    ghost predicate Valid()
      reads this
    {
      Linked(Now(), b.queue, msgSize, maxMsgs) && entry == |q| == |b.queue|
    }

    /** rt_mq_init: the block size is rounded up to whole words, and all blocks are free. */
    constructor (size: nat, poolSize: nat)
      ensures Valid() && b == Empty && msgSize == Align4(size) && maxMsgs == PoolBlocks(poolSize, msgSize)
    {
      hide Chain, PoolOk, OwnsAll, AllFree, Owned, QueueHolds, ProcsOk, Align4, PoolBlocks;
      msgSize := Align4(size);
      maxMsgs := PoolBlocks(poolSize, Align4(size));
      next, payload, pcs := map[], map[], map[];
      head, tail, free, entry := NULL, NULL, NULL, 0;
      b, q, fl, owner := Empty, [], [], map[];
      new;
      InitPool(msgSize);
      var temp := 0;
      while temp < maxMsgs
        modifies this`next, this`payload, this`owner, this`fl, this`free
        invariant 0 <= temp <= maxMsgs
        invariant PoolOk(next, payload, owner, msgSize) && AllFree(owner, temp)
        invariant Chain(next, free, fl) && OwnsAll(owner, fl, Free) && |fl| == temp
      {
        var m := temp + 1;
        AddBlock(next, payload, owner, fl, free, temp, msgSize);
        next := next[m := free];
        payload := payload[m := seq(msgSize, _ => 0)];
        owner := owner[m := Free];
        fl := [m] + fl;
        free := m;
        temp := temp + 1;
      }
      FreshlyOwned(next, payload, owner, fl, temp, msgSize);
    }

    /** rt_mq_send and rt_mq_urgent up to the end of the first critical section: a free block
        is taken. The send fails as full exactly when queued messages and copies under way
        use up the pool. */
    method SendBegin(pid: nat, data: Data, urgent: bool) returns (r: Status)
      requires Valid() && pid !in pcs && data != []
      modifies this
      ensures Valid() && b == Step(old(b), msgSize, maxMsgs, Event.SendBegin(pid, data, urgent))
      ensures r == (if |data| > msgSize then ERROR
                    else if |old(b).queue| + |old(b).procs| == maxMsgs then FULL else OK)
    {
      hide Linked;
      if |data| > msgSize {
        return ERROR;
      }
      SendBeginKeeps(Now(), b.queue, msgSize, maxMsgs, pid, data, urgent);
      var msg := free;
      if msg == NULL {
        return FULL;
      }
      BelowBound(Now(), b.queue, msgSize, maxMsgs);
      free := next[msg];
      pcs := pcs[pid := Sending(msg, data, urgent, false, 0)];
      owner, fl := owner[msg := Held(pid)], fl[1..];
      b := Step(b, msgSize, maxMsgs, Event.SendBegin(pid, data, urgent));
      return OK;
    }

    /** Outside the critical sections of rt_mq_send: msg->next = RT_NULL. */
    method ClearNext(pid: nat)
      requires Valid() && pid in pcs && pcs[pid].Sending? && !pcs[pid].urgent && !pcs[pid].cleared
      modifies this`next, this`pcs, this`b
      ensures Valid() && b == Step(old(b), msgSize, maxMsgs, Event.Work(pid))
    {
      hide Linked;
      ClearNextKeeps(Now(), b.queue, msgSize, maxMsgs, pid);
      next := next[pcs[pid].msg := NULL];
      pcs := pcs[pid := pcs[pid].(cleared := true)];
      b := Step(b, msgSize, maxMsgs, Event.Work(pid));
    }

    /** One byte of the memcpy of a message into its block. */
    method CopyIn(pid: nat)
      requires Valid() && pid in pcs && pcs[pid].Sending? && (pcs[pid].urgent || pcs[pid].cleared)
      requires pcs[pid].copied < |pcs[pid].data|
      modifies this`payload, this`pcs, this`b
      ensures Valid() && b == Step(old(b), msgSize, maxMsgs, Event.Work(pid))
    {
      hide Linked;
      CopyInKeeps(Now(), b.queue, msgSize, maxMsgs, pid);
      var c := pcs[pid];
      payload := payload[c.msg := payload[c.msg][c.copied := c.data[c.copied]]];
      pcs := pcs[pid := c.(copied := c.copied + 1)];
      b := Step(b, msgSize, maxMsgs, Event.Work(pid));
    }

    /** One byte of the memcpy of a message out of its block. */
    method CopyOut(pid: nat)
      requires Valid() && pid in pcs && pcs[pid].Receiving? && |pcs[pid].buf| < Min(pcs[pid].want, msgSize)
      modifies this`pcs, this`b
      ensures Valid() && b == Step(old(b), msgSize, maxMsgs, Event.Work(pid))
    {
      hide Linked;
      CopyOutKeeps(Now(), b.queue, msgSize, maxMsgs, pid);
      var c := pcs[pid];
      pcs := pcs[pid := c.(buf := c.buf + [payload[c.msg][|c.buf|]])];
      b := Step(b, msgSize, maxMsgs, Event.Work(pid));
    }

    /** The second critical section of rt_mq_send: the block becomes the tail. */
    method LinkTail(pid: nat)
      requires Valid() && pid in pcs && pcs[pid].Sending? && !pcs[pid].urgent && pcs[pid].cleared
      requires pcs[pid].copied == |pcs[pid].data|
      modifies this
      ensures Valid() && b == Step(old(b), msgSize, maxMsgs, Event.Link(pid))
    {
      hide Linked;
      LinkTailKeeps(Now(), b.queue, msgSize, maxMsgs, pid);
      var msg := pcs[pid].msg;
      if tail != NULL {
        next := next[tail := msg];
      }
      tail := msg;
      if head == NULL {
        head := msg;
      }
      entry := entry + 1;
      pcs := pcs - {pid};
      owner, q := owner[msg := Queued], q + [msg];
      b := Step(b, msgSize, maxMsgs, Event.Link(pid));
    }

    /** The second critical section of rt_mq_urgent: the block becomes the head. */
    method LinkHead(pid: nat)
      requires Valid() && pid in pcs && pcs[pid].Sending? && pcs[pid].urgent && pcs[pid].copied == |pcs[pid].data|
      modifies this
      ensures Valid() && b == Step(old(b), msgSize, maxMsgs, Event.Link(pid))
    {
      hide Linked;
      LinkHeadKeeps(Now(), b.queue, msgSize, maxMsgs, pid);
      var msg := pcs[pid].msg;
      next := next[msg := head];
      head := msg;
      if tail == NULL {
        tail := msg;
      }
      entry := entry + 1;
      pcs := pcs - {pid};
      owner, q := owner[msg := Queued], [msg] + q;
      b := Step(b, msgSize, maxMsgs, Event.Link(pid));
    }

    /** rt_mq_recv up to the end of its first critical section: the head block is taken. */
    method RecvBegin(pid: nat, want: nat) returns (r: Status)
      requires Valid() && pid !in pcs && want > 0
      modifies this
      ensures Valid() && b == Step(old(b), msgSize, maxMsgs, Event.RecvBegin(pid, want))
      ensures r == if old(b).queue == [] then EMPTY else OK
    {
      hide Linked;
      if entry == 0 {
        return EMPTY;
      }
      RecvBeginKeeps(Now(), b.queue, msgSize, maxMsgs, pid, want);
      var msg := head;
      head := next[msg];
      if tail == msg {
        tail := NULL;
      }
      entry := entry - 1;
      pcs := pcs[pid := Receiving(msg, want, [])];
      owner, q := owner[msg := Held(pid)], q[1..];
      b := Step(b, msgSize, maxMsgs, Event.RecvBegin(pid, want));
      return OK;
    }

    /** The second critical section of rt_mq_recv: the block goes back to the free list.
        What was copied begins with the message that was taken. */
    method Finish(pid: nat) returns (buf: Data)
      requires Valid() && pid in pcs && pcs[pid].Receiving? && |pcs[pid].buf| == Min(pcs[pid].want, msgSize)
      modifies this
      ensures Valid() && b == Step(old(b), msgSize, maxMsgs, Event.Finish(pid))
      ensures |buf| == Min(old(pcs)[pid].want, msgSize)
      ensures |b.delivered| == |old(b).delivered| + 1 && b.delivered[|old(b).delivered|] <= buf
    {
      hide Linked;
      FinishKeeps(Now(), b.queue, msgSize, maxMsgs, pid);
      var msg := pcs[pid].msg;
      buf := pcs[pid].buf;
      next := next[msg := free];
      free := msg;
      pcs := pcs - {pid};
      owner, fl := owner[msg := Free], [msg] + fl;
      b := Step(b, msgSize, maxMsgs, Event.Finish(pid));
    }

    /** rt_mq_control with RT_IPC_CMD_RESET: every queued block goes back to the free list. */
    method Reset()
      requires Valid()
      modifies this
      ensures Valid() && b == Step(old(b), msgSize, maxMsgs, Event.Reset)
    {
      hide Linked;
      ghost var queue := b.queue;
      ResetKeeps(Now(), queue, msgSize, maxMsgs);
      while head != NULL
        invariant Linked(Now(), queue, msgSize, maxMsgs) && b == old(b)
        invariant (head == NULL <==> q == []) && |queue| == |q|
        decreases |q|
      {
        ResetKeeps(Now(), queue, msgSize, maxMsgs);
        var msg := head;
        head := next[msg];
        if tail == msg {
          tail := NULL;
        }
        next := next[msg := free];
        free := msg;
        owner, q, fl := owner[msg := Free], q[1..], [msg] + fl;
        queue := queue[1..];
        ResetKeeps(Now(), queue, msgSize, maxMsgs);
      }
      entry := 0;
      b := Step(b, msgSize, maxMsgs, Event.Reset);
    }

    /** A thread takes the step `e` if that is where it is. */
    method Perform(e: Event)
      requires Valid()
      modifies this
      ensures Valid() && b == Step(old(b), msgSize, maxMsgs, e)
    {
      hide Linked;
      StepEnabled(Now(), b.queue, msgSize, maxMsgs, e);
      match e {
        case SendBegin(pid, data, urgent) =>
          if pid !in pcs && data != [] {
            var _ := SendBegin(pid, data, urgent);
          }
        case Work(pid) =>
          if pid in pcs {
            match pcs[pid] {
              case Sending(msg, data, urgent, cleared, copied) =>
                if !urgent && !cleared {
                  ClearNext(pid);
                } else if copied < |data| {
                  CopyIn(pid);
                }
              case Receiving(msg, want, buf) =>
                if |buf| < Min(want, msgSize) {
                  CopyOut(pid);
                }
            }
          }
        case Link(pid) =>
          if pid in pcs && pcs[pid].Sending? && pcs[pid].copied == |pcs[pid].data| {
            if pcs[pid].urgent {
              LinkHead(pid);
            } else if pcs[pid].cleared {
              LinkTail(pid);
            }
          }
        case RecvBegin(pid, want) =>
          if pid !in pcs && want > 0 {
            var _ := RecvBegin(pid, want);
          }
        case Finish(pid) =>
          if pid in pcs && pcs[pid].Receiving? && |pcs[pid].buf| == Min(pcs[pid].want, msgSize) {
            var _ := Finish(pid);
          }
        case Reset =>
          Reset();
      }
    }

    /** Any interleaving of steps of any threads does what the simple form does. */
    method Execute(es: seq<Event>)
      requires Valid()
      modifies this
      ensures Valid() && b == Run(old(b), msgSize, maxMsgs, es)
      decreases |es|
    {
      hide Linked, Step;
      if es != [] {
        Perform(es[0]);
        Execute(es[1..]);
      }
    }
  }

  /** Where a thread is decides whether its next step is enabled in the simple form too. */
  lemma StepEnabled(s: State, queue: seq<Data>, msgSize: nat, maxMsgs: nat, e: Event)
    requires Linked(s, queue, msgSize, maxMsgs)
    ensures s.pcs.Keys == s.procs.Keys && |queue| + |s.procs| <= maxMsgs
    ensures !e.Reset? && e.pid in s.pcs ==> (s.pcs[e.pid].Sending? <==> s.procs[e.pid].Sender?)
    ensures !e.Reset? && e.pid in s.pcs && s.pcs[e.pid].Sending? ==>
      var c := s.pcs[e.pid];
      && c.urgent == s.procs[e.pid].urgent && c.copied <= |c.data|
      && (s.procs[e.pid].left == 0 <==> c.copied == |c.data| && (c.urgent || c.cleared))
    ensures !e.Reset? && e.pid in s.pcs && s.pcs[e.pid].Receiving? ==>
      var c := s.pcs[e.pid];
      && |c.buf| <= Min(c.want, msgSize)
      && (s.procs[e.pid].left == 0 <==> |c.buf| == Min(c.want, msgSize))
  {
    hide Owned, Chain, PoolOk;
    SameSizes(s.pcs, s.procs, s.next, s.payload, msgSize, s.q, queue);
    if !e.Reset? && e.pid in s.pcs {
      assert ProcOk(s.pcs[e.pid], s.procs[e.pid], s.next, s.payload, msgSize);
    }
  }

  /** In every state each block of the pool is in exactly one place: free, queued, or in one thread's hands. */
  lemma OneOwner(s: State, queue: seq<Data>, msgSize: nat, maxMsgs: nat, m: nat)
    requires Linked(s, queue, msgSize, maxMsgs) && m in s.next
    ensures m in s.owner
    ensures m in s.fl <==> s.owner[m] == Free
    ensures m in s.q <==> s.owner[m] == Queued
    ensures forall pid :: (pid in s.pcs && s.pcs[pid].msg == m) <==> s.owner[m] == Held(pid)
  {
    hide Chain, QueueHolds, ProcsOk;
  }

  /** A thread that copies outside the critical sections has its block to itself. */
  lemma ExclusiveBlock(s: State, queue: seq<Data>, msgSize: nat, maxMsgs: nat, pid: nat, other: nat)
    requires Linked(s, queue, msgSize, maxMsgs) && pid in s.pcs
    ensures s.pcs[pid].msg in s.next && s.pcs[pid].msg !in s.fl && s.pcs[pid].msg !in s.q
    ensures other in s.pcs && other != pid ==> s.pcs[other].msg != s.pcs[pid].msg
  {
    hide Chain, QueueHolds, ProcOk;
    HeldApart(s.owner, s.fl, s.q, s.pcs, pid);
    OneOwner(s, queue, msgSize, maxMsgs, s.pcs[pid].msg);
  }

  lemma BelowBound(s: State, queue: seq<Data>, msgSize: nat, maxMsgs: nat)
    requires Linked(s, queue, msgSize, maxMsgs)
    ensures |queue| + |s.procs| <= maxMsgs
  {
    hide Owned, Chain, PoolOk;
    SameSizes(s.pcs, s.procs, s.next, s.payload, msgSize, s.q, queue);
  }

  lemma SameKeys<V>(m: map<nat, V>, k: nat, v: V)
    requires k in m
    ensures m[k := v].Keys == m.Keys
  {
  }

  /** The last block of what is left once the head is gone. */
  lemma ChainTail(next: map<nat, nat>, head: nat, s: seq<nat>)
    requires Chain(next, head, s) && s != []
    ensures s[|s| - 1] == s[0] <==> |s| == 1
    ensures |s| > 1 ==> s[1..][|s| - 2] == s[|s| - 1]
  {
  }

  /** The block a receive has just taken holds the message it removed. */
  lemma FreshReceiver(next: map<nat, nat>, payload: map<nat, Data>, owner: map<nat, Owner>, fl: seq<nat>, q: seq<nat>,
                      pcs: map<nat, Pc>, msgSize: nat, c: Pc, queue: seq<Data>, p: Proc, pid: nat)
    requires PoolOk(next, payload, owner, msgSize) && Owned(owner, fl, q, pcs) && QueueHolds(payload, q, queue)
      && q != []
    requires c.Receiving? && c.msg == q[0] && c.buf == [] && p == Receiver(queue[0], c.want, Min(c.want, msgSize))
    ensures ProcOk(c, p, next, payload, msgSize) && PoolOk(next, payload, owner[q[0] := Held(pid)], msgSize)
    ensures QueueHolds(payload, q[1..], queue[1..])
  {
  }

  /** Freeing a thread's block writes only that block's `next`. */
  lemma FinishedRest(next: map<nat, nat>, payload: map<nat, Data>, owner: map<nat, Owner>, head: nat, free: nat,
                     fl: seq<nat>, q: seq<nat>, pcs: map<nat, Pc>, procs: map<nat, Proc>, msgSize: nat, pid: nat)
    requires PoolOk(next, payload, owner, msgSize) && Owned(owner, fl, q, pcs) && Chain(next, head, q)
    requires ProcsOk(pcs, procs, next, payload, msgSize) && pid in pcs && pid in procs
    ensures var m := pcs[pid].msg; var next' := next[m := free];
      && PoolOk(next', payload, owner[m := Free], msgSize) && Chain(next', head, q)
      && ProcsOk(pcs - {pid}, procs - {pid}, next', payload, msgSize)
  {
    hide Chain, OwnsAll;
    HeldApart(owner, fl, q, pcs, pid);
    var m := pcs[pid].msg;
    ChainApart(next, head, q, m, free);
    ProcsLeave(pcs, procs, owner, next, next[m := free], payload, msgSize, pid);
    assert next[m := free].Keys == next.Keys && owner[m := Free].Keys == owner.Keys;
  }

  /** Moving the head block to the free list writes only that block's `next`. */
  lemma MovedRest(next: map<nat, nat>, payload: map<nat, Data>, owner: map<nat, Owner>, head: nat, free: nat,
                  fl: seq<nat>, q: seq<nat>, pcs: map<nat, Pc>, procs: map<nat, Proc>, queue: seq<Data>, msgSize: nat)
    requires PoolOk(next, payload, owner, msgSize) && Owned(owner, fl, q, pcs) && Chain(next, head, q) && q != []
    requires Chain(next, free, fl) && ProcsOk(pcs, procs, next, payload, msgSize) && QueueHolds(payload, q, queue)
    ensures head in next && |queue| == |q|
    ensures var next' := next[head := free];
      && PoolOk(next', payload, owner[head := Free], msgSize)
      && Chain(next', next[head], q[1..]) && Chain(next', head, [head] + fl)
      && ProcsOk(pcs, procs, next', payload, msgSize) && QueueHolds(payload, q[1..], queue[1..])
  {
    hide Chain, ProcOk;
    ChainFront(next, head, q);
    ChainPop(next, head, q);
    MoveFree(owner, fl, q, pcs);
    ChainApart(next, next[head], q[1..], head, free);
    ChainPush(next, free, fl, head);
    ProcsFrame(pcs, procs, owner, next, payload, msgSize, head, free);
    assert next[head := free].Keys == next.Keys && owner[head := Free].Keys == owner.Keys;
  }

  /** What the invariant says of one thread inside a call. */
  lemma ThreadFacts(pcs: map<nat, Pc>, procs: map<nat, Proc>, next: map<nat, nat>, payload: map<nat, Data>,
                    owner: map<nat, Owner>, fl: seq<nat>, q: seq<nat>, msgSize: nat, pid: nat)
    requires ProcsOk(pcs, procs, next, payload, msgSize) && Owned(owner, fl, q, pcs)
      && PoolOk(next, payload, owner, msgSize)
    requires pid in pcs
    ensures pid in procs
    ensures var m := pcs[pid].msg;
      && ProcOk(pcs[pid], procs[pid], next, payload, msgSize) && Holders(owner, pcs)
      && m in next && m in payload && m in owner && owner[m] == Held(pid)
      && m !in fl && m !in q && m != NULL && |payload[m]| == msgSize
  {
  }

  lemma ChainEnds(next: map<nat, nat>, head: nat, s: seq<nat>, tail: nat)
    requires Chain(next, head, s) && tail == (if s == [] then NULL else s[|s| - 1])
    ensures (head == NULL <==> s == []) && (tail == NULL <==> s == []) && (s != [] ==> tail in next)
  {
    assert s != [] ==> LinkedAt(next, s, 0) && LinkedAt(next, s, |s| - 1);
  }

  lemma ByteCopied(block: Data, data: Data, k: nat)
    requires k < |data| <= |block| && block[..k] == data[..k]
    ensures block[k := data[k]][..k + 1] == data[..k + 1]
  {
  }

  lemma WroteNext(next: map<nat, nat>, payload: map<nat, Data>, owner: map<nat, Owner>, head: nat, q: seq<nat>,
                  free: nat, fl: seq<nat>, msgSize: nat, m: nat, v: nat)
    requires PoolOk(next, payload, owner, msgSize) && m in owner && m !in q && m !in fl
    requires Chain(next, head, q) && Chain(next, free, fl)
    ensures PoolOk(next[m := v], payload, owner, msgSize) && Chain(next[m := v], head, q)
      && Chain(next[m := v], free, fl)
  {
    ChainApart(next, head, q, m, v);
    ChainApart(next, free, fl, m, v);
    assert next[m := v].Keys == next.Keys;
  }

  lemma WrotePayload(next: map<nat, nat>, payload: map<nat, Data>, owner: map<nat, Owner>, q: seq<nat>,
      queue: seq<Data>, msgSize: nat, m: nat, v: Data)
    requires PoolOk(next, payload, owner, msgSize) && m in owner && m !in q && |v| == msgSize
      && QueueHolds(payload, q, queue)
    ensures PoolOk(next, payload[m := v], owner, msgSize) && QueueHolds(payload[m := v], q, queue)
  {
    QueueHoldsApart(payload, q, queue, m, v);
    assert payload[m := v].Keys == payload.Keys;
  }

  /** Linking writes only the block's own `next` or that of the last queued block. */
  lemma LinkedRest(next: map<nat, nat>, next': map<nat, nat>, payload: map<nat, Data>, owner: map<nat, Owner>,
                   free: nat, fl: seq<nat>, q: seq<nat>, pcs: map<nat, Pc>, procs: map<nat, Proc>, queue: seq<Data>,
                   msgSize: nat, pid: nat)
    requires PoolOk(next, payload, owner, msgSize) && Owned(owner, fl, q, pcs) && Chain(next, free, fl)
    requires ProcsOk(pcs, procs, next, payload, msgSize) && QueueHolds(payload, q, queue) && pid in pcs && pid in procs
    requires procs[pid].Sender? && procs[pid].left == 0
    requires next'.Keys == next.Keys
    requires forall m :: m in next && m != pcs[pid].msg && m !in q ==> next'[m] == next[m]
    ensures var m, data := pcs[pid].msg, procs[pid].data;
      && PoolOk(next', payload, owner[m := Queued], msgSize) && Chain(next', free, fl)
      && ProcsOk(pcs - {pid}, procs - {pid}, next', payload, msgSize)
      && QueueHolds(payload, q + [m], queue + [data]) && QueueHolds(payload, [m] + q, [data] + queue)
  {
    hide Chain, ProcOk, QueueHolds;
    ListsApart(owner, fl, q, pcs);
    HeldApart(owner, fl, q, pcs, pid);
    LinkedHolds(payload, q, queue, pcs, procs, next, msgSize, pid);
    ProcsLeave(pcs, procs, owner, next, next', payload, msgSize, pid);
    forall k | 0 <= k < |fl| ensures fl[k] in next' && next'[fl[k]] == next[fl[k]] {
      assert fl[k] in fl && fl[k] !in q;
    }
    ChainFrame(next, next', free, fl);
  }

  /** A finished copy makes the block hold the message. */
  lemma LinkedHolds(payload: map<nat, Data>, q: seq<nat>, queue: seq<Data>, pcs: map<nat, Pc>, procs: map<nat, Proc>,
                    next: map<nat, nat>, msgSize: nat, pid: nat)
    requires ProcsOk(pcs, procs, next, payload, msgSize) && QueueHolds(payload, q, queue) && pid in pcs && pid in procs
    requires procs[pid].Sender? && procs[pid].left == 0
    ensures var m, data := pcs[pid].msg, procs[pid].data;
      QueueHolds(payload, q + [m], queue + [data]) && QueueHolds(payload, [m] + q, [data] + queue)
  {
    assert ProcOk(pcs[pid], procs[pid], next, payload, msgSize);
  }

  ghost predicate AllFree(owner: map<nat, Owner>, n: nat) {
    forall m :: m in owner ==> 1 <= m <= n && owner[m] == Free
  }

  lemma InitPool(msgSize: nat)
    ensures PoolOk(map[], map[], map[], msgSize) && AllFree(map[], 0) && Chain(map[], NULL, [])
      && OwnsAll(map[], [], Free)
  {
  }

  lemma AddBlock(next: map<nat, nat>, payload: map<nat, Data>, owner: map<nat, Owner>, fl: seq<nat>, free: nat,
      temp: nat, msgSize: nat)
    requires PoolOk(next, payload, owner, msgSize) && AllFree(owner, temp) && Chain(next, free, fl)
      && OwnsAll(owner, fl, Free)
    ensures var m := temp + 1; var owner', fl' := owner[m := Free], [m] + fl;
      && PoolOk(next[m := free], payload[m := seq(msgSize, _ => 0)], owner', msgSize) && AllFree(owner', m)
      && Chain(next[m := free], m, fl') && OwnsAll(owner', fl', Free)
  {
    var m := temp + 1;
    ChainPush(next, free, fl, m);
    assert forall x :: x in [m] + fl <==> x in fl || x == m;
  }

  lemma FreshlyOwned(next: map<nat, nat>, payload: map<nat, Data>, owner: map<nat, Owner>, fl: seq<nat>, n: nat,
      msgSize: nat)
    requires AllFree(owner, n) && OwnsAll(owner, fl, Free)
    ensures Owned(owner, fl, [], map[]) && QueueHolds(payload, [], []) && Chain(next, NULL, [])
    ensures ProcsOk(map[], map[], next, payload, msgSize)
  {
  }

  lemma SameSizes(pcs: map<nat, Pc>, procs: map<nat, Proc>, next: map<nat, nat>, payload: map<nat, Data>, msgSize: nat,
                  q: seq<nat>, queue: seq<Data>)
    requires ProcsOk(pcs, procs, next, payload, msgSize) && QueueHolds(payload, q, queue)
    ensures pcs.Keys == procs.Keys && |pcs| == |procs| && |q| == |queue|
  {
    assert |pcs| == |pcs.Keys| && |procs| == |procs.Keys|;
  }

  lemma ChainFront(next: map<nat, nat>, head: nat, s: seq<nat>)
    requires Chain(next, head, s)
    ensures head == NULL <==> s == []
    ensures s != [] ==> head == s[0] && head in next
  {
    assert s != [] ==> LinkedAt(next, s, 0);
  }

  /** The block a send has just taken is ready for its copy. */
  lemma FreshSender(next: map<nat, nat>, payload: map<nat, Data>, owner: map<nat, Owner>, fl: seq<nat>, q: seq<nat>,
                    pcs: map<nat, Pc>, msgSize: nat, c: Pc, p: Proc, pid: nat)
    requires PoolOk(next, payload, owner, msgSize) && Owned(owner, fl, q, pcs) && fl != [] && c.msg == fl[0]
    requires c.Sending? && !c.cleared && c.copied == 0 && |c.data| <= msgSize
    requires p == Sender(c.data, c.urgent, |c.data| + if c.urgent then 0 else 1)
    ensures ProcOk(c, p, next, payload, msgSize) && PoolOk(next, payload, owner[fl[0] := Held(pid)], msgSize)
  {
  }
}
