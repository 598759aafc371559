/**
 The receivers that wait in rt_mq_recv of src/ipc.c, on top of the message queue with its
 copies outside the critical sections.

 As far as waiting goes, the queue is a mailbox as large as its pool that nobody ever finds
 full: linking a message is a send, taking one a receive. So what `MailSpec` says of wakeups
 holds of the queue.
 */
module QueueWaits {
  import opened WaitList
  import opened MailSpec
  import opened MsgQueue
  import BoundedDeque
  import Mailbox

  type Data = BoundedDeque.Data

  class BlockingQueue {
    const mq: MessageQueue
    const u: Setup
    var receivers: seq<nat>
    var procs: map<nat, Proc>
    /** The mailbox that has a mail for every message. */
    ghost var box: Box

    ghost predicate Valid()
      reads this, mq
    {
      && mq.Valid() && u.size == mq.maxMsgs && |box.mail| == |mq.b.queue|
      && box.receivers == receivers && box.procs == procs && box.senders == [] && MailSpec.Ok(box, u)
      && (forall pid :: pid in procs ==> procs[pid].role == Recv && pid !in mq.pcs)
    }

    /** rt_mq_init */
    constructor (q: MessageQueue, setup: Setup)
      requires q.Valid() && q.b == BoundedDeque.Empty && setup.size == q.maxMsgs
      ensures Valid() && mq == q && u == setup && box == MailSpec.Empty
    {
      mq, u, receivers, procs, box := q, setup, [], map[], MailSpec.Empty;
      new;
      NoCalls(q.Now(), q.b.queue, q.msgSize, q.maxMsgs);
    }

    /** While receivers wait and none of those woken is still on its way, the queue is empty. */
    lemma NoLostWakeup()
      requires Valid()
      ensures receivers != [] && WokenSet(procs, false) == {} ==> mq.b.queue == []
      ensures |mq.b.queue| > 0 && receivers != [] ==> |WokenSet(procs, false)| >= |mq.b.queue|
    {
    }

    /** A step of a sender before it links its message, or of a receiver behind it has taken one. */
    method Copying(e: BoundedDeque.Event)
      requires Valid() && (e.SendBegin? || e.Work? || e.Finish?) && e.pid !in procs
      modifies mq
      ensures Valid() && mq.b == BoundedDeque.Step(old(mq.b), mq.msgSize, mq.maxMsgs, e)
      ensures mq.b.queue == old(mq.b.queue)
    {
      hide Linked, MailSpec.Ok;
      CallsOf(mq.Now(), mq.b.queue, mq.msgSize, mq.maxMsgs);
      mq.Perform(e);
      CallsOf(mq.Now(), mq.b.queue, mq.msgSize, mq.maxMsgs);
      OneCall(old(mq.b), mq.msgSize, mq.maxMsgs, e);
    }

    /** The second critical section of rt_mq_send or rt_mq_urgent: the message is linked and the
        first receiver that waits is woken. */
    method Link(pid: nat)
      requires Valid() && pid in u.prio && pid in mq.pcs && mq.pcs[pid].Sending?
      requires mq.pcs[pid].copied == |mq.pcs[pid].data|
      requires mq.pcs[pid].urgent || mq.pcs[pid].cleared
      modifies this`receivers, this`procs, this`box, mq
      ensures Valid() && mq.b == BoundedDeque.Step(old(mq.b), mq.msgSize, mq.maxMsgs, BoundedDeque.Event.Link(pid))
      ensures (box, Returned(MailSpec.Status.OK, 0)) == Try(old(box), u, pid, Role.Send(0), 0)
      ensures |mq.b.queue| == |old(mq.b.queue)| + 1
    {
      hide Linked, MailSpec.Ok, ListOk, NoneLost, WokenSet, Try;
      ghost var e, b0 := BoundedDeque.Event.Link(pid), mq.b;
      CallsOf(mq.Now(), mq.b.queue, mq.msgSize, mq.maxMsgs);
      StepEnabled(mq.Now(), mq.b.queue, mq.msgSize, mq.maxMsgs, e);
      SomeCall(b0, pid);
      Posted(box, u, pid, 0);
      mq.Perform(BoundedDeque.Event.Link(pid));
      CallsOf(mq.Now(), mq.b.queue, mq.msgSize, mq.maxMsgs);
      OneCall(b0, mq.msgSize, mq.maxMsgs, e);
      if receivers != [] {
        procs := Wake(procs, receivers[0]);
        receivers := receivers[1..];
      }
      box := Try(box, u, pid, Role.Send(0), 0).0;
      RolesKept(old(procs), old(receivers));
    }

    /** rt_ipc_list_suspend for a receiver that finds the queue empty, and its timer. */
    method Wait(pid: nat, timeout: int)
      requires Valid() && MayTry(box, u, pid, Recv) && pid !in mq.pcs && mq.b.queue == [] && timeout != 0
      modifies this`receivers, this`procs, this`box
      ensures Valid() && box == Try(old(box), u, pid, Recv, timeout).0
      ensures pid in receivers && pid in procs && procs[pid] == Proc(Recv, timeout, Waiting)
    {
      hide Linked, MailSpec.Ok, ListOk, NoneLost, WokenSet, Joining, Try;
      Fetched(box, u, pid, timeout);
      Mailbox.AllKnown(box, u);
      var k := FindPlace(receivers, u.prio, u.flag, pid);
      Mailbox.JoiningIs(receivers, u.prio, u.flag, pid);
      receivers := receivers[..k] + [pid] + receivers[k..];
      procs := procs[pid := Proc(Recv, timeout, Waiting)];
      box := Try(box, u, pid, Recv, timeout).0;
      assert receivers[k] == pid;
    }

    /** rt_mq_recv from the test of the loop on, entered or continued by a thread. */
    method Receive(pid: nat, want: nat, timeout: int) returns (o: Outcome)
      requires Valid() && MayTry(box, u, pid, Recv) && pid !in mq.pcs && want > 0
      modifies this`receivers, this`procs, this`box, mq
      ensures Valid() && box == Try(old(box), u, pid, Recv, timeout).0
      ensures o.Blocked? <==> old(mq.b.queue) == [] && timeout != 0
      ensures o.Returned? ==> o.status == if old(mq.b.queue) == [] then TIMEOUT else MailSpec.Status.OK
      ensures mq.b == if old(mq.b.queue) == [] then old(mq.b)
        else BoundedDeque.Step(old(mq.b), mq.msgSize, mq.maxMsgs, BoundedDeque.Event.RecvBegin(pid, want))
    {
      hide Linked, MailSpec.Ok, ListOk, NoneLost, WokenSet, Joining, Try;
      ghost var b0 := mq.b;
      CallsOf(mq.Now(), mq.b.queue, mq.msgSize, mq.maxMsgs);
      Fetched(box, u, pid, timeout);
      if mq.entry == 0 && timeout == 0 {
        procs := procs - {pid};
        box := Try(box, u, pid, Recv, timeout).0;
        return Returned(TIMEOUT, 0);
      }
      if mq.entry == 0 {
        Wait(pid, timeout);
        return Blocked;
      }
      var _ := mq.RecvBegin(pid, want);
      CallsOf(mq.Now(), mq.b.queue, mq.msgSize, mq.maxMsgs);
      OneCall(b0, mq.msgSize, mq.maxMsgs, BoundedDeque.Event.RecvBegin(pid, want));
      procs := procs - {pid};
      box := Try(box, u, pid, Recv, timeout).0;
      return Returned(MailSpec.Status.OK, 0);
    }

    /** What a receiver does after rt_schedule. */
    method Continue(pid: nat, want: nat, elapsed: nat) returns (o: Outcome)
      requires Valid() && pid in procs && procs[pid].at != Waiting && want > 0
      modifies this`receivers, this`procs, this`box, mq
      ensures Valid() && box == MailSpec.Step(old(box), u, MailSpec.Event.Continue(pid, elapsed))
      ensures old(procs)[pid].at.Failed? ==> o == Returned(old(procs)[pid].at.err, 0) && mq.b == old(mq.b)
    {
      hide Linked, MailSpec.Ok, Try;
      Mailbox.KnownProc(box, u, pid);
      var p := procs[pid];
      if p.at.Failed? {
        StepKeeps(box, u, MailSpec.Event.Continue(pid, elapsed));
        procs := procs - {pid};
        box := MailSpec.Step(box, u, MailSpec.Event.Continue(pid, elapsed));
        return Returned(p.at.err, 0);
      }
      var timeout := p.left;
      if timeout > 0 {
        timeout := timeout - elapsed;
        if timeout < 0 {
          timeout := 0;
        }
      }
      o := Receive(pid, want, timeout);
    }

    /** rt_thread_timeout for a waiting receiver whose timer runs. */
    method Expire(pid: nat)
      requires Valid() && pid in procs && procs[pid].at == Waiting && procs[pid].left > 0
      modifies this`receivers, this`procs, this`box
      ensures Valid() && box == MailSpec.Step(old(box), u, MailSpec.Event.Expire(pid))
    {
      hide Linked, MailSpec.Ok;
      StepKeeps(box, u, MailSpec.Event.Expire(pid));
      procs := procs[pid := procs[pid].(at := Failed(TIMEOUT))];
      receivers := Without(receivers, pid);
      box := MailSpec.Step(box, u, MailSpec.Event.Expire(pid));
    }

    /** rt_mq_control with RT_IPC_CMD_RESET */
    method Reset()
      requires Valid()
      modifies this`receivers, this`procs, this`box, mq
      ensures Valid() && box == MailSpec.Step(old(box), u, MailSpec.Event.Reset)
      ensures mq.b == BoundedDeque.Step(old(mq.b), mq.msgSize, mq.maxMsgs, BoundedDeque.Event.Reset)
    {
      hide Linked, MailSpec.Ok, ListOk, NoneLost, Mailbox.FlushedList, Flushed;
      ghost var b0, p0 := mq.b, procs;
      CallsOf(mq.Now(), mq.b.queue, mq.msgSize, mq.maxMsgs);
      StepKeeps(box, u, MailSpec.Event.Reset);
      Mailbox.ListsOf(box, u);
      procs := Mailbox.ResumeAll(receivers, procs, false);
      FlushedRecv(p0);
      receivers := [];
      mq.Reset();
      CallsOf(mq.Now(), mq.b.queue, mq.msgSize, mq.maxMsgs);
      box := MailSpec.Step(box, u, MailSpec.Event.Reset);
    }
  }

  /** Threads inside send or receive of the queue. */
  lemma CallsOf(s: State, queue: seq<Data>, msgSize: nat, maxMsgs: nat)
    requires Linked(s, queue, msgSize, maxMsgs)
    ensures s.pcs.Keys == s.procs.Keys && |queue| + |s.procs| <= maxMsgs
  {
    StepEnabled(s, queue, msgSize, maxMsgs, BoundedDeque.Event.Reset);
  }

  lemma NoCalls(s: State, queue: seq<Data>, msgSize: nat, maxMsgs: nat)
    requires Linked(s, queue, msgSize, maxMsgs) && s.procs == map[]
    ensures s.pcs == map[]
  {
    hide Linked;
    CallsOf(s, queue, msgSize, maxMsgs);
    assert s.pcs.Keys == {};
  }

  lemma SomeCall(b: BoundedDeque.Bounded, pid: nat)
    requires pid in b.procs
    ensures |b.procs| > 0
  {
    assert pid in b.procs.Keys && |b.procs.Keys| == |b.procs|;
  }

  /** A step changes the calls of its own thread only. */
  lemma OneCall(b: BoundedDeque.Bounded, msgSize: nat, maxMsgs: nat, e: BoundedDeque.Event)
    requires !e.Reset?
    ensures forall pid :: pid != e.pid ==>
      (pid in BoundedDeque.Step(b, msgSize, maxMsgs, e).procs <==> pid in b.procs)
  {
  }

  /** Sending to a box with room wakes the first receiver and no sender. */
  lemma Posted(b: Box, u: Setup, pid: nat, v: Mail)
    requires Ok(b, u) && pid in u.prio && pid !in b.procs && |b.mail| < u.size && b.senders == []
    ensures var now := Try(b, u, pid, Role.Send(v), 0);
      && Ok(now.0, u) && now.1 == Returned(MailSpec.Status.OK, 0)
      && now.0.mail == b.mail + [v] && now.0.senders == []
      && now.0.receivers == (if b.receivers == [] then [] else b.receivers[1..])
      && now.0.procs == if b.receivers == [] then b.procs else Wake(b.procs, b.receivers[0])
  {
    hide MailSpec.Ok, ListOk, NoneLost, WokenSet;
    TryKeeps(b, u, pid, Role.Send(v), 0);
    assert b.procs - {pid} == b.procs;
  }

  /** Receiving from a box without waiting senders wakes nobody. */
  lemma Fetched(b: Box, u: Setup, pid: nat, timeout: int)
    requires Ok(b, u) && MayTry(b, u, pid, Recv) && b.senders == []
    ensures var now := Try(b, u, pid, Recv, timeout).0;
      && Ok(now, u) && now.senders == []
      && now.mail == (if b.mail == [] then [] else b.mail[1..])
      && now.receivers ==
        (if b.mail == [] && timeout != 0 then Joining(b.receivers, u.prio, u.flag, pid) else b.receivers)
      && now.procs ==
        if b.mail == [] && timeout != 0 then b.procs[pid := Proc(Recv, timeout, Waiting)] else b.procs - {pid}
  {
    hide MailSpec.Ok, ListOk, NoneLost, WokenSet, Joining;
    TryKeeps(b, u, pid, Recv, timeout);
  }

  lemma RolesKept(procs: map<nat, Proc>, receivers: seq<nat>)
    requires (forall pid :: pid in procs ==> procs[pid].role == Recv)
    ensures receivers != [] ==> Wake(procs, receivers[0]).Keys == procs.Keys
    ensures receivers != [] ==> forall pid :: pid in procs ==> Wake(procs, receivers[0])[pid].role == Recv
  {
  }

  /** All who wait are receivers. */
  lemma FlushedRecv(procs: map<nat, Proc>)
    requires forall pid :: pid in procs ==> procs[pid].role == Recv
    ensures Mailbox.FlushedList(procs, false) == Flushed(procs)
    ensures Flushed(procs).Keys == procs.Keys && forall pid :: pid in procs ==> Flushed(procs)[pid].role == Recv
  {
  }
}
