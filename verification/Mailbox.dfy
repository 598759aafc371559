/**
 The mailbox of src/ipc.c: a ring of 32-bit mails with waiting senders and receivers.

 `MailSpec` is the simple form: a bounded queue, the two wait lists, and for each thread
 inside a call where it is between two critical sections. `Mailbox` is the code's own form
 with its ring and offsets, proved to take the same steps.
 */
module MailSpec {
  import opened WaitList

  type Mail = nat

  datatype Status = OK | ERROR | TIMEOUT | FULL

  datatype Role = Send(v: Mail) | Recv

  /** On a wait list; taken off it by rt_ipc_list_resume; or off it with an error code. */
  datatype At = Waiting | Woken | Failed(err: Status)

  /** A thread inside a call, with the waiting time that is left; below 0 it waits forever. */
  datatype Proc = Proc(role: Role, left: int, at: At)

  /** What a critical section ends with: the thread sleeps, or its call returns. */
  datatype Outcome = Blocked | Returned(status: Status, mail: Mail)

  /** `sent` and `got` are what was put in and taken out since the last reset. */
  datatype Box = Box(mail: seq<Mail>, receivers: seq<nat>, senders: seq<nat>, procs: map<nat, Proc>,
                     sent: seq<Mail>, got: seq<Mail>)

  datatype Event =
    | Call(pid: nat, role: Role, timeout: int)
    | Continue(pid: nat, elapsed: nat)
    | Expire(pid: nat)
    | Reset

  /** The fixed surroundings: the size, the queueing flag, the priorities of the threads. */
  datatype Setup = Setup(size: nat, flag: Flag, prio: map<nat, nat>)

  const Empty := Box([], [], [], map[], [], [])

  predicate CannotGo(b: Box, u: Setup, role: Role) {
    if role.Send? then |b.mail| == u.size else b.mail == []
  }

  function Wake(procs: map<nat, Proc>, pid: nat): map<nat, Proc> {
    if pid in procs then procs[pid := procs[pid].(at := Woken)] else procs
  }

  /** The critical section of a send or receive, first entered or continued after waking. */
  function Try(b: Box, u: Setup, pid: nat, role: Role, timeout: int): (Box, Outcome)
    requires pid in u.prio
  {
    if CannotGo(b, u, role) then
      if timeout == 0 then
        (b.(procs := b.procs - {pid}), Returned(if role.Send? then FULL else TIMEOUT, 0))
      else
        (if role.Send? then b.(procs := b.procs[pid := Proc(role, timeout, Waiting)],
                               senders := Joining(b.senders, u.prio, u.flag, pid))
         else b.(procs := b.procs[pid := Proc(role, timeout, Waiting)],
                 receivers := Joining(b.receivers, u.prio, u.flag, pid)),
         Blocked)
    else if role.Send? then
      (var b1 := b.(mail := b.mail + [role.v], sent := b.sent + [role.v], procs := b.procs - {pid});
       if b1.receivers == [] then b1
       else b1.(receivers := b1.receivers[1..], procs := Wake(b1.procs, b1.receivers[0])),
       Returned(OK, 0))
    else
      (var b1 := b.(mail := b.mail[1..], got := b.got + [b.mail[0]], procs := b.procs - {pid});
       if b1.senders == [] then b1
       else b1.(senders := b1.senders[1..], procs := Wake(b1.procs, b1.senders[0])),
       Returned(OK, b.mail[0]))
  }

  function Less(left: int, elapsed: nat): int {
    if left <= 0 then left else if left - elapsed < 0 then 0 else left - elapsed
  }

  function Without(q: seq<nat>, pid: nat): seq<nat> {
    if q == [] then [] else if q[0] == pid then q[1..] else [q[0]] + Without(q[1..], pid)
  }

  function Flushed(procs: map<nat, Proc>): map<nat, Proc> {
    map pid | pid in procs :: if procs[pid].at == Waiting then procs[pid].(at := Failed(ERROR)) else procs[pid]
  }

  /** One step of one thread, the timer or a reset; a step that is not enabled does nothing. */
  function Step(b: Box, u: Setup, e: Event): Box {
    match e
    case Call(pid, role, timeout) =>
      if pid in b.procs || pid !in u.prio then b else Try(b, u, pid, role, timeout).0
    case Continue(pid, elapsed) =>
      if pid !in b.procs || pid !in u.prio then b
      else (
        var p := b.procs[pid];
        if p.at.Failed? then b.(procs := b.procs - {pid})
        else if p.at == Woken then Try(b, u, pid, p.role, Less(p.left, elapsed)).0
        else b)
    case Expire(pid) =>
      if pid in b.procs && b.procs[pid].at == Waiting && b.procs[pid].left > 0
      then b.(procs := b.procs[pid := b.procs[pid].(at := Failed(TIMEOUT))],
              receivers := Without(b.receivers, pid), senders := Without(b.senders, pid))
      else b
    case Reset => b.(mail := [], receivers := [], senders := [], procs := Flushed(b.procs), sent := [], got := [])
  }

  function Run(b: Box, u: Setup, es: seq<Event>): Box
    decreases |es|
  {
    if es == [] then b else Run(Step(b, u, es[0]), u, es[1..])
  }

  // ----- the invariant -----

  predicate IsWaiting(procs: map<nat, Proc>, pid: nat, sending: bool) {
    pid in procs && procs[pid].at == Waiting && procs[pid].role.Send? == sending
  }

  /** A wait list has exactly the waiting threads of its role, each once. */
  ghost predicate ListOk(q: seq<nat>, procs: map<nat, Proc>, sending: bool) {
    && (forall i, j :: 0 <= i < j < |q| ==> q[i] != q[j])
    && (forall i :: 0 <= i < |q| ==> IsWaiting(procs, q[i], sending))
    && (forall pid :: IsWaiting(procs, pid, sending) ==> pid in q)
  }

  predicate IsWoken(p: Proc, sending: bool) {
    p.at == Woken && p.role.Send? == sending
  }

  /** The threads of a role that were woken and have not run yet. */
  function WokenSet(procs: map<nat, Proc>, sending: bool): set<nat> {
    set pid | pid in procs && IsWoken(procs[pid], sending)
  }

  /** Receivers wait only while every mail in the box has a woken receiver to fetch it,
      senders only while every free slot has a woken sender to fill it. */
  ghost predicate NoneLost(b: Box, u: Setup) {
    && (b.receivers != [] ==> |b.mail| <= |WokenSet(b.procs, false)|)
    && (b.senders != [] ==> u.size - |b.mail| <= |WokenSet(b.procs, true)|)
  }

  ghost predicate Ok(b: Box, u: Setup) {
    && |b.mail| <= u.size
    && ListOk(b.receivers, b.procs, false) && ListOk(b.senders, b.procs, true)
    && NoneLost(b, u)
    && b.sent == b.got + b.mail
    && (forall pid :: pid in b.procs ==> pid in u.prio)
  }

  lemma ListJoins(q: seq<nat>, procs: map<nat, Proc>, sending: bool, pid: nat, k: nat, p: Proc)
    requires ListOk(q, procs, sending) && k <= |q| && p.at == Waiting && !IsWaiting(procs, pid, sending)
    ensures p.role.Send? == sending ==> ListOk(RtList.Inserted(q, k, pid), procs[pid := p], sending)
    ensures p.role.Send? != sending ==> ListOk(q, procs[pid := p], sending)
  {
    if p.role.Send? == sending {
      RtList.InsertedMembers(q, k, pid);
      var d := RtList.Inserted(q, k, pid);
      forall i | 0 <= i < |q| ensures q[i] != pid {
        assert IsWaiting(procs, q[i], sending);
      }
      forall i | 0 <= i < |d| ensures IsWaiting(procs[pid := p], d[i], sending) {
        assert i != k ==> IsWaiting(procs, q[if i < k then i else i - 1], sending);
      }
      forall x | IsWaiting(procs[pid := p], x, sending) ensures x in d {
        assert x != pid ==> IsWaiting(procs, x, sending);
      }
    } else {
      forall x | IsWaiting(procs[pid := p], x, sending) ensures x in q {
        assert IsWaiting(procs, x, sending);
      }
      forall i | 0 <= i < |q| ensures IsWaiting(procs[pid := p], q[i], sending) {
        assert IsWaiting(procs, q[i], sending);
      }
    }
  }

  /** A thread that is not waiting may leave or change without touching the lists. */
  lemma ListKeeps(q: seq<nat>, procs: map<nat, Proc>, procs': map<nat, Proc>, sending: bool)
    requires ListOk(q, procs, sending)
    requires forall x :: IsWaiting(procs', x, sending) <==> IsWaiting(procs, x, sending)
    ensures ListOk(q, procs', sending)
  {
  }

  lemma WakeFirst(q: seq<nat>, procs: map<nat, Proc>, sending: bool, other: bool)
    requires ListOk(q, procs, sending) && q != [] && other != sending
    ensures q[0] in procs && ListOk(q[1..], Wake(procs, q[0]), sending)
    ensures forall x :: IsWaiting(Wake(procs, q[0]), x, other) <==> IsWaiting(procs, x, other)
    ensures |WokenSet(Wake(procs, q[0]), sending)| == |WokenSet(procs, sending)| + 1
    ensures WokenSet(Wake(procs, q[0]), other) == WokenSet(procs, other)
  {
    hide WokenSet;
    var procs' := Wake(procs, q[0]);
    assert IsWaiting(procs, q[0], sending);
    forall i | 0 <= i < |q[1..]| ensures IsWaiting(procs', q[1..][i], sending) {
      assert IsWaiting(procs, q[i + 1], sending);
    }
    forall x | IsWaiting(procs', x, sending) ensures x in q[1..] {
      assert IsWaiting(procs, x, sending);
    }
    WakeCounts(procs, q[0], sending, other);
  }

  lemma WakeCounts(procs: map<nat, Proc>, pid: nat, sending: bool, other: bool)
    requires IsWaiting(procs, pid, sending) && other != sending
    ensures |WokenSet(Wake(procs, pid), sending)| == |WokenSet(procs, sending)| + 1
    ensures WokenSet(Wake(procs, pid), other) == WokenSet(procs, other)
  {
    assert WokenSet(Wake(procs, pid), sending) == WokenSet(procs, sending) + {pid};
    assert pid !in WokenSet(procs, sending);
  }

  /** A thread that is not on a list leaves. */
  lemma Leaving(procs: map<nat, Proc>, pid: nat)
    requires pid in procs ==> procs[pid].at != Waiting
    ensures forall x, sending :: IsWaiting(procs - {pid}, x, sending) <==> IsWaiting(procs, x, sending)
  {
  }

  lemma SetsOfLeft(procs: map<nat, Proc>, pid: nat, sending: bool)
    ensures WokenSet(procs - {pid}, sending)
      == if pid in procs && IsWoken(procs[pid], sending) then WokenSet(procs, sending) - {pid}
        else WokenSet(procs, sending)
  {
  }

  lemma CountLeft(procs: map<nat, Proc>, pid: nat, sending: bool)
    ensures |WokenSet(procs, sending)| - 1 <= |WokenSet(procs - {pid}, sending)| <= |WokenSet(procs, sending)|
    ensures !(pid in procs && IsWoken(procs[pid], sending)) ==>
      |WokenSet(procs - {pid}, sending)| == |WokenSet(procs, sending)|
  {
    SetsOfLeft(procs, pid, sending);
  }

  /** The role of a thread that continues is the one it was woken in. */
  ghost predicate MayTry(b: Box, u: Setup, pid: nat, role: Role) {
    && pid in u.prio && (pid in b.procs ==> b.procs[pid].at == Woken && b.procs[pid].role == role)
  }

  /** The critical section of send and receive keeps the invariant. */
  lemma TryKeeps(b: Box, u: Setup, pid: nat, role: Role, timeout: int)
    requires Ok(b, u) && MayTry(b, u, pid, role)
    ensures Ok(Try(b, u, pid, role, timeout).0, u)
  {
    hide WokenSet, ListOk, NoneLost, IsWaiting, Joining;
    if CannotGo(b, u, role) {
      if timeout == 0 {
        GaveUp(b, u, pid, role);
      } else {
        Joined(b, u, pid, role, timeout);
      }
    } else if role.Send? {
      SentOne(b, u, pid, role.v);
    } else {
      GotOne(b, u, pid);
    }
  }

  lemma GaveUp(b: Box, u: Setup, pid: nat, role: Role)
    requires Ok(b, u) && MayTry(b, u, pid, role) && CannotGo(b, u, role)
    ensures Ok(b.(procs := b.procs - {pid}), u)
  {
    hide WokenSet, ListOk, IsWaiting;
    Leaving(b.procs, pid);
    CountLeft(b.procs, pid, true);
    CountLeft(b.procs, pid, false);
    ListKeeps(b.receivers, b.procs, b.procs - {pid}, false);
    ListKeeps(b.senders, b.procs, b.procs - {pid}, true);
  }

  lemma JoinedWoken(procs: map<nat, Proc>, pid: nat, p: Proc, sending: bool)
    requires p.at == Waiting
    ensures WokenSet(procs[pid := p], sending) == WokenSet(procs - {pid}, sending)
  {
  }

  lemma Joined(b: Box, u: Setup, pid: nat, role: Role, timeout: int)
    requires Ok(b, u) && MayTry(b, u, pid, role) && CannotGo(b, u, role) && timeout != 0
    ensures Ok(Try(b, u, pid, role, timeout).0, u)
  {
    hide WokenSet, ListOk;
    var p := Proc(role, timeout, Waiting);
    JoinedWoken(b.procs, pid, p, true);
    JoinedWoken(b.procs, pid, p, false);
    CountLeft(b.procs, pid, true);
    CountLeft(b.procs, pid, false);
    var q := if role.Send? then b.senders else b.receivers;
    var k := Place(q, u.prio, u.flag, pid);
    if role.Send? {
      ListJoins(b.senders, b.procs, true, pid, k, p);
      ListJoins(b.receivers, b.procs, false, pid, 0, p);
    } else {
      ListJoins(b.receivers, b.procs, false, pid, k, p);
      ListJoins(b.senders, b.procs, true, pid, 0, p);
    }
  }

  lemma SentOne(b: Box, u: Setup, pid: nat, v: Mail)
    requires Ok(b, u) && MayTry(b, u, pid, Send(v)) && |b.mail| < u.size
    ensures Ok(Try(b, u, pid, Send(v), 0).0, u)
  {
    hide WokenSet, ListOk, IsWaiting, Wake;
    var procs := b.procs - {pid};
    Leaving(b.procs, pid);
    CountLeft(b.procs, pid, true);
    CountLeft(b.procs, pid, false);
    ListKeeps(b.receivers, b.procs, procs, false);
    ListKeeps(b.senders, b.procs, procs, true);
    if b.receivers != [] {
      WakeFirst(b.receivers, procs, false, true);
      ListKeeps(b.senders, procs, Wake(procs, b.receivers[0]), true);
      WakeKeys(procs, b.receivers[0]);
    }
  }

  lemma GotOne(b: Box, u: Setup, pid: nat)
    requires Ok(b, u) && MayTry(b, u, pid, Recv) && b.mail != []
    ensures Ok(Try(b, u, pid, Recv, 0).0, u)
  {
    hide WokenSet, ListOk, IsWaiting, Wake;
    var procs := b.procs - {pid};
    Leaving(b.procs, pid);
    CountLeft(b.procs, pid, true);
    CountLeft(b.procs, pid, false);
    ListKeeps(b.receivers, b.procs, procs, false);
    ListKeeps(b.senders, b.procs, procs, true);
    assert b.got + [b.mail[0]] + b.mail[1..] == b.got + b.mail;
    if b.senders != [] {
      WakeFirst(b.senders, procs, true, false);
      ListKeeps(b.receivers, procs, Wake(procs, b.senders[0]), false);
      WakeKeys(procs, b.senders[0]);
    }
  }

  lemma WakeKeys(procs: map<nat, Proc>, pid: nat)
    ensures Wake(procs, pid).Keys == procs.Keys
  {
  }

  lemma {:induction false} WithoutIs(q: seq<nat>, pid: nat)
    requires forall i, j :: 0 <= i < j < |q| ==> q[i] != q[j]
    ensures var d := Without(q, pid);
      && (forall i, j :: 0 <= i < j < |d| ==> d[i] != d[j])
      && (forall x :: x in d <==> x in q && x != pid)
      && (pid !in q ==> d == q)
  {
    if q != [] && q[0] != pid {
      WithoutIs(q[1..], pid);
      var d := Without(q[1..], pid);
      forall i, j | 0 <= i < j < |[q[0]] + d| ensures ([q[0]] + d)[i] != ([q[0]] + d)[j] {
        assert d[j - 1] in d;
      }
    }
  }

  lemma ListLeaves(q: seq<nat>, procs: map<nat, Proc>, sending: bool, pid: nat, p: Proc)
    requires ListOk(q, procs, sending) && p.at.Failed?
    ensures ListOk(Without(q, pid), procs[pid := p], sending)
  {
    WithoutIs(q, pid);
    var d, procs' := Without(q, pid), procs[pid := p];
    forall i | 0 <= i < |d| ensures IsWaiting(procs', d[i], sending) {
      assert d[i] in d && d[i] in q;
      var j :| 0 <= j < |q| && q[j] == d[i];
      assert IsWaiting(procs, q[j], sending);
    }
    forall x | IsWaiting(procs', x, sending) ensures x in d {
      assert IsWaiting(procs, x, sending);
    }
  }

  lemma ExpireKeeps(b: Box, u: Setup, pid: nat)
    requires Ok(b, u)
    ensures Ok(Step(b, u, Expire(pid)), u)
  {
    hide ListOk, IsWaiting;
    if pid in b.procs && b.procs[pid].at == Waiting && b.procs[pid].left > 0 {
      var p := b.procs[pid].(at := Failed(TIMEOUT));
      ListLeaves(b.receivers, b.procs, false, pid, p);
      ListLeaves(b.senders, b.procs, true, pid, p);
      assert WokenSet(b.procs[pid := p], true) == WokenSet(b.procs, true);
      assert WokenSet(b.procs[pid := p], false) == WokenSet(b.procs, false);
      NotEmpty(b.receivers, pid);
      NotEmpty(b.senders, pid);
    }
  }

  lemma NotEmpty(q: seq<nat>, pid: nat)
    ensures Without(q, pid) != [] ==> q != []
  {
  }

  lemma ResetKeeps(b: Box, u: Setup)
    requires Ok(b, u)
    ensures Ok(Step(b, u, Reset), u)
  {
  }

  /** Every step keeps the invariant. */
  lemma StepKeeps(b: Box, u: Setup, e: Event)
    requires Ok(b, u)
    ensures Ok(Step(b, u, e), u)
  {
    hide ListOk, NoneLost, Try, Flushed, Without;
    match e
    case Call(pid, role, timeout) =>
      if pid !in b.procs && pid in u.prio {
        TryKeeps(b, u, pid, role, timeout);
      }
    case Continue(pid, elapsed) =>
      if pid in b.procs && pid in u.prio {
        if b.procs[pid].at.Failed? {
          LeftKeeps(b, u, pid);
        } else if b.procs[pid].at == Woken {
          TryKeeps(b, u, pid, b.procs[pid].role, Less(b.procs[pid].left, elapsed));
        }
      }
    case Expire(pid) => ExpireKeeps(b, u, pid);
    case Reset => ResetKeeps(b, u);
  }

  lemma LeftKeeps(b: Box, u: Setup, pid: nat)
    requires Ok(b, u) && pid in b.procs && b.procs[pid].at.Failed?
    ensures Ok(b.(procs := b.procs - {pid}), u)
  {
    hide ListOk, IsWaiting, WokenSet;
    Leaving(b.procs, pid);
    CountLeft(b.procs, pid, true);
    CountLeft(b.procs, pid, false);
    ListKeeps(b.receivers, b.procs, b.procs - {pid}, false);
    ListKeeps(b.senders, b.procs, b.procs - {pid}, true);
  }

  /** In every run nothing is lost: mail comes out in the order it went in, and no thread
      sleeps on the box while nobody is on the way to what it waits for. */
  lemma {:induction false} RunKeeps(b: Box, u: Setup, es: seq<Event>)
    requires Ok(b, u)
    ensures Ok(Run(b, u, es), u)
    decreases |es|
  {
    hide Ok, Step;
    if es != [] {
      StepKeeps(b, u, es[0]);
      RunKeeps(Step(b, u, es[0]), u, es[1..]);
    }
  }

  /** From an empty box, what was received is always a prefix of what was sent. */
  lemma ReceivedIsPrefix(u: Setup, es: seq<Event>)
    ensures var b := Run(Empty, u, es); b.got <= b.sent && |b.sent| - |b.got| == |b.mail| <= u.size
  {
    RunKeeps(Empty, u, es);
  }

  /** When every woken thread has run, receivers wait only at an empty box and senders only
      at a full one. */
  lemma NoLostWakeup(u: Setup, es: seq<Event>)
    ensures var b := Run(Empty, u, es);
      && (b.receivers != [] && WokenSet(b.procs, false) == {} ==> b.mail == [])
      && (b.senders != [] && WokenSet(b.procs, true) == {} ==> |b.mail| == u.size)
  {
    RunKeeps(Empty, u, es);
  }
}

module Mailbox {
  import opened WaitList
  import opened MailSpec

  /** The slot `i` places behind `out` on a ring of `size` slots. */
  function Slot(out: nat, i: nat, size: nat): nat {
    if out + i < size then out + i else out + i - size
  }

  /** The ring holds the mails from the output offset on; the input offset is behind them. */
  ghost predicate RingOk(pool: seq<Mail>, out: nat, inp: nat, entry: nat, size: nat, mail: seq<Mail>) {
    && |pool| == size && entry == |mail| <= size
    && (if size == 0 then out == inp == 0 else out < size && inp < size && inp == (out + entry) % size)
    && forall i :: 0 <= i < entry ==> Slot(out, i, size) < size && pool[Slot(out, i, size)] == mail[i]
  }

  lemma SlotIsMod(out: nat, i: nat, size: nat)
    requires out < size && i <= size
    ensures Slot(out, i, size) == if i == size then out else (out + i) % size
  {
  }

  lemma RingPut(pool: seq<Mail>, out: nat, inp: nat, entry: nat, size: nat, mail: seq<Mail>, v: Mail)
    requires RingOk(pool, out, inp, entry, size, mail) && entry < size
    ensures inp < |pool|
    ensures RingOk(pool[inp := v], out, if inp + 1 >= size then 0 else inp + 1, entry + 1, size, mail + [v])
  {
    SlotIsMod(out, entry, size);
    ModNext(out + entry, size);
  }

  lemma ModNext(x: nat, size: nat)
    requires size > 0
    ensures (x + 1) % size == if x % size + 1 >= size then 0 else x % size + 1
  {
    var q, r := x / size, x % size;
    assert x + 1 == q * size + (r + 1);
    if r + 1 == size {
      assert x + 1 == (q + 1) * size;
      ModIs(x + 1, q + 1, 0, size);
    } else {
      ModIs(x + 1, q, r + 1, size);
    }
  }

  lemma AtLeastOnce(a: nat, c: nat, size: nat)
    requires a < c
    ensures a * size + size <= c * size
  {
    if a + 1 < c {
      AtLeastOnce(a, c - 1, size);
      assert c * size == (c - 1) * size + size;
    } else {
      assert c * size == (a + 1) * size == a * size + size;
    }
  }

  lemma ModIs(x: nat, q: nat, r: nat, size: nat)
    requires x == q * size + r && r < size
    ensures x % size == r
  {
    var q', r' := x / size, x % size;
    assert x == q' * size + r';
    if q < q' {
      AtLeastOnce(q, q', size);
    } else if q' < q {
      AtLeastOnce(q', q, size);
    }
  }

  lemma RingTake(pool: seq<Mail>, out: nat, inp: nat, entry: nat, size: nat, mail: seq<Mail>)
    requires RingOk(pool, out, inp, entry, size, mail) && entry > 0
    ensures out < |pool| && pool[out] == mail[0]
    ensures RingOk(pool, if out + 1 >= size then 0 else out + 1, inp, entry - 1, size, mail[1..])
  {
    var out' := if out + 1 >= size then 0 else out + 1;
    assert Slot(out, 0, size) == out;
    forall i | 0 <= i < entry - 1 ensures Slot(out', i, size) < size && pool[Slot(out', i, size)] == mail[1..][i] {
      assert Slot(out', i, size) == Slot(out, i + 1, size);
    }
    assert inp == (out' + (entry - 1)) % size by {
      if out + 1 >= size {
        assert out + entry == size + (entry - 1);
        ModIs(out + entry, 1, entry - 1, size);
        ModIs(entry - 1, 0, entry - 1, size);
      }
    }
  }

  class Mailbox {
    const u: Setup
    const pool: array<Mail>
    var entry: nat
    var inOffset: nat
    var outOffset: nat
    var receivers: seq<nat>
    var senders: seq<nat>
    var procs: map<nat, Proc>
    ghost var b: Box

    ghost predicate Valid()
      reads this, pool
    {
      && RingOk(pool[..], outOffset, inOffset, entry, u.size, b.mail)
      && b.receivers == receivers && b.senders == senders && b.procs == procs
      && Ok(b, u)
    }

    /** rt_mb_init */
    constructor (u: Setup, pool: array<Mail>)
      requires pool.Length == u.size
      ensures Valid() && b == Empty && this.u == u
    {
      this.u, this.pool := u, pool;
      entry, inOffset, outOffset := 0, 0, 0;
      receivers, senders, procs, b := [], [], map[], Empty;
    }

    /** rt_ipc_list_suspend and the timer start behind it, for a sender or a receiver. */
    method Suspend(pid: nat, role: Role, timeout: int)
      requires Valid() && MayTry(b, u, pid, role) && CannotGo(b, u, role) && timeout != 0
      modifies this`receivers, this`senders, this`procs, this`b
      ensures Valid() && b == Try(old(b), u, pid, role, timeout).0
    {
      hide ListOk, NoneLost, Joining;
      TryKeeps(b, u, pid, role, timeout);
      AllKnown(b, u);
      if role.Send? {
        var k := FindPlace(senders, u.prio, u.flag, pid);
        JoiningIs(senders, u.prio, u.flag, pid);
        senders := senders[..k] + [pid] + senders[k..];
      } else {
        var k := FindPlace(receivers, u.prio, u.flag, pid);
        JoiningIs(receivers, u.prio, u.flag, pid);
        receivers := receivers[..k] + [pid] + receivers[k..];
      }
      procs := procs[pid := Proc(role, timeout, Waiting)];
      b := Try(b, u, pid, role, timeout).0;
    }

    /** rt_mb_send_wait from the test of the loop on, entered or continued by a thread. */
    method Send(pid: nat, value: Mail, timeout: int) returns (o: Outcome)
      requires Valid() && MayTry(b, u, pid, Role.Send(value))
      modifies this, pool
      ensures Valid() && (b, o) == Try(old(b), u, pid, Role.Send(value), timeout)
    {
      hide ListOk, NoneLost, RingOk, Ok, Joining;
      OkSize(b, u, pool[..], outOffset, inOffset, entry);
      if entry == u.size {
        if timeout == 0 {
          TryKeeps(b, u, pid, Role.Send(value), timeout);
          procs := procs - {pid};
          b := Try(b, u, pid, Role.Send(value), timeout).0;
          return Returned(FULL, 0);
        }
        Suspend(pid, Role.Send(value), timeout);
        return Blocked;
      }
      TryKeeps(b, u, pid, Role.Send(value), timeout);
      RingPut(pool[..], outOffset, inOffset, entry, u.size, b.mail, value);
      ghost var was := pool[..];
      pool[inOffset] := value;
      assert pool[..] == was[inOffset := value];
      inOffset := inOffset + 1;
      if inOffset >= u.size {
        inOffset := 0;
      }
      entry := entry + 1;
      procs := procs - {pid};
      if receivers != [] {
        procs := Wake(procs, receivers[0]);
        receivers := receivers[1..];
      }
      b := Try(b, u, pid, Role.Send(value), timeout).0;
      return Returned(OK, 0);
    }

    /** rt_mb_recv from the test of the loop on. */
    method Receive(pid: nat, timeout: int) returns (o: Outcome)
      requires Valid() && MayTry(b, u, pid, Recv)
      modifies this
      ensures Valid() && (b, o) == Try(old(b), u, pid, Recv, timeout)
    {
      hide ListOk, NoneLost, RingOk, Ok, Joining;
      OkSize(b, u, pool[..], outOffset, inOffset, entry);
      if entry == 0 {
        if timeout == 0 {
          TryKeeps(b, u, pid, Recv, timeout);
          procs := procs - {pid};
          b := Try(b, u, pid, Recv, timeout).0;
          return Returned(TIMEOUT, 0);
        }
        Suspend(pid, Recv, timeout);
        return Blocked;
      }
      TryKeeps(b, u, pid, Recv, timeout);
      RingTake(pool[..], outOffset, inOffset, entry, u.size, b.mail);
      var value := pool[outOffset];
      outOffset := outOffset + 1;
      if outOffset >= u.size {
        outOffset := 0;
      }
      entry := entry - 1;
      procs := procs - {pid};
      if senders != [] {
        procs := Wake(procs, senders[0]);
        senders := senders[1..];
      }
      b := Try(b, u, pid, Recv, timeout).0;
      return Returned(OK, value);
    }

    /** What a thread does after rt_schedule: an error ends the call, otherwise the time that
        has passed is subtracted and the loop goes on. */
    method Continue(pid: nat, elapsed: nat) returns (o: Outcome)
      requires Valid() && pid in procs && procs[pid].at != Waiting
      modifies this, pool
      ensures Valid() && b == Step(old(b), u, Event.Continue(pid, elapsed))
      ensures old(procs)[pid].at.Failed? ==> o == Returned(old(procs)[pid].at.err, 0)
      ensures old(procs)[pid].at == Woken ==>
        o == Try(old(b), u, pid, old(procs)[pid].role, Less(old(procs)[pid].left, elapsed)).1
    {
      hide ListOk, NoneLost, RingOk, Try, Ok;
      KnownProc(b, u, pid);
      var p := procs[pid];
      if p.at.Failed? {
        StepKeeps(b, u, Event.Continue(pid, elapsed));
        procs := procs - {pid};
        b := Step(b, u, Event.Continue(pid, elapsed));
        return Returned(p.at.err, 0);
      }
      var timeout := p.left;
      if timeout > 0 {
        timeout := timeout - elapsed;
        if timeout < 0 {
          timeout := 0;
        }
      }
      match p.role {
        case Send(value) => o := Send(pid, value, timeout);
        case Recv => o := Receive(pid, timeout);
      }
    }

    /** rt_thread_timeout for a waiting thread whose timer runs. */
    method Expire(pid: nat)
      requires Valid() && pid in procs && procs[pid].at == Waiting && procs[pid].left > 0
      modifies this`receivers, this`senders, this`procs, this`b
      ensures Valid() && b == Step(old(b), u, Event.Expire(pid))
    {
      hide ListOk, NoneLost, RingOk, Ok;
      StepKeeps(b, u, Event.Expire(pid));
      procs := procs[pid := procs[pid].(at := Failed(TIMEOUT))];
      receivers, senders := Without(receivers, pid), Without(senders, pid);
      b := Step(b, u, Event.Expire(pid));
    }

    /** rt_mb_control with RT_IPC_CMD_RESET */
    method Reset()
      requires Valid()
      modifies this
      ensures Valid() && b == Step(old(b), u, Event.Reset)
    {
      hide ListOk, NoneLost, RingOk, FlushedList, Flushed, Ok;
      OkSize(b, u, pool[..], outOffset, inOffset, entry);
      StepKeeps(b, u, Event.Reset);
      ListsOf(b, u);
      ghost var p0 := procs;
      procs := ResumeAll(receivers, procs, false);
      FlushedOther(p0, senders);
      procs := ResumeAll(senders, procs, true);
      FlushedBoth(p0);
      receivers, senders := [], [];
      entry, inOffset, outOffset := 0, 0, 0;
      EmptyRing(pool[..], u.size);
      b := Step(b, u, Event.Reset);
    }

    method Perform(e: Event)
      requires Valid()
      modifies this, pool
      ensures Valid() && b == Step(old(b), u, e)
    {
      hide ListOk, NoneLost, RingOk, Ok, Try;
      match e {
        case Call(pid, role, timeout) =>
          if pid !in procs && pid in u.prio {
            match role {
              case Send(value) => var _ := Send(pid, value, timeout);
              case Recv => var _ := Receive(pid, timeout);
            }
          }
        case Continue(pid, elapsed) =>
          KnownProc(b, u, pid);
          if pid in procs && procs[pid].at != Waiting {
            var _ := Continue(pid, elapsed);
          }
        case Expire(pid) =>
          if pid in procs && procs[pid].at == Waiting && procs[pid].left > 0 {
            Expire(pid);
          }
        case Reset => Reset();
      }
    }

    /** Any interleaving of the steps of any threads does what the simple form does. */
    method Execute(es: seq<Event>)
      requires Valid()
      modifies this, pool
      ensures Valid() && b == Run(old(b), u, es)
      decreases |es|
    {
      hide ListOk, NoneLost, RingOk, Ok, Step;
      if es != [] {
        Perform(es[0]);
        Execute(es[1..]);
      }
    }
  }

  /** rt_ipc_list_resume_all */
  method ResumeAll(q: seq<nat>, procs: map<nat, Proc>, sending: bool) returns (r: map<nat, Proc>)
    requires ListOk(q, procs, sending)
    ensures r == FlushedList(procs, sending)
  {
    hide ListOk, FlushedList;
    var rest := q;
    r := procs;
    FlushedNone(rest, r, sending);
    while rest != []
      invariant ListOk(rest, r, sending) && FlushedList(r, sending) == FlushedList(procs, sending)
      invariant rest == [] ==> FlushedList(r, sending) == r
      decreases |rest|
    {
      FlushedFirst(rest, r, sending);
      r := r[rest[0] := r[rest[0]].(at := Failed(ERROR))];
      rest := rest[1..];
      FlushedNone(rest, r, sending);
    }
  }

  lemma KnownProc(b: Box, u: Setup, pid: nat)
    requires Ok(b, u)
    ensures pid in b.procs ==> pid in u.prio
  {
  }

  lemma OkSize(b: Box, u: Setup, pool: seq<Mail>, out: nat, inp: nat, entry: nat)
    requires Ok(b, u) && RingOk(pool, out, inp, entry, u.size, b.mail)
    ensures entry == |b.mail| <= u.size && |pool| == u.size
  {
  }

  lemma AllKnown(b: Box, u: Setup)
    requires Ok(b, u)
    ensures Known(b.receivers, u.prio) && Known(b.senders, u.prio)
  {
    forall i | 0 <= i < |b.receivers| ensures b.receivers[i] in u.prio {
      assert IsWaiting(b.procs, b.receivers[i], false);
    }
    forall i | 0 <= i < |b.senders| ensures b.senders[i] in u.prio {
      assert IsWaiting(b.procs, b.senders[i], true);
    }
  }

  lemma JoiningIs(q: seq<nat>, prio: map<nat, nat>, flag: Flag, t: nat)
    requires t in prio
    ensures var k := Place(q, prio, flag, t); Joining(q, prio, flag, t) == q[..k] + [t] + q[k..]
  {
  }

  lemma EmptyRing(pool: seq<Mail>, size: nat)
    requires |pool| == size
    ensures RingOk(pool, 0, 0, 0, size, [])
  {
  }

  lemma ListsOf(b: Box, u: Setup)
    requires Ok(b, u)
    ensures ListOk(b.receivers, b.procs, false) && ListOk(b.senders, b.procs, true)
  {
  }

  /** The waiting threads of one role made ready with an error. */
  function FlushedList(procs: map<nat, Proc>, sending: bool): map<nat, Proc> {
    map pid | pid in procs :: if IsWaiting(procs, pid, sending) then procs[pid].(at := Failed(ERROR)) else procs[pid]
  }

  lemma FlushedNone(q: seq<nat>, procs: map<nat, Proc>, sending: bool)
    requires ListOk(q, procs, sending)
    ensures q == [] ==> FlushedList(procs, sending) == procs
  {
    assert q == [] ==> forall x :: !IsWaiting(procs, x, sending);
  }

  lemma FlushedFirst(q: seq<nat>, procs: map<nat, Proc>, sending: bool)
    requires ListOk(q, procs, sending) && q != []
    ensures q[0] in procs
    ensures var procs' := procs[q[0] := procs[q[0]].(at := Failed(ERROR))];
      ListOk(q[1..], procs', sending) && FlushedList(procs', sending) == FlushedList(procs, sending)
  {
    assert IsWaiting(procs, q[0], sending);
    var procs' := procs[q[0] := procs[q[0]].(at := Failed(ERROR))];
    forall i | 0 <= i < |q[1..]| ensures IsWaiting(procs', q[1..][i], sending) {
      assert IsWaiting(procs, q[i + 1], sending);
    }
    forall x | IsWaiting(procs', x, sending) ensures x in q[1..] {
      assert IsWaiting(procs, x, sending);
    }
  }

  lemma FlushedOther(procs: map<nat, Proc>, q: seq<nat>)
    requires ListOk(q, procs, true)
    ensures ListOk(q, FlushedList(procs, false), true)
  {
    var procs' := FlushedList(procs, false);
    forall x ensures IsWaiting(procs', x, true) <==> IsWaiting(procs, x, true) {
    }
    ListKeeps(q, procs, procs', true);
  }

  lemma FlushedBoth(procs: map<nat, Proc>)
    ensures FlushedList(FlushedList(procs, false), true) == Flushed(procs)
  {
  }
}
