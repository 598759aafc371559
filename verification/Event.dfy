/**
 The event of src/ipc.c over the scheduler: a word of bits, with receivers that wait for all
 or for any of some bits and may take them out.
 */
module EventState {
  import opened RtList
  import opened ThreadLists
  import opened WaitList
  import opened Words
  import opened KernelState
  import opened Threads

  // RT_EVENT_FLAG_AND, RT_EVENT_FLAG_OR, RT_EVENT_FLAG_CLEAR
  const ALL: nat := 1
  const ANY: nat := 2
  const CLEAR: nat := 4

  predicate Flagged(info: nat, flag: nat) {
    And(info, flag) != 0
  }

  /** event_set and event_info of a thread. */
  datatype Want = Want(bits: nat, info: nat)

  /** The condition of a receiver; the test for all of the bits comes first. */
  predicate Matches(v: nat, w: Want) {
    if Flagged(w.info, ALL) then And(w.bits, v) == w.bits
    else Flagged(w.info, ANY) && And(w.bits, v) != 0
  }

  /** The bits a receiver gets, and what is left of the event then. */
  function Got(v: nat, w: Want): nat {
    if Flagged(w.info, ALL) then w.bits else And(w.bits, v)
  }

  function Left(v: nat, w: Want): nat {
    if Flagged(w.info, CLEAR) then AndNot(v, Got(v, w)) else v
  }

  ghost predicate Within(a: nat, b: nat) {
    forall k: nat :: Bit(a, k) ==> Bit(b, k)
  }

  ghost predicate Meets(a: nat, b: nat) {
    exists k: nat :: Bit(a, k) && Bit(b, k)
  }

  /** How a receiver was served: the event before and after, what it wanted and what it got. */
  datatype Served = Served(before: nat, want: Want, got: nat, after: nat)

  /** The event, what threads want, the threads that blocked in rt_event_recv and have not
      returned, and how they were served. */
  datatype State = State(v: nat, wants: map<int, Want>, inside: set<int>, served: map<int, Served>, pulled: set<int>)

  // ----- what the conditions mean -----

  /** With RT_EVENT_FLAG_AND the condition is that no wanted bit is missing, else that some is there. */
  lemma MatchesMeans(v: nat, w: Want)
    ensures Flagged(w.info, ALL) ==> (Matches(v, w) <==> Within(w.bits, v))
    ensures !Flagged(w.info, ALL) && Flagged(w.info, ANY) ==> (Matches(v, w) <==> Meets(w.bits, v))
  {
    var a := And(w.bits, v);
    forall k: nat ensures Bit(a, k) <==> Bit(w.bits, k) && Bit(v, k) {
      AndBit(w.bits, v, k);
    }
    if Within(w.bits, v) {
      SameBits(a, w.bits);
    }
    if Meets(w.bits, v) {
      var k: nat :| Bit(w.bits, k) && Bit(v, k);
      SomeBit(a, k);
    } else {
      NoBits(a);
    }
  }

  lemma SomeBit(a: nat, k: nat)
    requires Bit(a, k)
    ensures a != 0
  {
    ZeroBit(k);
  }

  /** A served receiver gets bits it wanted that were there, all that it wanted or all that
      were there of them; exactly these are taken out, and only if it asked for that. */
  lemma ServedGets(v: nat, w: Want)
    requires Matches(v, w)
    ensures forall k: nat :: Bit(Got(v, w), k) <==> Bit(w.bits, k) && Bit(v, k)
    ensures forall k: nat :: Bit(Left(v, w), k) <==> Bit(v, k) && !(Flagged(w.info, CLEAR) && Bit(Got(v, w), k))
  {
    MatchesMeans(v, w);
    forall k: nat ensures Bit(Got(v, w), k) <==> Bit(w.bits, k) && Bit(v, k) {
      AndBit(w.bits, v, k);
      if Flagged(w.info, ALL) && Bit(w.bits, k) {
        assert Within(w.bits, v);
      }
    }
    forall k: nat ensures Bit(Left(v, w), k) <==> Bit(v, k) && !(Flagged(w.info, CLEAR) && Bit(Got(v, w), k)) {
      AndNotBit(v, Got(v, w), k);
    }
  }

  /** rt_event_recv takes out all the bits it was asked for: that is as good as those it got. */
  lemma ClearAsked(v: nat, bits: nat)
    ensures AndNot(v, bits) == AndNot(v, And(bits, v))
  {
    forall k: nat ensures Bit(AndNot(v, bits), k) <==> Bit(AndNot(v, And(bits, v)), k) {
      AndNotBit(v, bits, k);
      AndNotBit(v, And(bits, v), k);
      AndBit(bits, v, k);
    }
    SameBits(AndNot(v, bits), AndNot(v, And(bits, v)));
  }

  lemma AndSame(v: nat, bits: nat)
    ensures And(v, bits) == And(bits, v)
  {
    forall k: nat ensures Bit(And(v, bits), k) <==> Bit(And(bits, v), k) {
      AndBit(v, bits, k);
      AndBit(bits, v, k);
    }
    SameBits(And(v, bits), And(bits, v));
  }

  /** A condition that does not hold, does not hold of fewer bits. */
  lemma FewerBits(v: nat, v': nat, w: Want)
    requires Within(v', v) && Matches(v', w)
    ensures Matches(v, w)
  {
    MatchesMeans(v, w);
    MatchesMeans(v', w);
    if Flagged(w.info, ALL) {
      forall k: nat | Bit(w.bits, k) ensures Bit(v, k) {
        assert Bit(v', k);
      }
    }
  }

  lemma LeftWithin(v: nat, w: Want)
    ensures Within(Left(v, w), v)
  {
    forall k: nat | Bit(Left(v, w), k) ensures Bit(v, k) {
      AndNotBit(v, Got(v, w), k);
    }
  }

  // ----- the sweep over the waiters in rt_event_send -----

  function Serve(m: State, t: int): State
    requires t in m.wants
  {
    var w := m.wants[t];
    m.(v := Left(m.v, w), wants := m.wants[t := w.(bits := Got(m.v, w))],
       served := m.served[t := Served(m.v, w, Got(m.v, w), Left(m.v, w))])
  }

  datatype Swept = Swept(m: State, q: seq<int>, turns: seq<int>)

  /** The loop of rt_event_send, at position `at` of the list. */
  function Sweep(m: State, q: seq<int>, at: nat, turns: seq<int>): Swept
    decreases |q| - at
  {
    if at >= |q| then Swept(m, q, turns)
    else if q[at] in m.wants && Matches(m.v, m.wants[q[at]])
      then Sweep(Serve(m, q[at]), Dropped(q, at), at, turns + [q[at]])
    else Sweep(m, q, at + 1, turns)
  }

  /** No waiter's condition holds. */
  ghost predicate Settled(q: seq<int>, m: State, at: nat) {
    forall i :: 0 <= i < at && i < |q| ==> q[i] in m.wants && !Matches(m.v, m.wants[q[i]])
  }

  ghost predicate Wanted(q: seq<int>, m: State) {
    forall i :: 0 <= i < |q| ==> q[i] in m.wants
  }

  ghost predicate Apart(q: seq<int>) {
    forall i, j :: 0 <= i < j < |q| ==> q[i] != q[j]
  }

  lemma ServeKeeps(m: State, q: seq<int>, at: nat)
    requires Apart(q) && Wanted(q, m) && Settled(q, m, at) && at < |q| && q[at] in m.wants
    ensures Apart(Dropped(q, at)) && Wanted(Dropped(q, at), Serve(m, q[at]))
      && Settled(Dropped(q, at), Serve(m, q[at]), at)
  {
    var m', d := Serve(m, q[at]), Dropped(q, at);
    LeftWithin(m.v, m.wants[q[at]]);
    forall i | 0 <= i < at && i < |d| ensures d[i] in m'.wants && !Matches(m'.v, m'.wants[d[i]]) {
      if Matches(m'.v, m.wants[q[i]]) {
        FewerBits(m.v, m'.v, m.wants[q[i]]);
      }
    }
  }

  /** However the event shrinks in the middle of the loop: afterwards no condition holds. */
  lemma {:induction false} SweepSettles(m: State, q: seq<int>, at: nat, turns: seq<int>)
    requires Apart(q) && Wanted(q, m) && Settled(q, m, at) && at <= |q|
    ensures var r := Sweep(m, q, at, turns); Apart(r.q) && Wanted(r.q, r.m) && Settled(r.q, r.m, |r.q|)
    decreases |q| - at
  {
    if at < |q| {
      if Matches(m.v, m.wants[q[at]]) {
        ServeKeeps(m, q, at);
        SweepSettles(Serve(m, q[at]), Dropped(q, at), at, turns + [q[at]]);
      } else {
        SweepSettles(m, q, at + 1, turns);
      }
    }
  }

  predicate ServedOk(s: Served) {
    Matches(s.before, s.want) && s.got == Got(s.before, s.want) && s.after == Left(s.before, s.want)
  }

  /** Thread t was served with these bits. */
  predicate HasGot(m: State, t: int) {
    t in m.served && t in m.wants && ServedOk(m.served[t]) && m.served[t].got == m.wants[t].bits
  }

  /** Thread t took bit k out. */
  predicate Takes(m: State, t: int, k: nat) {
    t in m.served && Flagged(m.served[t].want.info, CLEAR) && Bit(m.served[t].got, k)
  }

  /** What is true of the threads served so far, when the event was v at first: each got what
      it wanted at its turn, the event has lost what they took, and nothing was taken twice. */
  ghost predicate Accounts(v: nat, m: State, turns: seq<int>) {
    && Apart(turns)
    && (forall i :: 0 <= i < |turns| ==> HasGot(m, turns[i]))
    && (forall k: nat :: Bit(m.v, k) <==> Bit(v, k) && !(exists i :: 0 <= i < |turns| && Takes(m, turns[i], k)))
    && (forall i, k: nat :: 0 <= i < |turns| && turns[i] in m.served && Bit(m.served[turns[i]].got, k) ==>
          Bit(v, k) && forall j :: 0 <= j < i ==> !Takes(m, turns[j], k))
  }

  ghost predicate Unserved(q: seq<int>, turns: seq<int>) {
    forall i, j :: 0 <= i < |q| && 0 <= j < |turns| ==> q[i] != turns[j]
  }

  lemma ServeAccounts(v: nat, m: State, t: int, turns: seq<int>)
    requires Accounts(v, m, turns) && t in m.wants && Matches(m.v, m.wants[t])
    requires forall j :: 0 <= j < |turns| ==> turns[j] != t
    ensures Accounts(v, Serve(m, t), turns + [t])
  {
    hide Got, Left, Matches;
    var m', s := Serve(m, t), turns + [t];
    ServedGets(m.v, m.wants[t]);
    forall i, k: nat | 0 <= i < |s| ensures Takes(m', s[i], k) <==>
      if i < |turns| then Takes(m, turns[i], k) else Flagged(m.wants[t].info, CLEAR) && Bit(Got(m.v, m.wants[t]), k)
    {
    }
    forall i | 0 <= i < |s| ensures HasGot(m', s[i]) {
      assert i < |turns| ==> HasGot(m, turns[i]);
    }
    forall k: nat ensures Bit(m'.v, k) <==> Bit(v, k) && !(exists i :: 0 <= i < |s| && Takes(m', s[i], k)) {
      if i :| 0 <= i < |turns| && Takes(m, turns[i], k) {
        assert Takes(m', s[i], k);
      }
      if Flagged(m.wants[t].info, CLEAR) && Bit(Got(m.v, m.wants[t]), k) {
        assert Takes(m', s[|turns|], k);
      }
    }
    forall i, k: nat | 0 <= i < |s| && s[i] in m'.served && Bit(m'.served[s[i]].got, k)
      ensures Bit(v, k) && forall j :: 0 <= j < i ==> !Takes(m', s[j], k)
    {
      if i == |turns| {
        assert Bit(m.v, k);
      } else {
        assert Bit(m.served[turns[i]].got, k);
      }
    }
  }

  /** All that a sweep serves, it serves at the right moment, and the bits add up. */
  lemma {:induction false} SweepAccounts(v: nat, m: State, q: seq<int>, at: nat, turns: seq<int>)
    requires Apart(q) && Wanted(q, m) && at <= |q| && Unserved(q, turns) && Accounts(v, m, turns)
    ensures var r := Sweep(m, q, at, turns); Accounts(v, r.m, r.turns) && Unserved(r.q, r.turns)
    ensures var r := Sweep(m, q, at, turns); forall x :: x in q || x in turns <==> x in r.q || x in r.turns
    decreases |q| - at
  {
    if at < |q| {
      if Matches(m.v, m.wants[q[at]]) {
        ServeAccounts(v, m, q[at], turns);
        DroppedMembers(q, at);
        DroppedOthers(q, at);
        SweepAccounts(v, Serve(m, q[at]), Dropped(q, at), at, turns + [q[at]]);
      } else {
        SweepAccounts(v, m, q, at + 1, turns);
      }
    }
  }

  lemma DroppedOthers(q: seq<int>, at: nat)
    requires Apart(q) && at < |q|
    ensures Apart(Dropped(q, at)) && forall i :: 0 <= i < |Dropped(q, at)| ==>
      Dropped(q, at)[i] != q[at] && Dropped(q, at)[i] in q
  {
  }

  // ----- the invariant -----

  /** Where a thread inside rt_event_recv is: waiting, served without an error, resumed by
      somebody else without an error, or on its way out with one. */
  predicate Placed(k: Kernel, m: State, h: nat, t: int)
    requires h in k.queues
  {
    && t in k.error && t in m.wants
    && (t in k.queues[h] || t in m.pulled ==> k.error[t] == EOK && t !in m.served)
    && (t !in k.queues[h] && t !in m.pulled && k.error[t] == EOK ==> HasGot(m, t))
  }

  ghost predicate InsideOk(k: Kernel, m: State, h: nat) {
    && h in k.queues
    && (forall t :: t in m.inside ==> Placed(k, m, h, t))
    && (forall t :: t in k.queues[h] ==> t in m.inside)
    && (forall t :: t in m.pulled ==> t in m.inside && t !in k.queues[h])
  }

  /** In every reachable state no waiter's condition holds of the event. */
  ghost predicate Ok(k: Kernel, m: State, h: nat) {
    InsideOk(k, m, h) && Settled(k.queues[h], m, |k.queues[h]|)
  }

  /** What other activity may do to the threads and keep the event. */
  ghost predicate Elsewhere(k: Kernel, k': Kernel, m: State, h: nat) {
    && h in k.queues && h in k'.queues && k'.queues[h] == k.queues[h]
    && (forall t :: t in m.inside && t in k.error ==> t in k'.error && k'.error[t] == k.error[t])
  }

  lemma ElsewhereKeeps(k: Kernel, k': Kernel, m: State, h: nat)
    requires InsideOk(k, m, h) && Elsewhere(k, k', m, h)
    ensures InsideOk(k', m, h) && (Ok(k, m, h) ==> Ok(k', m, h))
  {
    forall t | t in m.inside ensures Placed(k', m, h, t) {
      assert Placed(k, m, h, t);
    }
  }

  /** A thread without an error that does not wait any more was served if and only if nobody
      else has resumed it. */
  lemma NoErrorIffServed(k: Kernel, m: State, h: nat, t: int)
    requires Ok(k, m, h) && t in m.inside && t !in k.queues[h]
    ensures t in k.error && t in m.wants && (k.error[t] == EOK ==> (HasGot(m, t) <==> t !in m.pulled))
    ensures t in m.pulled ==> k.error[t] == EOK && t !in m.served
  {
    assert Placed(k, m, h, t);
  }

  /** A waiter that somebody else resumes leaves the list without an error and without its bits. */
  lemma PulledKeeps(k: Kernel, k': Kernel, m: State, h: nat, t: int)
    requires Ok(k, m, h) && k'.error == k.error && h in k'.queues && Apart(k.queues[h])
    requires k'.queues[h] == Less(k.queues[h], t) && t in k.queues[h]
    ensures Ok(k', m.(pulled := m.pulled + {t}), h)
    ensures t in m.inside && t in k.error && k.error[t] == EOK && t in m.wants && !Matches(m.v, m.wants[t])
  {
    hide Less, Matches;
    var q, m', d := k.queues[h], m.(pulled := m.pulled + {t}), k'.queues[h];
    LessIs(q, t);
    assert Placed(k, m, h, t);
    forall x | x in m.inside ensures Placed(k', m', h, x) {
      assert Placed(k, m, h, x);
      assert x in d <==> x in q && x != t;
      assert HasGot(m', x) == HasGot(m, x);
    }
    forall i | 0 <= i < |d| ensures d[i] in m.wants && !Matches(m.v, m.wants[d[i]]) {
      assert d[i] in d;
      var j :| 0 <= j < |q| && q[j] == d[i];
    }
    var j :| 0 <= j < |q| && q[j] == t;
  }

  lemma WaiterKnown(k: Kernel, N: nat, m: State, h: nat, t: int)
    requires KernelState.Ok(k, N) && h > N && Ok(k, m, h) && t in k.queues[h]
    ensures t in k.error && t in k.stat && k.stat[t] == Suspended
  {
    assert Placed(k, m, h, t);
    assert On(k.queues, h, t);
  }

  lemma LeaveKeeps(k: Kernel, m: State, h: nat, t: int)
    requires Ok(k, m, h) && t in m.inside && t !in k.queues[h]
    ensures Ok(k, m.(inside := m.inside - {t}, pulled := m.pulled - {t}), h)
  {
    var m' := m.(inside := m.inside - {t}, pulled := m.pulled - {t});
    forall x | x in m'.inside ensures Placed(k, m', h, x) {
      assert Placed(k, m, h, x);
    }
  }

  /** Fewer bits wake nobody; more have to be looked at. */
  lemma BitsChange(k: Kernel, m: State, h: nat, v: nat)
    requires InsideOk(k, m, h)
    ensures InsideOk(k, m.(v := v), h) && Wanted(k.queues[h], m)
    ensures Ok(k, m, h) && Within(v, m.v) ==> Ok(k, m.(v := v), h)
  {
    var m', q := m.(v := v), k.queues[h];
    forall t | t in m.inside ensures Placed(k, m', h, t) {
      assert Placed(k, m, h, t);
    }
    forall i | 0 <= i < |q| ensures q[i] in m.wants {
      assert Placed(k, m, h, q[i]);
    }
    if Ok(k, m, h) && Within(v, m.v) {
      forall i | 0 <= i < |q| ensures !Matches(v, m.wants[q[i]]) {
        if Matches(v, m.wants[q[i]]) {
          FewerBits(m.v, v, m.wants[q[i]]);
        }
      }
    }
  }

  /** A waiter is served and woken. */
  lemma ServedLeaves(k: Kernel, k': Kernel, m: State, h: nat, at: nat)
    requires InsideOk(k, m, h) && at < |k.queues[h]| && k.queues[h][at] in m.wants
      && Matches(m.v, m.wants[k.queues[h][at]])
    requires Apart(k.queues[h]) && h in k'.queues && k'.queues[h] == Dropped(k.queues[h], at) && k'.error == k.error
    ensures InsideOk(k', Serve(m, k.queues[h][at]), h)
  {
    var q, m' := k.queues[h], Serve(m, k.queues[h][at]);
    DroppedMembers(q, at);
    forall t | t in m'.inside ensures Placed(k', m', h, t) {
      assert Placed(k, m, h, t);
      assert t != q[at] ==> HasGot(m', t) == HasGot(m, t);
    }
  }

  /** A waiter whose time is up leaves. */
  lemma TimeoutKeeps(k: Kernel, k': Kernel, m: State, h: nat, t: int)
    requires Ok(k, m, h) && k'.error == k.error[t := ETIMEOUT] && h in k'.queues && Apart(k.queues[h])
    requires k'.queues[h] == Less(k.queues[h], t) && t in k.queues[h]
    ensures Ok(k', m, h)
  {
    hide Less;
    var q := k.queues[h];
    LessIs(q, t);
    forall x | x in m.inside ensures Placed(k', m, h, x) {
      assert Placed(k, m, h, x);
      assert x in k'.queues[h] <==> x in q && x != t;
    }
    var d := k'.queues[h];
    forall i | 0 <= i < |d| ensures d[i] in m.wants && !Matches(m.v, m.wants[d[i]]) {
      assert d[i] in d;
      var j :| 0 <= j < |q| && q[j] == d[i];
    }
  }

  /** A thread whose condition does not hold begins to wait. */
  lemma WaitKeeps(k: Kernel, k': Kernel, m: State, h: nat, flag: Flag, t: int, w: Want)
    requires h in k.queues && Ok(k, m, h) && t in k.prio && t in k.error && t !in m.inside && !Matches(m.v, w)
    requires k'.error == k.error[t := EOK] && h in k'.queues && k'.queues[h] == Joining(k.queues[h], k.prio, flag, t)
    ensures Ok(k', m.(wants := m.wants[t := w], inside := m.inside + {t}, served := m.served - {t}), h)
  {
    hide Joining, Place, Matches, InsideOk, Settled;
    var q := k.queues[h];
    JoiningPlace(q, k.prio, flag, t);
    InsertedMembers(q, Place(q, k.prio, flag, t), t);
    WaiterPlaced(k, k', m, h, t, w);
    WaiterSettled(k, m, h, k'.queues[h], t, w);
  }

  lemma WaiterPlaced(k: Kernel, k': Kernel, m: State, h: nat, t: int, w: Want)
    requires InsideOk(k, m, h) && t in k.error && t !in m.inside && k'.error == k.error[t := EOK]
    requires h in k'.queues && forall x :: x in k'.queues[h] <==> x in k.queues[h] || x == t
    ensures InsideOk(k', m.(wants := m.wants[t := w], inside := m.inside + {t}, served := m.served - {t}), h)
  {
    var m' := m.(wants := m.wants[t := w], inside := m.inside + {t}, served := m.served - {t});
    forall x | x in m'.inside ensures Placed(k', m', h, x) {
      if x != t {
        assert Placed(k, m, h, x);
        assert HasGot(m', x) == HasGot(m, x);
      }
    }
  }

  lemma WaiterSettled(k: Kernel, m: State, h: nat, d: seq<int>, t: int, w: Want)
    requires InsideOk(k, m, h) && Settled(k.queues[h], m, |k.queues[h]|) && t !in m.inside && !Matches(m.v, w)
    requires forall x :: x in d <==> x in k.queues[h] || x == t
    ensures Settled(d, m.(wants := m.wants[t := w], inside := m.inside + {t}, served := m.served - {t}), |d|)
  {
    hide Matches, Placed;
    var q, m' := k.queues[h], m.(wants := m.wants[t := w], inside := m.inside + {t}, served := m.served - {t});
    forall i | 0 <= i < |d| ensures d[i] in m'.wants && !Matches(m'.v, m'.wants[d[i]]) {
      assert d[i] in d;
      if d[i] != t {
        var j :| 0 <= j < |q| && q[j] == d[i];
      }
    }
  }

  /** A reset leaves nobody waiting, and everybody who waited with an error. */
  lemma ResetKeeps(k: Kernel, k': Kernel, m: State, h: nat)
    requires Ok(k, m, h) && h in k'.queues && k'.queues[h] == [] && k'.error == AllFailed(k.error, k.queues[h])
    ensures Ok(k', m.(v := 0), h)
  {
    hide AllFailed;
    var m' := m.(v := 0);
    forall x | x in m'.inside ensures Placed(k', m', h, x) {
      assert Placed(k, m, h, x);
      FailedIs(k.error, k.queues[h], x);
      assert HasGot(m', x) == HasGot(m, x);
    }
  }

  /** No thread is twice on a list. */
  lemma QueueApart(k: Kernel, N: nat, h: nat)
    requires KernelState.Ok(k, N) && h in k.queues
    ensures Apart(k.queues[h])
  {
    hide IndexAgrees, LogOk, Ring;
    RingOf(k.links, k.queues, k.stat.Keys, h);
    RingApart(k.links, HeadOf(h), k.queues[h]);
  }

  /** Waking the waiter at some place of a list leaves the others of it. */
  lemma WokenAt(k: Kernel, k': Kernel, N: nat, h: nat, at: nat)
    requires KernelState.Ok(k, N) && h in k.queues && h > N && at < |k.queues[h]|
      && IsWoken(k, k', k.queues[h][at], Resumed)
    ensures h in k'.queues && k'.queues[h] == Dropped(k.queues[h], at)
    ensures After(HeadOf(h), k'.queues[h], at) == After(HeadOf(h), k.queues[h], at + 1)
  {
    hide IndexAgrees, LogOk, Idle, Ring, Less;
    RingOf(k.links, k.queues, k.stat.Keys, h);
    RingApart(k.links, HeadOf(h), k.queues[h]);
    LessIs(k.queues[h], k.queues[h][at]);
  }

  lemma OkInside(k: Kernel, m: State, h: nat)
    requires Ok(k, m, h)
    ensures InsideOk(k, m, h) && h in k.queues
  {
  }

  lemma InsideList(k: Kernel, m: State, h: nat)
    requires InsideOk(k, m, h)
    ensures h in k.queues
  {
  }

  lemma WaiterFacts(k: Kernel, m: State, h: nat, at: nat)
    requires InsideOk(k, m, h) && at < |k.queues[h]|
    ensures k.queues[h][at] in m.wants && k.queues[h][at] in k.error && k.error[k.queues[h][at]] == EOK
  {
    assert Placed(k, m, h, k.queues[h][at]);
  }

  /** The timer of a ready thread is not running. */
  lemma ArmedOnly(k: Kernel, N: nat, t: int)
    requires KernelState.Ok(k, N) && t in k.stat && k.stat[t] == Ready
    ensures t !in k.armed
  {
  }

  /** What rt_event_recv returns and takes out at once. */
  lemma GotAnd(v: nat, w: Want)
    requires Matches(v, w)
    ensures And(v, w.bits) == Got(v, w) && (Flagged(w.info, CLEAR) ==> AndNot(v, w.bits) == Left(v, w))
  {
    AndSame(v, w.bits);
    ClearAsked(v, w.bits);
  }

  /** Threads resumed one after the other. */
  function ResumedAll(turns: seq<int>): seq<KernelState.Event> {
    if turns == [] then [] else ResumedAll(turns[..|turns| - 1]) + [Wakes(turns[|turns| - 1], Resumed, EOK)]
  }

  lemma ResumedMore(turns: seq<int>, t: int)
    ensures ResumedAll(turns + [t]) == ResumedAll(turns) + [Wakes(t, Resumed, EOK)]
  {
    assert (turns + [t])[..|turns|] == turns;
  }

  lemma SweepServes(m: State, q: seq<int>, at: nat, turns: seq<int>)
    requires at < |q| && q[at] in m.wants
    ensures Matches(m.v, m.wants[q[at]]) ==>
      Sweep(m, q, at, turns) == Sweep(Serve(m, q[at]), Dropped(q, at), at, turns + [q[at]])
    ensures !Matches(m.v, m.wants[q[at]]) ==> Sweep(m, q, at, turns) == Sweep(m, q, at + 1, turns)
  {
  }

  lemma SweepEnds(m: State, q: seq<int>, at: nat, turns: seq<int>)
    requires at >= |q|
    ensures Sweep(m, q, at, turns) == Swept(m, q, turns)
  {
  }

  lemma NothingServed(m: State)
    ensures Accounts(m.v, m, [])
  {
  }

  /** Sending: the waiters that were served, and none of those that are left. */
  lemma SendKeeps(k: Kernel, m: State, h: nat, q0: seq<int>, m0: State, turns: seq<int>)
    requires InsideOk(k, m, h) && Apart(q0) && Wanted(q0, m0) && Swept(m, k.queues[h], turns) == Sweep(m0, q0, 0, [])
    ensures Ok(k, m, h) && Accounts(m0.v, m, turns)
    ensures forall x :: x in q0 <==> x in k.queues[h] || x in turns
  {
    hide Sweep, InsideOk, Apart, Wanted, Takes, HasGot;
    SweepSettles(m0, q0, 0, []);
    NothingServed(m0);
    SweepAccounts(m0.v, m0, q0, 0, []);
  }
}

module Events {
  import opened RtList
  import opened ThreadLists
  import opened WaitList
  import opened Words
  import opened ReadyIndex
  import opened KernelState
  import opened Threads
  import opened EventState

  /** What a caller of rt_event_recv gets at once, or that it has to wait. */
  datatype Outcome = Bits(bits: nat) | Failed(err: Err) | Blocked

  class EventObject {
    const sched: Scheduler
    const h: nat
    const flag: Flag
    var v: nat
    var wants: map<int, Want>
    ghost var inside: set<int>
    ghost var served: map<int, Served>
    ghost var pulled: set<int>

    ghost function Here(): State
      reads this
    {
      State(v, wants, inside, served, pulled)
    }

    ghost predicate Valid()
      reads this, sched
    {
      sched.Valid() && h > sched.N && EventState.Ok(sched.Now(), Here(), h)
    }

    /** The current thread runs, and it is not on its way through rt_event_recv. */
    ghost predicate Running()
      reads this, sched
    {
      sched.current in sched.stat && sched.stat[sched.current] == Ready && sched.current !in inside
    }

    /** rt_event_init */
    constructor (s: Scheduler, list: nat, f: Flag)
      requires s.Valid() && list > s.N && list in s.queues && s.queues[list] == []
      ensures Valid() && sched == s && h == list && flag == f && v == 0 && inside == {}
    {
      sched, h, flag := s, list, f;
      v, wants, inside, served, pulled := 0, map[], {}, map[], {};
    }

    /** rt_event_send, without the scheduling behind it. `turns` are the threads it resumes, in order. */
    method Send(bits: nat) returns (r: Err, ghost turns: seq<int>)
      requires Valid()
      modifies this`v, this`wants, this`served
      modifies sched`links, sched`stat, sched`armed, sched`index, sched`queues, sched`log
      ensures Valid() && h in old(sched.queues) && h in sched.queues
      ensures r == if bits == 0 then EERROR else EOK
      ensures bits == 0 ==> Here() == old(Here()) && sched.Now() == old(sched.Now()) && turns == []
      ensures bits != 0 ==> Accounts(Or(old(v), bits), Here(), turns)
      ensures bits != 0 ==>
        Swept(Here(), sched.queues[h], turns) == Sweep(old(Here()).(v := Or(old(v), bits)), old(sched.queues)[h], 0, [])
      ensures forall t :: t in old(sched.queues)[h] <==> t in sched.queues[h] || t in turns
      ensures sched.log == old(sched.log) + ResumedAll(turns)
    {
      hide KernelState.Ok, EventState.Ok, InsideOk, Settled, Sweep, ReadyIndex.Ok, Or, Accounts, Wanted, Apart;
      turns := [];
      OkInside(sched.Now(), Here(), h);
      if bits == 0 {
        return EERROR, [];
      }
      BitsChange(sched.Now(), Here(), h, Or(v, bits));
      v := Or(v, bits);
      ghost var m, q := Here(), sched.queues[h];
      QueueApart(sched.Now(), sched.N, h);
      BitsChange(sched.Now(), Here(), h, v);
      ListWalk(sched.Now(), sched.N, h, 0);
      if !IsEmpty(sched.links, HeadOf(h)) {
        turns := SweepWaiters();
      } else {
        SweepEnds(m, q, 0, []);
      }
      SendKeeps(sched.Now(), Here(), h, q, m, turns);
      return EOK, turns;
    }

    /** The loop over the waiters. */
    method SweepWaiters() returns (ghost turns: seq<int>)
      requires sched.Valid() && h > sched.N && InsideOk(sched.Now(), Here(), h)
      modifies this`v, this`wants, this`served
      modifies sched`links, sched`stat, sched`armed, sched`index, sched`queues, sched`log
      ensures sched.Valid() && InsideOk(sched.Now(), Here(), h) && h in sched.queues && h in old(sched.queues)
      ensures Swept(Here(), sched.queues[h], turns) == Sweep(old(Here()), old(sched.queues)[h], 0, [])
      ensures sched.log == old(sched.log) + ResumedAll(turns)
    {
      hide KernelState.Ok, InsideOk, Sweep, Serve, ReadyIndex.Ok, Matches;
      turns := [];
      InsideList(sched.Now(), Here(), h);
      ListWalk(sched.Now(), sched.N, h, 0);
      var n := sched.links.next[HeadOf(h)];
      ghost var at: nat := 0;
      while n != HeadOf(h)
        invariant sched.Valid() && InsideOk(sched.Now(), Here(), h) && h in sched.queues && at <= |sched.queues[h]|
        invariant n == After(HeadOf(h), sched.queues[h], at) && (n == HeadOf(h) <==> at == |sched.queues[h]|)
        invariant Sweep(Here(), sched.queues[h], at, turns) == Sweep(old(Here()), old(sched.queues)[h], 0, [])
        invariant sched.log == old(sched.log) + ResumedAll(turns)
        decreases |sched.queues[h]| - at
      {
        n, at, turns := VisitOne(n, at, turns, old(sched.log));
      }
      SweepEnds(Here(), sched.queues[h], at, turns);
    }

    /** The waiter at one place of the list is served or left, and the loop goes on behind it. */
    method VisitOne(n: int, ghost at: nat, ghost turns: seq<int>, ghost was: seq<KernelState.Event>)
      returns (n': int, ghost at': nat, ghost turns': seq<int>)
      requires sched.Valid() && h > sched.N && InsideOk(sched.Now(), Here(), h) && h in sched.queues
      requires at < |sched.queues[h]| && n == sched.queues[h][at] && sched.log == was + ResumedAll(turns)
      modifies this`v, this`wants, this`served
      modifies sched`links, sched`stat, sched`armed, sched`index, sched`queues, sched`log
      ensures sched.Valid() && InsideOk(sched.Now(), Here(), h) && h in sched.queues && at' <= |sched.queues[h]|
      ensures n' == After(HeadOf(h), sched.queues[h], at') && (n' == HeadOf(h) <==> at' == |sched.queues[h]|)
      ensures Sweep(Here(), sched.queues[h], at', turns') == Sweep(old(Here()), old(sched.queues)[h], at, turns)
      ensures |sched.queues[h]| - at' == |old(sched.queues)[h]| - at - 1
      ensures sched.log == was + ResumedAll(turns')
    {
      hide KernelState.Ok, InsideOk, Sweep, Serve, ReadyIndex.Ok, Matches;
      ListWalk(sched.Now(), sched.N, h, at);
      WaiterFacts(sched.Now(), Here(), h, at);
      SweepServes(Here(), sched.queues[h], at, turns);
      n' := sched.links.next[n];
      if Fulfilled(n) {
        ResumedMore(turns, n);
        at', turns' := at, turns + [n];
        ServeOne(n, at);
      } else {
        at', turns' := at + 1, turns;
      }
      ListWalk(sched.Now(), sched.N, h, at');
    }

    /** The condition of a waiter. */
    function Fulfilled(t: int): (ok: bool)
      requires t in wants
      reads this
      ensures ok == Matches(v, wants[t])
    {
      if Flagged(wants[t].info, ALL) then And(wants[t].bits, v) == wants[t].bits
      else if Flagged(wants[t].info, ANY) then And(wants[t].bits, v) != 0
      else false
    }

    /** The received bits are saved and perhaps cleared, and the waiter is resumed. */
    method ServeOne(t: int, ghost at: nat)
      requires sched.Valid() && h > sched.N && InsideOk(sched.Now(), Here(), h) && h in sched.queues
      requires at < |sched.queues[h]| && sched.queues[h][at] == t && t in wants && Matches(v, wants[t])
      requires t in sched.error && sched.error[t] == EOK && t in sched.stat && sched.stat[t] == Suspended
      modifies this`v, this`wants, this`served
      modifies sched`links, sched`stat, sched`armed, sched`index, sched`queues, sched`log
      ensures sched.Valid() && InsideOk(sched.Now(), Here(), h) && h in sched.queues
      ensures Here() == Serve(old(Here()), t) && sched.queues[h] == Dropped(old(sched.queues)[h], at)
      ensures After(HeadOf(h), sched.queues[h], at) == After(HeadOf(h), old(sched.queues)[h], at + 1)
      ensures sched.log == old(sched.log) + [Wakes(t, Resumed, EOK)]
    {
      hide KernelState.Ok, InsideOk, ReadyIndex.Ok, Matches, And, AndNot, Flagged, Dropped, After;
      ghost var k, m := sched.Now(), Here();
      QueueApart(k, sched.N, h);
      ghost var w := wants[t];
      if !Flagged(wants[t].info, ALL) {
        wants := wants[t := wants[t].(bits := And(wants[t].bits, v))];
      } else {
        assert wants[t := w] == wants;
      }
      if Flagged(wants[t].info, CLEAR) {
        v := AndNot(v, wants[t].bits);
      }
      served := served[t := Served(m.v, w, Got(m.v, w), Left(m.v, w))];
      assert Here() == Serve(m, t);
      assert sched.error[t := sched.error[t]] == sched.error;
      var _ := sched.Resume(t, Resumed, sched.error[t]);
      WokenAt(k, sched.Now(), sched.N, h, at);
      ServedLeaves(k, sched.Now(), m, h, at);
    }

    /** rt_event_recv up to the point where the thread has its bits, has failed or waits. */
    method Recv(bits: nat, option: nat, timeout: int) returns (r: Outcome)
      requires Valid() && Running() && (bits != 0 ==> Flagged(option, ALL) || Flagged(option, ANY))
      modifies this`v, this`wants, this`inside, this`served
      modifies sched`links, sched`stat, sched`armed, sched`index, sched`queues, sched`error, sched`log
      ensures Valid() && h in old(sched.queues) && h in sched.queues
      ensures bits == 0 ==> r == Failed(EERROR) && Here() == old(Here()) && sched.Now() == old(sched.Now())
      ensures bits != 0 ==> (r.Bits? <==> Matches(old(v), Want(bits, option)))
      ensures bits != 0 ==> (r.Failed? <==> !r.Bits? && timeout == 0)
      ensures r.Bits? ==> r.bits == Got(old(v), Want(bits, option)) && v == Left(old(v), Want(bits, option))
      ensures !r.Bits? ==> v == old(v)
      ensures bits != 0 && r.Failed? ==> r.err == ETIMEOUT && sched.error == old(sched.error)[sched.current := ETIMEOUT]
      ensures !r.Blocked? ==>
        sched.queues == old(sched.queues) && sched.stat == old(sched.stat) && inside == old(inside)
      ensures r.Blocked? ==>
        inside == old(inside) + {sched.current} && wants == old(wants)[sched.current := Want(bits, option)]
      ensures r.Blocked? ==>
        sched.current in sched.prio && sched.queues[h] == Joining(old(sched.queues)[h], sched.prio, flag, sched.current)
      ensures r.Blocked? ==> (sched.current in sched.armed <==> timeout > 0)
    {
      hide KernelState.Ok, EventState.Ok, Matches, And, AndNot, Flagged, Within, ReadyIndex.Ok;
      OkInside(sched.Now(), Here(), h);
      if bits == 0 {
        return Failed(EERROR);
      }
      var t := sched.current;
      SetCode(t, EOK);
      var ok := Holds(bits, option);
      if ok {
        r := Bits(And(v, bits));
        GotAnd(v, Want(bits, option));
        if Flagged(option, CLEAR) {
          LeftWithin(v, Want(bits, option));
          BitsChange(sched.Now(), Here(), h, AndNot(v, bits));
          v := AndNot(v, bits);
        }
      } else if timeout == 0 {
        SetCode(t, ETIMEOUT);
        r := Failed(ETIMEOUT);
      } else {
        Block(t, Want(bits, option), timeout);
        r := Blocked;
      }
    }

    /** The condition of the caller. */
    method Holds(bits: nat, option: nat) returns (ok: bool)
      requires Flagged(option, ALL) || Flagged(option, ANY)
      ensures ok == Matches(v, Want(bits, option))
    {
      hide Flagged, And;
      AndSame(v, bits);
      ok := false;
      if Flagged(option, ALL) {
        if And(v, bits) == bits {
          ok := true;
        }
      } else if Flagged(option, ANY) {
        if And(v, bits) != 0 {
          ok := true;
        }
      } else {
        assert false;
      }
    }

    /** thread->error = err for the current thread */
    method SetCode(t: int, err: Err)
      requires Valid() && Running() && t == sched.current
      modifies sched`error
      ensures Valid() && sched.error == old(sched.error)[t := err] && t in sched.prio && h in sched.queues
    {
      hide KernelState.Ok, EventState.Ok, InsideOk, ReadyIndex.Ok;
      ghost var k := sched.Now();
      KnownThread(k, sched.N, t);
      OkInside(k, Here(), h);
      InsideList(k, Here(), h);
      sched.SetError(t, err);
      ElsewhereKeeps(k, sched.Now(), Here(), h);
    }

    /** The current thread goes to the list of the event with what it wants. */
    method Block(t: int, w: Want, timeout: int)
      requires Valid() && Running() && t == sched.current && !Matches(v, w) && timeout != 0
      modifies this`wants, this`inside, this`served
      modifies sched`links, sched`stat, sched`armed, sched`index, sched`queues, sched`error, sched`log
      ensures Valid() && inside == old(inside) + {t} && wants == old(wants)[t := w]
      ensures h in old(sched.queues) && h in sched.queues && (t in sched.armed <==> timeout > 0)
      ensures t in sched.prio && sched.queues[h] == Joining(old(sched.queues)[h], sched.prio, flag, t)
    {
      hide KernelState.Ok, EventState.Ok, Matches, Off, ReadyIndex.Ok, Joining;
      ghost var k := sched.Now();
      KnownThread(k, sched.N, t);
      OkInside(k, Here(), h);
      wants := wants[t := w];
      sched.Wait(t, h, flag, timeout);
      WaitKeeps(k, sched.Now(), old(Here()), h, flag, t, w);
      inside, served := inside + {t}, served - {t};
      ArmedOnly(k, sched.N, t);
    }

    /** The end of rt_event_recv for a thread that had to wait and runs again. */
    method Continue(t: int) returns (r: Outcome)
      requires Valid() && t in inside && t in sched.stat && sched.stat[t] == Ready
      modifies this`inside, this`pulled
      ensures Valid() && inside == old(inside) - {t} && pulled == old(pulled) - {t} && t in sched.error && t in wants
      ensures sched.error[t] != EOK ==> r == Failed(sched.error[t])
      ensures sched.error[t] == EOK ==> r == Bits(wants[t].bits) && (t in served <==> t !in old(pulled))
      ensures sched.error[t] == EOK && t in served ==> ServedOk(served[t]) && r == Bits(served[t].got)
      ensures t in old(pulled) ==> sched.error[t] == EOK
    {
      hide KernelState.Ok, EventState.Ok, ServedOk, ReadyIndex.Ok;
      OkInside(sched.Now(), Here(), h);
      AwayFrom(sched.Now(), sched.N, h, t);
      NoErrorIffServed(sched.Now(), Here(), h, t);
      LeaveKeeps(sched.Now(), Here(), h, t);
      inside, pulled := inside - {t}, pulled - {t};
      return if sched.error[t] != EOK then Failed(sched.error[t]) else Bits(wants[t].bits);
    }

    /** rt_thread_resume for a waiter by somebody who does not send to the event. */
    method Pull(t: int)
      requires Valid() && h in sched.queues && t in sched.queues[h]
      modifies this`pulled, sched`links, sched`stat, sched`armed, sched`index, sched`queues, sched`log
      ensures Valid() && IsWoken(old(sched.Now()), sched.Now(), t, Resumed) && pulled == old(pulled) + {t}
      ensures t in inside && t in sched.error && sched.error[t] == EOK && t in wants && !Matches(v, wants[t])
      ensures h in sched.queues && sched.queues[h] == Less(old(sched.queues)[h], t)
    {
      hide KernelState.Ok, EventState.Ok, ReadyIndex.Ok, Less, Off, Apart, Matches;
      ghost var k := sched.Now();
      QueueApart(k, sched.N, h);
      WaiterKnown(k, sched.N, Here(), h, t);
      assert sched.error[t := sched.error[t]] == sched.error;
      var _ := sched.Resume(t, Resumed, sched.error[t]);
      QueueLess(k, sched.Now(), sched.N, h, t);
      PulledKeeps(k, sched.Now(), Here(), h, t);
      pulled := pulled + {t};
    }

    /** The time of a waiter is up. */
    method Expire(t: int)
      requires Valid() && t in sched.armed && h in sched.queues && t in sched.queues[h]
      modifies sched`links, sched`stat, sched`armed, sched`index, sched`queues, sched`error, sched`log
      ensures Valid() && IsWoken(old(sched.Now()), sched.Now(), t, TimedOut)
      ensures t in sched.error && sched.error == old(sched.error)[t := ETIMEOUT]
      ensures h in sched.queues && sched.queues[h] == Less(old(sched.queues)[h], t)
    {
      hide KernelState.Ok, EventState.Ok, ReadyIndex.Ok, Less, Off, Apart;
      ghost var k := sched.Now();
      QueueApart(k, sched.N, h);
      sched.Timeout(t);
      QueueLess(k, sched.Now(), sched.N, h, t);
      TimeoutKeeps(k, sched.Now(), Here(), h, t);
    }

    /** rt_event_control with RT_IPC_CMD_RESET. */
    method Reset()
      requires Valid()
      modifies this`v
      modifies sched`links, sched`stat, sched`armed, sched`index, sched`queues, sched`error, sched`log
      ensures Valid() && v == 0 && h in old(sched.queues) && h in sched.queues && sched.queues[h] == []
      ensures sched.log == old(sched.log) + FlushedAll(old(sched.queues)[h])
    {
      hide KernelState.Ok, EventState.Ok, ReadyIndex.Ok;
      ghost var k := sched.Now();
      OkInside(k, Here(), h);
      sched.ResumeAll(h);
      EventState.ResetKeeps(k, sched.Now(), Here(), h);
      v := 0;
    }
  }
}
