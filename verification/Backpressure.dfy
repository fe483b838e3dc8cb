/**
 How large a send buffer can grow. Every request that may write before the next pump of its
 connection holds a credit; pumping below the limit renews credits, writing spends them.
 */
module Backpressure {
  import opened Wrappers
  import opened Connections
  import opened AsyncStreams
  import opened AsyncResponses
  import opened Desks
  import opened Protocol
  import opened ProtocolShape
  import opened Slots
  import opened ProtocolInvariant
  import opened Fates
  import opened SendBuffers

  // ---- small facts on cardinalities and products ----

  lemma SubsetSize(a: set<ReqId>, b: set<ReqId>)
    requires a <= b
    ensures |a| <= |b|
  {
    if a != {} {
      var x :| x in a;
      SubsetSize(a - {x}, b - {x});
    }
  }

  lemma {:induction false} ListSize(order: seq<ReqId>, ids: set<ReqId>)
    requires Lists(order, ids)
    ensures |order| == |ids|
  {
    if order == [] {
      assert ids == {} by { assert forall id :: id !in ids; }
    } else {
      var n := |order| - 1;
      forall id ensures id in order[..n] <==> id in ids - {order[n]} {
        assert order == order[..n] + [order[n]];
      }
      ListSize(order[..n], ids - {order[n]});
    }
  }

  lemma Product(m: nat, a: nat, b: nat)
    ensures m * (a + b) == m * a + m * b
    ensures a <= b ==> m * a <= m * b
  {
  }

  /** Spending n credits on writes of at most m bytes each. */
  lemma SpendMany(q: nat, q': nat, a: nat, n: nat, limit: int, m: nat)
    requires q + m * (a + n) <= limit && q' <= q + m * n
    ensures q' + m * a <= limit
  {
    Product(m, a, n);
  }

  /** A dispatch brings a credit and raises the limit by as much. */
  lemma Grant(q: nat, a: nat, io: nat, d: nat, m: nat)
    requires q + m * a <= io - 1 + m * d
    ensures q + m * (a + 1) <= io - 1 + m * (d + 1)
  {
    Product(m, a, 1);
    Product(m, d, 1);
  }

  // ---- credits ----

  /** The loop may write for this request before its connection is pumped again. */
  predicate MayWrite(d: Desk, id: ReqId) {
    || id in d.pendingResponses
    || (id in d.pendingStreams && id in d.streams &&
        d.streams[id].state != Flush && d.streams[id].state != StreamState.Failed)
  }

  /** The asynchronous requests dispatched on a connection. */
  function Asyncs(d: Desk, c: ConnId): set<ReqId> {
    set id | id in d.responses && d.responses[id].conn == c
  }

  function Credits(d: Desk, c: ConnId): set<ReqId> {
    set id | id in d.responses && d.responses[id].conn == c && MayWrite(d, id)
  }

  predicate Small(it: Item, m: nat, env: Env) {
    |Bytes(it.body, env)| <= m
  }

  /** No preamble, framed chunk or reply written on the connection is longer than m. */
  ghost predicate SmallItems(wire: seq<Item>, m: nat, env: Env) {
    forall it <- wire :: Small(it, m, env)
  }

  ghost predicate Budget(s: State, c: ConnId, m: nat, env: Env) {
    Open(s, c) ==>
      && |Asyncs(s.desk, c)| + (if s.conns[c].producer.Some? then 1 else 0) <= s.conns[c].dispatched
      && s.conns[c].queued + m * |Credits(s.desk, c)| <= env.io - 1 + m * s.conns[c].dispatched
  }

  lemma CreditsAreAsyncs(d: Desk, c: ConnId)
    ensures |Credits(d, c)| <= |Asyncs(d, c)|
  {
    SubsetSize(Credits(d, c), Asyncs(d, c));
  }

  /** A stream filed under the connection waits for the buffer to drain. */
  ghost predicate Flushing(d: Desk, c: ConnId) {
    exists id :: Has(d.pendingStreams, c, id) && id in d.streams && d.streams[id].state == Flush
  }

  /**
   handle_write fires for another connection, whose buffer is below the limit, while this one is over it
   and one of its streams waits for that: the guard reads the wrong buffer.
   */
  ghost predicate CrossPump(s: State, e: Event, c: ConnId, env: Env) {
    e.DrainAndWrite? && e.c != c && Open(s, c) && s.conns[c].queued >= env.io && Flushing(s.desk, c) &&
    Open(s, e.c) && e.n <= s.conns[e.c].queued && PumpSync(Drain(s.conns[e.c], e.n), env).queued < env.io
  }

  lemma SameBudget(s: State, s': State, c: ConnId, m: nat, env: Env)
    requires Budget(s, c, m, env) && (Open(s', c) ==> Open(s, c) && s'.conns[c].producer == s.conns[c].producer)
    requires Open(s', c) ==> s'.conns[c].queued == s.conns[c].queued && s'.conns[c].dispatched == s.conns[c].dispatched
    requires Asyncs(s'.desk, c) == Asyncs(s.desk, c) && Credits(s'.desk, c) <= Credits(s.desk, c)
    ensures Budget(s', c, m, env)
  {
    SubsetSize(Credits(s'.desk, c), Credits(s.desk, c));
    Product(m, |Credits(s'.desk, c)|, |Credits(s.desk, c)|);
  }

  // ---- each event keeps within budget ----

  predicate HoldsCredit(t: Slot) {
    t.inR || (t.inS && t.l.v.Some? && t.l.v.value.state != Flush && t.l.v.value.state != StreamState.Failed)
  }

  lemma SlotCredit(s: State, id: ReqId)
    requires Sane(s) && id in s.desk.responses
    ensures MayWrite(s.desk, id) <==> HoldsCredit(SlotOf(s, id))
  {
  }

  lemma StepSpendsNothing(t: Slot, a: Step)
    requires t.open && AccountedSlot(t) && CanStep(t.l, a)
    ensures HoldsCredit(Stepped(t, a, true)) ==> HoldsCredit(t)
  {
  }

  lemma WorkCredits(s: State, i: ReqId, a: Step, c: ConnId)
    requires AllAccounted(s) && Issued(s, i) && CanStep(LocalOf(s, i), a) && Open(s, c)
    requires Sane(ApplyWork(s, i, a))
    ensures Asyncs(ApplyWork(s, i, a).desk, c) == Asyncs(s.desk, c)
    ensures Credits(ApplyWork(s, i, a).desk, c) <= Credits(s.desk, c)
  {
    hide MayWrite, Sane, AllAccounted, TakeStep, CanStep;
    var d := ApplyWork(s, i, a).desk;
    assert d.responses.Keys == s.desk.responses.Keys;
    forall id | id in s.desk.responses
      ensures d.responses[id].conn == s.desk.responses[id].conn
      ensures s.desk.responses[id].conn == c && MayWrite(d, id) ==> MayWrite(s.desk, id)
    {
      WorkCredit(s, i, a, id);
    }
    CreditsShrink(s.desk, d, c);
  }

  lemma CreditsShrink(d: Desk, d': Desk, c: ConnId)
    requires d'.responses.Keys == d.responses.Keys
    requires forall id | id in d.responses :: d'.responses[id].conn == d.responses[id].conn
    requires forall id | id in d.responses && d.responses[id].conn == c && MayWrite(d', id) :: MayWrite(d, id)
    ensures Asyncs(d', c) == Asyncs(d, c) && Credits(d', c) <= Credits(d, c)
  {
  }

  lemma WorkCredit(s: State, i: ReqId, a: Step, id: ReqId)
    requires AllAccounted(s) && Issued(s, i) && CanStep(LocalOf(s, i), a) && id in s.desk.responses
    requires Sane(ApplyWork(s, i, a))
    ensures var s' := ApplyWork(s, i, a);
            && id in s'.desk.responses && s'.desk.responses[id].conn == s.desk.responses[id].conn
            && (Open(s, s.desk.responses[id].conn) && MayWrite(s'.desk, id) ==> MayWrite(s.desk, id))
  {
    hide AccountedSlot, HoldsCredit, MayWrite, Stepped, WakeupsFit, WiresFit;
    WorkSlot(s, i, a, id);
    SlotCredit(s, id);
    SlotCredit(ApplyWork(s, i, a), id);
    if id == i && SlotOf(s, id).open {
      assert Accounted(s, id) && s.alive by { assert Open(s, s.desk.responses[id].conn); }
      StepSpendsNothing(SlotOf(s, id), a);
    }
  }

  lemma WorkBudget(s: State, i: ReqId, a: Step, c: ConnId, m: nat, env: Env)
    requires AllAccounted(s) && Issued(s, i) && CanStep(LocalOf(s, i), a) && Budget(s, c, m, env)
    ensures Budget(ApplyWork(s, i, a), c, m, env)
  {
    if Open(s, c) {
      WorkKeepsSane(s, i, a);
      WorkCredits(s, i, a, c);
      SameBudget(s, ApplyWork(s, i, a), c, m, env);
    }
  }

  lemma IssueCredits(d: Desk, c': ConnId, c: ConnId)
    requires d.counter !in d.responses && d.counter !in d.pendingStreams && d.counter !in d.pendingResponses
    ensures var d', n := Issue(d, c'), d.counter;
            && n !in Asyncs(d, c)
            && Asyncs(d', c) == Asyncs(d, c) + (if c == c' then {n} else {})
            && Credits(d', c) == Credits(d, c) + (if c == c' then {n} else {})
  {
  }

  lemma DispatchCredits(s: State, c': ConnId, c: ConnId)
    requires Sane(s) && Open(s, c')
    ensures var d, n := Dispatch(s, c').desk, s.desk.counter;
            && n !in Asyncs(s.desk, c)
            && Asyncs(d, c) == Asyncs(s.desk, c) + (if c == c' then {n} else {})
            && Credits(d, c) == Credits(s.desk, c) + (if c == c' then {n} else {})
  {
    hide Asyncs, Credits, Issue;
    assert s.desk.counter !in s.desk.responses;
    IssueCredits(s.desk, c', c);
  }

  lemma DispatchBudget(s: State, c': ConnId, c: ConnId, m: nat, env: Env)
    requires Sane(s) && Open(s, c') && Budget(s, c, m, env)
    ensures Budget(Dispatch(s, c'), c, m, env)
  {
    DispatchCredits(s, c', c);
    var s', n := Dispatch(s, c'), s.desk.counter;
    if c == c' {
      GrantedBudget(s, s', c, n, m, env);
    } else {
      SameBudget(s, s', c, m, env);
    }
  }

  lemma GrantedBudget(s: State, s': State, c: ConnId, n: ReqId, m: nat, env: Env)
    requires Open(s, c) && Open(s', c) && Budget(s, c, m, env)
    requires s'.conns[c].producer == s.conns[c].producer && s'.conns[c].queued == s.conns[c].queued
    requires s'.conns[c].dispatched == s.conns[c].dispatched + 1
    requires Asyncs(s'.desk, c) == Asyncs(s.desk, c) + {n} && Credits(s'.desk, c) == Credits(s.desk, c) + {n}
    requires n !in Asyncs(s.desk, c)
    ensures Budget(s', c, m, env)
  {
    assert n !in Credits(s.desk, c);
    assert |Credits(s.desk, c) + {n}| == |Credits(s.desk, c)| + 1;
    assert |Asyncs(s.desk, c) + {n}| == |Asyncs(s.desk, c)| + 1;
    Grant(s.conns[c].queued, |Credits(s.desk, c)|, env.io, s.conns[c].dispatched, m);
  }

  /** Writing for some requests on c spends their credits. */
  lemma SpentBudget(s: State, s': State, c: ConnId, spent: set<ReqId>, m: nat, env: Env)
    requires Open(s, c) && Open(s', c) && Budget(s, c, m, env)
    requires s'.conns[c].producer == s.conns[c].producer && s'.conns[c].dispatched == s.conns[c].dispatched
    requires Asyncs(s'.desk, c) == Asyncs(s.desk, c)
    requires Credits(s'.desk, c) == Credits(s.desk, c) - spent && spent <= Credits(s.desk, c)
    requires s'.conns[c].queued <= s.conns[c].queued + m * |spent|
    ensures Budget(s', c, m, env)
  {
    assert |Credits(s.desk, c)| == |Credits(s.desk, c) - spent| + |spent|;
    SpendMany(s.conns[c].queued, s'.conns[c].queued, |Credits(s'.desk, c)|, |spent|,
              env.io - 1 + m * s.conns[c].dispatched, m);
  }

  lemma SyncBudget(s: State, e: Event, c: ConnId, m: nat, env: Env)
    requires Sane(s) && Wired(s.desk) && Enabled(s, e) && (e.DispatchReply? || e.DispatchStream?) && Budget(s, c, m, env)
    requires c in Apply(s, e, env).conns && SmallItems(Apply(s, e, env).conns[c].wire, m, env)
    ensures Budget(Apply(s, e, env), c, m, env)
  {
    var s' := Apply(s, e, env);
    if e.c == c {
      var k := s'.conns[c];
      assert k.wire[|k.wire| - 1] in k.wire;
      assert Small(k.wire[|k.wire| - 1], m, env);
      Product(m, s.conns[c].dispatched, 1);
    }
  }

  lemma WakeupCredits(s: State, c': ConnId, id: ReqId, c: ConnId, env: Env)
    requires AllAccounted(s) && Wired(s.desk) && Open(s, c') && (c', id) in s.wakeups
    ensures var d := ApplyWakeup(s, c', id, env).desk;
            && Asyncs(d, c) == Asyncs(s.desk, c)
            && Credits(d, c) == Credits(s.desk, c) - {id}
            && (id in Credits(s.desk, c) <==> c == c')
  {
    hide HandleWakeup, AllAccounted, MayWrite, OnlyWakes, Wired;
    var d := ApplyWakeup(s, c', id, env).desk;
    WakeupEffect(s.desk, c', id, s.conns[c'], env);
    WakeupCredit(s, c', id, env);
    SameCreditsElsewhere(s.desk, d, c', id, c);
  }

  lemma WakeupCredit(s: State, c: ConnId, id: ReqId, env: Env)
    requires AllAccounted(s) && Wired(s.desk) && Open(s, c) && (c, id) in s.wakeups
    ensures MayWrite(s.desk, id) && !MayWrite(ApplyWakeup(s, c, id, env).desk, id)
    ensures id in s.desk.responses && s.desk.responses[id].conn == c
    ensures Has(s.desk.pendingStreams, c, id) || Has(s.desk.pendingResponses, c, id)
  {
    QueuedIsPending(s, c, id);
    OwnWakeupSlot(s, c, id, env);
    WakeupKeepsSane(s, c, id, env);
    SlotCredit(s, id);
    SlotCredit(ApplyWakeup(s, c, id, env), id);
    WakeSpends(SlotOf(s, id), env);
  }

  lemma WakeupBudget(s: State, c': ConnId, id: ReqId, c: ConnId, m: nat, env: Env)
    requires AllAccounted(s) && Wired(s.desk) && Open(s, c') && (c', id) in s.wakeups
    requires Budget(s, c, m, env) && c in s.conns && SmallItems(ApplyWakeup(s, c', id, env).conns[c].wire, m, env)
    ensures Budget(ApplyWakeup(s, c', id, env), c, m, env)
  {
    hide HandleWakeup, Credits, Asyncs, OnlyWakes, Budget, Wired, AllAccounted, SmallItems;
    WakeupCredits(s, c', id, c, env);
    WakeupEffect(s.desk, c', id, s.conns[c'], env);
    var s' := ApplyWakeup(s, c', id, env);
    if c == c' {
      WakeupCredit(s, c, id, env);
      WakeWritesOne(s.desk, c, id, s.conns[c], m, env);
      SpentBudget(s, s', c, {id}, m, env);
    } else {
      SameBudget(s, s', c, m, env);
    }
  }

  lemma WakeSpends(t: Slot, env: Env)
    requires t.open && OpenSlot(t) && t.posted > 0
    ensures t.inS || (t.inR && t.l.r.state == Streaming) ==> t.l.v.Some?
    ensures HoldsCredit(t) && !HoldsCredit(Wake(t, env))
  {
  }

  lemma SameCreditsElsewhere(d: Desk, d': Desk, c': ConnId, id: ReqId, c: ConnId)
    requires OnlyWakes(d, d', c', id) && id in d.responses && d.responses[id].conn == c'
    ensures forall i | i in d.responses && i != id :: MayWrite(d', i) <==> MayWrite(d, i)
    ensures Asyncs(d', c) == Asyncs(d, c)
    ensures Credits(d', c) - {id} == Credits(d, c) - {id}
  {
  }

  /** On a request that is still pending a wakeup writes at most one item. */
  lemma WakeWritesOne(d: Desk, c: ConnId, id: ReqId, k: Conn, m: nat, env: Env)
    requires Wired(d) && (Has(d.pendingStreams, c, id) || Has(d.pendingResponses, c, id))
    requires SmallItems(HandleWakeup(d, c, id, k, env).1.wire, m, env)
    ensures HandleWakeup(d, c, id, k, env).1.queued <= k.queued + m
  {
    var k' := HandleWakeup(d, c, id, k, env).1;
    assert k' == k || (|k'.wire| == |k.wire| + 1 && k'.queued == k.queued + |Bytes(k'.wire[|k.wire|].body, env)|);
    if k' != k { assert Small(k'.wire[|k.wire|], m, env); }
  }

  // ---- the pump ----

  /** The pump of c itself: below the limit all credits may come back. */
  lemma PumpBelowLimit(s: State, s': State, c: ConnId, m: nat, env: Env)
    requires Budget(s, c, m, env) && Open(s, c) && Open(s', c) && s'.conns[c].queued < env.io
    requires Asyncs(s'.desk, c) == Asyncs(s.desk, c) && s'.conns[c].dispatched == s.conns[c].dispatched
    requires s'.conns[c].producer.Some? ==> s.conns[c].producer.Some?
    ensures Budget(s', c, m, env)
  {
    CreditsAreAsyncs(s'.desk, c);
    Product(m, |Credits(s'.desk, c)|, s.conns[c].dispatched);
  }

  /** Above it none does, whether the buffer was that full or the synchronous stream has just filled it. */
  lemma PumpAboveLimit(s: State, s': State, c: ConnId, drained: nat, m: nat, env: Env)
    requires Budget(s, c, m, env) && Open(s, c) && Open(s', c) && s'.conns[c].queued >= env.io
    requires s'.desk == s.desk && s'.conns[c].dispatched == s.conns[c].dispatched && drained <= s.conns[c].queued
    requires s'.conns[c].producer.Some? ==> s.conns[c].producer.Some?
    requires s'.conns[c].queued == drained ||
             (s.conns[c].producer.Some? && drained < env.io && s'.conns[c].queued <= drained + m)
    ensures Budget(s', c, m, env)
  {
    var a := |Credits(s.desk, c)|;
    if s'.conns[c].queued != drained {
      CreditsAreAsyncs(s.desk, c);
      Product(m, a, 1);
      Product(m, a + 1, s.conns[c].dispatched);
    }
  }

  lemma OwnPumpBudget(s: State, n: nat, c: ConnId, m: nat, env: Env)
    requires Open(s, c) && n <= s.conns[c].queued && Budget(s, c, m, env)
    requires SmallItems(PumpSync(Drain(s.conns[c], n), env).wire, m, env)
    ensures var (d, k) := HandleWrite(s.desk, Drain(s.conns[c], n), env);
            Budget(SetLoop(s, c, d, k), c, m, env)
  {
    var k0 := Drain(s.conns[c], n);
    var k := PumpSync(k0, env);
    var s' := SetLoop(s, c, PumpStreams(s.desk, k.queued, env), k);
    if k.queued < env.io {
      assert Asyncs(s'.desk, c) == Asyncs(s.desk, c);
      PumpBelowLimit(s, s', c, m, env);
    } else {
      assert s'.desk.streams == s.desk.streams;
      if k != k0 {
        assert k.wire[|k0.wire|] in k.wire && Small(k.wire[|k0.wire|], m, env);
      }
      PumpAboveLimit(s, s', c, k0.queued, m, env);
    }
  }

  /** The pump of another connection renews credits of c as well, but only while c is below the limit. */
  lemma OtherPumpBudget(s: State, s': State, queued: nat, c: ConnId, m: nat, env: Env)
    requires BooksFit(s) && IdsFit(s) && env.io > 0 && Budget(s, c, m, env)
    requires Open(s, c) ==> s.conns[c].queued < env.io || queued >= env.io || !Flushing(s.desk, c)
    requires s'.desk == PumpStreams(s.desk, queued, env)
    requires Open(s', c) ==> Open(s, c) && s'.conns[c] == s.conns[c]
    ensures Budget(s', c, m, env)
  {
    assert Asyncs(s'.desk, c) == Asyncs(s.desk, c);
    if Open(s', c) && s.conns[c].queued < env.io {
      CreditsAreAsyncs(s'.desk, c);
      Product(m, |Credits(s'.desk, c)|, s.conns[c].dispatched);
    } else if Open(s', c) {
      IdlePump(s, queued, c, env);
      SameBudget(s, s', c, m, env);
    }
  }

  lemma IdlePump(s: State, queued: nat, c: ConnId, env: Env)
    requires BooksFit(s) && IdsFit(s) && (queued >= env.io || !Flushing(s.desk, c))
    ensures Credits(PumpStreams(s.desk, queued, env), c) <= Credits(s.desk, c)
  {
    forall id | id in Credits(PumpStreams(s.desk, queued, env), c) ensures id in Credits(s.desk, c) {
      assert id in s.desk.pendingStreams ==> Has(s.desk.pendingStreams, c, id);
    }
  }

  lemma PumpBudget(s: State, c': ConnId, n: nat, c: ConnId, m: nat, env: Env)
    requires Sane(s) && Wired(s.desk) && Open(s, c') && 0 < n <= s.conns[c'].queued && env.io > 0 && Budget(s, c, m, env)
    requires !CrossPump(s, DrainAndWrite(c', n), c, env)
    requires var (d, k) := HandleWrite(s.desk, Drain(s.conns[c'], n), env);
             c == c' ==> SmallItems(k.wire, m, env)
    ensures var (d, k) := HandleWrite(s.desk, Drain(s.conns[c'], n), env);
            Budget(SetLoop(s, c', d, k), c, m, env)
  {
    hide Budget, Flushing, WakeupsFit, WiresFit;
    if c == c' {
      OwnPumpBudget(s, n, c, m, env);
    } else {
      var (d, k) := HandleWrite(s.desk, Drain(s.conns[c'], n), env);
      OtherPumpBudget(s, SetLoop(s, c', d, k), k.queued, c, m, env);
    }
  }

  // ---- polls and closes ----

  lemma {:induction false} ErrorRepliesSize(k: Conn, order: seq<ReqId>, m: nat, env: Env)
    requires SmallItems(ReplyErrors(k, order, env).wire, m, env)
    ensures ReplyErrors(k, order, env).queued <= k.queued + m * |order|
  {
    if order != [] {
      var init, id := order[..|order| - 1], order[|order| - 1];
      var k0 := ReplyErrors(k, init, env);
      var it := Item(Request(id), SERVER_ERROR);
      assert ReplyErrors(k, order, env).wire == k0.wire + [it];
      assert Small((k0.wire + [it])[|k0.wire|], m, env);
      ErrorRepliesSize(k, init, m, env);
      Product(m, |init|, 1);
    }
  }

  lemma PollBudget(s: State, c': ConnId, order: seq<ReqId>, c: ConnId, m: nat, env: Env)
    requires Sane(s) && Wired(s.desk) && Open(s, c') && Lists(order, Swept(s.desk, c')) && Budget(s, c, m, env)
    requires var (d, k) := HandlePoll(s.desk, c', order, s.conns[c'], env);
             c == c' ==> SmallItems(k.wire, m, env)
    ensures var (d, k) := HandlePoll(s.desk, c', order, s.conns[c'], env);
            Budget(SetLoop(s, c', d, k), c, m, env)
  {
    var (d, k) := HandlePoll(s.desk, c', order, s.conns[c'], env);
    var s' := SetLoop(s, c', d, k);
    ErrorRepliesWire(s.conns[c'], order, env);
    PollCredits(s, c', order, c, env);
    if c == c' {
      ListSize(order, Swept(s.desk, c));
      ErrorRepliesSize(s.conns[c], order, m, env);
      SpentBudget(s, s', c, Swept(s.desk, c), m, env);
    } else {
      SameBudget(s, s', c, m, env);
    }
  }

  lemma PollCredits(s: State, c': ConnId, order: seq<ReqId>, c: ConnId, env: Env)
    requires Sane(s) && Wired(s.desk) && Open(s, c') && Lists(order, Swept(s.desk, c'))
    ensures var d := HandlePoll(s.desk, c', order, s.conns[c'], env).0;
            && Asyncs(d, c) == Asyncs(s.desk, c)
            && Credits(d, c) == Credits(s.desk, c) - Swept(s.desk, c')
            && (c == c' ==> Swept(s.desk, c') <= Credits(s.desk, c))
            && (c != c' ==> Credits(d, c) == Credits(s.desk, c))
  {
  }

  lemma HangupCredits(d: Desk, c': ConnId, c: ConnId)
    requires forall id | id in d.pendingResponses :: id in d.responses && d.responses[id].conn == d.pendingResponses[id]
    requires forall id | id in d.pendingStreams :: id in d.responses && d.responses[id].conn == d.pendingStreams[id]
    ensures Asyncs(HandleClose(d, c'), c) == Asyncs(d, c)
    ensures Credits(HandleClose(d, c'), c) <= Credits(d, c)
  {
  }

  lemma HangupBudget(s: State, c': ConnId, c: ConnId, m: nat, env: Env)
    requires Sane(s) && Open(s, c') && Budget(s, c, m, env)
    ensures Budget(Hangup(s, c'), c, m, env)
  {
    HangupCredits(s.desk, c', c);
    SameBudget(s, Hangup(s, c'), c, m, env);
  }

  lemma AcceptBudget(s: State, c': ConnId, c: ConnId, m: nat, env: Env)
    requires Sane(s) && c' !in s.conns && env.io > 0 && Budget(s, c, m, env)
    ensures Budget(s.(conns := s.conns[c' := NEW_CONN]), c, m, env)
  {
    if c == c' {
      assert Asyncs(s.desk, c) == {};
      assert Credits(s.desk, c) == {};
    }
  }

  lemma StepBudget(s: State, e: Event, c: ConnId, m: nat, env: Env)
    requires AllAccounted(s) && env.io > 0 && Wired(s.desk) && Enabled(s, e) && Budget(s, c, m, env)
    requires !CrossPump(s, e, c, env)
    requires c in Apply(s, e, env).conns ==> SmallItems(Apply(s, e, env).conns[c].wire, m, env)
    ensures Budget(Apply(s, e, env), c, m, env)
  {
    match e
    case Work(i, a) => WorkBudget(s, i, a, c, m, env);
    case DispatchAsync(c') => DispatchBudget(s, c', c, m, env);
    case DispatchReply(_, _, _, _) => if c in s.conns { SyncBudget(s, e, c, m, env); }
    case DispatchStream(_, _, _) => if c in s.conns { SyncBudget(s, e, c, m, env); }
    case DeliverWakeup(c', id) => if c in s.conns { WakeupBudget(s, c', id, c, m, env); }
    case DrainAndWrite(c', n) => PumpBudget(s, c', n, c, m, env);
    case Poll(c', order) => PollBudget(s, c', order, c, m, env);
    case CloseConn(c') => HangupBudget(s, c', c, m, env);
    case Accept(c') => AcceptBudget(s, c', c, m, env);
    case _ =>
  }

  /** No other connection's pump wakes a stream of c while c is over the limit, and c's items stay small. */
  ghost predicate Confined(run: seq<Event>, env: Env, c: ConnId, m: nat) {
    && Exec(run, env).Some?
    && (c in Exec(run, env).value.conns ==> SmallItems(Exec(run, env).value.conns[c].wire, m, env))
    && (run == [] ||
        (Confined(run[..|run| - 1], env, c, m) &&
         !CrossPump(Exec(run[..|run| - 1], env).value, run[|run| - 1], c, env)))
  }

  lemma {:induction false} ConfinedRunsKeepBudget(run: seq<Event>, env: Env, c: ConnId, m: nat)
    requires env.io > 0 && Confined(run, env, c, m)
    ensures Budget(Exec(run, env).value, c, m, env)
  {
    if run != [] {
      hide Apply, AllAccounted, Wired, Enabled, Budget, SmallItems, CrossPump;
      var before := run[..|run| - 1];
      ConfinedRunsKeepBudget(before, env, c, m);
      var s, e := ExecLast(run, env);
      RunsAreAccounted(before, env, s);
      StepBudget(s, e, c, m, env);
    }
  }

  /** N dispatched requests and items of at most m bytes keep the send buffer within MG_IO_SIZE - 1 + N * m. */
  lemma BufferIsBounded(run: seq<Event>, env: Env, s: State, c: ConnId, m: nat)
    requires env.io > 0 && Confined(run, env, c, m) && Exec(run, env) == Some(s) && Open(s, c)
    ensures s.conns[c].queued <= env.io - 1 + m * DispatchesOn(run, c)
  {
    ConfinedRunsKeepBudget(run, env, c, m);
    DispatchesAreCounted(run, env, s, c);
    Product(m, 0, |Credits(s.desk, c)|);
  }

  // ---- a server with a single connection ----

  lemma {:induction false} ErrorRepliesKeep(k: Conn, order: seq<ReqId>, env: Env)
    ensures forall it <- k.wire :: it in ReplyErrors(k, order, env).wire
  {
    if order != [] {
      ErrorRepliesKeep(k, order[..|order| - 1], env);
    }
  }

  /** Nothing is ever taken off a wire, and no connection is forgotten. */
  lemma WiresGrow(s: State, e: Event, c: ConnId, env: Env)
    requires Wired(s.desk) && Enabled(s, e) && c in s.conns
    ensures c in Apply(s, e, env).conns
    ensures forall it <- s.conns[c].wire :: it in Apply(s, e, env).conns[c].wire
  {
    hide Wired, HandleWakeup, HandleClose, ReplyErrors, TakeStep;
    match e
    case DeliverWakeup(c', id) => WakeupAppends(s.desk, c', id, s.conns[c'], env);
    case Poll(c', order) => ErrorRepliesKeep(s.conns[c'], order, env);
    case _ =>
  }

  /** With no other connection there is no other pump. */
  lemma {:induction false} OneConnectionIsConfined(run: seq<Event>, env: Env, c: ConnId, m: nat)
    requires Exec(run, env).Some?
    requires forall c' | c' in Exec(run, env).value.conns :: c' == c
    requires c in Exec(run, env).value.conns ==> SmallItems(Exec(run, env).value.conns[c].wire, m, env)
    ensures Confined(run, env, c, m)
  {
    if run != [] {
      hide Apply, Wired, Enabled;
      var s, e := ExecLast(run, env);
      forall c' | c' in s.conns
        ensures c' == c && forall it <- s.conns[c'].wire :: it in Apply(s, e, env).conns[c'].wire
      {
        WiresGrow(s, e, c', env);
      }
      OneConnectionIsConfined(run[..|run| - 1], env, c, m);
      NoOtherPump(s, e, c, env);
    }
  }

  lemma NoOtherPump(s: State, e: Event, c: ConnId, env: Env)
    requires Wired(s.desk) && Enabled(s, e) && forall c' | c' in s.conns :: c' == c
    ensures !CrossPump(s, e, c, env)
  {
  }

  /** So one connection's buffer is bounded in every run, with no further condition. */
  lemma LoneBufferIsBounded(run: seq<Event>, env: Env, s: State, c: ConnId, m: nat)
    requires env.io > 0 && Exec(run, env) == Some(s) && Open(s, c)
    requires (forall c' | c' in s.conns :: c' == c) && SmallItems(s.conns[c].wire, m, env)
    ensures s.conns[c].queued <= env.io - 1 + m * DispatchesOn(run, c)
  {
    OneConnectionIsConfined(run, env, c, m);
    BufferIsBounded(run, env, s, c, m);
  }
}
