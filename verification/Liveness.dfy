/** Nobody is left waiting: some step is always enabled, and which streams can still be finished. */
module Liveness {
  import opened Wrappers
  import opened Connections
  import opened AsyncStreams
  import opened AsyncResponses
  import opened Desks
  import opened Protocol
  import opened ProtocolShape
  import opened Slots
  import opened ProtocolInvariant
  import opened Fates
  import opened Progress
  import opened Histories
  import opened Ranks

  // ---- who waits for a drain has one coming ----

  /** A stream that waits for the buffer to drain has bytes in it. */
  predicate Draining(t: Slot) {
    t.open && t.inS && t.l.v.Some? && t.l.v.value.state == Flush ==> t.queued > 0
  }

  lemma OwnKeepsDraining(t: Slot, a: Step, alive: bool)
    requires Draining(t) && CanStep(t.l, a)
    ensures Draining(Stepped(t, a, alive))
  {
  }

  lemma WakeKeepsDraining(t: Slot, env: Env)
    requires AccountedSlot(t) && Draining(t) && t.open && t.posted > 0
    requires t.inS || (t.inR && t.l.r.state == Streaming) ==> t.l.v.Some?
    ensures Draining(Wake(t, env))
  {
  }

  lemma EffectKeepsDraining(t: Slot, t': Slot, f: Effect, env: Env)
    requires AccountedSlot(t) && Draining(t) && Shows(t, t', f, env) && env.io > 0
    requires f.Woken? ==> t.open
    ensures Draining(t')
  {
    hide AccountedSlot, Stepped, Wake;
    if f.Own? {
      OwnKeepsDraining(t, f.a, f.alive);
    } else if f.Woken? {
      WakeKeepsDraining(t, env);
    }
  }

  lemma StepKeepsDraining(s: State, e: Event, id: ReqId, env: Env)
    requires Sane(s) && Wired(s.desk) && Enabled(s, e) && Accounted(s, id) && env.io > 0 && Draining(SlotOf(s, id))
    ensures Known(Apply(s, e, env), id) && Draining(SlotOf(Apply(s, e, env), id))
  {
    hide Sane, SlotOf, Apply, Shows, Draining, AccountedSlot;
    EventShows(s, e, id, env);
    TurnIsEffect(s, e, id, env);
    EffectKeepsDraining(SlotOf(s, id), SlotOf(Apply(s, e, env), id), EffectOf(s, e, id, env), env);
  }

  /** In every run, given a buffer limit above zero. */
  lemma {:induction false} NoStreamIsStranded(run: seq<Event>, env: Env, s: State, id: ReqId)
    requires env.io > 0 && Exec(run, env) == Some(s) && id in s.desk.responses
    ensures Known(s, id) && Draining(SlotOf(s, id))
  {
    hide Draining, Basics, Accounted, Wired, Enabled, Apply;
    RunsAreSane(run, env);
    var m, e := ExecLast(run, env);
    RequestIsAccounted(run[..|run| - 1], env, m, id);
    if id in m.desk.responses {
      NoStreamIsStranded(run[..|run| - 1], env, m, id);
      StepKeepsDraining(m, e, id, env);
    } else {
      NewcomerIsDispatched(m, e, id, env);
      NewcomerIsDraining(m, e, env);
    }
  }

  lemma NewcomerIsDraining(s: State, e: Event, env: Env)
    requires Sane(s) && Wired(s.desk) && Enabled(s, e) && e.DispatchAsync?
    ensures var s' := Apply(s, e, env); Known(s', s.desk.counter) && Draining(SlotOf(s', s.desk.counter))
  {
    DispatchSlot(s, e.c, s.desk.counter);
  }

  // ---- deadlock freedom ----

  /** Nothing more is to happen: answered, completed, or given up by its worker. */
  predicate Settled(t: Slot) {
    t.l.w.pc == Done && !t.inR && (t.inS ==> t.l.v.Some? && t.l.v.value.state == StreamState.Failed)
  }

  lemma Enumerate(ids: set<ReqId>) returns (order: seq<ReqId>)
    ensures Lists(order, ids)
    decreases ids
  {
    if ids == {} {
      order := [];
    } else {
      var id :| id in ids;
      var rest := Enumerate(ids - {id});
      order := rest + [id];
      forall i ensures i in order <==> i in ids {
        assert i in rest <==> i in ids - {id};
      }
    }
  }

  /** The step its worker can take, if it is not blocked. */
  function WorkerStep(t: Slot): Option<Step> {
    match t.l.w.pc
    case Ready => Some(SendCheck(NO_PAYLOAD))
    case SendChecked(_) => Some(SendWrite)
    case SendWritten => Some(SendPost(true))
    case SendPosted => Some(SendStore)
    case SendRefused => Some(SendStore)
    case StreamMade => Some(StreamPost(true))
    case StreamPosted => Some(StreamStore)
    case StreamRefused => Some(StreamStore)
    case StreamStored => Some(StreamReturn)
    case Waiting => if t.l.v.Some? && WaitEnds(t.l.v.value.state) then Some(WaitReturn) else None
    case Granted => Some(WriteData(None))
    case Wrote(_) => Some(StoreState)
    case Stored(_) => Some(PostState(true))
    case Refused(_) => Some(StoreFailed)
    case Done => None
  }

  /** Work for this very request is there to be done: by its worker, a wakeup, a drain or a poll. */
  predicate Servable(t: Slot) {
    || WorkerStep(t).Some?
    || t.posted > 0
    || (t.inS && t.l.v.Some? && t.l.v.value.state == Flush && t.queued > 0)
    || (t.inR && t.l.r.state == ResponseState.Failed)
  }

  /** Raced, and nothing will happen any more: the worker waits for ever, or gave up an orphan that was granted. */
  predicate Forsaken(t: Slot) {
    || (MeetsSlot(t, Muted) && t.l.w.pc == Waiting)
    || (MeetsSlot(t, Orphaned) && t.l.w.pc == Done && t.l.v.value.state == Empty)
  }

  /** A filed stream waits for a drain of an empty buffer. */
  predicate Dry(t: Slot) {
    t.inS && t.l.v.Some? && t.l.v.value.state == Flush && t.queued == 0 && t.l.w.pc != StreamStored
  }

  lemma ServableUnlessOver(t: Slot)
    requires t.open && AccountedSlot(t)
    ensures Servable(t) <==> !Settled(t) && !Forsaken(t) && !Dry(t)
  {
  }

  /** The event does something for this request, not just on its connection. */
  predicate Serves(s: State, e: Event, id: ReqId) {
    match e
    case Work(i, _) => i == id
    case DeliverWakeup(_, i) => i == id
    case DrainAndWrite(c, _) =>
      Has(s.desk.pendingStreams, c, id) && id in s.desk.streams && s.desk.streams[id].state == Flush
    case Poll(_, order) => id in order
    case _ => false
  }

  lemma ServingMeansServable(s: State, e: Event, id: ReqId)
    requires Sane(s) && Wired(s.desk) && Enabled(s, e) && Known(s, id) && SlotOf(s, id).open && Serves(s, e, id)
    ensures Servable(SlotOf(s, id))
  {
  }

  lemma WorkerCanStep(t: Slot)
    requires InsideStream(t.l.w.pc) ==> t.l.v.Some?
    ensures if WorkerStep(t).Some? then CanStep(t.l, WorkerStep(t).value)
            else t.l.w.pc != StreamPosted && t.l.w.pc != StreamStored
  {
  }

  lemma ServingStep(s: State, id: ReqId) returns (e: Event)
    requires Sane(s) && Wired(s.desk) && Known(s, id) && SlotOf(s, id).open && Servable(SlotOf(s, id))
    ensures Enabled(s, e) && !Early(s, e) && Serves(s, e, id)
  {
    hide WorkerStep, CanStep, InsideStream;
    var t, c := SlotOf(s, id), s.desk.responses[id].conn;
    LocalFacts(s, id);
    WorkerCanStep(t);
    if WorkerStep(t).Some? {
      e := Work(id, WorkerStep(t).value);
    } else if t.posted > 0 {
      e := DeliverWakeup(c, id);
    } else if t.inR && t.l.r.state == ResponseState.Failed {
      var order := Enumerate(Swept(s.desk, c));
      e := Poll(c, order);
    } else {
      e := DrainAndWrite(c, t.queued);
    }
  }

  ghost predicate HasStep(s: State, id: ReqId)
    requires Wired(s.desk)
  {
    exists e :: Serves(s, e, id) && Enabled(s, e)
  }

  ghost predicate HasTimelyStep(s: State, id: ReqId)
    requires Wired(s.desk)
  {
    exists e :: Serves(s, e, id) && Enabled(s, e) && !Early(s, e)
  }

  /**
   In every run, on an open connection, an enabled event that does something for a request, and one that
   handles no wakeup early, exist exactly unless it is settled, or forsaken after an early wakeup, or its
   stream waits for a drain of an empty buffer. The last does not happen when the limit is above zero.
   */
  lemma NeverDeadlocked(run: seq<Event>, env: Env, s: State, id: ReqId)
    requires Exec(run, env) == Some(s) && Known(s, id) && SlotOf(s, id).open
    ensures Wired(s.desk)
    ensures var t := SlotOf(s, id); HasStep(s, id) <==> !Settled(t) && !Forsaken(t) && !Dry(t)
    ensures var t := SlotOf(s, id); HasTimelyStep(s, id) <==> !Settled(t) && !Forsaken(t) && !Dry(t)
    ensures env.io > 0 ==> !Dry(SlotOf(s, id))
  {
    hide Exec, AccountedSlot, Settled, Forsaken, Servable, Serves;
    RequestIsAccounted(run, env, s, id);
    ServableUnlessOver(SlotOf(s, id));
    if HasStep(s, id) {
      var e :| Serves(s, e, id) && Enabled(s, e);
      ServingMeansServable(s, e, id);
    }
    if Servable(SlotOf(s, id)) {
      var e := ServingStep(s, id);
    }
    if env.io > 0 { NoStreamIsStranded(run, env, s, id); }
  }

  // ---- no buffer, no grant ----

  predicate Ungranting(state: StreamState) {
    state == Start || state == Flush || state == StreamState.Failed
  }

  /** A request nobody has granted anything: its stream at most waits for the buffer. */
  predicate Barred(l: Local) {
    && (l.v.Some? ==> Ungranting(l.v.value.state))
    && l.w.sent == [] && l.w.pc != Granted && !l.w.pc.Wrote? && !l.w.pc.Stored? && !l.w.pc.Refused?
  }

  lemma StepStaysBarred(l: Local, a: Step, alive: bool)
    requires CanStep(l, a) && Barred(l)
    ensures Barred(TakeStep(l, a, alive))
  {
  }

  lemma WakeupStaysBarred(d: Desk, c: ConnId, i: ReqId, k: Conn, id: ReqId, env: Env)
    requires Wired(d) && id in d.streams && Ungranting(d.streams[id].state)
    ensures var d' := HandleWakeup(d, c, i, k, env).0;
            id in d'.streams && Ungranting(d'.streams[id].state)
  {
  }

  lemma LoopStaysBarred(s: State, e: Event, id: ReqId, env: Env)
    requires Sane(s) && Wired(s.desk) && Enabled(s, e) && env.io == 0 && Known(s, id) && !e.Work? && Barred(LocalOf(s, id))
    ensures Known(Apply(s, e, env), id) && Barred(LocalOf(Apply(s, e, env), id))
  {
    hide HandleWakeup, Barred, Sane;
    if e.DeliverWakeup? {
      DeliveryStaysBarred(s, e.c, e.id, id, env);
    } else if e.DispatchAsync? {
      DispatchStaysBarred(s, e.c, id);
    } else {
      RestStaysBarred(s, e, id, env);
    }
  }

  lemma DeliveryStaysBarred(s: State, c: ConnId, i: ReqId, id: ReqId, env: Env)
    requires Sane(s) && Wired(s.desk) && Open(s, c) && Known(s, id) && Barred(LocalOf(s, id))
    ensures Known(ApplyWakeup(s, c, i, env), id) && Barred(LocalOf(ApplyWakeup(s, c, i, env), id))
  {
    hide BooksFit, WakeupsFit, WiresFit, HandleWakeup;
    WakeupEffect(s.desk, c, i, s.conns[c], env);
    if id in s.desk.streams { WakeupStaysBarred(s.desk, c, i, s.conns[c], id, env); }
  }

  lemma DispatchStaysBarred(s: State, c: ConnId, id: ReqId)
    requires Sane(s) && Open(s, c) && Known(s, id) && Barred(LocalOf(s, id))
    ensures Known(Dispatch(s, c), id) && Barred(LocalOf(Dispatch(s, c), id))
  {
    hide BooksFit, WakeupsFit, WiresFit;
    DispatchSlot(s, c, id);
  }

  lemma RestStaysBarred(s: State, e: Event, id: ReqId, env: Env)
    requires Sane(s) && Wired(s.desk) && Enabled(s, e) && env.io == 0 && Known(s, id) && Barred(LocalOf(s, id))
    requires !e.Work? && !e.DeliverWakeup? && !e.DispatchAsync?
    ensures Known(Apply(s, e, env), id) && Barred(LocalOf(Apply(s, e, env), id))
  {
    hide BooksFit, WakeupsFit, WiresFit, ReplyErrors;
  }

  lemma EventStaysBarred(s: State, e: Event, id: ReqId, env: Env)
    requires Sane(s) && Wired(s.desk) && Enabled(s, e) && env.io == 0 && Known(s, id) && Barred(LocalOf(s, id))
    ensures Known(Apply(s, e, env), id) && Barred(LocalOf(Apply(s, e, env), id))
  {
    hide Sane, Wired, Barred, TakeStep;
    if e.Work? {
      WorkSlot(s, e.id, e.a, id);
      LocalFacts(s, id);
      if e.id == id { StepStaysBarred(LocalOf(s, id), e.a, s.alive); }
      WorkedLocal(s, e, id, env);
    } else {
      LoopStaysBarred(s, e, id, env);
    }
  }

  lemma WorkedLocal(s: State, e: Event, id: ReqId, env: Env)
    requires Sane(s) && Wired(s.desk) && Enabled(s, e) && e.Work? && Known(s, id)
    ensures Known(Apply(s, e, env), id)
    ensures LocalOf(Apply(s, e, env), id) == if e.id == id then TakeStep(LocalOf(s, id), e.a, s.alive) else LocalOf(s, id)
  {
    hide TakeStep;
    WorkSlot(s, e.id, e.a, id);
    LocalFacts(s, id);
    WorkKeepsSane(s, e.id, e.a);
    LocalFacts(ApplyWork(s, e.id, e.a), id);
  }

  /**
   With a buffer limit of zero the guard of the pump is never met: in no run is a stream ever empty or
   past it, is a worker ever granted, or is a chunk ever announced.
   */
  lemma {:induction false} NothingGrantedWithoutBuffer(run: seq<Event>, env: Env, s: State, id: ReqId)
    requires env.io == 0 && Exec(run, env) == Some(s) && id in s.desk.responses
    ensures Known(s, id) && Barred(LocalOf(s, id))
  {
    hide Sane, Barred, Wired, Enabled;
    RunsAreSane(run, env);
    var m, e := ExecLast(run, env);
    RunsAreSane(run[..|run| - 1], env);
    if id in m.desk.responses {
      NothingGrantedWithoutBuffer(run[..|run| - 1], env, m, id);
      EventStaysBarred(m, e, id, env);
    } else {
      NewcomerIsDispatched(m, e, id, env);
      NewcomerIsBarred(m, e.c);
    }
  }

  lemma NewcomerIsBarred(s: State, c: ConnId)
    requires Sane(s) && Open(s, c)
    ensures Known(Dispatch(s, c), s.desk.counter) && Barred(LocalOf(Dispatch(s, c), s.desk.counter))
  {
    DispatchSlot(s, c, s.desk.counter);
  }

  // ---- every stream can be finished ----

  /** What the worker has announced once the chunk it is holding, if any, is announced too. */
  function Announcing(t: Slot): seq<string> {
    if t.l.w.pc == Wrote(false) && t.l.v.Some? then t.l.w.sent + [t.l.v.value.data] else t.l.w.sent
  }

  function LeftOf(t: Slot): nat
    requires Steady(t)
  {
    3 * |Announcing(t)| + 4 - ChangesTo(t.l.v.value.state, |t.l.w.sent|)
  }

  /** Nearer to completion without announcing anything new. */
  ghost predicate Nearer(t': Slot, t: Slot) {
    && Unrefused(t) && Unrefused(t') && t'.open && Announcing(t') == Announcing(t)
    && (LeftOf(t') < LeftOf(t) || (LeftOf(t') == LeftOf(t) && Phase(t') < Phase(t)))
  }

  lemma WorkKeepsAnnouncing(t: Slot)
    requires t.open && OpenSlot(t) && Unrefused(t) && WorkerStep(t).Some?
    ensures CanStep(t.l, WorkerStep(t).value)
    ensures var t' := Stepped(t, WorkerStep(t).value, true);
            Unrefused(t') && t'.open && Announcing(t') == Announcing(t)
  {
    hide StreamLog, Phase, LeftOf;
  }

  lemma WorkComesNearer(t: Slot)
    requires t.open && OpenSlot(t) && Unrefused(t) && WorkerStep(t).Some?
    ensures CanStep(t.l, WorkerStep(t).value) && Nearer(Stepped(t, WorkerStep(t).value, true), t)
  {
    hide Announcing, StreamLog, InLoop;
    WorkKeepsAnnouncing(t);
  }

  lemma WakeComesNearer(t: Slot, env: Env)
    requires t.open && OpenSlot(t) && Unrefused(t) && WorkerStep(t).None? && t.posted > 0
    ensures t.inS || (t.inR && t.l.r.state == Streaming)
    ensures Nearer(Wake(t, env), t)
  {
  }

  lemma DrainComesNearer(t: Slot, queued: nat, env: Env)
    requires t.open && OpenSlot(t) && Unrefused(t) && t.l.v.value.state == Flush
    ensures var t' := Pumped(t, queued, env).(queued := queued);
            if queued < env.io then Nearer(t', t) else t'.l == t.l
  {
  }

  /** One step nearer: by the stream itself, or by its connection's synchronous stream using the drain up. */
  ghost predicate Advanced(s: State, s': State, id: ReqId)
    requires Known(s, id)
  {
    && Known(s', id) && s'.desk.responses[id].conn == s.desk.responses[id].conn
    && var t, t', c := SlotOf(s, id), SlotOf(s', id), s.desk.responses[id].conn;
       Nearer(t', t) || (t'.l == t.l && t'.open && ProducerLeft(s'.conns[c]) < ProducerLeft(s.conns[c]))
  }

  lemma AdvanceByWork(s: State, id: ReqId)
    requires Basics(s) && Fits(s, id) && SlotOf(s, id).open && Unrefused(SlotOf(s, id)) && WorkerStep(SlotOf(s, id)).Some?
    ensures var a := WorkerStep(SlotOf(s, id)).value;
            CanStep(LocalOf(s, id), a) && Advanced(s, ApplyWork(s, id, a), id)
  {
    var t := SlotOf(s, id);
    assert s.alive by { assert Open(s, s.desk.responses[id].conn); }
    WorkComesNearer(t);
    WorkSlot(s, id, WorkerStep(t).value, id);
  }

  lemma AdvanceByWakeup(s: State, c: ConnId, id: ReqId, env: Env)
    requires Basics(s) && Fits(s, id) && Wired(s.desk) && Open(s, c) && (c, id) in s.wakeups
    requires Unrefused(SlotOf(s, id)) && WorkerStep(SlotOf(s, id)).None?
    ensures Advanced(s, ApplyWakeup(s, c, id, env), id)
  {
    WakeComesNearer(SlotOf(s, id), env);
    OwnWakeupSlot(s, c, id, env);
  }

  lemma AdvanceByDrain(s: State, c: ConnId, id: ReqId, env: Env)
    requires Basics(s) && Fits(s, id) && env.io > 0 && Open(s, c)
    requires s.desk.responses[id].conn == c && Unrefused(SlotOf(s, id))
    requires SlotOf(s, id).l.v.value.state == Flush
    ensures var (d, k) := HandleWrite(s.desk, Drain(s.conns[c], s.conns[c].queued), env);
            Advanced(s, SetLoop(s, c, d, k), id)
  {
    var (d, k) := HandleWrite(s.desk, Drain(s.conns[c], s.conns[c].queued), env);
    PumpSlot(s, c, s.conns[c].queued, id, env);
    DrainComesNearer(SlotOf(s, id), k.queued, env);
  }

  lemma Advance(s: State, id: ReqId, env: Env) returns (e: Event)
    requires Basics(s) && Fits(s, id) && env.io > 0 && SlotOf(s, id).open && Unrefused(SlotOf(s, id))
    requires Draining(SlotOf(s, id)) && SlotOf(s, id).l.v.value.state != StreamState.Completed
    ensures Wired(s.desk) && Enabled(s, e) && !Early(s, e) && Advanced(s, Apply(s, e, env), id)
  {
    var t, c := SlotOf(s, id), s.desk.responses[id].conn;
    WhatBlocks(t);
    if WorkerStep(t).Some? {
      e := Work(id, WorkerStep(t).value);
      AdvanceByWork(s, id);
    } else if t.posted > 0 {
      e := DeliverWakeup(c, id);
      AdvanceByWakeup(s, c, id, env);
    } else {
      e := DrainAndWrite(c, s.conns[c].queued);
      AdvanceByDrain(s, c, id, env);
    }
  }

  /** A blocked worker waits for a wakeup that is queued or for a drain that will come. */
  lemma WhatBlocks(t: Slot)
    requires t.open && SlotFits(t) && Draining(t) && Unrefused(t) && t.l.v.value.state != StreamState.Completed
    ensures WorkerStep(t).None? ==>
              || (t.posted > 0 && t.l.w.pc != StreamPosted && t.l.w.pc != StreamStored)
              || (t.l.v.value.state == Flush && t.queued > 0 && t.posted == 0)
  {
  }

  lemma AdvancedMeans(s: State, s': State, id: ReqId)
    requires Known(s, id) && SlotOf(s, id).open && Unrefused(SlotOf(s, id)) && Advanced(s, s', id)
    ensures SlotOf(s', id).open && Unrefused(SlotOf(s', id))
    ensures Announcing(SlotOf(s', id)) == Announcing(SlotOf(s, id))
    ensures var t, t', c := SlotOf(s, id), SlotOf(s', id), s.desk.responses[id].conn;
            || LeftOf(t') < LeftOf(t)
            || (LeftOf(t') == LeftOf(t) && Phase(t') < Phase(t))
            || (LeftOf(t') == LeftOf(t) && Phase(t') == Phase(t) && ProducerLeft(s'.conns[c]) < ProducerLeft(s.conns[c]))
  {
  }

  /** The state after a calm continuation. */
  ghost function Follow(s: State, more: seq<Event>, env: Env): Option<State>
    decreases |more|
  {
    if more == [] then Some(s)
    else if Wired(s.desk) && Enabled(s, more[0]) && !Early(s, more[0]) then Follow(Apply(s, more[0], env), more[1..], env)
    else None
  }

  lemma FollowCons(s: State, e: Event, more: seq<Event>, env: Env)
    requires Wired(s.desk) && Enabled(s, e) && !Early(s, e)
    ensures Follow(s, [e] + more, env) == Follow(Apply(s, e, env), more, env)
  {
    assert ([e] + more)[1..] == more;
  }

  lemma OneMore(run: seq<Event>, s: State, e: Event, env: Env)
    requires Exec(run, env) == Some(s) && Wired(s.desk) && Enabled(s, e) && !Early(s, e)
    ensures Exec(run + [e], env) == Some(Apply(s, e, env))
    ensures Calm(run, env) ==> Calm(run + [e], env)
    ensures forall id :: Undisturbed(run, env, id) ==> Undisturbed(run + [e], env, id)
  {
    ExecStep(run, e, env);
  }

  /** A calm continuation spoils nothing. */
  lemma {:induction false} FollowOnRun(run: seq<Event>, s: State, more: seq<Event>, whole: seq<Event>, env: Env)
    requires Exec(run, env) == Some(s) && Follow(s, more, env).Some? && whole == run + more
    ensures Exec(whole, env) == Follow(s, more, env)
    ensures Calm(run, env) ==> Calm(whole, env)
    ensures forall id :: Undisturbed(run, env, id) ==> Undisturbed(whole, env, id)
    decreases |more|
  {
    hide Calm, Undisturbed, Exec, Apply, Early, Enabled, Wired;
    if more == [] {
      assert whole == run;
    } else {
      var run1, s1 := run + [more[0]], Apply(s, more[0], env);
      assert whole == run1 + more[1..];
      OneMore(run, s, more[0], env);
      FollowOnRun(run1, s1, more[1..], whole, env);
    }
  }

  predicate Finished(t: Slot, sent: seq<string>) {
    t.l.v.Some? && t.l.v.value.state == StreamState.Completed && t.l.w.sent == sent
  }

  lemma CompletedIsDone(t: Slot)
    requires t.open && SlotFits(t) && t.l.v.Some? && t.l.v.value.state == StreamState.Completed
    ensures Finished(t, Announcing(t))
  {
  }

  lemma {:induction false} FinishFrom(s: State, id: ReqId, env: Env) returns (more: seq<Event>, s': State)
    requires Basics(s) && Fits(s, id) && env.io > 0 && SlotOf(s, id).open && Unrefused(SlotOf(s, id))
    requires Draining(SlotOf(s, id))
    ensures Follow(s, more, env) == Some(s') && Known(s', id) && Finished(SlotOf(s', id), Announcing(SlotOf(s, id)))
    decreases LeftOf(SlotOf(s, id)), Phase(SlotOf(s, id)), ProducerLeft(s.conns[s.desk.responses[id].conn])
  {
    if SlotOf(s, id).l.v.value.state == StreamState.Completed {
      CompletedIsDone(SlotOf(s, id));
      more, s' := [], s;
    } else {
      var e := Advance(s, id, env);
      var s1 := Apply(s, e, env);
      StepKeepsBasics(s, e, env);
      StepKeepsSlot(s, e, id, env);
      StepKeepsDraining(s, e, id, env);
      AdvancedMeans(s, s1, id);
      var rest;
      rest, s' := FinishFrom(s1, id, env);
      FollowCons(s, e, rest, env);
      more := [e] + rest;
    }
  }

  /**
   From every reachable point of an unrefused stream on an open connection, some calm continuation
   completes it with exactly the chunks already announced: no state is a dead end.
   */
  lemma EveryStreamCanFinish(run: seq<Event>, env: Env, s: State, id: ReqId) returns (more: seq<Event>, s': State)
    requires env.io > 0 && Reached(run, env, s, id) && SlotOf(s, id).open && Unrefused(SlotOf(s, id))
    ensures Undisturbed(run + more, env, id) && Exec(run + more, env) == Some(s')
    ensures Known(s', id) && Finished(SlotOf(s', id), Announcing(SlotOf(s, id)))
    ensures var h := CallsOf(run, id);
            CallsOf(run + more, id).chunks ==
            h.chunks + if s.workers[id].pc == Wrote(false) then [h.latest.GetOr("")] else []
  {
    hide CallsOf;
    ReachedSlot(run, env, s, id);
    NoStreamIsStranded(run, env, s, id);
    more, s' := FinishFrom(s, id, env);
    FollowOnRun(run, s, more, run + more, env);
    BooksAreCalls(run, env, s, id);
    BooksAreCalls(run + more, env, s', id);
  }

  // ---- and no other ----

  ghost predicate Completes(run: seq<Event>, env: Env, id: ReqId) {
    Exec(run, env).Some? && id in Exec(run, env).value.desk.streams &&
    Exec(run, env).value.desk.streams[id].state == StreamState.Completed
  }

  ghost predicate Finishable(run: seq<Event>, env: Env, id: ReqId) {
    exists more :: Completes(run + more, env, id)
  }

  /** A refusal is never made good again, and no worker starts anew. */
  lemma {:induction false} UnrefusedBefore(run: seq<Event>, more: seq<Event>, env: Env, s: State, s': State, id: ReqId)
    requires Exec(run, env) == Some(s) && Exec(run + more, env) == Some(s')
    requires Known(s, id) && SlotOf(s, id).l.w.pc != Ready
    ensures Known(s', id) && SlotOf(s', id).l.w.pc != Ready
    ensures Unrefused(SlotOf(s', id)) ==> Unrefused(SlotOf(s, id))
    decreases |more|
  {
    hide Exec, Apply, Unrefused, Accounted, Basics, Wired, Enabled, SlotOf;
    if more == [] {
      assert run + more == run;
    } else {
      var init, e := more[..|more| - 1], more[|more| - 1];
      assert run + more == (run + init) + [e];
      ExecStep(run + init, e, env);
      var m := Exec(run + init, env).value;
      UnrefusedBefore(run, init, env, s, m, id);
      RequestIsAccounted(run + init, env, m, id);
      StepCountsTurns(m, e, id, env);
    }
  }

  lemma {:induction false} UndisturbedBefore(run: seq<Event>, more: seq<Event>, env: Env, id: ReqId)
    requires Undisturbed(run + more, env, id)
    ensures Undisturbed(run, env, id)
    decreases |more|
  {
    if more == [] {
      assert run + more == run;
    } else {
      assert (run + more)[..|run + more| - 1] == run + more[..|more| - 1];
      UndisturbedBefore(run, more[..|more| - 1], env, id);
    }
  }

  lemma MadeIsBegun(t: Slot)
    requires AccountedSlot(t) && t.l.v.Some?
    ensures t.l.w.pc != Ready
  {
  }

  /** What a completing continuation says of the state it starts from. */
  lemma FinishableMeans(run: seq<Event>, more: seq<Event>, env: Env, s: State, id: ReqId)
    requires Exec(run, env) == Some(s) && id in s.desk.streams && Completes(run + more, env, id)
    ensures env.io > 0 && Undisturbed(run, env, id) && Known(s, id) && Unrefused(SlotOf(s, id))
  {
    hide Exec, Undisturbed, AccountedSlot, Barred;
    RunsAreSane(run, env);
    RequestIsAccounted(run, env, s, id);
    MadeIsBegun(SlotOf(s, id));
    var s' := Exec(run + more, env).value;
    CompletedIsUndisturbed(run + more, env, s', id);
    UndisturbedBefore(run, more, env, id);
    ReachedSlot(run + more, env, s', id);
    CompletedSlot(SlotOf(s', id));
    UnrefusedBefore(run, more, env, s, s', id);
    if env.io == 0 {
      NothingGrantedWithoutBuffer(run + more, env, s', id);
      BarredIsUnfinished(LocalOf(s', id));
    }
  }

  lemma BarredIsUnfinished(l: Local)
    requires Barred(l)
    ensures l.v.Some? ==> l.v.value.state != StreamState.Completed
  {
  }

  /**
   A stream can be finished, by some continuation of the run, exactly if it has completed or its
   connection is open, none of its wakeups was early or refused, and the buffer limit is not zero.
   */
  lemma FinishableIffUnrefused(run: seq<Event>, env: Env, s: State, id: ReqId)
    requires Exec(run, env) == Some(s) && id in s.desk.streams
    ensures Known(s, id)
    ensures Finishable(run, env, id) <==>
            || s.desk.streams[id].state == StreamState.Completed
            || (env.io > 0 && SlotOf(s, id).open && Undisturbed(run, env, id) && Unrefused(SlotOf(s, id)))
  {
    hide Exec, Undisturbed;
    RunsAreSane(run, env);
    if s.desk.streams[id].state == StreamState.Completed {
      assert run + [] == run;
      assert Completes(run + [], env, id);
    } else if env.io > 0 && SlotOf(s, id).open && Undisturbed(run, env, id) && Unrefused(SlotOf(s, id)) {
      var more, s' := EveryStreamCanFinish(run, env, s, id);
      assert Completes(run + more, env, id);
    } else if Finishable(run, env, id) {
      var more :| Completes(run + more, env, id);
      FinishableMeans(run, more, env, s, id);
    }
  }
}
