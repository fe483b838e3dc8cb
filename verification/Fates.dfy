/**
 States of a request that no continuation of any run leads out of: failed for good, stranded by a
 close, left unbegun by one, orphaned or muted by an early wakeup. A wakeup is early or the request
 fits: nothing else.
 */
module Fates {
  import opened Wrappers
  import opened Connections
  import opened AsyncStreams
  import opened AsyncResponses
  import opened Desks
  import opened Protocol
  import opened ProtocolShape
  import opened Slots
  import opened ProtocolInvariant

  datatype Fate = Doomed | Stranded | Unbegun | Orphaned | Muted

  /** The reply made of a payload nobody wrote. */
  const UNWRITTEN := ReplyOf(NO_PAYLOAD)

  predicate DeadSlot(t: Slot) {
    !t.open && t.l.v.Some? && t.l.v.value.state == StreamState.Failed &&
    (t.l.w.pc.Waiting? || t.l.w.pc.Stored? || t.l.w.pc.Refused? || t.l.w.pc.Done?)
  }

  predicate StuckSlot(t: Slot) {
    !t.open && t.l.v.Some? && (t.l.v.value.state == Start || t.l.v.value.state == HasData) && t.l.w.pc.Waiting?
  }

  /** Its worker has not called send or stream, and if it does, nothing comes of it. */
  predicate UnbegunSlot(t: Slot) {
    !t.open && t.l.v.None? && t.l.r.state == ResponseState.Failed && t.l.w.asked.None? &&
    (t.l.w.pc == Ready || t.l.w.pc == Done)
  }

  predicate OrphanSlot(t: Slot) {
    && t.l.v.Some? && t.log == [Preamble(t.l.w.preamble)]
    && (t.l.w.pc == StreamStored || t.l.w.pc == Done) && !t.l.r.hasStream && t.l.w.sent == [] && t.l.w.asked.None?
    && !t.inR && (t.inS <==> t.open) && t.posted == 0
    && (t.l.v.value.state == Flush || t.l.v.value.state == Empty || (!t.open && t.l.v.value.state == StreamState.Failed))
  }

  predicate MutedSlot(t: Slot) {
    && t.l.v.Some? && t.l.v.value.state == Start && t.log == [UNWRITTEN]
    && (t.l.w.pc == StreamPosted || t.l.w.pc == StreamStored || t.l.w.pc == Waiting) && t.l.r.hasStream
    && !t.inR && !t.inS && t.posted == 0 && t.l.w.sent == [] && t.l.w.asked.None?
  }

  predicate MeetsSlot(t: Slot, fate: Fate) {
    match fate
    case Doomed => DeadSlot(t)
    case Stranded => StuckSlot(t)
    case Unbegun => UnbegunSlot(t)
    case Orphaned => OrphanSlot(t)
    case Muted => MutedSlot(t)
  }

  ghost predicate Meets(s: State, id: ReqId, fate: Fate) {
    Known(s, id) && MeetsSlot(SlotOf(s, id), fate)
  }

  /** wait() can only return false from here on. */
  ghost predicate Dead(s: State, id: ReqId) {
    Meets(s, id, Doomed)
  }

  /** The worker is in wait() on a state nobody will ever change. */
  ghost predicate Stuck(s: State, id: ReqId) {
    Meets(s, id, Stranded)
  }

  /** The loop has sent the preamble of a stream that its worker will never get hold of. */
  ghost predicate Orphan(s: State, id: ReqId) {
    Meets(s, id, Orphaned)
  }

  /** The loop has answered for a stream whose worker is, or will be, in wait() for ever. */
  ghost predicate Mute(s: State, id: ReqId) {
    Meets(s, id, Muted)
  }

  /** Met by an early wakeup: in neither map's way any more, and no wakeup left. The others come by a close. */
  predicate IsRaced(fate: Fate) {
    fate == Orphaned || fate == Muted
  }

  // ---- after a close ----

  /** Once its connection is closed, only its own worker moves a request. */
  ghost predicate OnlyOwnSteps(s: State, s': State, e: Event, id: ReqId)
    requires Known(s, id)
  {
    Known(s', id) && !SlotOf(s', id).open &&
    var l, l' := SlotOf(s, id).l, SlotOf(s', id).l;
    l' == l || (e.Work? && CanStep(l, e.a) && l' == TakeStep(l, e.a, s.alive))
  }

  lemma ClosedWorkStep(s: State, i: ReqId, a: Step, id: ReqId, env: Env)
    requires Sane(s) && Wired(s.desk) && Enabled(s, Work(i, a)) && Known(s, id) && !SlotOf(s, id).open
    ensures OnlyOwnSteps(s, ApplyWork(s, i, a), Work(i, a), id)
  {
    WorkSlot(s, i, a, id);
  }

  lemma ClosedLoopStep(s: State, e: Event, id: ReqId, env: Env)
    requires Sane(s) && Wired(s.desk) && Enabled(s, e) && Known(s, id) && !SlotOf(s, id).open
    requires e.DispatchAsync? || e.DeliverWakeup? || e.CloseConn? || e.DrainAndWrite?
    ensures OnlyOwnSteps(s, Apply(s, e, env), e, id)
  {
    match e
    case DispatchAsync(c) => DispatchSlot(s, c, id);
    case DeliverWakeup(c, i) => OtherWakeupSlot(s, c, i, id, env);
    case CloseConn(c) => CloseSlot(s, c, id);
    case DrainAndWrite(c, n) =>
      PumpSlot(s, c, n, id, env);
      assert !(id in s.desk.pendingStreams);
  }

  lemma ClosedRestStep(s: State, e: Event, id: ReqId, env: Env)
    requires Sane(s) && Wired(s.desk) && Enabled(s, e) && Known(s, id) && !SlotOf(s, id).open
    requires !e.Work? && !e.DispatchAsync? && !e.DeliverWakeup? && !e.CloseConn? && !e.DrainAndWrite?
    ensures OnlyOwnSteps(s, Apply(s, e, env), e, id)
  {
    if e.Poll? {
      PollSlot(s, e.c, e.order, id, env);
    }
  }

  lemma ClosedEvent(s: State, e: Event, id: ReqId, env: Env)
    requires Sane(s) && Wired(s.desk) && Enabled(s, e) && Known(s, id) && !SlotOf(s, id).open
    ensures OnlyOwnSteps(s, Apply(s, e, env), e, id)
  {
    if e.Work? {
      ClosedWorkStep(s, e.id, e.a, id, env);
    } else if e.DispatchAsync? || e.DeliverWakeup? || e.CloseConn? || e.DrainAndWrite? {
      ClosedLoopStep(s, e, id, env);
    } else {
      ClosedRestStep(s, e, id, env);
    }
  }

  lemma ClosedSlotStays(t: Slot, t': Slot, a: Step, alive: bool, fate: Fate)
    requires !t'.open && (t'.l == t.l || (CanStep(t.l, a) && t'.l == TakeStep(t.l, a, alive)))
    requires MeetsSlot(t, fate) && !IsRaced(fate)
    ensures MeetsSlot(t', fate)
  {
  }

  lemma ClosedMeetingStays(s: State, e: Event, id: ReqId, fate: Fate, env: Env)
    requires Sane(s) && Wired(s.desk) && Enabled(s, e) && Meets(s, id, fate) && !IsRaced(fate)
    ensures Meets(Apply(s, e, env), id, fate)
  {
    hide MeetsSlot, Apply, Sane, Wired, Enabled, TakeStep, CanStep, SlotOf;
    IsClosed(SlotOf(s, id), fate);
    ClosedEvent(s, e, id, env);
    ClosedSlotStays(SlotOf(s, id), SlotOf(Apply(s, e, env), id), if e.Work? then e.a else StreamReturn, s.alive, fate);
  }

  lemma IsClosed(t: Slot, fate: Fate)
    requires MeetsSlot(t, fate) && !IsRaced(fate)
    ensures !t.open
  {
  }

  // ---- after an early wakeup ----

  lemma RacedSlotStays(t: Slot, queued: nat, q: nat, fate: Fate, env: Env)
    requires IsRaced(fate) && MeetsSlot(t, fate)
    ensures MeetsSlot(t.(queued := q), fate) && MeetsSlot(Pumped(t, queued, env).(queued := q), fate)
    ensures MeetsSlot(Closed(t), fate) && !t.inR && t.posted == 0
  {
  }

  lemma RacedStep(t: Slot, a: Step, alive: bool, fate: Fate)
    requires IsRaced(fate) && MeetsSlot(t, fate) && CanStep(t.l, a)
    ensures MeetsSlot(Stepped(t, a, alive), fate)
  {
  }

  lemma RacedHasNoWakeup(s: State, c: ConnId, id: ReqId, fate: Fate)
    requires Sane(s) && IsRaced(fate) && Meets(s, id, fate)
    ensures (c, id) !in s.wakeups
  {
  }

  lemma WakeupKeepsRaced(s: State, c: ConnId, i: ReqId, id: ReqId, fate: Fate, env: Env)
    requires Sane(s) && Wired(s.desk) && Open(s, c) && (c, i) in s.wakeups && IsRaced(fate) && Meets(s, id, fate)
    ensures Meets(ApplyWakeup(s, c, i, env), id, fate)
  {
    hide MeetsSlot;
    RacedHasNoWakeup(s, c, id, fate);
    OtherWakeupSlot(s, c, i, id, env);
    RacedSlotStays(SlotOf(s, id), 0, SlotOf(ApplyWakeup(s, c, i, env), id).queued, fate, env);
  }

  lemma PumpKeepsRaced(s: State, c: ConnId, n: nat, id: ReqId, fate: Fate, env: Env)
    requires Sane(s) && Open(s, c) && n <= s.conns[c].queued && IsRaced(fate) && Meets(s, id, fate)
    ensures var (d, k) := HandleWrite(s.desk, Drain(s.conns[c], n), env);
            Meets(SetLoop(s, c, d, k), id, fate)
  {
    hide MeetsSlot;
    PumpSlot(s, c, n, id, env);
    var (d, k) := HandleWrite(s.desk, Drain(s.conns[c], n), env);
    RacedSlotStays(SlotOf(s, id), k.queued, SlotOf(SetLoop(s, c, d, k), id).queued, fate, env);
  }

  lemma PollKeepsRaced(s: State, c: ConnId, order: seq<ReqId>, id: ReqId, fate: Fate, env: Env)
    requires Sane(s) && Wired(s.desk) && Open(s, c) && Lists(order, Swept(s.desk, c)) && IsRaced(fate) && Meets(s, id, fate)
    ensures var (d, k) := HandlePoll(s.desk, c, order, s.conns[c], env);
            Meets(SetLoop(s, c, d, k), id, fate)
  {
    hide MeetsSlot;
    PollSlot(s, c, order, id, env);
    var (d, k) := HandlePoll(s.desk, c, order, s.conns[c], env);
    RacedSlotStays(SlotOf(s, id), 0, SlotOf(SetLoop(s, c, d, k), id).queued, fate, env);
  }

  lemma CloseKeepsRaced(s: State, c: ConnId, id: ReqId, fate: Fate, env: Env)
    requires Sane(s) && Open(s, c) && IsRaced(fate) && Meets(s, id, fate)
    ensures Meets(Hangup(s, c), id, fate)
  {
    hide MeetsSlot;
    CloseSlot(s, c, id);
    RacedSlotStays(SlotOf(s, id), 0, 0, fate, env);
  }

  lemma DirectKeepsRaced(s: State, e: Event, id: ReqId, fate: Fate, env: Env)
    requires Sane(s) && Wired(s.desk) && Enabled(s, e) && (e.DispatchReply? || e.DispatchStream?)
    requires IsRaced(fate) && Meets(s, id, fate)
    ensures Meets(Apply(s, e, env), id, fate)
  {
    hide MeetsSlot;
    DirectSlot(s, e.c, Apply(s, e, env).conns[e.c], id);
    RacedSlotStays(SlotOf(s, id), 0, SlotOf(Apply(s, e, env), id).queued, fate, env);
  }

  lemma LoopKeepsRaced(s: State, e: Event, id: ReqId, fate: Fate, env: Env)
    requires Sane(s) && Wired(s.desk) && Enabled(s, e) && IsRaced(fate) && Meets(s, id, fate) && !e.Work?
    ensures Meets(Apply(s, e, env), id, fate)
  {
    hide MeetsSlot, BooksFit, WakeupsFit, WiresFit, HandleWakeup, HandleClose, ReplyErrors, SlotOf;
    match e
    case DispatchAsync(c) => DispatchSlot(s, c, id);
    case DeliverWakeup(c, i) => WakeupKeepsRaced(s, c, i, id, fate, env);
    case DropWakeup(c, i) => RacedHasNoWakeup(s, c, id, fate); DropSlot(s, c, i, id);
    case DrainAndWrite(c, n) => PumpKeepsRaced(s, c, n, id, fate, env);
    case Poll(c, order) => PollKeepsRaced(s, c, order, id, fate, env);
    case CloseConn(c) => CloseKeepsRaced(s, c, id, fate, env);
    case Accept(c) => SameSlice(s, Apply(s, e, env), id);
    case Expire => SameSlice(s, Apply(s, e, env), id);
    case DispatchReply(_, _, _, _) => DirectKeepsRaced(s, e, id, fate, env);
    case DispatchStream(_, _, _) => DirectKeepsRaced(s, e, id, fate, env);
    case _ =>
  }

  lemma RacedMeetingStays(s: State, e: Event, id: ReqId, fate: Fate, env: Env)
    requires Sane(s) && Wired(s.desk) && Enabled(s, e) && IsRaced(fate) && Meets(s, id, fate)
    ensures Meets(Apply(s, e, env), id, fate)
  {
    hide MeetsSlot, Sane, Wired;
    if e.Work? {
      WorkSlot(s, e.id, e.a, id);
      LocalFacts(s, id);
      if e.id == id { RacedStep(SlotOf(s, id), e.a, s.alive, fate); }
    } else {
      LoopKeepsRaced(s, e, id, fate, env);
    }
  }

  // ---- for good ----

  lemma MeetingStays(s: State, e: Event, id: ReqId, fate: Fate, env: Env)
    requires Sane(s) && Wired(s.desk) && Enabled(s, e) && Meets(s, id, fate)
    ensures Meets(Apply(s, e, env), id, fate)
  {
    hide Meets, Apply, Sane, Wired, Enabled;
    if IsRaced(fate) { RacedMeetingStays(s, e, id, fate, env); } else { ClosedMeetingStays(s, e, id, fate, env); }
  }

  /** Whichever fate a request has met, no continuation of any run ends it. */
  lemma {:induction false} FateIsFinal(run: seq<Event>, more: seq<Event>, env: Env, s: State, s': State,
                                       id: ReqId, fate: Fate)
    requires Exec(run, env) == Some(s) && Exec(run + more, env) == Some(s') && Meets(s, id, fate)
    ensures Meets(s', id, fate)
  {
    hide Exec, Apply, Meets, Sane, Enabled, Wired;
    if more == [] {
      assert run + more == run;
    } else {
      var init, e := more[..|more| - 1], more[|more| - 1];
      assert run + more == (run + init) + [e];
      ExecStep(run + init, e, env);
      var m := Exec(run + init, env).value;
      FateIsFinal(run, init, env, s, m, id, fate);
      RunsAreSane(run + init, env);
      MeetingStays(m, e, id, fate, env);
    }
  }

  // ---- the race inside stream() ----

  /** The stream was handed to the loop and its worker holds, or is about to get, a pointer to it. */
  predicate Promoted(t: Slot) {
    t.inS && t.log == [Preamble(t.l.w.preamble)] && (t.l.w.pc == Waiting || t.l.r.hasStream)
  }

  lemma EarlyWakes(s: State, c: ConnId, id: ReqId, env: Env)
    requires Sane(s) && Fits(s, id) && Wired(s.desk) && Open(s, c) && (c, id) in s.wakeups
    ensures s.workers[id].pc == StreamPosted ==> Mute(ApplyWakeup(s, c, id, env), id)
    ensures s.workers[id].pc == StreamStored ==> Orphan(ApplyWakeup(s, c, id, env), id)
  {
    if s.workers[id].pc == StreamPosted || s.workers[id].pc == StreamStored {
      RacingWake(SlotOf(s, id), env);
      OwnWakeupSlot(s, c, id, env);
    }
  }

  lemma RacingWake(t: Slot, env: Env)
    requires t.open && OpenSlot(t) && t.posted > 0 && (t.l.w.pc == StreamPosted || t.l.w.pc == StreamStored)
    ensures t.inR && !t.inS && t.l.v.Some?
    ensures MeetsSlot(Wake(t, env), if t.l.w.pc == StreamPosted then Muted else Orphaned)
  {
  }

  /**
   Every request of every run is accounted for: it fits the protocol if no wakeup of its own was
   handled early, and is orphaned or muted, for good, if one was.
   */
  lemma {:induction false} FitsOrRaced(run: seq<Event>, env: Env, s: State, id: ReqId)
    requires Exec(run, env) == Some(s)
    ensures Undisturbed(run, env, id) && id in s.desk.responses ==> Fits(s, id)
    ensures !Undisturbed(run, env, id) ==> Orphan(s, id) || Mute(s, id)
  {
    hide Apply, Fits, Sane, Wired, Enabled, Meets, Early;
    if Undisturbed(run, env, id) {
      UndisturbedRunsFit(run, env, id);
    } else if run != [] {
      var m, e := ExecLast(run, env);
      RunsAreSane(run[..|run| - 1], env);
      FitsOrRaced(run[..|run| - 1], env, m, id);
      if EarlyFor(m, e, id) {
        if Undisturbed(run[..|run| - 1], env, id) { EarlyMeetsFate(m, e, id, env); }
      }
      if Orphan(m, id) { MeetingStays(m, e, id, Orphaned, env); }
      if Mute(m, id) { MeetingStays(m, e, id, Muted, env); }
    }
  }

  lemma EarlyMeetsFate(s: State, e: Event, id: ReqId, env: Env)
    requires Sane(s) && Wired(s.desk) && Enabled(s, e) && EarlyFor(s, e, id)
    requires id in s.desk.responses ==> Fits(s, id)
    ensures Orphan(Apply(s, e, env), id) || Mute(Apply(s, e, env), id)
  {
    assert id in s.desk.responses;
    EarlyWakes(s, e.c, id, env);
  }

  // ---- every request of every run ----

  ghost predicate AccountedSlot(t: Slot) {
    SlotFits(t) || MeetsSlot(t, Orphaned) || MeetsSlot(t, Muted)
  }

  ghost predicate Accounted(s: State, id: ReqId) {
    Known(s, id) && AccountedSlot(SlotOf(s, id))
  }

  ghost predicate AllAccounted(s: State) {
    Basics(s) && forall id | id in s.desk.responses :: Accounted(s, id)
  }

  lemma RequestIsAccounted(run: seq<Event>, env: Env, s: State, id: ReqId)
    requires Exec(run, env) == Some(s)
    ensures Basics(s) && (id in s.desk.responses ==> Accounted(s, id))
  {
    RunsKeepBasics(run, env);
    FitsOrRaced(run, env, s, id);
  }

  lemma RunsAreAccounted(run: seq<Event>, env: Env, s: State)
    requires Exec(run, env) == Some(s)
    ensures AllAccounted(s)
  {
    hide Basics, Accounted;
    RequestIsAccounted(run, env, s, 0);
    forall id | id in s.desk.responses ensures Accounted(s, id) {
      RequestIsAccounted(run, env, s, id);
    }
  }

  /** A queued wakeup on an open connection finds its request where it left it, or about to leave stream(). */
  lemma QueuedIsPending(s: State, c: ConnId, id: ReqId)
    requires Sane(s) && Open(s, c) && (c, id) in s.wakeups && Accounted(s, id)
    ensures Fits(s, id) && s.desk.responses[id].conn == c
    ensures Has(s.desk.pendingStreams, c, id) || Has(s.desk.pendingResponses, c, id)
  {
    if !Fits(s, id) {
      RacedHasNoWakeup(s, c, id, if Orphan(s, id) then Orphaned else Muted);
    } else {
      PostedIsPending(SlotOf(s, id));
    }
  }

  lemma PostedIsPending(t: Slot)
    requires t.open && OpenSlot(t) && t.posted > 0
    ensures t.inR || t.inS
  {
  }

  /** Only a stream that no early wakeup disturbed is ever completed. */
  lemma CompletedIsUndisturbed(run: seq<Event>, env: Env, s: State, id: ReqId)
    requires Exec(run, env) == Some(s) && id in s.desk.streams && s.desk.streams[id].state == StreamState.Completed
    ensures Reached(run, env, s, id)
  {
    hide Exec, Undisturbed;
    RunsAreSane(run, env);
    FitsOrRaced(run, env, s, id);
  }

  // ---- what one early wakeup does ----

  /** The loop handles a stream's first wakeup properly if and only if stream() has already returned. */
  lemma PromotedIffNotEarly(run: seq<Event>, env: Env, s: State, c: ConnId, id: ReqId)
    requires Exec(run, env) == Some(s) && Wired(s.desk) && Open(s, c) && (c, id) in s.wakeups
    requires id in s.desk.streams && s.desk.streams[id].state == Start
    ensures Known(s, id) && Known(ApplyWakeup(s, c, id, env), id)
    ensures Promoted(SlotOf(ApplyWakeup(s, c, id, env), id)) <==> !Early(s, DeliverWakeup(c, id))
  {
    QueuedFits(run, env, s, c, id);
    FirstWakeup(SlotOf(s, id), env);
    OwnWakeupSlot(s, c, id, env);
  }

  lemma QueuedFits(run: seq<Event>, env: Env, s: State, c: ConnId, id: ReqId)
    requires Exec(run, env) == Some(s) && Open(s, c) && (c, id) in s.wakeups
    ensures Sane(s) && Fits(s, id) && s.desk.responses[id].conn == c
  {
    RunsAreAccounted(run, env, s);
    QueuedIsPending(s, c, id);
  }

  lemma FirstWakeup(t: Slot, env: Env)
    requires t.open && OpenSlot(t) && t.posted > 0 && t.l.v.Some? && t.l.v.value.state == Start
    ensures t.inR && !t.inS
    ensures Promoted(Wake(t, env)) <==> t.l.w.pc != StreamPosted && t.l.w.pc != StreamStored
  {
    assert StreamLog(t.l.w.preamble, []) == [Preamble(t.l.w.preamble)];
  }

  /**
   Handled before streaming is stored, the wakeup is answered with the payload nobody wrote, code -1
   and nothing else; the stream is never filed, and its worker waits for ever.
   */
  lemma EarlyWakeupMutes(run: seq<Event>, env: Env, s: State, c: ConnId, id: ReqId)
    requires Exec(run, env) == Some(s) && Wired(s.desk) && Open(s, c) && (c, id) in s.wakeups
    requires id in s.workers && s.workers[id].pc == StreamPosted
    ensures Mute(ApplyWakeup(s, c, id, env), id)
    ensures SlotOf(ApplyWakeup(s, c, id, env), id).log == [Reply(-1, "", "")]
  {
    QueuedFits(run, env, s, c, id);
    EarlyWakes(s, c, id, env);
  }

  /**
   Handled after streaming is stored but before m_stream is re-read, the wakeup takes the pointer the
   worker was about to return: the preamble is out, and nobody can ever complete the stream.
   */
  lemma EarlyWakeupOrphans(run: seq<Event>, env: Env, s: State, c: ConnId, id: ReqId)
    requires Exec(run, env) == Some(s) && Wired(s.desk) && Open(s, c) && (c, id) in s.wakeups
    requires id in s.workers && s.workers[id].pc == StreamStored
    ensures Orphan(ApplyWakeup(s, c, id, env), id)
    ensures SlotOf(ApplyWakeup(s, c, id, env), id).log == [Preamble(s.workers[id].preamble)]
  {
    QueuedFits(run, env, s, c, id);
    EarlyWakes(s, c, id, env);
  }
}
