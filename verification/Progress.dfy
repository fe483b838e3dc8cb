/** How a stream advances: one state change at a time, 3n + 4 of them for n chunks. */
module Progress {
  import opened Wrappers
  import opened Connections
  import opened AsyncStreams
  import opened AsyncResponses
  import opened Desks
  import opened Protocol
  import opened ProtocolShape
  import opened Slots
  import opened ProtocolInvariant
  import opened Fates

  /** State changes behind a stream in this state after announcing that many chunks. */
  function ChangesTo(v: StreamState, sent: nat): nat {
    match v
    case Start => 0
    case HasData => 3 * sent
    case Flush => 3 * sent + 1
    case Empty => 3 * sent + 2
    case Close => 3 * sent + 3
    case Completed => 3 * sent + 4
    case Failed => 0
  }

  /** Not failed, and its connection was there for as long as it mattered. */
  predicate Steady(t: Slot) {
    t.l.v.Some? && t.l.v.value.state != StreamState.Failed && (t.open || t.l.v.value.state == StreamState.Completed)
  }

  // ---- one event, seen from one request ----

  datatype Effect = Nothing | Own(a: Step, alive: bool) | Woken | Drained(queued: nat) | HungUp

  predicate Shows(t: Slot, t': Slot, f: Effect, env: Env) {
    match f
    case Nothing =>
      t'.l == t.l && t'.open == t.open && t'.inS == t.inS && t'.queued >= t.queued &&
      (t'.log == t.log || (t.inR && t.l.r.state == ResponseState.Failed))
    case Own(a, alive) => CanStep(t.l, a) && t' == Stepped(t, a, alive)
    case Woken => t.posted > 0 && (t.inS || (t.inR && t.l.r.state == Streaming) ==> t.l.v.Some?) && t' == Wake(t, env)
    case Drained(queued) =>
      t' == Pumped(t, queued, env).(queued := t'.queued) && (t'.queued == queued || t'.queued == t.queued)
    case HungUp => t' == Closed(t)
  }

  function EffectOf(s: State, e: Event, id: ReqId, env: Env): Effect
    requires Known(s, id) && Wired(s.desk) && (e.DrainAndWrite? ==> Open(s, e.c) && e.n <= s.conns[e.c].queued)
  {
    match e
    case Work(i, a) => if i == id then Own(a, s.alive) else Nothing
    case DeliverWakeup(c, i) => if i == id then Woken else Nothing
    case DrainAndWrite(c, n) => Drained(PumpSync(Drain(s.conns[c], n), env).queued)
    case CloseConn(c) => if c == s.desk.responses[id].conn then HungUp else Nothing
    case _ => Nothing
  }

  lemma EventShows(s: State, e: Event, id: ReqId, env: Env)
    requires Sane(s) && Wired(s.desk) && Enabled(s, e) && Accounted(s, id)
    ensures Known(Apply(s, e, env), id)
    ensures Shows(SlotOf(s, id), SlotOf(Apply(s, e, env), id), EffectOf(s, e, id, env), env)
  {
    hide Shows, Sane, AccountedSlot, ReplyErrors, HandleWakeup, HandleClose, TakeStep;
    if e.Work? {
      WorkShows(s, e.id, e.a, id, env);
    } else if e.DispatchAsync? {
      DispatchShows(s, e.c, id, env);
    } else if e.DeliverWakeup? {
      WakeupShows(s, e.c, e.id, id, env);
    } else if e.DrainAndWrite? {
      PumpShows(s, e.c, e.n, id, env);
    } else if e.CloseConn? {
      CloseShows(s, e.c, id, env);
    } else {
      RestShows(s, e, id, env);
    }
  }

  lemma WorkShows(s: State, i: ReqId, a: Step, id: ReqId, env: Env)
    requires Sane(s) && Issued(s, i) && CanStep(LocalOf(s, i), a) && Known(s, id)
    ensures var s' := ApplyWork(s, i, a);
            Known(s', id) && Shows(SlotOf(s, id), SlotOf(s', id), if i == id then Own(a, s.alive) else Nothing, env)
  {
    WorkSlot(s, i, a, id);
  }

  lemma DispatchShows(s: State, c: ConnId, id: ReqId, env: Env)
    requires Sane(s) && Open(s, c) && Known(s, id)
    ensures var s' := Dispatch(s, c); Known(s', id) && Shows(SlotOf(s, id), SlotOf(s', id), Nothing, env)
  {
    DispatchSlot(s, c, id);
  }

  lemma PumpShows(s: State, c: ConnId, n: nat, id: ReqId, env: Env)
    requires Sane(s) && Open(s, c) && n <= s.conns[c].queued && Known(s, id)
    ensures var (d, k) := HandleWrite(s.desk, Drain(s.conns[c], n), env);
            var s' := SetLoop(s, c, d, k);
            Known(s', id) &&
            Shows(SlotOf(s, id), SlotOf(s', id), Drained(PumpSync(Drain(s.conns[c], n), env).queued), env)
  {
    PumpSlot(s, c, n, id, env);
  }

  lemma CloseShows(s: State, c: ConnId, id: ReqId, env: Env)
    requires Sane(s) && Open(s, c) && Known(s, id)
    ensures var s' := Hangup(s, c);
            Known(s', id) &&
            Shows(SlotOf(s, id), SlotOf(s', id), if c == s.desk.responses[id].conn then HungUp else Nothing, env)
  {
    CloseSlot(s, c, id);
  }

  lemma WakeupShows(s: State, c: ConnId, i: ReqId, id: ReqId, env: Env)
    requires Sane(s) && Wired(s.desk) && Open(s, c) && (c, i) in s.wakeups && Accounted(s, id)
    ensures var s' := ApplyWakeup(s, c, i, env);
            Known(s', id) && Shows(SlotOf(s, id), SlotOf(s', id), if i == id then Woken else Nothing, env)
  {
    if i == id {
      QueuedIsPending(s, c, id);
      OwnWakeupSlot(s, c, id, env);
    } else {
      OtherWakeupSlot(s, c, i, id, env);
    }
  }

  lemma RestShows(s: State, e: Event, id: ReqId, env: Env)
    requires Sane(s) && Wired(s.desk) && Enabled(s, e) && Known(s, id)
    requires e.Accept? || e.DispatchReply? || e.DispatchStream? || e.DropWakeup? || e.Poll? || e.Expire?
    ensures Known(Apply(s, e, env), id)
    ensures Shows(SlotOf(s, id), SlotOf(Apply(s, e, env), id), Nothing, env)
  {
    if e.Poll? { PollSlot(s, e.c, e.order, id, env); }
  }

  // ---- exactly 3n + 4 state changes ----

  /** A steady stream changes state by one place at a time, and nothing else moves it. */
  ghost predicate OneOnward(t: Slot, t': Slot) {
    && (t'.l.v.None? ==> t.l.v.None?)
    && (Steady(t') && t.l.v.None? ==> ChangesTo(t'.l.v.value.state, |t'.l.w.sent|) == 0)
    && (Steady(t') && t.l.v.Some? ==>
          Steady(t) &&
          ChangesTo(t'.l.v.value.state, |t'.l.w.sent|) ==
          ChangesTo(t.l.v.value.state, |t.l.w.sent|) + if t'.l.v.value.state == t.l.v.value.state then 0 else 1)
  }

  lemma OwnStepIsOneOnward(t: Slot, a: Step, alive: bool)
    requires CanStep(t.l, a) && SlotFits(t) && (t.open ==> alive)
    ensures OneOnward(t, Stepped(t, a, alive))
  {
    StepFits(t, a, alive);
  }

  lemma WakeIsOneOnward(t: Slot, env: Env)
    requires t.open && SlotFits(t) && t.posted > 0
    requires t.inS || (t.inR && t.l.r.state == Streaming) ==> t.l.v.Some?
    ensures OneOnward(t, Wake(t, env))
  {
  }

  lemma EffectIsOneOnward(t: Slot, t': Slot, f: Effect, env: Env)
    requires SlotFits(t) && Shows(t, t', f, env)
    requires f.Own? && t.open ==> f.alive
    requires f.Woken? ==> t.open
    ensures OneOnward(t, t')
  {
    hide SlotFits, Stepped, Wake;
    if f.Own? {
      OwnStepIsOneOnward(t, f.a, f.alive);
    } else if f.Woken? {
      WakeIsOneOnward(t, env);
    }
  }

  lemma RacedIsOneOnward(t: Slot, t': Slot, f: Effect, env: Env)
    requires MeetsSlot(t, Orphaned) || MeetsSlot(t, Muted)
    requires Shows(t, t', f, env)
    ensures OneOnward(t, t')
  {
  }

  function StateOf(s: State, id: ReqId): Option<StreamState> {
    if id in s.desk.streams then Some(s.desk.streams[id].state) else None
  }

  lemma RanBefore(run: seq<Event>, env: Env)
    requires run != [] && Exec(run, env).Some?
    ensures Exec(run[..|run| - 1], env).Some?
  {
    var s, e := ExecLast(run, env);
  }

  /** How many events of the run changed the state of the stream. */
  ghost function Changes(run: seq<Event>, env: Env, id: ReqId): nat
    requires Exec(run, env).Some?
  {
    if run == [] then 0
    else
      RanBefore(run, env);
      var before := run[..|run| - 1];
      var (was, now) := (StateOf(Exec(before, env).value, id), StateOf(Exec(run, env).value, id));
      Changes(before, env, id) + if was.Some? && was != now then 1 else 0
  }

  /** Where a steady stream stands in its 3n + 4 changes. */
  ghost function Tally(s: State, id: ReqId): Option<nat> {
    if Known(s, id) && Steady(SlotOf(s, id)) then
      Some(ChangesTo(SlotOf(s, id).l.v.value.state, |s.workers[id].sent|))
    else None
  }

  lemma StepCounts(s: State, e: Event, id: ReqId, env: Env)
    requires Basics(s) && Wired(s.desk) && Enabled(s, e)
    requires id in s.desk.responses ==> Accounted(s, id)
    ensures var s' := Apply(s, e, env);
            && (id !in s'.desk.streams ==> id !in s.desk.streams)
            && (Tally(s', id).Some? && id !in s.desk.streams ==> Tally(s', id) == Some(0))
            && (Tally(s', id).Some? && id in s.desk.streams ==>
                  Tally(s, id).Some? &&
                  Tally(s', id).value == Tally(s, id).value + if StateOf(s', id) == StateOf(s, id) then 0 else 1)
  {
    hide Sane, ConnsFit, Wired, Enabled, Apply, AccountedSlot;
    if id in s.desk.responses {
      KnownStepCounts(s, e, id, env);
    } else {
      NewcomerIsDispatched(s, e, id, env);
    }
  }

  lemma OwnIsAlive(s: State, e: Event, id: ReqId, env: Env)
    requires Basics(s) && Known(s, id) && Wired(s.desk) && Enabled(s, e)
    ensures EffectOf(s, e, id, env).Own? && SlotOf(s, id).open ==> EffectOf(s, e, id, env).alive
    ensures EffectOf(s, e, id, env).Woken? ==> SlotOf(s, id).open
  {
    assert Open(s, s.desk.responses[id].conn) <==> SlotOf(s, id).open;
  }

  lemma KnownStepCounts(s: State, e: Event, id: ReqId, env: Env)
    requires Basics(s) && Wired(s.desk) && Enabled(s, e) && Accounted(s, id)
    ensures var s' := Apply(s, e, env);
            Known(s', id) && OneOnward(SlotOf(s, id), SlotOf(s', id))
  {
    hide Sane, ConnsFit, SlotOf, Apply, Shows, OneOnward, EffectOf, SlotFits, MeetsSlot;
    EventShows(s, e, id, env);
    OwnIsAlive(s, e, id, env);
    var t, t' := SlotOf(s, id), SlotOf(Apply(s, e, env), id);
    if SlotFits(t) {
      EffectIsOneOnward(t, t', EffectOf(s, e, id, env), env);
    } else {
      RacedIsOneOnward(t, t', EffectOf(s, e, id, env), env);
    }
  }

  /** Along every run the number of changes is a function of the state and the chunks announced. */
  lemma {:induction false} ChangesAreCounted(run: seq<Event>, env: Env, id: ReqId)
    requires Exec(run, env).Some?
    ensures var s := Exec(run, env).value;
            && (id !in s.desk.streams ==> Changes(run, env, id) == 0)
            && (Tally(s, id).Some? ==> Tally(s, id) == Some(Changes(run, env, id)))
  {
    hide Apply, Basics, Accounted, Enabled, Wired;
    if run != [] {
      var before := run[..|run| - 1];
      var s, e := ExecLast(run, env);
      ChangesAreCounted(before, env, id);
      RequestIsAccounted(before, env, s, id);
      StepCounts(s, e, id, env);
    }
  }
}
