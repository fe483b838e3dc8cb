/**
 What workers passed to their calls, read off the events of a run and nothing else, and that the
 system's own books say the same in every run. The theorems on delivery speak of these calls.
 */
module Histories {
  import opened Wrappers
  import opened Connections
  import opened AsyncStreams
  import opened AsyncResponses
  import opened Desks
  import opened Protocol
  import opened ProtocolShape
  import opened Slots
  import opened ProtocolInvariant
  import opened Fates
  import opened Progress

  /**
   The arguments of one worker: of stream(), as the text of the preamble, of send() on its response,
   of its latest write to its stream, None for the end, and of all its writes of chunks that it announced.
   */
  datatype Calls = Calls(preamble: string, payload: Option<Payload>, latest: Option<string>, chunks: seq<string>)

  const NO_CALLS := Calls("", None, None, [])

  function Noted(h: Calls, a: Step): Calls {
    match a
    case StreamMake(preamble) => h.(preamble := preamble)
    case SendCheck(p) => h.(payload := Some(p))
    case WriteData(chunk) => h.(latest := chunk)
    case StoreState => if h.latest.Some? then h.(chunks := h.chunks + [h.latest.value]) else h
    case _ => h
  }

  function CallsOf(run: seq<Event>, id: ReqId): Calls {
    if run == [] then NO_CALLS
    else
      var h := CallsOf(run[..|run| - 1], id);
      match run[|run| - 1]
      case Work(i, a) => if i == id then Noted(h, a) else h
      case _ => h
  }

  // ---- the books say the same ----

  /** sent, asked and the preamble are what was passed; between its two stores a chunk is in the cell. */
  predicate Booked(t: Slot, h: Calls) {
    && t.l.w.sent == h.chunks
    && (t.l.w.pc == Ready ==> h == NO_CALLS && t.l.w.asked.None?)
    && (t.l.v.Some? ==> t.l.w.preamble == h.preamble && h.payload.None?)
    && (t.open || t.l.w.asked.Some? ==> t.l.w.asked == h.payload)
    && (t.l.w.pc.Wrote? ==>
          t.l.v.Some? && if t.l.w.pc.last then h.latest.None? else h.latest == Some(t.l.v.value.data))
  }

  lemma OwnBooks(t: Slot, a: Step, alive: bool, h: Calls)
    requires AccountedSlot(t) && CanStep(t.l, a) && Booked(t, h)
    ensures Booked(Stepped(t, a, alive), Noted(h, a))
  {
    if t.l.w.pc == Ready { ReadyIsPending(t); }
  }

  lemma ReadyIsPending(t: Slot)
    requires AccountedSlot(t) && t.l.w.pc == Ready
    ensures t.l.v.None? && (t.open ==> t.l.r.state == Pending)
  {
  }

  lemma WakeBooks(t: Slot, h: Calls, env: Env)
    requires AccountedSlot(t) && t.open && t.posted > 0 && Booked(t, h)
    requires t.inS || (t.inR && t.l.r.state == Streaming) ==> t.l.v.Some?
    ensures Booked(Wake(t, env), h)
  {
  }

  lemma EffectBooks(t: Slot, t': Slot, f: Effect, h: Calls, env: Env)
    requires AccountedSlot(t) && Shows(t, t', f, env) && Booked(t, h) && (f.Woken? ==> t.open)
    ensures Booked(t', if f.Own? then Noted(h, f.a) else h)
  {
    hide AccountedSlot, Noted, TakeStep, Wake;
    if f.Own? {
      OwnBooks(t, f.a, f.alive, h);
    } else if f.Woken? {
      WakeBooks(t, h, env);
    }
  }

  lemma StepBooks(s: State, e: Event, id: ReqId, h: Calls, env: Env)
    requires Basics(s) && Wired(s.desk) && Enabled(s, e) && Accounted(s, id) && Booked(SlotOf(s, id), h)
    ensures var s' := Apply(s, e, env);
            Known(s', id) && Booked(SlotOf(s', id), if e.Work? && e.id == id then Noted(h, e.a) else h)
  {
    hide Sane, ConnsFit, SlotOf, Apply, Shows, Booked, AccountedSlot, Noted;
    EventShows(s, e, id, env);
    OwnIsAlive(s, e, id, env);
    EffectBooks(SlotOf(s, id), SlotOf(Apply(s, e, env), id), EffectOf(s, e, id, env), h, env);
  }

  lemma NewcomerBooks(s: State, e: Event, id: ReqId, env: Env)
    requires Sane(s) && Wired(s.desk) && Enabled(s, e) && id !in s.desk.responses
    ensures !(e.Work? && e.id == id)
    ensures var s' := Apply(s, e, env);
            id in s'.desk.responses ==> Known(s', id) && Booked(SlotOf(s', id), NO_CALLS)
  {
    NewcomerIsDispatched(s, e, id, env);
    if id in Apply(s, e, env).desk.responses { DispatchSlot(s, e.c, id); }
  }

  /** In every run the books of a request are its worker's calls, and one not yet dispatched made none. */
  lemma {:induction false} RunsAreBooked(run: seq<Event>, env: Env, s: State, id: ReqId)
    requires Exec(run, env) == Some(s)
    ensures if id in s.desk.responses then Known(s, id) && Booked(SlotOf(s, id), CallsOf(run, id))
            else CallsOf(run, id) == NO_CALLS
  {
    if run != [] {
      hide Basics, Accounted, Wired, Enabled, Apply, Booked, Noted, Sane;
      var m, e := ExecLast(run, env);
      var init := run[..|run| - 1];
      RunsAreBooked(init, env, m, id);
      RequestIsAccounted(init, env, m, id);
      if id in m.desk.responses {
        StepBooks(m, e, id, CallsOf(init, id), env);
      } else {
        RunsAreSane(init, env);
        NewcomerBooks(m, e, id, env);
      }
    }
  }

  /** What the proofs' own fields of a worker hold, in every run. */
  lemma BooksAreCalls(run: seq<Event>, env: Env, s: State, id: ReqId)
    requires Exec(run, env) == Some(s) && Known(s, id)
    ensures s.workers[id].sent == CallsOf(run, id).chunks
    ensures id in s.desk.streams ==>
              s.workers[id].preamble == CallsOf(run, id).preamble && CallsOf(run, id).payload.None?
    ensures s.workers[id].asked.Some? || Open(s, s.desk.responses[id].conn) ==>
              s.workers[id].asked == CallsOf(run, id).payload
    ensures s.workers[id].pc == Wrote(false) ==>
              id in s.desk.streams && CallsOf(run, id).latest == Some(s.desk.streams[id].data)
  {
    hide Exec, CallsOf;
    RunsAreBooked(run, env, s, id);
  }

  /** A stream of n chunks completes after exactly 3n + 4 state changes, however it was scheduled. */
  lemma CompletesAfter3nPlus4(run: seq<Event>, env: Env, s: State, id: ReqId)
    requires Exec(run, env) == Some(s) && Known(s, id)
    requires id in s.desk.streams && s.desk.streams[id].state == StreamState.Completed
    ensures Changes(run, env, id) == 3 * |CallsOf(run, id).chunks| + 4
  {
    hide CallsOf;
    ChangesAreCounted(run, env, id);
    BooksAreCalls(run, env, s, id);
  }
}
