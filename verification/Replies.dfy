/** What becomes of a response that its worker sends: exactly one reply, and which one. */
module Replies {
  import opened Wrappers
  import opened Connections
  import opened AsyncResponses
  import opened Desks
  import opened Protocol
  import opened ProtocolShape
  import opened Slots
  import opened ProtocolInvariant
  import opened Fates
  import opened Progress
  import opened Histories

  /** mg_wakeup accepted the wakeup of the request's send. */
  ghost predicate Accepted(run: seq<Event>, id: ReqId) {
    Work(id, SendPost(true)) in run
  }

  /** What the request's own state remembers of that, while its connection is open. */
  predicate Remembers(t: Slot, accepted: bool) {
    t.open ==>
      match t.l.w.pc
      case SendChecked(_) => t.l.w.asked.Some? && !accepted
      case SendWritten => t.l.w.asked.Some? && !accepted
      case SendRefused => t.l.w.asked.Some? && !accepted
      case SendPosted => t.l.w.asked.Some? && accepted
      case Done =>
        if t.l.w.asked.Some? then t.l.v.None? && (accepted <==> t.l.r.state != ResponseState.Failed) else !accepted
      case _ => t.l.w.asked.None? && !accepted
  }

  lemma OwnRemembers(t: Slot, a: Step, accepted: bool)
    requires t.open && OpenSlot(t) && CanStep(t.l, a) && Remembers(t, accepted)
    ensures Remembers(Stepped(t, a, true), accepted || a == SendPost(true))
  {
  }

  lemma RacedRemembers(t: Slot, a: Step, accepted: bool)
    requires MeetsSlot(t, Orphaned) || MeetsSlot(t, Muted)
    requires CanStep(t.l, a) && Remembers(t, accepted)
    ensures Remembers(Stepped(t, a, true), accepted || a == SendPost(true))
  {
  }

  lemma WakeRemembers(t: Slot, accepted: bool, env: Env)
    requires t.open && AccountedSlot(t) && t.posted > 0 && Remembers(t, accepted)
    requires t.inS || (t.inR && t.l.r.state == Streaming) ==> t.l.v.Some?
    ensures Remembers(Wake(t, env), accepted)
  {
  }

  lemma EffectRemembers(t: Slot, t': Slot, f: Effect, accepted: bool, env: Env)
    requires AccountedSlot(t) && Shows(t, t', f, env) && Remembers(t, accepted)
    requires f.Own? && t.open ==> f.alive
    ensures Remembers(t', accepted || (f.Own? && f.a == SendPost(true)))
  {
    hide OpenSlot, ClosedSlot, MeetsSlot, TakeStep;
    if t.open && f.Own? {
      if SlotFits(t) { OwnRemembers(t, f.a, accepted); } else { RacedRemembers(t, f.a, accepted); }
    } else if t.open && f.Woken? {
      WakeRemembers(t, accepted, env);
    }
  }

  lemma StepRemembers(s: State, e: Event, id: ReqId, accepted: bool, env: Env)
    requires Basics(s) && Wired(s.desk) && Enabled(s, e) && Accounted(s, id) && Remembers(SlotOf(s, id), accepted)
    ensures var s' := Apply(s, e, env);
            Known(s', id) && Remembers(SlotOf(s', id), accepted || e == Work(id, SendPost(true)))
  {
    hide Sane, ConnsFit, SlotOf, Apply, Shows, Remembers, AccountedSlot;
    EventShows(s, e, id, env);
    OwnIsAlive(s, e, id, env);
    EffectRemembers(SlotOf(s, id), SlotOf(Apply(s, e, env), id), EffectOf(s, e, id, env), accepted, env);
  }

  lemma NewRemembers(s: State, c: ConnId)
    requires Sane(s) && Open(s, c)
    ensures var s' := Dispatch(s, c); Known(s', s.desk.counter) && Remembers(SlotOf(s', s.desk.counter), false)
  {
    DispatchSlot(s, c, s.desk.counter);
  }

  ghost predicate Reminded(s: State, id: ReqId, accepted: bool) {
    if id in s.desk.responses then Known(s, id) && Remembers(SlotOf(s, id), accepted) else !accepted
  }

  lemma StepReminds(s: State, e: Event, id: ReqId, accepted: bool, env: Env)
    requires Basics(s) && Wired(s.desk) && Enabled(s, e) && Reminded(s, id, accepted)
    requires id in s.desk.responses ==> Accounted(s, id)
    ensures Reminded(Apply(s, e, env), id, accepted || e == Work(id, SendPost(true)))
  {
    hide Remembers, Sane, ConnsFit, AccountedSlot, Wired, SlotOf;
    if id in s.desk.responses {
      StepRemembers(s, e, id, accepted, env);
    } else {
      NewcomerIsDispatched(s, e, id, env);
      NotYetSending(s, e, id);
      if e.DispatchAsync? && id == s.desk.counter { NewRemembers(s, e.c); }
    }
  }

  lemma {:induction false} RunsRemember(run: seq<Event>, env: Env, id: ReqId)
    requires Exec(run, env).Some?
    ensures Reminded(Exec(run, env).value, id, Accepted(run, id))
  {
    if run != [] {
      hide Reminded, Basics, Accounted, Wired, Enabled, Apply;
      var s, e := ExecLast(run, env);
      var init := run[..|run| - 1];
      assert forall x :: x in run <==> x in init || x == e by { assert run == init + [e]; }
      RunsRemember(init, env, id);
      RequestIsAccounted(init, env, s, id);
      StepReminds(s, e, id, Accepted(init, id), env);
    }
  }

  lemma NotYetSending(s: State, e: Event, id: ReqId)
    requires Wired(s.desk) && Enabled(s, e) && id !in s.desk.responses
    ensures !(e.Work? && e.id == id)
  {
  }

  lemma SettledSlot(t: Slot, accepted: bool)
    requires t.open && AccountedSlot(t) && Remembers(t, accepted)
    requires t.l.w.asked.Some? && t.l.w.pc == Done && !t.inR
    ensures t.log == [if accepted then ReplyOf(t.l.w.asked.value) else SERVER_ERROR]
  {
  }

  /**
   In every run a send that is over, its response no longer pending and its connection open, has had
   exactly one reply: what the worker passed to send, field by field, if mg_wakeup accepted its wakeup,
   and the 500 if not.
   */
  lemma SettledSendHasOneReply(run: seq<Event>, env: Env, s: State, id: ReqId)
    requires Exec(run, env) == Some(s) && Known(s, id) && Open(s, s.desk.responses[id].conn)
    requires CallsOf(run, id).payload.Some? && s.workers[id].pc == Done && id !in s.desk.pendingResponses
    ensures var p := CallsOf(run, id).payload.value;
            if Accepted(run, id) then
              && SlotOf(s, id).log == [Reply(p.code, p.headers, p.body)]
              && Render(SlotOf(s, id).log, env) == (env.render)(p.code, p.headers, p.body)
            else
              && SlotOf(s, id).log == [Reply(500, "Content-Type: text/plain\r\n", "Internal Server Error\n")]
              && Render(SlotOf(s, id).log, env) ==
                 (env.render)(500, "Content-Type: text/plain\r\n", "Internal Server Error\n")
  {
    hide Exec, Remembers, AccountedSlot, CallsOf;
    RequestIsAccounted(run, env, s, id);
    RunsRemember(run, env, id);
    BooksAreCalls(run, env, s, id);
    SettledSlot(SlotOf(s, id), Accepted(run, id));
    var b := SlotOf(s, id).log[0];
    assert [] + [b] == [b];
    RenderAppend([], b, env);
  }

  /**
   At its wakeup a pending response that is no stream is answered with its payload, field by field, is
   completed and forgotten; nothing else changes but the count of wakeups.
   */
  lemma WakeupAnswers(run: seq<Event>, env: Env, s: State, c: ConnId, id: ReqId)
    requires Exec(run, env) == Some(s) && Wired(s.desk) && Enabled(s, DeliverWakeup(c, id))
    requires id in s.desk.pendingResponses && s.desk.responses[id].state != Streaming
    ensures var s', r := Apply(s, DeliverWakeup(c, id), env), s.desk.responses[id];
            && s'.desk == s.desk.(responses := s.desk.responses[id := r.(state := ResponseState.Completed)],
                                  pendingResponses := s.desk.pendingResponses - {id})
            && s'.conns == s.conns[c := s'.conns[c]]
            && s'.conns[c].wire ==
               s.conns[c].wire + [Item(Request(id), Reply(r.payload.code, r.payload.headers, r.payload.body))]
  {
    hide HandleWakeup, Sane;
    RunsAreSane(run, env);
    WokenIsHome(s, c, id);
    ReplyWakeup(s.desk, c, id, s.conns[c], env);
  }

  lemma WokenIsHome(s: State, c: ConnId, id: ReqId)
    requires Sane(s) && (c, id) in s.wakeups && id in s.desk.pendingResponses
    ensures Has(s.desk.pendingResponses, c, id) && id !in s.desk.pendingStreams
  {
  }
}
