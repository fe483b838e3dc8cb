/**
 What the successive loads of wait() can see: while its worker takes no step, a stream's state only
 ever climbs, so that comparing values misses no change and a state that ends the wait stays one.
 */
module Waits {
  import opened Wrappers
  import opened Connections
  import opened AsyncStreams
  import opened Desks
  import opened Protocol
  import opened ProtocolShape
  import opened Slots
  import opened ProtocolInvariant
  import opened Fates
  import opened Progress

  function Rung(state: StreamState): nat {
    match state
    case Start => 0
    case HasData => 0
    case Close => 0
    case Flush => 1
    case Empty => 2
    case Completed => 3
    case Failed => 4
  }

  /** The same state, or a higher one. */
  predicate Climbs(t: Slot, t': Slot) {
    t'.l.w == t.l.w &&
    (t.l.v.Some? ==>
       t'.l.v.Some? && (t'.l.v.value.state == t.l.v.value.state || Rung(t'.l.v.value.state) > Rung(t.l.v.value.state)))
  }

  lemma EffectClimbs(t: Slot, t': Slot, f: Effect, env: Env)
    requires Shows(t, t', f, env) && !f.Own? && AccountedSlot(t)
    ensures Climbs(t, t')
  {
  }

  lemma EventClimbs(s: State, e: Event, id: ReqId, env: Env)
    requires Sane(s) && Wired(s.desk) && Enabled(s, e) && Accounted(s, id) && !(e.Work? && e.id == id)
    ensures Known(Apply(s, e, env), id) && Climbs(SlotOf(s, id), SlotOf(Apply(s, e, env), id))
  {
    hide Sane, SlotOf, Apply, Shows, AccountedSlot, Climbs;
    EventShows(s, e, id, env);
    EffectClimbs(SlotOf(s, id), SlotOf(Apply(s, e, env), id), EffectOf(s, e, id, env), env);
  }

  ghost predicate NoOwnStep(more: seq<Event>, id: ReqId) {
    forall e <- more :: !(e.Work? && e.id == id)
  }

  lemma NoOwnStepSplits(init: seq<Event>, e: Event, id: ReqId)
    requires NoOwnStep(init + [e], id)
    ensures NoOwnStep(init, id) && !(e.Work? && e.id == id)
  {
    assert forall x <- init :: x in init + [e];
    assert e in init + [e];
  }

  lemma ClimbsOn(t: Slot, t': Slot, t'': Slot)
    requires Climbs(t, t') && Climbs(t', t'')
    ensures Climbs(t, t'')
  {
  }

  lemma {:induction false} StatesClimb(run: seq<Event>, more: seq<Event>, env: Env, s: State, s': State, id: ReqId)
    requires Exec(run, env) == Some(s) && Exec(run + more, env) == Some(s') && Known(s, id) && NoOwnStep(more, id)
    ensures Known(s', id) && Climbs(SlotOf(s, id), SlotOf(s', id))
    decreases |more|
  {
    hide Exec, Apply, Climbs, Accounted, Basics, Wired, Enabled, SlotOf;
    if more == [] {
      assert run + more == run;
      NoClimb(SlotOf(s, id));
    } else {
      var init, e := more[..|more| - 1], more[|more| - 1];
      assert run + more == (run + init) + [e] && more == init + [e];
      ExecStep(run + init, e, env);
      NoOwnStepSplits(init, e, id);
      var m := Exec(run + init, env).value;
      StatesClimb(run, init, env, s, m, id);
      RequestIsAccounted(run + init, env, m, id);
      EventClimbs(m, e, id, env);
      ClimbsOn(SlotOf(s, id), SlotOf(m, id), SlotOf(s', id));
    }
  }

  lemma NoClimb(t: Slot)
    ensures Climbs(t, t)
  {
  }

  /**
   m_state.wait(current) compares values. It misses nothing: if two loads see the same state, so would
   have every load between them.
   */
  lemma WaitMissesNothing(run: seq<Event>, first: seq<Event>, rest: seq<Event>, env: Env,
                          s: State, m: State, s': State, id: ReqId)
    requires Exec(run, env) == Some(s) && Exec(run + first, env) == Some(m) && Exec(run + first + rest, env) == Some(s')
    requires id in s.desk.streams && NoOwnStep(first, id) && NoOwnStep(rest, id)
    ensures id in m.desk.streams && id in s'.desk.streams
    ensures s'.desk.streams[id].state == s.desk.streams[id].state ==>
              m.desk.streams[id].state == s.desk.streams[id].state
  {
    hide Exec;
    RunsAreSane(run, env);
    StatesClimb(run, first, env, s, m, id);
    StatesClimb(run + first, rest, env, m, s', id);
  }

  /** Once a load would end the wait, every later one would, until the worker goes on. */
  lemma EndedStaysEnded(run: seq<Event>, more: seq<Event>, env: Env, s: State, s': State, id: ReqId)
    requires Exec(run, env) == Some(s) && Exec(run + more, env) == Some(s')
    requires id in s.desk.streams && id in s.workers && s.workers[id].pc == Waiting && NoOwnStep(more, id)
    requires WaitEnds(s.desk.streams[id].state)
    ensures Issued(s', id) && CanStep(LocalOf(s', id), WaitReturn)
  {
    hide Exec;
    RunsAreSane(run, env);
    StatesClimb(run, more, env, s, s', id);
  }
}
