/** Fair schedules exist: from every point of an unrefused stream on an open connection there is one. */
module Schedules {
  import opened Wrappers
  import opened Connections
  import opened AsyncStreams
  import opened Desks
  import opened Protocol
  import opened ProtocolShape
  import opened Slots
  import opened ProtocolInvariant
  import opened Fates
  import opened Progress
  import opened Ranks
  import opened Liveness
  import opened Fairness

  // ---- a completing continuation, cut where it completes ----

  lemma {:induction false} ExecBefore(run: seq<Event>, more: seq<Event>, k: nat, env: Env)
    requires k <= |more| && Exec(run + more, env).Some?
    ensures Exec(run + more[..k], env).Some?
    decreases |more|
  {
    if k == |more| {
      assert more[..k] == more;
    } else {
      var init := more[..|more| - 1];
      assert run + more == (run + init) + [more[|more| - 1]] && init[..k] == more[..k];
      ExecStep(run + init, more[|more| - 1], env);
      ExecBefore(run, init, k, env);
    }
  }

  /** It completes the stream, and no shorter part of it does. */
  ghost predicate JustCompletes(run: seq<Event>, more: seq<Event>, env: Env, id: ReqId) {
    Completes(run + more, env, id) && forall k | 0 <= k < |more| :: !Completes(run + more[..k], env, id)
  }

  lemma {:induction false} CutToCompletion(run: seq<Event>, more: seq<Event>, env: Env, id: ReqId)
    returns (k: nat)
    requires Completes(run + more, env, id)
    ensures k <= |more| && JustCompletes(run, more[..k], env, id)
    decreases |more|
  {
    hide Completes;
    if j: nat :| j < |more| && Completes(run + more[..j], env, id) {
      k := CutToCompletion(run, more[..j], env, id);
      assert more[..j][..k] == more[..k];
    } else {
      k := |more|;
      assert more[..k] == more;
    }
  }

  // ---- facts on one event ----

  lemma EffectSends(t: Slot, t': Slot, f: Effect, env: Env)
    requires Shows(t, t', f, env)
    ensures |t.l.w.sent| <= |t'.l.w.sent|
  {
  }

  lemma {:induction false} SentGrows(run: seq<Event>, more: seq<Event>, env: Env, s: State, s': State, id: ReqId)
    requires Exec(run, env) == Some(s) && Exec(run + more, env) == Some(s') && Known(s, id)
    ensures Known(s', id) && |s.workers[id].sent| <= |s'.workers[id].sent|
    decreases |more|
  {
    hide Exec, Apply, Accounted, Basics, Wired, Enabled;
    if more == [] {
      assert run + more == run;
    } else {
      var init, e := more[..|more| - 1], more[|more| - 1];
      assert run + more == (run + init) + [e];
      ExecStep(run + init, e, env);
      var m := Exec(run + init, env).value;
      SentGrows(run, init, env, s, m, id);
      RequestIsAccounted(run + init, env, m, id);
      EventSends(m, e, id, env);
    }
  }

  lemma EventSends(s: State, e: Event, id: ReqId, env: Env)
    requires Basics(s) && Accounted(s, id) && Wired(s.desk) && Enabled(s, e)
    ensures Known(Apply(s, e, env), id) && |s.workers[id].sent| <= |Apply(s, e, env).workers[id].sent|
  {
    hide Apply, Sane, Wired, Shows, AccountedSlot, EffectOf;
    EventShows(s, e, id, env);
    EffectSends(SlotOf(s, id), SlotOf(Apply(s, e, env), id), EffectOf(s, e, id, env), env);
  }

  lemma FlushEnds(t: Slot, t': Slot, f: Effect, env: Env)
    requires t.open && OpenSlot(t) && t'.open && Shows(t, t', f, env)
    requires t.l.v.Some? && t.l.v.value.state == Flush && t'.l.v.Some? && t'.l.v.value.state != Flush
    ensures f.Drained? && f.queued < env.io
  {
  }

  lemma FlushEndsByRelief(s: State, e: Event, id: ReqId, env: Env)
    requires Basics(s) && Fits(s, id) && Wired(s.desk) && Enabled(s, e) && SlotOf(s, id).open && Flushes(s, id)
    requires var s' := Apply(s, e, env);
             Known(s', id) && SlotOf(s', id).open && id in s'.desk.streams && !Flushes(s', id)
    ensures Relieves(s, e, env)
  {
    hide Apply, Sane, Shows, OpenSlot, ClosedSlot, PumpSync;
    EventShows(s, e, id, env);
    FlushEnds(SlotOf(s, id), SlotOf(Apply(s, e, env), id), EffectOf(s, e, id, env), env);
  }

  lemma CompletionIsOpen(t: Slot, t': Slot, f: Effect, env: Env)
    requires t.open && Shows(t, t', f, env)
    requires t.l.v.Some? && t.l.v.value.state != StreamState.Completed
    requires t'.l.v.Some? && t'.l.v.value.state == StreamState.Completed
    ensures t'.open
  {
  }

  lemma RefusalRefuses(t: Slot, a: Step)
    requires CanStep(t.l, a) && (a == StreamPost(false) || a == PostState(false))
    ensures !Unrefused(Stepped(t, a, true))
  {
  }

  lemma TurnsAreFewer(t: Slot)
    requires t.open && OpenSlot(t) && Unrefused(t) && t.l.v.value.state != StreamState.Completed
    ensures TurnsTo(t) < 5 * |t.l.w.sent| + 10
  {
  }

  /** Nobody has a turn for a completed stream. */
  lemma CompletedIsStill(s: State, id: ReqId)
    requires Sane(s) && Fits(s, id) && Wired(s.desk) && SlotOf(s, id).open
    requires id in s.desk.streams && s.desk.streams[id].state == StreamState.Completed
    ensures !CanTurn(s, id) && !Flushes(s, id)
  {
    hide OpenSlot, ClosedSlot, SlotFits, Sane, Wired, Enabled;
    FitsOpen(SlotOf(s, id));
    CompletedSlotIsStill(SlotOf(s, id));
    NoneQueued(s, id);
    forall e | IsTurn(e, id) ensures !Enabled(s, e) {
      StillHasNoTurn(s, e, id);
    }
  }

  lemma NoneQueued(s: State, id: ReqId)
    requires Sane(s) && Known(s, id) && SlotOf(s, id).posted == 0
    ensures forall c :: (c, id) !in s.wakeups
  {
    hide IdsFit, BooksFit, WiresFit;
  }

  lemma StillHasNoTurn(s: State, e: Event, id: ReqId)
    requires Wired(s.desk) && IsTurn(e, id) && id in s.workers && s.workers[id].pc == Pc.Done
    requires forall c :: (c, id) !in s.wakeups
    ensures !Enabled(s, e)
  {
    hide Wired;
  }

  lemma FitsOpen(t: Slot)
    requires SlotFits(t) && t.open
    ensures OpenSlot(t)
  {
  }

  lemma CompletedSlotIsStill(t: Slot)
    requires t.open && OpenSlot(t) && t.l.v.Some? && t.l.v.value.state == StreamState.Completed
    ensures t.l.w.pc == Pc.Done && t.posted == 0
  {
  }

  // ---- the schedule: that continuation, then new connections for ever ----

  function Schedule(more: seq<Event>, base: nat): nat -> Event {
    (k: nat) => if k < |more| then more[k] else Accept(base + k)
  }

  /** A point to start from, a continuation that just completes the stream, and a number above all connections. */
  ghost predicate Plan(run: seq<Event>, more: seq<Event>, env: Env, id: ReqId, base: nat) {
    && env.io > 0 && JustCompletes(run, more, env, id) && Undisturbed(run + more, env, id)
    && Exec(run, env).Some? && Known(Exec(run, env).value, id)
    && SlotOf(Exec(run, env).value, id).open && Unrefused(SlotOf(Exec(run, env).value, id))
    && (forall c | c in Exec(run + more, env).value.conns :: c < base)
  }

  lemma TakeSchedule(run: seq<Event>, more: seq<Event>, base: nat, k: nat)
    requires k <= |more|
    ensures run + Take(Schedule(more, base), k) == run + more[..k]
  {
  }

  /** Not completed yet, and all is well. */
  ghost predicate Midway(s: State, id: ReqId) {
    Known(s, id) && SlotOf(s, id).open && Unrefused(SlotOf(s, id)) && id in s.desk.streams &&
    s.desk.streams[id].state != StreamState.Completed
  }

  lemma UnrefusedAndUnfinished(s: State, id: ReqId)
    requires Known(s, id) && Unrefused(SlotOf(s, id)) && !(id in s.desk.streams && s.desk.streams[id].state == StreamState.Completed)
    ensures Midway(s, id)
  {
  }

  lemma CompletedAtEnd(run: seq<Event>, more: seq<Event>, env: Env, id: ReqId, base: nat) returns (s': State)
    requires Plan(run, more, env, id, base)
    ensures Exec(run + more, env) == Some(s') && Reached(run + more, env, s', id)
    ensures id in s'.desk.streams && s'.desk.streams[id].state == StreamState.Completed && Unrefused(SlotOf(s', id))
  {
    hide Exec, Undisturbed, Unrefused, SlotFits;
    s' := Exec(run + more, env).value;
    CompletedIsUndisturbed(run + more, env, s', id);
    ReachedSlot(run + more, env, s', id);
    CompletedSlot(SlotOf(s', id));
  }

  lemma MidwayAt(run: seq<Event>, more: seq<Event>, env: Env, id: ReqId, base: nat, k: nat) returns (m: State)
    requires Plan(run, more, env, id, base) && k < |more|
    ensures Exec(run + more[..k], env) == Some(m) && Reached(run + more[..k], env, m, id) && Midway(m, id)
    ensures Exec(run + more, env).Some? && Known(Exec(run + more, env).value, id)
    ensures |m.workers[id].sent| <= |Exec(run + more, env).value.workers[id].sent|
  {
    hide Exec, Undisturbed, Unrefused, SlotFits, Midway, MeetsSlot;
    var s' := CompletedAtEnd(run, more, env, id, base);
    var s := Exec(run, env).value;
    ExecBefore(run, more, k, env);
    m := Exec(run + more[..k], env).value;
    RequestIsAccounted(run, env, s, id);
    UnrefusedIsMade(SlotOf(s, id));
    MadeIsBegun(SlotOf(s, id));
    UnrefusedBefore(run, more[..k], env, s, m, id);
    assert (run + more[..k]) + more[k..] == run + more;
    UnrefusedBefore(run + more[..k], more[k..], env, m, s', id);
    UndisturbedBefore(run + more[..k], more[k..], env, id);
    SentGrows(run + more[..k], more[k..], env, m, s', id);
    assert !Completes(run + more[..k], env, id);
    UnrefusedAndUnfinished(m, id);
  }

  lemma UnrefusedIsMade(t: Slot)
    requires Unrefused(t)
    ensures t.l.v.Some?
  {
  }

  // ---- its first part ----

  lemma {:induction false} TurnBetween(run: seq<Event>, f: nat -> Event, id: ReqId, k: nat, m: nat)
    requires k <= m && Turns(run + Take(f, k), id) < Turns(run + Take(f, m), id)
    ensures TurnComes(f, k, id)
    decreases m
  {
    if k < m {
      TurnsStep(run, f, id, m - 1);
      if !IsTurn(f(m - 1), id) {
        TurnBetween(run, f, id, k, m - 1);
      }
    }
  }

  lemma FirstTurnsCome(run: seq<Event>, more: seq<Event>, env: Env, id: ReqId, base: nat, k: nat)
    requires Plan(run, more, env, id, base) && k < |more|
    ensures TurnComes(Schedule(more, base), k, id)
  {
    hide Exec, Undisturbed, Unrefused, SlotFits, TurnsTo, TurnComes;
    var m := MidwayAt(run, more, env, id, base, k);
    var s' := CompletedAtEnd(run, more, env, id, base);
    ReachedSlot(run + more[..k], env, m, id);
    FitsOpen(SlotOf(m, id));
    TurnsAreCounted(run + more[..k], env, id);
    TurnsAreFewer(SlotOf(m, id));
    CompletesIn5nPlus10Turns(run + more, env, s', id);
    TakeSchedule(run, more, base, k);
    TakeSchedule(run, more, base, |more|);
    assert more[..|more|] == more;
    TurnBetween(run, Schedule(more, base), id, k, |more|);
  }

  lemma {:induction false} FirstReliefComes(run: seq<Event>, more: seq<Event>, env: Env, id: ReqId, base: nat, k: nat)
    returns (j: nat)
    requires Plan(run, more, env, id, base) && k < |more|
    requires Exec(run + more[..k], env).Some? && Flushes(Exec(run + more[..k], env).value, id)
    ensures k <= j < |more| && Exec(run + more[..j], env).Some? && Relieves(Exec(run + more[..j], env).value, more[j], env)
    decreases |more| - k
  {
    hide Exec, Undisturbed, Unrefused, Apply, Sane, SlotFits, Relieves, Plan, Midway;
    var m := MidwayAt(run, more, env, id, base, k);
    ExecBefore(run, more, k + 1, env) by { PlanRuns(run, more, env, id, base); }
    assert run + more[..k + 1] == (run + more[..k]) + [more[k]];
    ExecStep(run + more[..k], more[k], env);
    var m' := Exec(run + more[..k + 1], env).value;
    OpenAndFiled(run, more, env, id, base, k + 1);
    if k + 1 < |more| && Flushes(m', id) {
      j := FirstReliefComes(run, more, env, id, base, k + 1);
    } else {
      j := k;
      ReachedSlot(run + more[..k], env, m, id);
      MidwayMeans(m, id);
      FlushEndsByRelief(m, more[k], id, env);
    }
  }

  lemma PlanRuns(run: seq<Event>, more: seq<Event>, env: Env, id: ReqId, base: nat)
    requires Plan(run, more, env, id, base)
    ensures Exec(run + more, env).Some?
  {
  }

  lemma MidwayMeans(s: State, id: ReqId)
    requires Midway(s, id)
    ensures Known(s, id) && SlotOf(s, id).open && id in s.desk.streams
  {
  }

  /** Its connection is open throughout, and it does not flush at the end. */
  lemma OpenAndFiled(run: seq<Event>, more: seq<Event>, env: Env, id: ReqId, base: nat, k: nat)
    requires Plan(run, more, env, id, base) && k <= |more|
    ensures Exec(run + more[..k], env).Some?
    ensures var m := Exec(run + more[..k], env).value;
            && Known(m, id) && SlotOf(m, id).open && id in m.desk.streams
            && (k == |more| ==> m.desk.streams[id].state == StreamState.Completed)
  {
    hide Exec, Undisturbed, Unrefused, Apply, Sane, SlotFits, Shows, EffectOf;
    if k < |more| {
      var m := MidwayAt(run, more, env, id, base, k);
    } else {
      assert more[..k] == more;
      var s' := CompletedAtEnd(run, more, env, id, base);
      if more == [] {
        assert run + more == run;
      } else {
        var m := MidwayAt(run, more, env, id, base, k - 1);
        var e := more[k - 1];
        assert run + more == (run + more[..k - 1]) + [e];
        ExecStep(run + more[..k - 1], e, env);
        ReachedSlot(run + more[..k - 1], env, m, id);
        CompletedByOpen(m, e, id, env);
      }
    }
  }

  lemma CompletedByOpen(s: State, e: Event, id: ReqId, env: Env)
    requires Basics(s) && Fits(s, id) && Wired(s.desk) && Enabled(s, e) && Midway(s, id)
    requires var s' := Apply(s, e, env);
             Known(s', id) && id in s'.desk.streams && s'.desk.streams[id].state == StreamState.Completed
    ensures SlotOf(Apply(s, e, env), id).open
  {
    hide Apply, Sane, Wired, Shows, AccountedSlot, Unrefused;
    FitsIsAccounted(SlotOf(s, id));
    EventShows(s, e, id, env);
    CompletionIsOpen(SlotOf(s, id), SlotOf(Apply(s, e, env), id), EffectOf(s, e, id, env), env);
  }

  lemma FitsIsAccounted(t: Slot)
    requires SlotFits(t)
    ensures AccountedSlot(t)
  {
  }

  lemma FirstNotRefused(run: seq<Event>, more: seq<Event>, env: Env, id: ReqId, base: nat, k: nat)
    requires Plan(run, more, env, id, base) && k < |more|
    ensures !(Refuses(more[k]) && more[k].id == id)
  {
    hide Exec, Undisturbed, Unrefused, Apply, SlotFits, Stepped;
    var m := MidwayAt(run, more, env, id, base, k);
    if Refuses(more[k]) && more[k].id == id {
      ExecBefore(run, more, k + 1, env);
      assert run + more[..k + 1] == (run + more[..k]) + [more[k]];
      ExecStep(run + more[..k], more[k], env);
      NowRefused(run, more, env, id, base, k, m);
    }
  }

  lemma NowRefused(run: seq<Event>, more: seq<Event>, env: Env, id: ReqId, base: nat, k: nat, m: State)
    requires Plan(run, more, env, id, base) && k < |more| && Exec(run + more[..k], env) == Some(m)
    requires Reached(run + more[..k], env, m, id) && SlotOf(m, id).open && Wired(m.desk) && Enabled(m, more[k])
    requires more[k].Work? && more[k].id == id && Exec(run + more[..k + 1], env) == Some(Apply(m, more[k], env))
    ensures more[k].a != StreamPost(false) && more[k].a != PostState(false)
  {
    hide Exec, Undisturbed, Unrefused, SlotFits, Stepped, Sane, Plan, Midway;
    ReachedSlot(run + more[..k], env, m, id);
    var m' := ApplyWork(m, id, more[k].a);
    LocalFacts(m, id);
    WorkSlot(m, id, more[k].a, id);
    OpenMeansAlive(m, id);
    UnrefusedNow(run, more, env, id, base, k + 1);
    if more[k].a == StreamPost(false) || more[k].a == PostState(false) {
      RefusalRefuses(SlotOf(m, id), more[k].a);
      assert false;
    }
  }

  lemma OpenMeansAlive(s: State, id: ReqId)
    requires Basics(s) && Known(s, id) && SlotOf(s, id).open
    ensures s.alive
  {
    assert Open(s, s.desk.responses[id].conn);
  }

  lemma UnrefusedNow(run: seq<Event>, more: seq<Event>, env: Env, id: ReqId, base: nat, k: nat)
    requires Plan(run, more, env, id, base) && k <= |more| && Exec(run + more[..k], env).Some?
    ensures var m := Exec(run + more[..k], env).value; Known(m, id) && Unrefused(SlotOf(m, id))
  {
    hide Exec, Undisturbed, Unrefused;
    if k < |more| {
      var m := MidwayAt(run, more, env, id, base, k);
    } else {
      assert more[..k] == more;
      var s' := CompletedAtEnd(run, more, env, id, base);
    }
  }

  // ---- its second part ----

  /** As at the end of the first part, but for some more connections. */
  ghost predicate OnlyMoreConns(s: State, s': State, bound: nat) {
    && s'.alive && s'.desk == s.desk && s'.workers == s.workers && s'.wakeups == s.wakeups
    && (forall c | c in s.conns :: c in s'.conns && s'.conns[c] == s.conns[c])
    && (forall c | c in s'.conns :: c < bound)
  }

  lemma {:induction false} LastPart(run: seq<Event>, more: seq<Event>, env: Env, id: ReqId, base: nat, k: nat)
    requires Plan(run, more, env, id, base) && |more| <= k
    ensures var f := Schedule(more, base);
            && Exec(run + Take(f, k), env).Some? && Undisturbed(run + Take(f, k), env, id)
            && OnlyMoreConns(Exec(run + more, env).value, Exec(run + Take(f, k), env).value, base + k)
    decreases k
  {
    hide Exec, Undisturbed, Unrefused, SlotFits, JustCompletes, OnlyMoreConns, Sane, Wired, Enabled, Apply, EarlyFor;
    var f := Schedule(more, base);
    var s' := CompletedAtEnd(run, more, env, id, base);
    if k == |more| {
      TakeSchedule(run, more, base, k);
      assert more[..k] == more;
      OpenAndFiled(run, more, env, id, base, k);
      RunsKeepBasics(run + more, env);
      OpenMeansAlive(s', id);
      NoMoreConns(s', base + k);
    } else {
      LastPart(run, more, env, id, base, k - 1);
      TakeMore(run, f, k - 1);
      ExecStep(run + Take(f, k - 1), f(k - 1), env);
      var m := Exec(run + Take(f, k - 1), env).value;
      RunsAreSane(run + Take(f, k - 1), env);
      SaneIsWired(m);
      OneMoreConn(s', m, base + k - 1, env);
      NotEarlyAccept(m, f(k - 1), id);
    }
  }

  lemma NoMoreConns(s: State, bound: nat)
    requires s.alive && forall c | c in s.conns :: c < bound
    ensures OnlyMoreConns(s, s, bound)
  {
  }

  lemma OneMoreConn(s: State, m: State, bound: nat, env: Env)
    requires OnlyMoreConns(s, m, bound) && Wired(m.desk)
    ensures Enabled(m, Accept(bound)) && OnlyMoreConns(s, Apply(m, Accept(bound), env), bound + 1)
  {
    hide Wired;
  }

  lemma NotEarlyAccept(s: State, e: Event, id: ReqId)
    requires e.Accept?
    ensures !EarlyFor(s, e, id)
  {
  }

  lemma ScheduleGoes(run: seq<Event>, more: seq<Event>, env: Env, id: ReqId, base: nat)
    requires Plan(run, more, env, id, base)
    ensures Goes(run, Schedule(more, base), env)
  {
    hide Exec, Plan;
    forall k: nat ensures Exec(run + Take(Schedule(more, base), k), env).Some? {
      if k <= |more| {
        PlanRuns(run, more, env, id, base);
        ExecBefore(run, more, k, env);
        TakeSchedule(run, more, base, k);
      } else {
        LastPart(run, more, env, id, base, k);
      }
    }
  }

  /** In the second part the stream is completed, its connection open, and nothing is left to do for it. */
  lemma LastState(run: seq<Event>, more: seq<Event>, env: Env, id: ReqId, base: nat, k: nat)
    requires Plan(run, more, env, id, base) && |more| <= k && Goes(run, Schedule(more, base), env)
    ensures var m := At(run, Schedule(more, base), env, k);
            && Known(m, id) && SlotOf(m, id).open && !CanTurn(m, id) && !Flushes(m, id)
            && m.workers == Exec(run + more, env).value.workers
  {
    hide Exec, Undisturbed, Unrefused, SlotFits, Plan, CanTurn, Flushes, Sane, Goes;
    LastPart(run, more, env, id, base, k);
    var s' := CompletedAtEnd(run, more, env, id, base);
    OpenAndFiled(run, more, env, id, base, |more|);
    assert more[..|more|] == more;
    var m := At(run, Schedule(more, base), env, k);
    AtIs(run, Schedule(more, base), env, k);
    SameSlice(s', m, id);
    RunsAreSane(run + Take(Schedule(more, base), k), env);
    ReachedSlot(run + more, env, s', id);
    SaneIsWired(m);
    CompletedIsStill(m, id);
  }

  lemma AtIs(run: seq<Event>, f: nat -> Event, env: Env, k: nat)
    requires Goes(run, f, env)
    ensures Exec(run + Take(f, k), env) == Some(At(run, f, env, k))
  {
  }

  lemma SaneIsWired(s: State)
    requires Sane(s)
    ensures Wired(s.desk)
  {
  }

  lemma ScheduleIsFair(run: seq<Event>, more: seq<Event>, env: Env, id: ReqId, base: nat)
    requires Plan(run, more, env, id, base) && Goes(run, Schedule(more, base), env)
    ensures Fair(run, Schedule(more, base), env, id)
  {
    hide Exec, Plan, CanTurn, Flushes, TurnComes, Relieves, Goes;
    var f := Schedule(more, base);
    forall k: nat | CanTurn(At(run, f, env, k), id) ensures TurnComes(f, k, id) {
      if k < |more| {
        FirstTurnsCome(run, more, env, id, base, k);
      } else {
        LastState(run, more, env, id, base, k);
      }
    }
    forall k: nat | Flushes(At(run, f, env, k), id) ensures ReliefComes(run, f, env, k) {
      if k < |more| {
        TakeSchedule(run, more, base, k);
        AtIs(run, f, env, k);
        var j := FirstReliefComes(run, more, env, id, base, k);
        TakeSchedule(run, more, base, j);
        AtIs(run, f, env, j);
        assert Relieves(At(run, f, env, j), f(j), env);
      } else {
        LastState(run, more, env, id, base, k);
      }
    }
  }

  lemma ScheduleSpares(run: seq<Event>, more: seq<Event>, env: Env, id: ReqId, base: nat, n: nat)
    requires Plan(run, more, env, id, base) && Goes(run, Schedule(more, base), env)
    requires id in Exec(run + more, env).value.workers && n == |Exec(run + more, env).value.workers[id].sent|
    ensures Spared(run, Schedule(more, base), env, id, n)
  {
    hide Exec, Plan, CanTurn, Flushes, Undisturbed, Goes, Refuses, Midway;
    var f := Schedule(more, base);
    forall k: nat ensures SparedAt(run, f, env, id, n, k) {
      AtIs(run, f, env, k);
      if k < |more| {
        TakeSchedule(run, more, base, k);
        var m := MidwayAt(run, more, env, id, base, k);
        MidwayMeans(m, id);
        FirstNotRefused(run, more, env, id, base, k);
      } else {
        LastPart(run, more, env, id, base, k);
        LastState(run, more, env, id, base, k);
        NotRefusing(f(k));
      }
    }
  }

  lemma NotRefusing(e: Event)
    requires e.Accept?
    ensures !Refuses(e)
  {
  }

  lemma Bound(conns: set<ConnId>) returns (base: nat)
    ensures forall c <- conns :: c < base
  {
    base := 0;
    if conns != {} {
      var c :| c in conns;
      var rest := Bound(conns - {c});
      base := if c < rest then rest else c + 1;
      assert conns == (conns - {c}) + {c};
    }
  }

  /** So the theorem on fair schedules is about something, wherever it starts. */
  lemma FairSchedulesExist(run: seq<Event>, env: Env, s: State, id: ReqId) returns (f: nat -> Event, n: nat)
    requires env.io > 0 && Reached(run, env, s, id) && SlotOf(s, id).open && Unrefused(SlotOf(s, id))
    ensures Goes(run, f, env) && Fair(run, f, env, id) && Spared(run, f, env, id, n)
  {
    hide Exec, Undisturbed, Unrefused, Goes, Fair, Spared;
    var whole, s' := EveryStreamCanFinish(run, env, s, id);
    assert Completes(run + whole, env, id);
    var k := CutToCompletion(run, whole, env, id);
    var more := whole[..k];
    assert (run + more) + whole[k..] == run + whole;
    UndisturbedBefore(run + more, whole[k..], env, id);
    var base := Bound(Exec(run + more, env).value.conns.Keys);
    var last := CompletedAtEnd(run, more, env, id, base);
    f, n := Schedule(more, base), |Exec(run + more, env).value.workers[id].sent|;
    ScheduleGoes(run, more, env, id, base);
    ScheduleIsFair(run, more, env, id, base);
    ScheduleSpares(run, more, env, id, base, n);
  }
}
