/**
 What the close of a connection means for a worker, wherever it stands in its program: if it is ever
 in wait() after the close, wait() returns false or never returns.
 */
module Closing {
  import opened Wrappers
  import opened Connections
  import opened AsyncStreams
  import opened AsyncResponses
  import opened Desks
  import opened Protocol
  import opened ProtocolShape
  import opened Slots
  import opened Fates

  /** The worker's hand-over met a live manager that refused its wakeup. */
  ghost predicate RefusedAlive(base: seq<Event>, more: seq<Event>, env: Env, id: ReqId)
    decreases |more|
  {
    more != [] &&
    var init, e := more[..|more| - 1], more[|more| - 1];
    RefusedAlive(base, init, env, id) || Refusal(Exec(base + init, env), e, id)
  }

  predicate Refusal(before: Option<State>, e: Event, id: ReqId) {
    e == Work(id, PostState(false)) && before.Some? && before.value.alive
  }

  /** How the close finds a stream: not made, not filed, its worker between wait() and the store, or filed otherwise. */
  datatype Hold = Unmade | Unfiled | Owned | Filed

  function HoldOf(t: Slot): Hold {
    if t.l.v.None? then Unmade
    else if !t.inS then Unfiled else if t.l.w.pc.Granted? || t.l.w.pc.Wrote? then Owned else Filed
  }

  /** What the close leaves, and what the worker's own steps make of it. */
  predicate Left(l: Local, hold: Hold, refused: bool) {
    if hold == Unmade then
      l.v.None? && !InsideStream(l.w.pc) && (l.w.pc == Ready ==> l.r.state == ResponseState.Failed)
    else
      l.v.Some? && LeftStream(l.w.pc, l.v.value.state, hold, refused)
  }

  predicate LeftStream(pc: Pc, state: StreamState, hold: Hold, refused: bool) {
    match hold
    case Unmade => false
    case Unfiled =>
      pc == Done ||
      (state == Start && (pc == StreamMade || pc == StreamPosted || pc == StreamRefused || pc == StreamStored ||
                          pc == Waiting))
    case Filed =>
      state == StreamState.Failed &&
      (pc == StreamStored || pc == Waiting || pc.Stored? || pc.Refused? || pc == Done)
    case Owned =>
      match pc
      case Granted => !refused
      case Wrote(_) => !refused
      case Stored(last) => !refused && state == (if last then Close else HasData)
      case Refused(_) => refused
      case Waiting => state == if refused then StreamState.Failed else HasData
      case Done => true
      case _ => false
  }

  lemma CloseLeaves(t: Slot)
    requires t.open && AccountedSlot(t)
    ensures Left(Closed(t).l, HoldOf(t), false)
  {
  }

  lemma StepLeaves(l: Local, hold: Hold, refused: bool, a: Step, alive: bool)
    requires Left(l, hold, refused) && CanStep(l, a)
    ensures Left(TakeStep(l, a, alive), hold, refused || (a == PostState(false) && alive))
  {
  }

  /** In wait(), that is decided. */
  lemma LeftInWait(t: Slot, hold: Hold, refused: bool)
    requires !t.open && Left(t.l, hold, refused) && t.l.w.pc == Waiting
    ensures hold != Unmade
    ensures StuckSlot(t) <==> hold == Unfiled || (hold == Owned && !refused)
    ensures DeadSlot(t) <==> !StuckSlot(t)
  {
  }

  lemma StillLeft(s: State, e: Event, id: ReqId, hold: Hold, refused: bool, env: Env)
    requires Sane(s) && Wired(s.desk) && Enabled(s, e) && Known(s, id) && !SlotOf(s, id).open
    requires Left(SlotOf(s, id).l, hold, refused)
    ensures var s' := Apply(s, e, env);
            Known(s', id) && !SlotOf(s', id).open &&
            Left(SlotOf(s', id).l, hold, refused || Refusal(Some(s), e, id))
  {
    hide Left, Sane, Wired, Apply, TakeStep;
    if e.Work? {
      if e.id == id {
        WorkSlot(s, id, e.a, id);
        LocalFacts(s, id);
        StepLeaves(SlotOf(s, id).l, hold, refused, e.a, s.alive);
      } else {
        WorkSlot(s, e.id, e.a, id);
      }
      WorkIsApplied(s, e, env);
    } else {
      ClosedEvent(s, e, id, env);
    }
  }

  lemma WorkIsApplied(s: State, e: Event, env: Env)
    requires Wired(s.desk) && Enabled(s, e) && e.Work?
    ensures Apply(s, e, env) == ApplyWork(s, e.id, e.a) && Apply(s, e, env).conns == s.conns
  {
  }

  lemma {:induction false} LeftAfterwards(run: seq<Event>, c: ConnId, more: seq<Event>, env: Env,
                                          s: State, s': State, id: ReqId)
    requires Exec(run, env) == Some(s) && Known(s, id) && Open(s, c) && s.desk.responses[id].conn == c
    requires Exec(run + [CloseConn(c)] + more, env) == Some(s')
    ensures Known(s', id) && !SlotOf(s', id).open
    ensures Left(SlotOf(s', id).l, HoldOf(SlotOf(s, id)), RefusedAlive(run + [CloseConn(c)], more, env, id))
    decreases |more|
  {
    hide Exec, Apply, Left, Sane, Wired, Enabled, HoldOf, Accounted;
    var base := run + [CloseConn(c)];
    RequestIsAccounted(run, env, s, id);
    if more == [] {
      assert base + more == base;
      ExecStep(run, CloseConn(c), env);
      ClosedNow(s, c, id, env);
    } else {
      var init, e := more[..|more| - 1], more[|more| - 1];
      assert base + more == (base + init) + [e];
      ExecStep(base + init, e, env);
      var m := Exec(base + init, env).value;
      LeftAfterwards(run, c, init, env, s, m, id);
      RunsAreSane(base + init, env);
      StillLeft(m, e, id, HoldOf(SlotOf(s, id)), RefusedAlive(base, init, env, id), env);
    }
  }

  lemma ClosedNow(s: State, c: ConnId, id: ReqId, env: Env)
    requires Sane(s) && Accounted(s, id) && Wired(s.desk) && Enabled(s, CloseConn(c))
    requires s.desk.responses[id].conn == c
    ensures var s' := Apply(s, CloseConn(c), env);
            Known(s', id) && !SlotOf(s', id).open && Left(SlotOf(s', id).l, HoldOf(SlotOf(s, id)), false)
  {
    hide Left, HoldOf, AccountedSlot, IdsFit, BooksFit, WakeupsFit, WiresFit;
    CloseSlot(s, c, id);
    CloseLeaves(SlotOf(s, id));
  }

  /**
   Wherever the close of its connection finds a worker, and whatever happens afterwards: if the worker
   is ever in wait() then, either wait() can only return false or it never returns.
   It never returns if and only if the stream was not filed at the close, or its worker stood between
   wait() and the store and the wakeup of that hand-over was not refused through a live manager.
   */
  lemma CloseDecides(run: seq<Event>, c: ConnId, more: seq<Event>, env: Env, s: State, s': State, id: ReqId)
    requires Exec(run, env) == Some(s) && Known(s, id) && Open(s, c) && s.desk.responses[id].conn == c
    requires Exec(run + [CloseConn(c)] + more, env) == Some(s')
    requires id in s'.workers && s'.workers[id].pc == Waiting
    ensures Dead(s', id) <==> !Stuck(s', id)
    ensures Stuck(s', id) <==>
            || id !in s.desk.pendingStreams
            || ((s.workers[id].pc.Granted? || s.workers[id].pc.Wrote?) &&
                !RefusedAlive(run + [CloseConn(c)], more, env, id))
  {
    hide Exec, Left, RefusedAlive;
    LeftAfterwards(run, c, more, env, s, s', id);
    var refused := RefusedAlive(run + [CloseConn(c)], more, env, id);
    LeftInWait(SlotOf(s', id), HoldOf(SlotOf(s, id)), refused);
  }

  /** In particular for a worker that is in wait() at the close itself. */
  lemma CloseReleasesIffPromoted(run: seq<Event>, env: Env, s: State, c: ConnId, id: ReqId)
    requires Exec(run, env) == Some(s) && Known(s, id) && Open(s, c)
    requires s.desk.responses[id].conn == c && s.workers[id].pc == Waiting
    ensures Dead(Hangup(s, c), id) <==> id in s.desk.pendingStreams
    ensures Stuck(Hangup(s, c), id) <==> id !in s.desk.pendingStreams
  {
    hide Exec, Sane, Wired, RefusedAlive, StuckSlot, DeadSlot;
    HungUpNow(run, env, s, c);
    CloseDecides(run, c, [], env, s, Hangup(s, c), id);
  }

  lemma HungUpNow(run: seq<Event>, env: Env, s: State, c: ConnId)
    requires Exec(run, env) == Some(s) && Open(s, c)
    ensures Exec(run + [CloseConn(c)] + [], env) == Some(Hangup(s, c))
  {
    RunsAreSane(run, env);
    ExecStep(run, CloseConn(c), env);
    assert run + [CloseConn(c)] + [] == run + [CloseConn(c)];
  }

  /**
   A worker that had not called anything when its connection closed never gets anywhere: in every
   continuation its response is failed, its send or stream changes nothing, and it makes no stream.
   */
  lemma CloseSilencesUnbegun(run: seq<Event>, c: ConnId, more: seq<Event>, env: Env, s: State, s': State, id: ReqId)
    requires Exec(run, env) == Some(s) && Known(s, id) && Open(s, c)
    requires s.desk.responses[id].conn == c && s.workers[id].pc == Ready
    requires Exec(run + [CloseConn(c)] + more, env) == Some(s')
    ensures Known(s', id) && (s'.workers[id].pc == Ready || s'.workers[id].pc == Done)
    ensures s'.desk.responses[id].state == ResponseState.Failed
    ensures id !in s'.desk.streams && s'.workers[id].asked.None?
  {
    hide Exec, Sane, Wired, Accounted;
    RequestIsAccounted(run, env, s, id);
    HungUpNow(run, env, s, c);
    assert run + [CloseConn(c)] + [] == run + [CloseConn(c)];
    UnbegunNow(s, c, id);
    FateIsFinal(run + [CloseConn(c)], more, env, Hangup(s, c), s', id, Unbegun);
  }

  lemma UnbegunNow(s: State, c: ConnId, id: ReqId)
    requires Sane(s) && Accounted(s, id) && Open(s, c) && s.desk.responses[id].conn == c && s.workers[id].pc == Ready
    ensures Meets(Hangup(s, c), id, Unbegun)
  {
    hide IdsFit, BooksFit, WakeupsFit, WiresFit;
    CloseSlot(s, c, id);
  }

  // ---- the connection itself ----

  lemma StaysClosed(s: State, e: Event, c: ConnId, env: Env)
    requires Sane(s) && Wired(s.desk) && Enabled(s, e) && c in s.conns && !s.conns[c].open
    ensures c in Apply(s, e, env).conns && !Apply(s, e, env).conns[c].open
    ensures Apply(s, e, env).conns[c].wire == s.conns[c].wire
  {
    hide HandleWakeup, HandleClose, ReplyErrors, TakeStep, Wired, Sane;
  }

  /** A closed connection stays closed, gets nothing more on its wire, and never has anything pending again. */
  lemma {:induction false} ClosedForGood(run: seq<Event>, more: seq<Event>, env: Env, s: State, s': State, c: ConnId)
    requires Exec(run, env) == Some(s) && Exec(run + more, env) == Some(s') && c in s.conns && !s.conns[c].open
    ensures c in s'.conns && !s'.conns[c].open && s'.conns[c].wire == s.conns[c].wire
    ensures forall id | id in s'.desk.pendingResponses :: s'.desk.pendingResponses[id] != c
    ensures forall id | id in s'.desk.pendingStreams :: s'.desk.pendingStreams[id] != c
    decreases |more|
  {
    hide Exec, Apply, Wired, Enabled;
    RunsAreSane(run + more, env);
    if more == [] {
      assert run + more == run;
    } else {
      var init, e := more[..|more| - 1], more[|more| - 1];
      assert run + more == (run + init) + [e];
      ExecStep(run + init, e, env);
      var m := Exec(run + init, env).value;
      ClosedForGood(run, init, env, s, m, c);
      RunsAreSane(run + init, env);
      StaysClosed(m, e, c, env);
    }
  }
}
