/**
 Every fair schedule completes a stream. An endless continuation of a run is fair to a request if a
 turn of its worker, or a wakeup for it, that is enabled is not put off for ever, and if, while its
 stream waits for a drain, some drain that ends below the limit comes; whatever else the server does.
 */
module Fairness {
  import opened Connections
  import opened AsyncStreams
  import opened Desks
  import opened Protocol
  import opened ProtocolShape
  import opened Slots
  import opened ProtocolInvariant
  import opened Histories
  import opened Ranks
  import opened Liveness

  /** The first k events of an endless schedule. */
  function Take(f: nat -> Event, k: nat): seq<Event> {
    seq(k, i requires 0 <= i < k => f(i))
  }

  lemma TakeMore(run: seq<Event>, f: nat -> Event, k: nat)
    ensures run + Take(f, k + 1) == (run + Take(f, k)) + [f(k)]
    ensures run + Take(f, 0) == run
  {
  }

  ghost predicate Goes(run: seq<Event>, f: nat -> Event, env: Env) {
    forall k: nat :: Exec(run + Take(f, k), env).Some?
  }

  ghost function At(run: seq<Event>, f: nat -> Event, env: Env, k: nat): State
    requires Goes(run, f, env)
  {
    Exec(run + Take(f, k), env).value
  }

  // ---- fairness ----

  ghost predicate CanTurn(s: State, id: ReqId) {
    Wired(s.desk) && exists e :: IsTurn(e, id) && Enabled(s, e)
  }

  ghost predicate TurnComes(f: nat -> Event, k: nat, id: ReqId) {
    exists j: nat :: k <= j && IsTurn(f(j), id)
  }

  predicate Flushes(s: State, id: ReqId) {
    id in s.desk.streams && s.desk.streams[id].state == Flush
  }

  /** The drain, of whichever connection, leaves its buffer below the limit. */
  predicate Relieves(s: State, e: Event, env: Env) {
    e.DrainAndWrite? && Open(s, e.c) && e.n <= s.conns[e.c].queued && PumpSync(Drain(s.conns[e.c], e.n), env).queued < env.io
  }

  ghost predicate ReliefComes(run: seq<Event>, f: nat -> Event, env: Env, k: nat)
    requires Goes(run, f, env)
  {
    exists j: nat :: k <= j && Relieves(At(run, f, env, j), f(j), env)
  }

  ghost predicate Fair(run: seq<Event>, f: nat -> Event, env: Env, id: ReqId)
    requires Goes(run, f, env)
  {
    && (forall k: nat :: CanTurn(At(run, f, env, k), id) ==> TurnComes(f, k, id))
    && (forall k: nat :: Flushes(At(run, f, env, k), id) ==> ReliefComes(run, f, env, k))
  }

  /** Its connection stays open, it announces at most n chunks, and none of its wakeups is early or refused. */
  ghost predicate Spared(run: seq<Event>, f: nat -> Event, env: Env, id: ReqId, n: nat)
    requires Goes(run, f, env)
  {
    forall k: nat :: SparedAt(run, f, env, id, n, k)
  }

  ghost predicate SparedAt(run: seq<Event>, f: nat -> Event, env: Env, id: ReqId, n: nat, k: nat)
    requires Goes(run, f, env)
  {
    var s := At(run, f, env, k);
    && Undisturbed(run + Take(f, k), env, id) && Known(s, id) && SlotOf(s, id).open && |s.workers[id].sent| <= n
    && !(Refuses(f(k)) && f(k).id == id)
  }

  // ---- the schedule, step by step ----

  lemma NextAt(run: seq<Event>, f: nat -> Event, env: Env, k: nat)
    requires Goes(run, f, env)
    ensures var s := At(run, f, env, k);
            Wired(s.desk) && Enabled(s, f(k)) && At(run, f, env, k + 1) == Apply(s, f(k), env)
  {
    TakeMore(run, f, k);
    ExecStep(run + Take(f, k), f(k), env);
  }

  lemma NotEarly(run: seq<Event>, f: nat -> Event, env: Env, id: ReqId, n: nat, k: nat)
    requires Goes(run, f, env) && Spared(run, f, env, id, n)
    ensures !EarlyFor(At(run, f, env, k), f(k), id)
  {
    assert SparedAt(run, f, env, id, n, k) && SparedAt(run, f, env, id, n, k + 1);
    TakeMore(run, f, k);
    ExecStep(run + Take(f, k), f(k), env);
  }

  lemma ReachedAt(run: seq<Event>, f: nat -> Event, env: Env, id: ReqId, n: nat, k: nat)
    requires Goes(run, f, env) && Spared(run, f, env, id, n)
    ensures Reached(run + Take(f, k), env, At(run, f, env, k), id) && SlotOf(At(run, f, env, k), id).open
    ensures |At(run, f, env, k).workers[id].sent| <= n
  {
    assert SparedAt(run, f, env, id, n, k);
  }

  ghost predicate FreeAt(run: seq<Event>, f: nat -> Event, env: Env, id: ReqId, k: nat)
    requires Goes(run, f, env)
  {
    Known(At(run, f, env, k), id) && Unrefused(SlotOf(At(run, f, env, k), id))
  }

  lemma {:induction false} UnrefusedAt(run: seq<Event>, f: nat -> Event, env: Env, id: ReqId, n: nat, k: nat)
    requires Goes(run, f, env) && Spared(run, f, env, id, n) && FreeAt(run, f, env, id, 0)
    ensures FreeAt(run, f, env, id, k)
  {
    hide Goes, Spared, FreeAt;
    if k > 0 {
      UnrefusedAt(run, f, env, id, n, k - 1);
      UnrefusedNext(run, f, env, id, n, k - 1);
    }
  }

  lemma UnrefusedNext(run: seq<Event>, f: nat -> Event, env: Env, id: ReqId, n: nat, k: nat)
    requires Goes(run, f, env) && Spared(run, f, env, id, n) && FreeAt(run, f, env, id, k)
    ensures FreeAt(run, f, env, id, k + 1)
  {
    hide Exec, Goes, Spared, Undisturbed, Unrefused, Apply, Enabled, Wired, At, Refuses, SlotOf;
    ReachedAt(run, f, env, id, n, k);
    ReachedAt(run, f, env, id, n, k + 1);
    NotRefusedAt(run, f, env, id, n, k);
    NextAt(run, f, env, k);
    NotEarly(run, f, env, id, n, k);
    StaysUnrefused(run + Take(f, k), env, At(run, f, env, k), f(k), id);
  }

  lemma NotRefusedAt(run: seq<Event>, f: nat -> Event, env: Env, id: ReqId, n: nat, k: nat)
    requires Goes(run, f, env) && Spared(run, f, env, id, n)
    ensures !(Refuses(f(k)) && f(k).id == id)
  {
    assert SparedAt(run, f, env, id, n, k);
  }

  lemma StaysUnrefused(run: seq<Event>, env: Env, s: State, e: Event, id: ReqId)
    requires Reached(run, env, s, id) && SlotOf(s, id).open && Unrefused(SlotOf(s, id))
    requires Wired(s.desk) && Enabled(s, e) && !EarlyFor(s, e, id) && !(Refuses(e) && e.id == id)
    requires Known(Apply(s, e, env), id) && SlotOf(Apply(s, e, env), id).open
    ensures Unrefused(SlotOf(Apply(s, e, env), id))
  {
    hide Exec, Undisturbed, Unrefused, Apply, Enabled, Wired;
    var n := |Apply(s, e, env).workers[id].sent| + |s.workers[id].sent|;
    if Belongs(s, e, id) && !e.Poll? {
      RankFalls(run, env, s, e, id, n);
    } else {
      OthersDoNotRaise(run, env, s, e, id, n);
    }
  }

  // ---- turns ----

  lemma TurnsStep(run: seq<Event>, f: nat -> Event, id: ReqId, k: nat)
    ensures Turns(run + Take(f, k + 1), id) == Turns(run + Take(f, k), id) + if IsTurn(f(k), id) then 1 else 0
  {
    TakeMore(run, f, k);
    assert ((run + Take(f, k)) + [f(k)])[..|run + Take(f, k)|] == run + Take(f, k);
  }

  lemma {:induction false} TurnsGrow(run: seq<Event>, f: nat -> Event, id: ReqId, k: nat, j: nat)
    requires k <= j
    ensures Turns(run + Take(f, k), id) <= Turns(run + Take(f, j), id)
    decreases j - k
  {
    if k < j {
      TurnsGrow(run, f, id, k, j - 1);
      TurnsStep(run, f, id, j - 1);
    }
  }

  lemma TurnsAreFew(t: Slot)
    requires SlotFits(t) && Unrefused(t)
    ensures TurnsTo(t) <= 5 * |t.l.w.sent| + 10
  {
  }

  lemma TurnsBound(run: seq<Event>, f: nat -> Event, env: Env, id: ReqId, n: nat, k: nat)
    requires Goes(run, f, env) && Spared(run, f, env, id, n)
    requires FreeAt(run, f, env, id, k)
    ensures Turns(run + Take(f, k), id) <= 5 * n + 10
  {
    hide Undisturbed, Unrefused, TurnsTo, SlotFits;
    ReachedAt(run, f, env, id, n, k);
    ReachedSlot(run + Take(f, k), env, At(run, f, env, k), id);
    TurnsAreCounted(run + Take(f, k), env, id);
    TurnsAreFew(SlotOf(At(run, f, env, k), id));
  }

  // ---- somebody can move ----

  /** Its worker or a wakeup can take a turn, or its stream waits for a drain. */
  lemma TurnOrFlush(run: seq<Event>, env: Env, s: State, id: ReqId)
    requires env.io > 0 && Reached(run, env, s, id) && SlotOf(s, id).open && Unrefused(SlotOf(s, id))
    requires id in s.desk.streams && s.desk.streams[id].state != StreamState.Completed
    ensures CanTurn(s, id) || Flushes(s, id)
  {
    hide Exec, Undisturbed, Unrefused, WorkerStep, CanStep, InsideStream, SlotFits;
    ReachedSlot(run, env, s, id);
    NoStreamIsStranded(run, env, s, id);
    var t, c := SlotOf(s, id), s.desk.responses[id].conn;
    LocalFacts(s, id);
    WorkerCanStep(t);
    WhatBlocks(t);
    if WorkerStep(t).Some? {
      assert IsTurn(Work(id, WorkerStep(t).value), id) && Enabled(s, Work(id, WorkerStep(t).value));
    } else if t.posted > 0 {
      assert IsTurn(DeliverWakeup(c, id), id) && Enabled(s, DeliverWakeup(c, id));
    }
  }

  lemma RelievedSlot(t: Slot, queued: nat, q: nat, env: Env)
    requires queued < env.io && t.l.v.Some?
    requires OpenSlot(Pumped(t, queued, env).(queued := q))
    ensures Pumped(t, queued, env).l.v.value.state != Flush
  {
  }

  lemma Relieved(run: seq<Event>, env: Env, s: State, e: Event, id: ReqId)
    requires Sane(s) && Known(s, id) && id in s.desk.streams && Wired(s.desk) && Enabled(s, e) && Relieves(s, e, env)
    requires Reached(run, env, Apply(s, e, env), id) && SlotOf(Apply(s, e, env), id).open
    ensures id in Apply(s, e, env).desk.streams && !Flushes(Apply(s, e, env), id)
  {
    hide Exec, Undisturbed, OpenSlot, ClosedSlot, PumpSync;
    ReachedSlot(run, env, Apply(s, e, env), id);
    PumpSlot(s, e.c, e.n, id, env);
    RelievedSlot(SlotOf(s, id), PumpSync(Drain(s.conns[e.c], e.n), env).queued, SlotOf(Apply(s, e, env), id).queued, env);
  }

  // ---- every fair schedule completes ----

  ghost predicate DoneAt(run: seq<Event>, f: nat -> Event, env: Env, id: ReqId, k: nat)
    requires Goes(run, f, env)
  {
    var s := At(run, f, env, k);
    id in s.desk.streams && s.desk.streams[id].state == StreamState.Completed
  }

  /** What the theorem asks of a schedule. */
  ghost predicate Good(run: seq<Event>, f: nat -> Event, env: Env, id: ReqId, n: nat) {
    && env.io > 0 && Goes(run, f, env) && Fair(run, f, env, id) && Spared(run, f, env, id, n)
    && FreeAt(run, f, env, id, 0)
  }

  lemma WhereItStands(run: seq<Event>, f: nat -> Event, env: Env, id: ReqId, n: nat, k: nat)
    requires Good(run, f, env, id, n)
    ensures Turns(run + Take(f, k), id) <= 5 * n + 10
    ensures DoneAt(run, f, env, id, k) || CanTurn(At(run, f, env, k), id) || Flushes(At(run, f, env, k), id)
  {
    hide Goes, Fair, Spared, Unrefused, At, CanTurn, Flushes, Undisturbed, Exec;
    UnrefusedAt(run, f, env, id, n, k);
    TurnsBound(run, f, env, id, n, k);
    ReachedAt(run, f, env, id, n, k);
    if !DoneAt(run, f, env, id, k) {
      MadeIsFiled(At(run, f, env, k), id);
      TurnOrFlush(run + Take(f, k), env, At(run, f, env, k), id);
    }
  }

  lemma MadeIsFiled(s: State, id: ReqId)
    requires Known(s, id) && Unrefused(SlotOf(s, id))
    ensures id in s.desk.streams
  {
  }

  /** Unless it is completed by then, a turn comes after any time. */
  lemma TurnAfter(run: seq<Event>, f: nat -> Event, env: Env, id: ReqId, n: nat, k: nat) returns (j: nat)
    requires Good(run, f, env, id, n)
    ensures k <= j && (DoneAt(run, f, env, id, j) || IsTurn(f(j), id))
  {
    hide Goes, Spared, Unrefused, At, CanTurn, Flushes, Relieves, IsTurn, DoneAt;
    WhereItStands(run, f, env, id, n, k);
    if DoneAt(run, f, env, id, k) {
      j := k;
    } else if CanTurn(At(run, f, env, k), id) {
      assert TurnComes(f, k, id);
      j :| k <= j && IsTurn(f(j), id);
    } else {
      assert ReliefComes(run, f, env, k);
      var i: nat :| k <= i && Relieves(At(run, f, env, i), f(i), env);
      NotFlushingAfter(run, f, env, id, n, i);
      WhereItStands(run, f, env, id, n, i + 1);
      if DoneAt(run, f, env, id, i + 1) {
        j := i + 1;
      } else {
        assert TurnComes(f, i + 1, id);
        j :| i + 1 <= j && IsTurn(f(j), id);
      }
    }
  }

  lemma NotFlushingAfter(run: seq<Event>, f: nat -> Event, env: Env, id: ReqId, n: nat, i: nat)
    requires Good(run, f, env, id, n) && Relieves(At(run, f, env, i), f(i), env)
    ensures !Flushes(At(run, f, env, i + 1), id)
  {
    hide Goes, Fair, Spared, Unrefused, At, Flushes, Relieves, Undisturbed, Exec, Apply, Sane, Wired, Enabled;
    UnrefusedAt(run, f, env, id, n, i);
    MadeIsFiled(At(run, f, env, i), id);
    ReachedAt(run, f, env, id, n, i);
    ReachedAt(run, f, env, id, n, i + 1);
    NextAt(run, f, env, i);
    RunsAreSane(run + Take(f, i), env);
    Relieved(run + Take(f, i + 1), env, At(run, f, env, i), f(i), id);
  }

  lemma {:induction false} DoneAfter(run: seq<Event>, f: nat -> Event, env: Env, id: ReqId, n: nat, k: nat)
    returns (j: nat)
    requires Good(run, f, env, id, n)
    ensures DoneAt(run, f, env, id, j)
    decreases 5 * n + 10 - Turns(run + Take(f, k), id)
  {
    hide Goes, Fair, Spared, Unrefused, DoneAt, IsTurn;
    j := TurnAfter(run, f, env, id, n, k);
    if !DoneAt(run, f, env, id, j) {
      TurnsGrow(run, f, id, k, j);
      TurnsStep(run, f, id, j);
      WhereItStands(run, f, env, id, n, k);
      WhereItStands(run, f, env, id, n, j + 1);
      j := DoneAfter(run, f, env, id, n, j + 1);
    }
  }

  /**
   Every endless continuation that is fair to an unrefused stream, keeps its connection open, and lets its
   worker announce no more than n chunks, completes it, at the latest with turn 5n + 10.
   */
  lemma FairRunsComplete(run: seq<Event>, f: nat -> Event, env: Env, s: State, id: ReqId, n: nat) returns (k: nat)
    requires env.io > 0 && Reached(run, env, s, id) && Unrefused(SlotOf(s, id))
    requires Goes(run, f, env) && Fair(run, f, env, id) && Spared(run, f, env, id, n)
    ensures Completes(run + Take(f, k), env, id)
    ensures Turns(run + Take(f, k), id) == 5 * |CallsOf(run + Take(f, k), id).chunks| + 10 <= 5 * n + 10
  {
    hide CallsOf;
    hide Goes, Fair, Spared, Undisturbed, Unrefused;
    TakeMore(run, f, 0);
    k := DoneAfter(run, f, env, id, n, 0);
    ReachedAt(run, f, env, id, n, k);
    CompletesIn5nPlus10Turns(run + Take(f, k), env, At(run, f, env, k), id);
  }
}
