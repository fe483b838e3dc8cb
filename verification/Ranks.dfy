/**
 Why a stream comes to its end: its own steps and its connection's drains lower a rank that no
 event of others raises, and the turns its worker and the loop take for it are counted exactly.
 */
module Ranks {
  import opened Wrappers
  import opened Connections
  import opened AsyncStreams
  import opened AsyncResponses
  import opened Desks
  import opened Protocol
  import opened ProtocolShape
  import opened Slots
  import opened ProtocolInvariant
  import opened Fates
  import opened Progress
  import opened Histories

  /** The event is a step of this request: its worker's, its wakeup's, or its connection's. */
  predicate Belongs(s: State, e: Event, id: ReqId) {
    Issued(s, id) &&
    match e
    case Work(i, _) => i == id
    case DeliverWakeup(_, i) => i == id
    case DrainAndWrite(c, _) => c == s.desk.responses[id].conn
    case Poll(c, _) => c == s.desk.responses[id].conn
    case _ => false
  }

  /** No wakeup of this stream was refused. */
  predicate Unrefused(t: Slot) {
    Steady(t) && t.l.w.pc != StreamRefused && !t.l.w.pc.Refused? &&
    !(t.l.w.pc == Done && t.l.v.value.state == Start)
  }

  predicate Refuses(e: Event) {
    e.Work? && (e.a == StreamPost(false) || e.a == PostState(false))
  }

  // ---- the rank ----

  function ToGo(t: Slot, n: nat): nat
    requires Steady(t) && |t.l.w.sent| <= n
  {
    3 * n + 4 - ChangesTo(t.l.v.value.state, |t.l.w.sent|)
  }

  /** Steps of the worker before the next change of state. */
  function Phase(t: Slot): nat
    requires t.l.v.Some?
  {
    match t.l.w.pc
    case StreamMade => 3
    case StreamPosted => 2
    case StreamStored => 1
    case Waiting => if t.l.v.value.state == Empty then 2 else 0
    case Granted => 1
    case Stored(_) => 1
    case _ => 0
  }

  function ProducerLeft(k: Conn): nat {
    match k.producer
    case None => 0
    case Some(chunks) => |chunks| + 1
  }

  /** Fewer state changes to go, or as many and fewer worker steps before the next. */
  ghost predicate Ahead(t': Slot, t: Slot, n: nat)
    requires Steady(t) && Steady(t') && |t.l.w.sent| <= n && |t'.l.w.sent| <= n
  {
    ToGo(t', n) < ToGo(t, n) || (ToGo(t', n) == ToGo(t, n) && Phase(t') < Phase(t))
  }

  ghost predicate Level(t': Slot, t: Slot, n: nat)
    requires Steady(t) && Steady(t') && |t.l.w.sent| <= n && |t'.l.w.sent| <= n
  {
    ToGo(t', n) == ToGo(t, n) && Phase(t') == Phase(t)
  }

  /** Then fewer chunks of a synchronous stream on the connection, then fewer bytes to drain. */
  ghost predicate RankBelow(t': Slot, k': Conn, t: Slot, k: Conn, n: nat)
    requires Steady(t) && Steady(t') && |t.l.w.sent| <= n && |t'.l.w.sent| <= n
  {
    || Ahead(t', t, n)
    || (Level(t', t, n) && ProducerLeft(k') < ProducerLeft(k))
    || (Level(t', t, n) && ProducerLeft(k') == ProducerLeft(k) && k'.queued < k.queued)
  }

  lemma WorkLowersRank(t: Slot, a: Step, n: nat)
    requires t.open && OpenSlot(t) && Unrefused(t) && CanStep(t.l, a)
    requires a != StreamPost(false) && a != PostState(false)
    requires |Stepped(t, a, true).l.w.sent| <= n
    ensures Unrefused(Stepped(t, a, true)) && |t.l.w.sent| <= n && Ahead(Stepped(t, a, true), t, n)
  {
  }

  lemma WakeLowersRank(t: Slot, n: nat, env: Env)
    requires t.open && OpenSlot(t) && Unrefused(t) && t.posted > 0
    requires t.l.w.pc != StreamPosted && t.l.w.pc != StreamStored && |t.l.w.sent| <= n
    ensures t.inS || (t.inR && t.l.r.state == Streaming)
    ensures Unrefused(Wake(t, env)) && Wake(t, env).l.w == t.l.w && Ahead(Wake(t, env), t, n)
  {
  }

  /** A pump grants at most. */
  lemma PumpKeepsRank(t: Slot, queued: nat, q: nat, n: nat, env: Env)
    requires SlotFits(t) && Unrefused(t) && |t.l.w.sent| <= n
    ensures var t' := Pumped(t, queued, env).(queued := q); Unrefused(t') && (Ahead(t', t, n) || Level(t', t, n))
  {
  }

  lemma DrainedConn(k: Conn, m: nat, env: Env)
    requires 0 < m <= k.queued
    ensures var k' := PumpSync(Drain(k, m), env);
            ProducerLeft(k') < ProducerLeft(k) || (ProducerLeft(k') == ProducerLeft(k) && k'.queued < k.queued)
  {
  }

  /**
   Every step of an unrefused stream, and every drain of its connection, lowers the rank: state
   changes to go, worker steps before the next, chunks of a synchronous stream on the same connection,
   bytes to drain.
   */
  lemma RankFalls(run: seq<Event>, env: Env, s: State, e: Event, id: ReqId, n: nat)
    requires Reached(run, env, s, id) && SlotOf(s, id).open && Unrefused(SlotOf(s, id))
    requires Wired(s.desk) && Enabled(s, e) && !Early(s, e) && Belongs(s, e, id) && !e.Poll? && !Refuses(e)
    requires Known(Apply(s, e, env), id) && |Apply(s, e, env).workers[id].sent| <= n
    ensures var s', c := Apply(s, e, env), s.desk.responses[id].conn;
            && Unrefused(SlotOf(s', id)) && |s.workers[id].sent| <= n && c in s'.conns
            && RankBelow(SlotOf(s', id), s'.conns[c], SlotOf(s, id), s.conns[c], n)
  {
    ReachedSlot(run, env, s, id);
    assert s.alive by { assert Open(s, s.desk.responses[id].conn); }
    match e
    case Work(_, a) => WorkSlot(s, id, a, id); WorkLowersRank(SlotOf(s, id), a, n);
    case DeliverWakeup(c, _) => WakeFalls(s, c, id, n, env);
    case DrainAndWrite(c, m) => DrainFalls(s, c, m, id, n, env);
  }

  lemma WakeFalls(s: State, c: ConnId, id: ReqId, n: nat, env: Env)
    requires Basics(s) && Fits(s, id) && Wired(s.desk) && Open(s, c) && (c, id) in s.wakeups
    requires !Early(s, DeliverWakeup(c, id)) && Unrefused(SlotOf(s, id))
    requires Known(ApplyWakeup(s, c, id, env), id) && |ApplyWakeup(s, c, id, env).workers[id].sent| <= n
    ensures var t, t' := SlotOf(s, id), SlotOf(ApplyWakeup(s, c, id, env), id);
            Unrefused(t') && |t.l.w.sent| <= n && Ahead(t', t, n)
  {
    OpenWake(SlotOf(s, id), env);
    OwnWakeupSlot(s, c, id, env);
    assert ApplyWakeup(s, c, id, env).workers == s.workers;
    WakeLowersRank(SlotOf(s, id), n, env);
  }

  lemma DrainFalls(s: State, c: ConnId, m: nat, id: ReqId, n: nat, env: Env)
    requires Basics(s) && Fits(s, id) && Open(s, c) && 0 < m <= s.conns[c].queued
    requires s.desk.responses[id].conn == c && Unrefused(SlotOf(s, id)) && |s.workers[id].sent| <= n
    ensures var (d, k) := HandleWrite(s.desk, Drain(s.conns[c], m), env);
            var s' := SetLoop(s, c, d, k);
            Known(s', id) && Unrefused(SlotOf(s', id)) &&
            RankBelow(SlotOf(s', id), s'.conns[c], SlotOf(s, id), s.conns[c], n)
  {
    hide SlotFits, Unrefused, PumpSync;
    PumpSlot(s, c, m, id, env);
    DrainedConn(s.conns[c], m, env);
    var k := PumpSync(Drain(s.conns[c], m), env);
    PumpKeepsRank(SlotOf(s, id), k.queued, k.queued, n, env);
  }

  /**
   And no event of anybody else undoes that: whatever other requests, connections and polls do while
   the connection stays open, the state changes to go and the worker steps before the next do not rise.
   */
  lemma OthersDoNotRaise(run: seq<Event>, env: Env, s: State, e: Event, id: ReqId, n: nat)
    requires Reached(run, env, s, id) && Unrefused(SlotOf(s, id)) && |s.workers[id].sent| <= n
    requires Wired(s.desk) && Enabled(s, e) && (e.Poll? || !Belongs(s, e, id))
    requires Known(Apply(s, e, env), id) && SlotOf(Apply(s, e, env), id).open
    ensures var t, t' := SlotOf(s, id), SlotOf(Apply(s, e, env), id);
            Unrefused(t') && t'.l.w == t.l.w && (Ahead(t', t, n) || Level(t', t, n))
  {
    hide Exec, Undisturbed, Unrefused, Apply, Basics, SlotFits;
    ReachedSlot(run, env, s, id);
    NotOwn(s, e, id, env);
    OtherShows(run, env, s, e, id);
    OtherEffect(SlotOf(s, id), SlotOf(Apply(s, e, env), id), EffectOf(s, e, id, env), n, env);
  }

  lemma OtherShows(run: seq<Event>, env: Env, s: State, e: Event, id: ReqId)
    requires Reached(run, env, s, id) && Wired(s.desk) && Enabled(s, e) && !EarlyFor(s, e, id)
    ensures Known(Apply(s, e, env), id)
    ensures Shows(SlotOf(s, id), SlotOf(Apply(s, e, env), id), EffectOf(s, e, id, env), env)
  {
    ReachedSlot(run, env, s, id);
    EventShows(s, e, id, env);
  }

  lemma NotOwn(s: State, e: Event, id: ReqId, env: Env)
    requires Known(s, id) && Wired(s.desk) && Enabled(s, e) && (e.Poll? || !Belongs(s, e, id))
    ensures !EarlyFor(s, e, id) && !EffectOf(s, e, id, env).Own? && !EffectOf(s, e, id, env).Woken?
  {
  }

  lemma OtherEffect(t: Slot, t': Slot, f: Effect, n: nat, env: Env)
    requires SlotFits(t) && Unrefused(t) && |t.l.w.sent| <= n && t'.open
    requires Shows(t, t', f, env) && !f.Own? && !f.Woken?
    ensures Unrefused(t') && t'.l.w == t.l.w && (Ahead(t', t, n) || Level(t', t, n))
  {
    if f.Drained? { PumpKeepsRank(t, f.queued, t'.queued, n, env); }
  }

  // ---- turns ----

  /** Events that are a step of the request's worker or a wakeup handled for it. */
  predicate IsTurn(e: Event, id: ReqId) {
    (e.Work? && e.id == id) || (e.DeliverWakeup? && e.id == id)
  }

  function Turns(run: seq<Event>, id: ReqId): nat {
    if run == [] then 0 else Turns(run[..|run| - 1], id) + if IsTurn(run[|run| - 1], id) then 1 else 0
  }

  /**
   The turns behind a request that makes a stream: five to begin, five for each chunk, five to end.
   Inside stream(), and in wait() on the state it started in, something on the wire means one early wakeup.
   */
  function TurnsTo(t: Slot): nat {
    var n := |t.l.w.sent|;
    var state := if t.l.v.Some? then t.l.v.value.state else Start;
    match t.l.w.pc
    case StreamMade => 1
    case StreamPosted => if t.log == [] then 2 else 3
    case StreamStored => if t.log == [] then 3 else 4
    case Waiting =>
      if state == Start then (if t.log == [] then 4 else 5) else if state == HasData then 5 * n + 4 else 5 * n + 5
    case Granted => 5 * n + 6
    case Wrote(_) => 5 * n + 7
    case Stored(last) => if last then 5 * n + 8 else 5 * n + 3
    case Done => if state == Close then 5 * n + 9 else if state == StreamState.Completed then 5 * n + 10 else 5
    case _ => 0
  }

  lemma EffectCounts(t: Slot, t': Slot, f: Effect, env: Env)
    requires AccountedSlot(t) && Shows(t, t', f, env)
    requires f.Own? && t.open ==> f.alive
    requires f.Woken? ==> t.open
    requires Unrefused(t')
    ensures t.l.w.pc == Ready || Unrefused(t)
    ensures TurnsTo(t') == TurnsTo(t) + if f.Own? || f.Woken? then 1 else 0
  {
    hide SlotFits, MeetsSlot;
    if !SlotFits(t) {
      RacedCounts(t, t', f, env);
    } else if f.Own? {
      FitsOpenOrClosed(t);
      if t.open { OwnCounts(t, f.a); } else { ClosedIsUnsteady(t, f.a, f.alive); }
    } else if f.Woken? {
      WokenCounts(t, env);
    } else {
      RestCounts(t, t', f, env);
    }
  }

  lemma FitsOpenOrClosed(t: Slot)
    requires SlotFits(t)
    ensures if t.open then OpenSlot(t) else ClosedSlot(t)
  {
  }

  lemma RacedCounts(t: Slot, t': Slot, f: Effect, env: Env)
    requires MeetsSlot(t, Orphaned) || MeetsSlot(t, Muted)
    requires Shows(t, t', f, env) && Unrefused(t')
    ensures Unrefused(t) && TurnsTo(t') == TurnsTo(t) + if f.Own? || f.Woken? then 1 else 0
  {
  }

  lemma RestCounts(t: Slot, t': Slot, f: Effect, env: Env)
    requires SlotFits(t) && Shows(t, t', f, env) && Unrefused(t') && !f.Own? && !f.Woken?
    ensures Unrefused(t) && TurnsTo(t') == TurnsTo(t)
  {
  }

  lemma OwnCounts(t: Slot, a: Step)
    requires t.open && OpenSlot(t) && CanStep(t.l, a) && Unrefused(Stepped(t, a, true))
    ensures t.l.w.pc == Ready || Unrefused(t)
    ensures TurnsTo(Stepped(t, a, true)) == TurnsTo(t) + 1
  {
    hide StreamLog;
  }

  lemma ClosedIsUnsteady(t: Slot, a: Step, alive: bool)
    requires !t.open && ClosedSlot(t) && CanStep(t.l, a)
    ensures !Unrefused(Stepped(t, a, alive))
  {
    hide CutLog;
  }

  lemma WokenCounts(t: Slot, env: Env)
    requires t.open && SlotFits(t) && t.posted > 0
    requires t.inS || (t.inR && t.l.r.state == Streaming) ==> t.l.v.Some?
    requires Unrefused(Wake(t, env))
    ensures Unrefused(t) && TurnsTo(Wake(t, env)) == TurnsTo(t) + 1
  {
    hide StreamLog, Bytes;
  }

  lemma TurnIsEffect(s: State, e: Event, id: ReqId, env: Env)
    requires Sane(s) && Known(s, id) && Wired(s.desk) && Enabled(s, e)
    ensures var f := EffectOf(s, e, id, env);
            && (IsTurn(e, id) <==> f.Own? || f.Woken?)
            && (f.Woken? ==> SlotOf(s, id).open)
  {
  }

  lemma StepCountsTurns(s: State, e: Event, id: ReqId, env: Env)
    requires Basics(s) && Wired(s.desk) && Enabled(s, e) && Accounted(s, id)
    ensures Known(Apply(s, e, env), id)
    ensures var t, t' := SlotOf(s, id), SlotOf(Apply(s, e, env), id);
            && (Unrefused(t') ==> (t.l.w.pc == Ready || Unrefused(t)) &&
                                  TurnsTo(t') == TurnsTo(t) + if IsTurn(e, id) then 1 else 0)
            && (t'.l.w.pc == Ready ==> t.l.w.pc == Ready && !IsTurn(e, id))
  {
    hide Sane, ConnsFit, SlotOf, Apply, Shows, Unrefused, AccountedSlot, IsTurn, TurnsTo;
    EventShows(s, e, id, env);
    OwnIsAlive(s, e, id, env);
    TurnIsEffect(s, e, id, env);
    var t, t', f := SlotOf(s, id), SlotOf(Apply(s, e, env), id), EffectOf(s, e, id, env);
    if Unrefused(t') { EffectCounts(t, t', f, env); }
    if t'.l.w.pc == Ready { ReadyIsFresh(t, t', f, env); }
  }

  lemma ReadyIsFresh(t: Slot, t': Slot, f: Effect, env: Env)
    requires AccountedSlot(t) && Shows(t, t', f, env) && t'.l.w.pc == Ready
    requires f.Woken? ==> t.open
    ensures t.l.w.pc == Ready && !f.Own? && !f.Woken?
  {
  }

  /** So many turns were taken for a request, unless a refusal has stopped its stream. */
  ghost predicate Counted(s: State, id: ReqId, turns: nat) {
    if id in s.desk.responses then
      Known(s, id) && (SlotOf(s, id).l.w.pc == Ready || Unrefused(SlotOf(s, id)) ==> turns == TurnsTo(SlotOf(s, id)))
    else turns == 0
  }

  lemma StepKeepsCount(s: State, e: Event, id: ReqId, turns: nat, env: Env)
    requires Basics(s) && Wired(s.desk) && Enabled(s, e) && Counted(s, id, turns)
    requires id in s.desk.responses ==> Accounted(s, id)
    ensures Counted(Apply(s, e, env), id, turns + if IsTurn(e, id) then 1 else 0)
  {
    hide Sane, ConnsFit, AccountedSlot, Wired, Enabled, Unrefused, TurnsTo, SlotOf, IsTurn, Apply;
    if id in s.desk.responses {
      StepCountsTurns(s, e, id, env);
      ReadyHasNone(SlotOf(Apply(s, e, env), id));
      ReadyHasNone(SlotOf(s, id));
    } else {
      FirstTurn(s, e, id, env);
    }
  }

  /** Along every run the turns taken for a stream that no refusal has stopped are a function of where it stands. */
  lemma {:induction false} TurnsAreCounted(run: seq<Event>, env: Env, id: ReqId)
    requires Exec(run, env).Some?
    ensures Counted(Exec(run, env).value, id, Turns(run, id))
  {
    if run != [] {
      hide Basics, Accounted, Wired, Enabled, Counted, IsTurn, Apply;
      var s, e := ExecLast(run, env);
      TurnsAreCounted(run[..|run| - 1], env, id);
      RequestIsAccounted(run[..|run| - 1], env, s, id);
      StepKeepsCount(s, e, id, Turns(run[..|run| - 1], id), env);
    }
  }

  lemma ReadyHasNone(t: Slot)
    ensures t.l.w.pc == Ready ==> TurnsTo(t) == 0
  {
  }

  lemma FirstTurn(s: State, e: Event, id: ReqId, env: Env)
    requires Sane(s) && Wired(s.desk) && Enabled(s, e) && id !in s.desk.responses
    ensures !IsTurn(e, id)
    ensures id in Apply(s, e, env).desk.responses ==>
              Known(Apply(s, e, env), id) && SlotOf(Apply(s, e, env), id).l.w.pc == Ready &&
              TurnsTo(SlotOf(Apply(s, e, env), id)) == 0
  {
    NewcomerIsDispatched(s, e, id, env);
    if e.DispatchAsync? && id == s.desk.counter { DispatchSlot(s, e.c, id); }
  }

  /**
   A completed stream of n chunks took exactly 5n + 10 turns of its worker and of the loop, whatever
   else the server did meanwhile: no schedule can make it take more.
   */
  lemma CompletesIn5nPlus10Turns(run: seq<Event>, env: Env, s: State, id: ReqId)
    requires Exec(run, env) == Some(s) && Known(s, id)
    requires id in s.desk.streams && s.desk.streams[id].state == StreamState.Completed
    ensures Turns(run, id) == 5 * |CallsOf(run, id).chunks| + 10 && CallsOf(run, id).chunks == s.workers[id].sent
  {
    hide Exec, Undisturbed, CallsOf;
    BooksAreCalls(run, env, s, id);
    CompletedIsUndisturbed(run, env, s, id);
    ReachedSlot(run, env, s, id);
    TurnsAreCounted(run, env, id);
    CompletedSlot(SlotOf(s, id));
  }

  lemma CompletedSlot(t: Slot)
    requires SlotFits(t) && t.l.v.Some? && t.l.v.value.state == StreamState.Completed
    ensures Unrefused(t) && TurnsTo(t) == 5 * |t.l.w.sent| + 10
  {
  }
}
