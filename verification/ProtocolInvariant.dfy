/**
 The protocol's invariant, request by request: what the shared objects, the maps, the wakeup
 queue and the wire look like at every point of a worker's program, on an open connection
 and after its end. It holds of a request in every state of every run that did not handle that
 request's own wakeup early.
 */
module ProtocolInvariant {
  import opened Wrappers
  import opened Connections
  import opened AsyncStreams
  import opened AsyncResponses
  import opened Desks
  import opened Protocol
  import opened ProtocolShape
  import opened Slots

  function ReplyOf(p: Payload): Body {
    Reply(p.code, p.headers, p.body)
  }

  /** The chunks announced before the last one. */
  function Earlier(sent: seq<string>): seq<string>
    requires sent != []
  {
    sent[..|sent| - 1]
  }

  // ---- on an open connection ----

  /** Still as registered: pending, nothing posted, nothing written. */
  predicate Untouched(t: Slot) {
    t.inR && !t.inS && t.l.r.state == Pending && t.posted == 0 && t.log == []
  }

  predicate AnswerQueued(t: Slot, state: ResponseState) {
    t.inR && !t.inS && t.l.r.state == state && t.posted == 1 && t.log == []
  }

  predicate Answered(t: Slot) {
    !t.inR && !t.inS && t.posted == 0 && t.log == [ReplyOf(t.l.r.payload)]
  }

  predicate SendDone(t: Slot) {
    t.l.v.None? && t.l.w.asked == Some(t.l.r.payload)
  }

  predicate Born(t: Slot) {
    t.l.w.preamble != "" && t.l.w.sent == [] && t.l.r.hasStream && t.l.r.payload == NO_PAYLOAD &&
    t.l.w.asked.None? && t.l.v == Some(StreamVal(t.l.r.conn, t.l.w.preamble, Start))
  }

  /** streaming is stored, its wakeup is queued, the loop has not looked yet. */
  predicate Announced(t: Slot) {
    Born(t) && t.inR && !t.inS && t.l.r.state == Streaming && t.posted == 1 && t.log == []
  }

  predicate InLoop(t: Slot) {
    !t.inR && t.inS && t.l.v.Some? && t.l.w.preamble != ""
  }

  predicate UpToDate(t: Slot) {
    t.log == StreamLog(t.l.w.preamble, t.l.w.sent)
  }

  predicate OneBehind(t: Slot) {
    t.l.w.sent != [] && t.log == StreamLog(t.l.w.preamble, Earlier(t.l.w.sent))
  }

  /** A chunk is in the cell and not yet on the wire. */
  predicate Carrying(t: Slot) {
    OneBehind(t) && t.l.v.Some? && t.l.v.value.data == t.l.w.sent[|t.l.w.sent| - 1]
  }

  predicate Streamed(t: Slot) {
    !t.inR && !t.inS && t.posted == 0 && t.l.v.Some? && t.l.v.value.state == StreamState.Completed &&
    t.l.w.preamble != "" && t.log == StreamLog(t.l.w.preamble, t.l.w.sent) + [End]
  }

  /** The worker gave up on a refused wakeup; the stream stays filed until the connection closes. */
  predicate GaveUp(t: Slot) {
    InLoop(t) && t.l.v.value.state == StreamState.Failed && t.posted == 0 && (UpToDate(t) || OneBehind(t))
  }

  predicate WaitingSlot(t: Slot) {
    Announced(t) || GaveUp(t) ||
    (InLoop(t) &&
     match t.l.v.value.state
     case HasData => t.posted == 1 && Carrying(t)
     case Flush => t.posted == 0 && UpToDate(t)
     case Empty => t.posted == 0 && UpToDate(t)
     case _ => false)
  }

  predicate HandingOver(t: Slot, last: bool) {
    InLoop(t) && t.posted == 0 &&
    if last then t.l.v.value.state == Close && UpToDate(t) else t.l.v.value.state == HasData && Carrying(t)
  }

  /** The response is failed: a poll will answer for it, or has. */
  predicate Unsendable(t: Slot) {
    !t.inS && t.l.r.state == ResponseState.Failed && t.posted == 0 && (t.l.v.Some? ==> t.l.v.value.state == Start)
  }

  predicate DoneSlot(t: Slot) {
    || (SendDone(t) && AnswerQueued(t, Sending))
    || (SendDone(t) && Answered(t) && t.l.r.state != ResponseState.Failed)
    || (Unsendable(t) && t.inR && t.log == [])
    || (Unsendable(t) && !t.inR && t.log == [SERVER_ERROR])
    || (InLoop(t) && t.l.v.value.state == Close && t.posted == 1 && UpToDate(t))
    || Streamed(t)
    || GaveUp(t)
  }

  predicate OpenSlot(t: Slot) {
    match t.l.w.pc
    case Ready => Untouched(t) && t.l.v.None? && t.l.w.sent == [] && t.l.w.asked.None? && t.l.r.payload == NO_PAYLOAD
    case SendChecked(p) => Untouched(t) && t.l.v.None? && t.l.w.asked == Some(p)
    case SendWritten => Untouched(t) && SendDone(t)
    case SendRefused => Untouched(t) && t.l.v.None?
    case SendPosted => SendDone(t) && (AnswerQueued(t, Pending) || Answered(t))
    case StreamMade => Untouched(t) && Born(t)
    case StreamPosted => AnswerQueued(t, Pending) && Born(t)
    case StreamRefused => Untouched(t) && Born(t)
    case StreamStored => Announced(t)
    case Waiting => WaitingSlot(t)
    case Granted => InLoop(t) && t.l.v.value.state == Empty && t.posted == 0 && UpToDate(t)
    case Wrote(_) => InLoop(t) && t.l.v.value.state == Empty && t.posted == 0 && UpToDate(t)
    case Stored(last) => HandingOver(t, last)
    case Refused(last) => HandingOver(t, last)
    case Done => DoneSlot(t)
  }

  // ---- after the connection is gone ----

  /** Whatever the wire got: nothing, one reply, or a stream cut at some point. */
  ghost predicate CutLog(t: Slot) {
    || t.log == []
    || t.log == [SERVER_ERROR]
    || (t.log == [ReplyOf(t.l.r.payload)] && SendDone(t) && (t.l.w.pc == SendPosted || t.l.w.pc == Done))
    || (t.l.v.Some? && t.log <= StreamLog(t.l.w.preamble, t.l.w.sent))
    || (t.l.v.Some? && t.l.v.value.state == StreamState.Completed)
  }

  ghost predicate ClosedSlot(t: Slot) {
    && !t.inR && !t.inS
    && CutLog(t)
    && (InsideStream(t.l.w.pc) ==> t.l.v.Some?)
    && (t.l.v.Some? && t.l.v.value.state == StreamState.Completed ==>
          t.l.w.pc == Done && t.l.w.preamble != "" && t.log == StreamLog(t.l.w.preamble, t.l.w.sent) + [End])
    && match t.l.w.pc
       case Ready => t.l.r.state == ResponseState.Failed && t.log == [] && t.l.v.None?
       case SendChecked(_) => t.l.v.None? && t.log == []
       case SendWritten => t.l.v.None? && t.log == []
       case SendPosted => t.l.v.None?
       case StreamMade => t.l.v.value.state == Start && t.log == [] && t.l.r.hasStream
       case StreamPosted => t.l.v.value.state == Start && t.log == [] && t.l.r.hasStream
       case StreamRefused => t.l.v.value.state == Start && t.log == []
       case StreamStored => t.l.v.value.state == Start && t.log == [] && t.l.r.hasStream
       case Waiting => t.l.v.value.state == StreamState.Failed || t.l.v.value.state == Start || t.l.v.value.state == HasData
       case Granted => t.l.v.value.state == StreamState.Failed
       case Wrote(_) => t.l.v.value.state == StreamState.Failed
       case Stored(last) => t.l.v.value.state == StreamState.Failed || t.l.v.value.state == (if last then Close else HasData)
       case Refused(last) => t.l.v.value.state == StreamState.Failed || t.l.v.value.state == (if last then Close else HasData)
       case _ => true
  }

  ghost predicate SlotFits(t: Slot) {
    if t.open then OpenSlot(t) else ClosedSlot(t)
  }

  // ---- each event keeps it ----

  lemma StreamLogExtends(preamble: string, sent: seq<string>, c: string)
    ensures StreamLog(preamble, sent) <= StreamLog(preamble, sent + [c])
    ensures Earlier(sent + [c]) == sent
  {
    StreamLogAppend(preamble, sent, c);
  }

  /** The steps of wait(), send and close of a stream. */
  lemma OpenLoopStep(t: Slot, a: Step)
    requires t.open && OpenSlot(t) && CanStep(t.l, a)
    requires t.l.w.pc.Waiting? || t.l.w.pc.Granted? || t.l.w.pc.Wrote? || t.l.w.pc.Stored? || t.l.w.pc.Refused?
    ensures OpenSlot(Stepped(t, a, true))
  {
    if a == StoreState {
      StreamLogExtends(t.l.w.preamble, t.l.w.sent, t.l.v.value.data);
    }
  }

  lemma OpenStep(t: Slot, a: Step)
    requires t.open && OpenSlot(t) && CanStep(t.l, a)
    ensures OpenSlot(Stepped(t, a, true))
  {
    if t.l.w.pc.Waiting? || t.l.w.pc.Granted? || t.l.w.pc.Wrote? || t.l.w.pc.Stored? || t.l.w.pc.Refused? {
      OpenLoopStep(t, a);
    }
  }

  lemma ClosedStep(t: Slot, a: Step, alive: bool)
    requires !t.open && ClosedSlot(t) && CanStep(t.l, a)
    ensures ClosedSlot(Stepped(t, a, alive))
  {
    if a == StoreState {
      StreamLogExtends(t.l.w.preamble, t.l.w.sent, t.l.v.value.data);
    }
  }

  lemma StepFits(t: Slot, a: Step, alive: bool)
    requires SlotFits(t) && CanStep(t.l, a) && (t.open ==> alive)
    ensures SlotFits(Stepped(t, a, alive)) && Stepped(t, a, alive).open == t.open
  {
    if t.open { OpenStep(t, a); } else { ClosedStep(t, a, alive); }
  }

  /** Handled in time, a wakeup always finds what it is for. */
  lemma OpenWake(t: Slot, env: Env)
    requires t.open && OpenSlot(t) && t.posted > 0
    requires t.l.w.pc != StreamPosted && t.l.w.pc != StreamStored
    ensures t.inS || t.inR
    ensures t.inS || (t.inR && t.l.r.state == Streaming) ==> t.l.v.Some?
    ensures OpenSlot(Wake(t, env)) && Wake(t, env).open
  {
    var sent := t.l.w.sent;
    if InLoop(t) && t.l.v.value.state == HasData {
      assert sent == Earlier(sent) + [sent[|sent| - 1]];
      StreamLogAppend(t.l.w.preamble, Earlier(sent), sent[|sent| - 1]);
    } else if Announced(t) {
      assert StreamLog(t.l.w.preamble, []) == [Preamble(t.l.w.preamble)];
    }
  }

  /** A pump at most grants. */
  lemma OpenPump(t: Slot, queued: nat, q: nat, env: Env)
    requires t.open && OpenSlot(t)
    ensures OpenSlot(Pumped(t, queued, env).(queued := q))
  {
  }

  lemma OpenPoll(t: Slot, queued: nat)
    requires t.open && OpenSlot(t) && t.inR && t.l.r.state == ResponseState.Failed
    ensures OpenSlot(t.(inR := false, log := t.log + [SERVER_ERROR], queued := queued))
  {
  }

  /** The length of the buffer is no part of it. */
  lemma AnyQueued(t: Slot, queued: nat)
    requires SlotFits(t)
    ensures SlotFits(t.(queued := queued))
  {
  }

  lemma ClosingSlot(t: Slot)
    requires t.open && OpenSlot(t)
    ensures ClosedSlot(Closed(t))
  {
    var sent := t.l.w.sent;
    if sent != [] {
      assert Earlier(sent) + [sent[|sent| - 1]] == sent;
      StreamLogExtends(t.l.w.preamble, Earlier(sent), sent[|sent| - 1]);
    }
  }

  // ---- one request of a state ----

  ghost predicate Fits(s: State, id: ReqId) {
    Known(s, id) && SlotFits(SlotOf(s, id))
  }

  /** While a connection is open the manager is alive. */
  ghost predicate ConnsFit(s: State) {
    forall c | Open(s, c) :: s.alive
  }

  /** What every run keeps, disturbed or not. */
  ghost predicate Basics(s: State) {
    Sane(s) && ConnsFit(s)
  }

  lemma StepKeepsConns(s: State, e: Event, env: Env)
    requires ConnsFit(s) && Wired(s.desk) && Enabled(s, e)
    ensures ConnsFit(Apply(s, e, env))
  {
    hide Wired, ReplyErrors, HandleWakeup, HandleClose, PumpSync, TakeStep;
    if !e.Accept? && !e.Expire? {
      forall c | Open(Apply(s, e, env), c) ensures s.alive {
        assert Open(s, c) || Open(s, e.c);
      }
    }
  }

  lemma StepKeepsBasics(s: State, e: Event, env: Env)
    requires Basics(s) && Wired(s.desk) && Enabled(s, e)
    ensures Basics(Apply(s, e, env))
  {
    hide Apply, Sane, ConnsFit, Enabled, Wired;
    StepKeepsSane(s, e, env);
    StepKeepsConns(s, e, env);
  }

  // ---- each event keeps it ----

  lemma WorkKeepsSlot(s: State, i: ReqId, a: Step, id: ReqId)
    requires Basics(s) && Issued(s, i) && CanStep(LocalOf(s, i), a) && Fits(s, id)
    ensures Fits(ApplyWork(s, i, a), id)
  {
    hide SlotFits, CanStep, Sane, Stepped, TakeStep;
    WorkSlot(s, i, a, id);
    LocalFacts(s, id);
    if i == id {
      assert SlotOf(s, id).open ==> s.alive by { assert SlotOf(s, id).open ==> Open(s, s.desk.responses[id].conn); }
      StepFits(SlotOf(s, id), a, s.alive);
    }
  }

  lemma DispatchKeepsSlot(s: State, c: ConnId, id: ReqId)
    requires Sane(s) && Open(s, c) && (id == s.desk.counter || Fits(s, id))
    ensures Fits(Dispatch(s, c), id)
  {
    DispatchSlot(s, c, id);
  }

  lemma DirectKeepsSlot(s: State, c: ConnId, k: Conn, id: ReqId)
    requires Sane(s) && Open(s, c) && Fits(s, id)
    requires k.open && s.conns[c].wire <= k.wire && k.queued >= s.conns[c].queued
    requires forall i | |s.conns[c].wire| <= i < |k.wire| :: k.wire[i].owner == Direct
    ensures Fits(SetLoop(s, c, s.desk, k), id)
  {
    DirectSlot(s, c, k, id);
    AnyQueued(SlotOf(s, id), SlotOf(SetLoop(s, c, s.desk, k), id).queued);
  }

  lemma WakeupKeepsSlot(s: State, c: ConnId, i: ReqId, id: ReqId, env: Env)
    requires Sane(s) && Wired(s.desk) && Open(s, c) && (c, i) in s.wakeups && Fits(s, id)
    requires !EarlyFor(s, DeliverWakeup(c, i), id)
    ensures Fits(ApplyWakeup(s, c, i, env), id)
  {
    if i == id {
      OpenWake(SlotOf(s, id), env);
      OwnWakeupSlot(s, c, id, env);
    } else {
      OtherWakeupSlot(s, c, i, id, env);
      AnyQueued(SlotOf(s, id), SlotOf(ApplyWakeup(s, c, i, env), id).queued);
    }
  }

  lemma PumpKeepsSlot(s: State, c: ConnId, n: nat, id: ReqId, env: Env)
    requires Sane(s) && Open(s, c) && n <= s.conns[c].queued && Fits(s, id)
    ensures var (d, k) := HandleWrite(s.desk, Drain(s.conns[c], n), env);
            Fits(SetLoop(s, c, d, k), id)
  {
    PumpSlot(s, c, n, id, env);
    var t, k := SlotOf(s, id), PumpSync(Drain(s.conns[c], n), env);
    if t.open { OpenPump(t, k.queued, if t.l.r.conn == c then k.queued else t.queued, env); }
  }

  lemma PollKeepsSlot(s: State, c: ConnId, order: seq<ReqId>, id: ReqId, env: Env)
    requires Sane(s) && Wired(s.desk) && Open(s, c) && Lists(order, Swept(s.desk, c)) && Fits(s, id)
    ensures var (d, k) := HandlePoll(s.desk, c, order, s.conns[c], env);
            Fits(SetLoop(s, c, d, k), id)
  {
    hide OpenSlot, ClosedSlot, ReplyErrors;
    PollSlot(s, c, order, id, env);
    var k := ReplyErrors(s.conns[c], order, env);
    var t, queued := SlotOf(s, id), SlotOf(SetLoop(s, c, HandlePoll(s.desk, c, order, s.conns[c], env).0, k), id).queued;
    if t.open && t.inR && t.l.r.state == ResponseState.Failed && t.l.r.conn == c {
      OpenPoll(t, queued);
    } else {
      AnyQueued(t, queued);
    }
  }

  lemma CloseKeepsSlot(s: State, c: ConnId, id: ReqId)
    requires Sane(s) && Open(s, c) && Fits(s, id)
    ensures Fits(Hangup(s, c), id)
  {
    CloseSlot(s, c, id);
    if s.desk.responses[id].conn == c { ClosingSlot(SlotOf(s, id)); }
  }

  lemma DropKeepsSlot(s: State, c: ConnId, i: ReqId, id: ReqId)
    requires Sane(s) && !Open(s, c) && (c, i) in s.wakeups && Fits(s, id)
    ensures Fits(s.(wakeups := s.wakeups - multiset{(c, i)}), id)
  {
    DropSlot(s, c, i, id);
  }

  /** Every event keeps a request's slice fitting, but for an early wakeup of that very request. */
  lemma StepKeepsSlot(s: State, e: Event, id: ReqId, env: Env)
    requires Basics(s) && Wired(s.desk) && Enabled(s, e) && !EarlyFor(s, e, id)
    requires id in s.desk.responses ==> Fits(s, id)
    ensures id in Apply(s, e, env).desk.responses ==> Fits(Apply(s, e, env), id)
  {
    hide SlotFits, IdsFit, BooksFit, WakeupsFit, WiresFit, ConnsFit, EarlyFor;
    if id in s.desk.responses {
      match e
      case Work(i, a) => WorkKeepsSlot(s, i, a, id);
      case DispatchAsync(c) => DispatchKeepsSlot(s, c, id);
      case DeliverWakeup(c, i) => WakeupKeepsSlot(s, c, i, id, env);
      case DrainAndWrite(c, n) => PumpKeepsSlot(s, c, n, id, env);
      case Poll(c, order) => PollKeepsSlot(s, c, order, id, env);
      case CloseConn(c) => CloseKeepsSlot(s, c, id);
      case DropWakeup(c, i) => DropKeepsSlot(s, c, i, id);
      case Accept(c) => SameSlice(s, Apply(s, e, env), id);
      case Expire => SameSlice(s, Apply(s, e, env), id);
      case _ => SyncKeepsSlot(s, e, id, env);
    } else {
      NewcomerIsDispatched(s, e, id, env);
      if e.DispatchAsync? && id == s.desk.counter { DispatchKeepsSlot(s, e.c, id); }
    }
  }

  lemma SyncKeepsSlot(s: State, e: Event, id: ReqId, env: Env)
    requires Sane(s) && Wired(s.desk) && Enabled(s, e) && (e.DispatchReply? || e.DispatchStream?) && Fits(s, id)
    ensures Fits(Apply(s, e, env), id)
  {
    hide SlotFits, Sane;
    var k := Apply(s, e, env).conns[e.c];
    DirectKeepsSlot(s, e.c, k, id);
    assert Apply(s, e, env) == SetLoop(s, e.c, s.desk, k);
  }

  /** Only a dispatch brings a new id, the next one. */
  lemma NewcomerIsDispatched(s: State, e: Event, id: ReqId, env: Env)
    requires Sane(s) && Wired(s.desk) && Enabled(s, e) && id !in s.desk.responses
    ensures id !in s.desk.streams
    ensures id in Apply(s, e, env).desk.responses ==> e.DispatchAsync? && id == s.desk.counter
    ensures id !in Apply(s, e, env).desk.streams
  {
    hide HandleWakeup, TakeStep, ReplyErrors, WakeupsFit, WiresFit, BooksFit;
    if e.DeliverWakeup? { WakeupEffect(s.desk, e.c, e.id, s.conns[e.c], env); }
  }

  // ---- every run ----

  /** Every state of every run. */
  lemma {:induction false} RunsKeepBasics(run: seq<Event>, env: Env)
    requires Exec(run, env).Some?
    ensures Basics(Exec(run, env).value)
  {
    if run != [] {
      hide Apply, Basics, Enabled, Wired;
      var s, e := ExecLast(run, env);
      RunsKeepBasics(run[..|run| - 1], env);
      StepKeepsBasics(s, e, env);
    }
  }

  /** Every state of a run that did not disturb the request. */
  lemma {:induction false} UndisturbedRunsFit(run: seq<Event>, env: Env, id: ReqId)
    requires Undisturbed(run, env, id)
    ensures var s := Exec(run, env).value; Basics(s) && (id in s.desk.responses ==> Fits(s, id))
  {
    if run != [] {
      hide Apply, Basics, Fits, Enabled, Wired, EarlyFor;
      var s, e := ExecLast(run, env);
      UndisturbedRunsFit(run[..|run| - 1], env, id);
      RunsKeepBasics(run, env);
      StepKeepsSlot(s, e, id, env);
    }
  }

  /** A request in a state that some run reaches without disturbing it. */
  ghost predicate Reached(run: seq<Event>, env: Env, s: State, id: ReqId) {
    Undisturbed(run, env, id) && Exec(run, env) == Some(s) && Known(s, id)
  }

  lemma ReachedSlot(run: seq<Event>, env: Env, s: State, id: ReqId)
    requires Reached(run, env, s, id)
    ensures Basics(s) && SlotFits(SlotOf(s, id))
  {
    UndisturbedRunsFit(run, env, id);
  }

  // ---- all requests at once ----

  ghost predicate Inv(s: State) {
    Basics(s) && forall id | id in s.desk.responses :: Fits(s, id)
  }

  lemma StepKeepsInv(s: State, e: Event, env: Env)
    requires Inv(s) && Wired(s.desk) && Enabled(s, e) && !Early(s, e)
    ensures Inv(Apply(s, e, env))
  {
    hide Apply, Basics, Fits, Enabled, Wired;
    StepKeepsBasics(s, e, env);
    forall id | id in Apply(s, e, env).desk.responses ensures Fits(Apply(s, e, env), id) {
      StepKeepsSlot(s, e, id, env);
    }
  }

  /** Every state of every calm run. */
  lemma {:induction false} CalmRunsKeepInv(run: seq<Event>, env: Env)
    requires Calm(run, env)
    ensures Inv(Exec(run, env).value)
  {
    if run != [] {
      hide Apply, Inv, Enabled, Wired, Early;
      var s, e := ExecLast(run, env);
      CalmRunsKeepInv(run[..|run| - 1], env);
      StepKeepsInv(s, e, env);
    }
  }
}
