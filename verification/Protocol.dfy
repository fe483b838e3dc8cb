/**
 The whole server as a step system: worker threads advance one store or one call at a time,
 the event loop runs one handler at a time, connections come, drain and go in any order.
 A run is any sequence of enabled events from the initial state.
 */
module Protocol {
  import opened Wrappers
  import opened Connections
  import opened AsyncStreams
  import opened AsyncResponses
  import opened Desks

  /** Where a worker stands in the one response it serves. */
  datatype Pc =
    | Ready                     // before res->send or res->stream
    | SendChecked(p: Payload)   // saw pending
    | SendWritten               // wrote the payload
    | SendPosted                // mg_wakeup succeeded, sending not yet stored
    | SendRefused               // mg_wakeup failed, failed not yet stored
    | StreamMade                // m_stream is set, nothing posted
    | StreamPosted              // mg_wakeup succeeded, streaming not yet stored
    | StreamRefused             // mg_wakeup failed, failed not yet stored
    | StreamStored              // streaming stored, m_stream not yet re-read
    | Waiting                   // in wait()
    | Granted                   // wait() returned true
    | Wrote(last: bool)         // m_data assigned by send, or cleared by close
    | Stored(last: bool)        // has_data or close stored, wakeup not yet posted
    | Refused(last: bool)       // mg_wakeup failed, failed not yet stored
    | Done

  /** asked and sent are what the worker passed to send(); they are for the proofs. */
  datatype Worker = Worker(pc: Pc, preamble: string, sent: seq<string>, asked: Option<Payload>)

  const NEW_WORKER := Worker(Ready, "", [], None)

  datatype State = State(
    alive: bool,
    desk: Desk,
    conns: map<ConnId, Conn>,
    wakeups: multiset<(ConnId, ReqId)>,
    workers: map<ReqId, Worker>)

  const INIT := State(true, NEW_DESK, map[], multiset{}, map[])

  // ---- one worker ----

  /** What a worker's steps touch: its own counter, response and, once made, stream. */
  datatype Local = Local(w: Worker, r: ResponseVal, v: Option<StreamVal>)

  /** ok is mg_wakeup's answer. */
  datatype Step =
    | SendCheck(p: Payload)
    | SendWrite
    | SendPost(ok: bool)
    | SendStore
    | StreamMake(preamble: string)
    | StreamPost(ok: bool)
    | StreamStore
    | StreamReturn
    | WaitReturn
    | WriteData(chunk: Option<string>)
    | StoreState
    | PostState(ok: bool)
    | StoreFailed

  predicate CanStep(l: Local, a: Step) {
    match a
    case SendCheck(_) => l.w.pc == Ready
    case SendWrite => l.w.pc.SendChecked?
    case SendPost(_) => l.w.pc == SendWritten
    case SendStore => l.w.pc == SendPosted || l.w.pc == SendRefused
    case StreamMake(preamble) => l.w.pc == Ready && preamble != ""
    case StreamPost(_) => l.w.pc == StreamMade
    case StreamStore => l.w.pc == StreamPosted || l.w.pc == StreamRefused
    case StreamReturn => l.w.pc == StreamStored
    case WaitReturn => l.w.pc == Waiting && l.v.Some? && WaitEnds(l.v.value.state)
    case WriteData(_) => l.w.pc == Granted && l.v.Some?
    case StoreState => l.w.pc.Wrote? && l.v.Some?
    case PostState(_) => l.w.pc.Stored? && l.v.Some?
    case StoreFailed => l.w.pc.Refused? && l.v.Some?
  }

  function Goto(l: Local, pc: Pc): Local {
    l.(w := l.w.(pc := pc))
  }

  /** send() and close() end here: a sender goes back to wait(), a closer is done. */
  function Next(last: bool): Pc {
    if last then Done else Waiting
  }

  function TakeStep(l: Local, a: Step, alive: bool): Local
    requires CanStep(l, a)
  {
    match a
    case SendCheck(p) =>
      if l.r.state != Pending then Goto(l, Done) else l.(w := l.w.(pc := SendChecked(p), asked := Some(p)))
    case SendWrite =>
      if alive then Goto(l, SendWritten).(r := l.r.(payload := l.w.pc.p)) else Goto(l, SendRefused)
    case SendPost(ok) => Goto(l, if ok then SendPosted else SendRefused)
    case SendStore =>
      Goto(l, Done).(r := l.r.(state := if l.w.pc == SendPosted then Sending else ResponseState.Failed))
    case StreamMake(preamble) =>
      if l.r.state != Pending then Goto(l, Done)
      else if !alive then Goto(l, Done).(r := l.r.(state := ResponseState.Failed))
      else Local(l.w.(pc := StreamMade, preamble := preamble), l.r.(hasStream := true),
                 Some(StreamVal(l.r.conn, preamble, Start)))
    case StreamPost(ok) => Goto(l, if ok then StreamPosted else StreamRefused)
    case StreamStore =>
      if l.w.pc == StreamPosted then Goto(l, StreamStored).(r := l.r.(state := Streaming))
      else Goto(l, Done).(r := l.r.(state := ResponseState.Failed))
    case StreamReturn => Goto(l, if l.r.hasStream then Waiting else Done)
    case WaitReturn => Goto(l, if l.v.value.state == Empty then Granted else Done)
    case WriteData(chunk) => Goto(l, Wrote(chunk.None?)).(v := Some(PutData(l.v.value, chunk)))
    case StoreState =>
      var last := l.w.pc.last;
      l.(w := l.w.(pc := Stored(last), sent := if last then l.w.sent else l.w.sent + [l.v.value.data]),
         v := Some(Announce(l.v.value, last)))
    case PostState(ok) => Goto(l, if alive && !ok then Refused(l.w.pc.last) else Next(l.w.pc.last))
    case StoreFailed => Goto(l, Next(l.w.pc.last)).(v := Some(Fault(l.v.value)))
  }

  /** mg_wakeup is reached only through a live manager, and may refuse. */
  predicate Posts(a: Step, alive: bool) {
    match a
    case SendPost(ok) => ok
    case StreamPost(ok) => ok
    case PostState(ok) => alive && ok
    case _ => false
  }

  // ---- the whole system ----

  datatype Event =
    | Accept(c: ConnId)
    | DispatchAsync(c: ConnId)
    | DispatchReply(c: ConnId, code: int, headers: string, text: string)
    | DispatchStream(c: ConnId, preamble: string, chunks: seq<string>)
    | DeliverWakeup(c: ConnId, id: ReqId)
    | DropWakeup(c: ConnId, id: ReqId)
    | DrainAndWrite(c: ConnId, n: nat)
    | Poll(c: ConnId, order: seq<ReqId>)
    | CloseConn(c: ConnId)
    | Expire
    | Work(id: ReqId, a: Step)

  predicate Open(s: State, c: ConnId) {
    c in s.conns && s.conns[c].open
  }

  predicate Issued(s: State, id: ReqId) {
    id in s.workers && id in s.desk.responses
  }

  function LocalOf(s: State, id: ReqId): Local
    requires Issued(s, id)
  {
    Local(s.workers[id], s.desk.responses[id], if id in s.desk.streams then Some(s.desk.streams[id]) else None)
  }

  ghost predicate Enabled(s: State, e: Event)
    requires Wired(s.desk)
  {
    match e
    case Accept(c) => s.alive && c !in s.conns
    case DispatchAsync(c) => Open(s, c)
    case DispatchReply(c, _, _, _) => Open(s, c)
    case DispatchStream(c, preamble, _) => Open(s, c) && preamble != ""
    case DeliverWakeup(c, id) => Open(s, c) && (c, id) in s.wakeups
    case DropWakeup(c, id) => !Open(s, c) && (c, id) in s.wakeups
    case DrainAndWrite(c, n) => Open(s, c) && 0 < n <= s.conns[c].queued
    case Poll(c, order) => Open(s, c) && Lists(order, Swept(s.desk, c))
    case CloseConn(c) => Open(s, c)
    case Expire => s.alive && forall c | c in s.conns :: !s.conns[c].open
    case Work(id, a) => Issued(s, id) && CanStep(LocalOf(s, id), a)
  }

  function SetLoop(s: State, c: ConnId, d: Desk, k: Conn): State {
    s.(desk := d, conns := s.conns[c := k])
  }

  function SetLocal(s: State, id: ReqId, l: Local): State {
    s.(workers := s.workers[id := l.w],
       desk := s.desk.(responses := s.desk.responses[id := l.r],
                       streams := if l.v.Some? then s.desk.streams[id := l.v.value] else s.desk.streams))
  }

  function Post(s: State, c: ConnId, id: ReqId): State {
    s.(wakeups := s.wakeups + multiset{(c, id)})
  }

  /** A worker's step: new values for its parts, and the wakeup it posted, if any. */
  function Commit(s: State, id: ReqId, l: Local, posts: bool): State {
    if posts then Post(SetLocal(s, id, l), l.r.conn, id) else SetLocal(s, id, l)
  }

  function ApplyWork(s: State, id: ReqId, a: Step): State
    requires Issued(s, id) && CanStep(LocalOf(s, id), a)
  {
    Commit(s, id, TakeStep(LocalOf(s, id), a, s.alive), Posts(a, s.alive))
  }

  function ApplyWakeup(s: State, c: ConnId, id: ReqId, env: Env): State
    requires Wired(s.desk) && Open(s, c)
  {
    var (d, k) := HandleWakeup(s.desk, c, id, s.conns[c], env);
    SetLoop(s, c, d, k).(wakeups := s.wakeups - multiset{(c, id)})
  }

  /** A request reaches an asynchronous listener, which hands its response to a new worker. */
  function Dispatch(s: State, c: ConnId): State
    requires Open(s, c)
  {
    SetLoop(s, c, Issue(s.desk, c), s.conns[c].(dispatched := s.conns[c].dispatched + 1))
    .(workers := s.workers[s.desk.counter := NEW_WORKER])
  }

  function Hangup(s: State, c: ConnId): State
    requires Open(s, c)
  {
    SetLoop(s, c, HandleClose(s.desk, c), s.conns[c].(open := false, producer := None))
  }

  function Apply(s: State, e: Event, env: Env): State
    requires Wired(s.desk) && Enabled(s, e)
  {
    match e
    case Accept(c) => s.(conns := s.conns[c := NEW_CONN])
    case DispatchAsync(c) => Dispatch(s, c)
    case DispatchReply(c, code, headers, text) =>
      SetLoop(s, c, s.desk,
              Write(s.conns[c], Direct, Reply(code, headers, text), env).(dispatched := s.conns[c].dispatched + 1))
    case DispatchStream(c, preamble, chunks) =>
      SetLoop(s, c, s.desk,
              StartSync(s.conns[c], preamble, chunks, env).(dispatched := s.conns[c].dispatched + 1))
    case DeliverWakeup(c, id) => ApplyWakeup(s, c, id, env)
    case DropWakeup(c, id) => s.(wakeups := s.wakeups - multiset{(c, id)})
    case DrainAndWrite(c, n) =>
      var (d, k) := HandleWrite(s.desk, Drain(s.conns[c], n), env);
      SetLoop(s, c, d, k)
    case Poll(c, order) =>
      var (d, k) := HandlePoll(s.desk, c, order, s.conns[c], env);
      SetLoop(s, c, d, k)
    case CloseConn(c) => Hangup(s, c)
    case Expire => s.(alive := false)
    case Work(id, a) => ApplyWork(s, id, a)
  }

  /**
   The loop handles a stream's first wakeup while its worker is still inside stream(): after
   mg_wakeup at line 64 of async_response.cpp and before m_stream is re-read at line 70.
   */
  predicate Early(s: State, e: Event) {
    e.DeliverWakeup? && e.id in s.workers && (s.workers[e.id].pc == StreamPosted || s.workers[e.id].pc == StreamStored)
  }

  predicate EarlyFor(s: State, e: Event, id: ReqId) {
    Early(s, e) && e.id == id
  }

  /** The state after a run from the start, if every event of it was enabled in turn. */
  ghost function Exec(run: seq<Event>, env: Env): Option<State>
    decreases |run|, 0
  {
    if run == [] then Some(INIT) else After(run[..|run| - 1], run[|run| - 1], env)
  }

  /** And after one more event. */
  ghost function After(run: seq<Event>, e: Event, env: Env): Option<State>
    decreases |run|, 1
  {
    var before := Exec(run, env);
    if before.Some? && Wired(before.value.desk) && Enabled(before.value, e) then Some(Apply(before.value, e, env))
    else None
  }

  lemma ExecLast(run: seq<Event>, env: Env) returns (s: State, e: Event)
    requires run != [] && Exec(run, env).Some?
    ensures Exec(run[..|run| - 1], env) == Some(s) && e == run[|run| - 1]
    ensures Wired(s.desk) && Enabled(s, e) && Exec(run, env) == Some(Apply(s, e, env))
  {
    s, e := Exec(run[..|run| - 1], env).value, run[|run| - 1];
  }

  /** A run that works and never handles a wakeup early. */
  ghost predicate Calm(run: seq<Event>, env: Env) {
    && Exec(run, env).Some?
    && (run == [] ||
        (Calm(run[..|run| - 1], env) && !Early(Exec(run[..|run| - 1], env).value, run[|run| - 1])))
  }

  /** A run that works and never handles a wakeup of this request early; others may be less lucky. */
  ghost predicate Undisturbed(run: seq<Event>, env: Env, id: ReqId) {
    && Exec(run, env).Some?
    && (run == [] ||
        (Undisturbed(run[..|run| - 1], env, id) && !EarlyFor(Exec(run[..|run| - 1], env).value, run[|run| - 1], id)))
  }

  lemma {:induction false} CalmIsUndisturbed(run: seq<Event>, env: Env, id: ReqId)
    requires Calm(run, env)
    ensures Undisturbed(run, env, id)
  {
    if run != [] {
      CalmIsUndisturbed(run[..|run| - 1], env, id);
    }
  }

  lemma ExecStep(run: seq<Event>, e: Event, env: Env)
    ensures Exec(run + [e], env) ==
            (if Exec(run, env).Some? && Wired(Exec(run, env).value.desk) && Enabled(Exec(run, env).value, e)
             then Some(Apply(Exec(run, env).value, e, env)) else None)
    ensures Calm(run + [e], env) <==>
            Calm(run, env) && Exec(run + [e], env).Some? && !Early(Exec(run, env).value, e)
    ensures forall id :: Undisturbed(run + [e], env, id) <==>
            Undisturbed(run, env, id) && Exec(run + [e], env).Some? && !EarlyFor(Exec(run, env).value, e, id)
  {
    assert (run + [e])[..|run|] == run;
  }
}
