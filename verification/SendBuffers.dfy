/**
 The send buffer of a connection along a run: every byte written is drained once or still there, a
 drain grants exactly the streams that wait for one, and dispatches are counted as they come.
 */
module SendBuffers {
  import opened Wrappers
  import opened Connections
  import opened AsyncStreams
  import opened AsyncResponses
  import opened Desks
  import opened Protocol
  import opened ProtocolShape
  import opened ProtocolTheorems

  // ---- what the events say ----

  function Dispatches(e: Event, c: ConnId): nat {
    match e
    case DispatchAsync(c') => if c' == c then 1 else 0
    case DispatchReply(c', _, _, _) => if c' == c then 1 else 0
    case DispatchStream(c', _, _) => if c' == c then 1 else 0
    case _ => 0
  }

  /** The requests of a connection that a run dispatched. */
  function DispatchesOn(run: seq<Event>, c: ConnId): nat {
    if run == [] then 0 else DispatchesOn(run[..|run| - 1], c) + Dispatches(run[|run| - 1], c)
  }

  /** The bytes a run drained from a connection. */
  function Drained(run: seq<Event>, c: ConnId): nat {
    if run == [] then 0
    else
      match run[|run| - 1]
      case DrainAndWrite(c', n) => Drained(run[..|run| - 1], c) + if c' == c then n else 0
      case _ => Drained(run[..|run| - 1], c)
  }

  // ---- bytes ----

  /** The bytes of everything ever written on a connection. */
  function BytesWritten(k: Conn, env: Env): nat {
    |Render(Bodies(k.wire), env)|
  }

  /** Whatever was added to the wire was added to the buffer. */
  predicate Buffered(k: Conn, k': Conn, env: Env) {
    k'.queued + BytesWritten(k, env) == k.queued + BytesWritten(k', env)
  }

  lemma WriteBuffers(k: Conn, owner: Owner, body: Body, env: Env)
    ensures Buffered(k, Write(k, owner, body, env), env)
    ensures BytesWritten(Write(k, owner, body, env), env) == BytesWritten(k, env) + |Bytes(body, env)|
  {
    hide Bytes;
    assert Bodies(k.wire + [Item(owner, body)]) == Bodies(k.wire) + [body];
    RenderAppend(Bodies(k.wire), body, env);
  }

  lemma StreamBuffers(d: Desk, c: ConnId, id: ReqId, k: Conn, env: Env)
    requires Wired(d)
    ensures Buffered(k, HandleStream(d, c, id, k, env).2, env)
  {
    hide Write, BytesWritten;
    if Has(d.pendingStreams, c, id) {
      var b := Served(d.streams[id]).1;
      if b.Some? { WriteBuffers(k, Request(id), b.value, env); }
    }
  }

  lemma ResponseBuffers(d: Desk, c: ConnId, id: ReqId, k: Conn, env: Env)
    requires Wired(d)
    ensures Buffered(k, HandleResponse(d, c, id, k, env).2, env)
  {
    hide Write, BytesWritten, HandleStream;
    WriteBuffers(k, Nobody, SERVER_ERROR, env);
    if Has(d.pendingResponses, c, id) {
      var r := d.responses[id];
      if r.state == Streaming { StreamBuffers(Promote(d, c, id), c, id, k, env); }
      WriteBuffers(k, Request(id), Reply(r.payload.code, r.payload.headers, r.payload.body), env);
    }
  }

  lemma WakeupBuffers(d: Desk, c: ConnId, id: ReqId, k: Conn, env: Env)
    requires Wired(d)
    ensures Buffered(k, HandleWakeup(d, c, id, k, env).1, env)
  {
    hide Write, BytesWritten, HandleStream, HandleResponse;
    StreamBuffers(d, c, id, k, env);
    ResponseBuffers(d, c, id, k, env);
    WriteBuffers(HandleResponse(d, c, id, k, env).2, Nobody, SERVER_ERROR, env);
  }

  lemma {:induction false} ErrorsBuffer(k: Conn, order: seq<ReqId>, env: Env)
    ensures Buffered(k, ReplyErrors(k, order, env), env)
  {
    hide Write, BytesWritten;
    if order != [] {
      var n := |order| - 1;
      ErrorsBuffer(k, order[..n], env);
      WriteBuffers(ReplyErrors(k, order[..n], env), Request(order[n]), SERVER_ERROR, env);
    }
  }

  lemma PumpBuffers(k: Conn, env: Env)
    ensures Buffered(k, PumpSync(k, env), env)
  {
    if k.producer.Some? {
      hide BytesWritten, Bytes;
      var b := if k.producer.value == [] then End else Chunk(k.producer.value[0]);
      WriteBuffers(k, Direct, b, env);
      SameBytes(Write(k, Direct, b, env), PumpSync(k, env), env);
    }
  }

  lemma SameBytes(k: Conn, k': Conn, env: Env)
    ensures k'.wire == k.wire ==> BytesWritten(k', env) == BytesWritten(k, env)
  {
  }

  lemma StepBuffers(s: State, e: Event, c: ConnId, env: Env)
    requires Wired(s.desk) && Enabled(s, e) && c in s.conns
    ensures c in Apply(s, e, env).conns
    ensures var k, k' := s.conns[c], Apply(s, e, env).conns[c];
            k'.queued + BytesWritten(k, env) + (if e.DrainAndWrite? && e.c == c then e.n else 0) ==
            k.queued + BytesWritten(k', env)
  {
    hide HandleWakeup, HandleClose, ReplyErrors, TakeStep, PumpSync, Wired, BytesWritten, Bytes;
    var k, k' := s.conns[c], Apply(s, e, env).conns[c];
    SameBytes(k, k', env);
    match e
    case DeliverWakeup(c', id) => if c' == c { WakeupBuffers(s.desk, c, id, k, env); }
    case Poll(c', order) => if c' == c { ErrorsBuffer(k, order, env); }
    case DispatchReply(c', code, headers, text) =>
      if c' == c { DispatchBuffers(k, k', Reply(code, headers, text), env); }
    case DispatchStream(c', preamble, _) => if c' == c { DispatchBuffers(k, k', Preamble(preamble), env); }
    case DrainAndWrite(c', n) =>
      if c' == c {
        SameBytes(k, Drain(k, n), env);
        PumpBuffers(Drain(k, n), env);
      }
    case _ =>
  }

  lemma DispatchBuffers(k: Conn, k': Conn, b: Body, env: Env)
    requires k'.wire == Write(k, Direct, b, env).wire && k'.queued == Write(k, Direct, b, env).queued
    ensures Buffered(k, k', env)
  {
    hide BytesWritten;
    WriteBuffers(k, Direct, b, env);
    SameBytes(Write(k, Direct, b, env), k', env);
  }

  lemma NewConnection(s: State, e: Event, c: ConnId, env: Env)
    requires Wired(s.desk) && Enabled(s, e) && c !in s.conns
    ensures !(e.DrainAndWrite? && e.c == c) && Dispatches(e, c) == 0
    ensures c in Apply(s, e, env).conns ==> Apply(s, e, env).conns[c] == NEW_CONN
  {
  }

  /** In every run the bytes written on a connection are those drained from it and those still queued. */
  lemma {:induction false} BytesAreConserved(run: seq<Event>, env: Env, s: State, c: ConnId)
    requires Exec(run, env) == Some(s)
    ensures if c in s.conns then |Render(Bodies(s.conns[c].wire), env)| == Drained(run, c) + s.conns[c].queued
            else Drained(run, c) == 0
  {
    if run != [] {
      hide Apply, Wired, Enabled, Render, Bodies;
      var m, e := ExecLast(run, env);
      BytesAreConserved(run[..|run| - 1], env, m, c);
      if c in m.conns {
        StepBuffers(m, e, c, env);
      } else {
        NewConnection(m, e, c, env);
        NothingWritten(env);
      }
    }
  }

  lemma NothingWritten(env: Env)
    ensures Render(Bodies(NEW_CONN.wire), env) == ""
  {
  }

  // ---- dispatches ----

  lemma StepDispatches(s: State, e: Event, c: ConnId, env: Env)
    requires Wired(s.desk) && Enabled(s, e) && c in s.conns
    ensures c in Apply(s, e, env).conns
    ensures Apply(s, e, env).conns[c].dispatched == s.conns[c].dispatched + Dispatches(e, c)
  {
    hide HandleWakeup, HandleClose, ReplyErrors, TakeStep, Wired;
    match e
    case DeliverWakeup(c', id) => WakeupEffect(s.desk, c', id, s.conns[c'], env);
    case Poll(c', order) => ErrorRepliesWire(s.conns[c'], order, env);
    case _ =>
  }

  lemma {:induction false} DispatchesAreCounted(run: seq<Event>, env: Env, s: State, c: ConnId)
    requires Exec(run, env) == Some(s)
    ensures DispatchesOn(run, c) == if c in s.conns then s.conns[c].dispatched else 0
  {
    if run != [] {
      hide Apply, Wired, Enabled, Dispatches;
      var m, e := ExecLast(run, env);
      DispatchesAreCounted(run[..|run| - 1], env, m, c);
      if c in m.conns { StepDispatches(m, e, c, env); } else { NewConnection(m, e, c, env); }
    }
  }

  // ---- grants ----

  /**
   A drain that leaves its connection below the limit, its own pump included, turns every filed stream
   in flush, of whichever connection, to empty; and no drain does anything else to a stream.
   */
  lemma DrainGrantsFlushed(run: seq<Event>, env: Env, s: State, c: ConnId, n: nat, id: ReqId)
    requires Exec(run, env) == Some(s) && Wired(s.desk) && Enabled(s, DrainAndWrite(c, n)) && id in s.desk.streams
    ensures var s', v := Apply(s, DrainAndWrite(c, n), env), s.desk.streams[id];
            && c in s'.conns && id in s'.desk.streams
            && s'.desk.streams[id] ==
               if id in s.desk.pendingStreams && v.state == Flush && s'.conns[c].queued < env.io then v.(state := Empty)
               else v
  {
    hide PumpSync, WakeupsFit, WiresFit;
    RunsAreSane(run, env);
  }
}
