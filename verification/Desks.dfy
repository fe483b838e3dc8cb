/**
 The event loop's bookkeeping as values: the request counter, the two two-level maps of
 pending responses and pending streams, and every shared object by request id. One function
 per handler of http::endpoint; the class Endpoint is proved against them.
 */
module Desks {
  import opened Wrappers
  import opened Connections
  import opened AsyncStreams
  import opened AsyncResponses

  /** A two-level map of pending objects, read by id: under which connection the id is filed. */
  type Book = map<ReqId, ConnId>

  datatype Desk = Desk(
    counter: nat,
    pendingResponses: Book,
    pendingStreams: Book,
    responses: map<ReqId, ResponseVal>,
    streams: map<ReqId, StreamVal>)

  const NEW_DESK := Desk(0, map[], map[], map[], map[])

  predicate Has(b: Book, c: ConnId, id: ReqId) {
    id in b && b[id] == c
  }

  /** The book after the whole inner map of a connection was erased. */
  function Without(b: Book, c: ConnId): Book {
    map id | id in b && b[id] != c :: b[id]
  }

  /** What the pending maps refer to exists. */
  ghost predicate Wired(d: Desk) {
    && (forall id | id in d.pendingStreams :: id in d.streams)
    && (forall id | id in d.pendingResponses ::
          id in d.responses && (d.responses[id].state == Streaming ==> id in d.streams))
  }

  /** handle_http_message for an asynchronous listener: issue an id and register its response. */
  function Issue(d: Desk, c: ConnId): Desk {
    d.(counter := d.counter + 1,
       pendingResponses := d.pendingResponses[d.counter := c],
       responses := d.responses[d.counter := ResponseVal(c, NO_PAYLOAD, Pending, false)])
  }

  /** handle_stream: false when the connection has no such stream. */
  function HandleStream(d: Desk, c: ConnId, id: ReqId, k: Conn, env: Env): (bool, Desk, Conn)
    requires Wired(d)
  {
    if !Has(d.pendingStreams, c, id) then (false, d, k)
    else
      var (v, b) := Served(d.streams[id]);
      (true,
       d.(streams := d.streams[id := v],
          pendingStreams := if b == Some(End) then d.pendingStreams - {id} else d.pendingStreams),
       WriteAny(k, Request(id), b, env))
  }

  /** The response becomes a stream: its pointer moves from one map to the other. */
  function Promote(d: Desk, c: ConnId, id: ReqId): (d': Desk)
    requires Wired(d) && Has(d.pendingResponses, c, id) && d.responses[id].state == Streaming
    ensures Wired(d')
  {
    d.(pendingStreams := d.pendingStreams[id := c],
       pendingResponses := d.pendingResponses - {id},
       responses := d.responses[id := d.responses[id].(hasStream := false)])
  }

  /** handle_response: false after its own 500 when the connection has no such response. */
  function HandleResponse(d: Desk, c: ConnId, id: ReqId, k: Conn, env: Env): (bool, Desk, Conn)
    requires Wired(d)
  {
    if !Has(d.pendingResponses, c, id) then (false, d, Write(k, Nobody, SERVER_ERROR, env))
    else
      var r := d.responses[id];
      if r.state == Streaming then HandleStream(Promote(d, c, id), c, id, k, env)
      else
        (true,
         d.(responses := d.responses[id := r.(state := ResponseState.Completed)],
            pendingResponses := d.pendingResponses - {id}),
         Write(k, Request(id), Reply(r.payload.code, r.payload.headers, r.payload.body), env))
  }

  /** handle_wakeup: a stream first, then a response, else a further 500. */
  function HandleWakeup(d: Desk, c: ConnId, id: ReqId, k: Conn, env: Env): (Desk, Conn)
    requires Wired(d)
  {
    var (found, d1, k1) := HandleStream(d, c, id, k, env);
    if found then (d1, k1)
    else
      var (handled, d2, k2) := HandleResponse(d, c, id, k, env);
      if handled then (d2, k2) else (d2, Write(k2, Nobody, SERVER_ERROR, env))
  }

  /** One for a pending response that is no stream answers with its payload, completes and forgets it. */
  lemma ReplyWakeup(d: Desk, c: ConnId, id: ReqId, k: Conn, env: Env)
    requires Wired(d) && id !in d.pendingStreams && Has(d.pendingResponses, c, id) && d.responses[id].state != Streaming
    ensures var (d', k') := HandleWakeup(d, c, id, k, env);
            var r := d.responses[id];
            && d' == d.(responses := d.responses[id := r.(state := ResponseState.Completed)],
                        pendingResponses := d.pendingResponses - {id})
            && k'.wire == k.wire + [Item(Request(id), Reply(r.payload.code, r.payload.headers, r.payload.body))]
  {
  }

  /** A wakeup for nothing pending is answered by both handlers, and changes nothing else. */
  lemma StrayWakeup(d: Desk, c: ConnId, id: ReqId, k: Conn, env: Env)
    requires Wired(d) && !Has(d.pendingStreams, c, id) && !Has(d.pendingResponses, c, id)
    ensures var (d', k') := HandleWakeup(d, c, id, k, env);
            var it := Item(Nobody, Reply(500, "Content-Type: text/plain\r\n", "Internal Server Error\n"));
            d' == d && k'.wire == k.wire + [it, it]
  {
  }

  /** handle_write, asynchronous half: every stream of every connection, one connection's buffer. */
  function PumpStreams(d: Desk, queued: nat, env: Env): Desk {
    d.(streams := map id | id in d.streams ::
                    if Has(d.pendingStreams, d.streams[id].conn, id) then Pump(d.streams[id], queued, env)
                    else d.streams[id])
  }

  function HandleWrite(d: Desk, k: Conn, env: Env): (Desk, Conn) {
    var k' := PumpSync(k, env);
    (PumpStreams(d, k'.queued, env), k')
  }

  /** The failed responses a poll of the connection would sweep. */
  function Swept(d: Desk, c: ConnId): set<ReqId>
    requires Wired(d)
  {
    set id | id in d.pendingResponses && d.pendingResponses[id] == c &&
             d.responses[id].state == ResponseState.Failed
  }

  function ReplyErrors(k: Conn, order: seq<ReqId>, env: Env): Conn {
    if order == [] then k
    else Write(ReplyErrors(k, order[..|order| - 1], env), Request(order[|order| - 1]), SERVER_ERROR, env)
  }

  /** One 500 each, in that order. */
  lemma {:induction false} ErrorRepliesInOrder(k: Conn, order: seq<ReqId>, env: Env)
    ensures ReplyErrors(k, order, env).wire ==
            k.wire + seq(|order|, i requires 0 <= i < |order| =>
                       Item(Request(order[i]), Reply(500, "Content-Type: text/plain\r\n", "Internal Server Error\n")))
  {
    if order != [] {
      ErrorRepliesInOrder(k, order[..|order| - 1], env);
    }
  }

  ghost predicate Lists(order: seq<ReqId>, ids: set<ReqId>) {
    (forall id :: id in order <==> id in ids) && forall i, j | 0 <= i < j < |order| :: order[i] != order[j]
  }

  /** handle_poll: one 500 for each failed response, in the order the inner map is walked. */
  function HandlePoll(d: Desk, c: ConnId, order: seq<ReqId>, k: Conn, env: Env): (Desk, Conn) {
    (d.(pendingResponses := d.pendingResponses - set id | id in order), ReplyErrors(k, order, env))
  }

  /** handle_close: everything pending on the connection is marked failed and forgotten. */
  function HandleClose(d: Desk, c: ConnId): Desk {
    d.(responses := map id | id in d.responses ::
                      if Has(d.pendingResponses, c, id) then d.responses[id].(state := ResponseState.Failed)
                      else d.responses[id],
       streams := map id | id in d.streams ::
                    if Has(d.pendingStreams, c, id) then Fault(d.streams[id]) else d.streams[id],
       pendingResponses := Without(d.pendingResponses, c),
       pendingStreams := Without(d.pendingStreams, c))
  }
}
