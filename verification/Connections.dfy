/**
 A Mongoose connection as the server uses it: an append-only wire log, the number of bytes
 still in the send buffer, and the producer of a synchronous stream (kept in the remote
 context that fn_data points to). Mongoose itself is trusted: mg_send, mg_http_reply and
 mg_http_write_chunk append, MG_EV_WRITE follows every drain of a non-empty buffer.
 */
module Connections {
  import opened Texts
  import opened Wrappers
  import opened ChunkCoding

  type ConnId = nat
  type ReqId = nat

  /** MG_IO_SIZE, and the bytes mg_http_reply makes of a code, header text and body. */
  datatype Env = Env(io: nat, render: (int, string, string) -> string)

  /** On whose behalf something was written. Mongoose sends no such tag; it is for the proofs. */
  datatype Owner = Request(id: ReqId) | Direct | Nobody

  datatype Body =
    | Preamble(text: string)
    | Chunk(data: string)
    | End
    | Reply(code: int, headers: string, text: string)

  datatype Item = Item(owner: Owner, body: Body)

  const SERVER_ERROR := Reply(500, "Content-Type: text/plain\r\n", "Internal Server Error\n")

  function Bytes(b: Body, env: Env): string {
    match b
    case Preamble(text) => text
    case Chunk(data) => Frame(data)
    case End => Frame("")
    case Reply(code, headers, text) => (env.render)(code, headers, text)
  }

  datatype Conn = Conn(open: bool, wire: seq<Item>, queued: nat, producer: Option<seq<string>>, dispatched: nat)

  const NEW_CONN := Conn(true, [], 0, None, 0)

  function Write(k: Conn, owner: Owner, body: Body, env: Env): Conn {
    k.(wire := k.wire + [Item(owner, body)], queued := k.queued + |Bytes(body, env)|)
  }

  function WriteAny(k: Conn, owner: Owner, body: Option<Body>, env: Env): Conn {
    if body.Some? then Write(k, owner, body.value, env) else k
  }

  /** What was written for one owner, in order. */
  function Project(wire: seq<Item>, owner: Owner): seq<Body> {
    if wire == [] then []
    else
      var last := wire[|wire| - 1];
      Project(wire[..|wire| - 1], owner) + if last.owner == owner then [last.body] else []
  }

  lemma ProjectWrite(k: Conn, owner: Owner, body: Body, env: Env, o: Owner)
    ensures Project(Write(k, owner, body, env).wire, o) == Project(k.wire, o) + if o == owner then [body] else []
  {
    assert (k.wire + [Item(owner, body)])[..|k.wire|] == k.wire;
  }

  lemma {:induction false} ProjectOther(wire: seq<Item>, o: Owner)
    requires forall it <- wire :: it.owner != o
    ensures Project(wire, o) == []
  {
    if wire != [] {
      ProjectOther(wire[..|wire| - 1], o);
    }
  }

  /** The bytes of a list of items. */
  function Render(bs: seq<Body>, env: Env): string {
    if bs == [] then "" else Render(bs[..|bs| - 1], env) + Bytes(bs[|bs| - 1], env)
  }

  /** A stream's output so far: its preamble, then its chunks. */
  function StreamLog(preamble: string, chunks: seq<string>): seq<Body> {
    [Preamble(preamble)] + seq(|chunks|, i requires 0 <= i < |chunks| => Chunk(chunks[i]))
  }

  lemma StreamLogAppend(preamble: string, chunks: seq<string>, c: string)
    ensures StreamLog(preamble, chunks + [c]) == StreamLog(preamble, chunks) + [Chunk(c)]
  {
  }

  lemma RenderAppend(bs: seq<Body>, b: Body, env: Env)
    ensures Render(bs + [b], env) == Render(bs, env) + Bytes(b, env)
  {
    assert (bs + [b])[..|bs|] == bs;
  }

  lemma {:induction false} RenderChunks(preamble: string, chunks: seq<string>, env: Env)
    ensures Render(StreamLog(preamble, chunks), env) == preamble + Frames(chunks)
  {
    hide Frame;
    if chunks == [] {
      assert StreamLog(preamble, []) == [] + [Preamble(preamble)];
      RenderAppend([], Preamble(preamble), env);
    } else {
      var init, c := chunks[..|chunks| - 1], chunks[|chunks| - 1];
      RenderChunks(preamble, init, env);
      assert chunks == init + [c];
      StreamLogAppend(preamble, init, c);
      RenderAppend(StreamLog(preamble, init), Chunk(c), env);
      FramesAppend(init, c);
      Assoc(preamble, Frames(init), Frame(c));
    }
  }

  /** The bytes of a whole stream: preamble, then the chunked coding of its chunks. */
  lemma RenderStream(preamble: string, chunks: seq<string>, env: Env)
    ensures Render(StreamLog(preamble, chunks), env) == preamble + Frames(chunks)
    ensures Render(StreamLog(preamble, chunks) + [End], env) == preamble + Encode(chunks)
  {
    hide Frame, Frames, StreamLog;
    RenderChunks(preamble, chunks, env);
    RenderAppend(StreamLog(preamble, chunks), End, env);
    Assoc(preamble, Frames(chunks), Frame(""));
  }

  // ---- the synchronous pump ----

  /** response::stream: the preamble goes out at once, the producer is installed for later. */
  function StartSync(k: Conn, preamble: string, chunks: seq<string>, env: Env): Conn {
    Write(k, Direct, Preamble(preamble), env).(producer := Some(chunks))
  }

  /** remote_context::pump_stream: at most one chunk, and only below the buffer limit. */
  function PumpSync(k: Conn, env: Env): Conn {
    match k.producer
    case None => k
    case Some(chunks) =>
      if k.queued >= env.io then k
      else if chunks == [] then Write(k, Direct, End, env).(producer := None)
      else Write(k, Direct, Chunk(chunks[0]), env).(producer := Some(chunks[1..]))
  }

  function Drain(k: Conn, n: nat): Conn
    requires n <= k.queued
  {
    k.(queued := k.queued - n)
  }
}
