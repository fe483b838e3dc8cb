/**
 A live Mongoose connection and the remote context its fn_data points to. The methods of
 Connection stand for the calls into Mongoose; the pumps are the source's own.
 */
module RemoteContexts {
  import opened Wrappers
  import opened Connections
  import opened AsyncStreams

  /** A stream_producer over a finite list: it may be asked until it has said that nothing is left. */
  class Producer {
    var left: seq<string>
    ghost var ended: bool

    constructor (chunks: seq<string>)
      ensures left == chunks && !ended
    {
      left, ended := chunks, false;
    }

    method Get() returns (r: Option<string>)
      requires !ended
      modifies this
      ensures ended <==> old(left) == []
      ensures if old(left) == [] then r.None? && left == [] else r == Some(old(left)[0]) && left == old(left)[1..]
    {
      if left == [] {
        ended := true;
        return None;
      }
      r := Some(left[0]);
      left := left[1..];
    }
  }

  class Connection {
    const id: ConnId
    var queued: nat              // send.len
    var context: RemoteContext?  // fn_data
    ghost var open: bool
    ghost var wire: seq<Item>
    ghost var dispatched: nat

    ghost predicate Valid()
      reads this, context, if context != null then {context.stream} else {}
    {
      (open ==> context != null) && (context != null ==> context.Valid())
    }

    ghost function View(): Conn
      reads this, context, if context != null then {context.stream} else {}
    {
      Conn(open, wire, queued, if context == null then None else context.Left(), dispatched)
    }

    /** The MG_EV_ACCEPT handler gives a fresh connection its context. */
    constructor (id: ConnId)
      ensures this.id == id && Valid() && fresh(context) && View() == NEW_CONN
    {
      this.id := id;
      queued, open, wire, dispatched := 0, true, [], 0;
      context := new RemoteContext();
    }

    /** mg_send, mg_http_write_chunk and mg_http_reply: bytes are appended to the send buffer. */
    method Append(ghost owner: Owner, body: Body, env: Env)
      modifies this`queued, this`wire
      ensures View() == Write(old(View()), owner, body, env)
      ensures wire == old(wire) + [Item(owner, body)] && queued == old(queued) + |Bytes(body, env)|
    {
      queued := queued + |Bytes(body, env)|;
      wire := wire + [Item(owner, body)];
    }
  }

  class RemoteContext {
    var stream: Producer?

    ghost predicate Valid()
      reads this, stream
    {
      stream != null ==> !stream.ended
    }

    ghost function Left(): Option<seq<string>>
      reads this, stream
    {
      if stream == null then None else Some(stream.left)
    }

    constructor ()
      ensures stream == null
    {
      stream := null;
    }

    method SetStream(producer: Producer)
      requires !producer.ended
      modifies this
      ensures stream == producer && Valid()
    {
      stream := producer;
    }

    /**
     At most one chunk, and only below the limit. The producer is dropped in the call in which it
     reports the end, so that it is never asked again.
     */
    method PumpStream(conn: Connection, env: Env)
      requires conn.context == this && conn.Valid()
      modifies this, stream, conn`queued, conn`wire
      ensures conn.Valid() && conn.context == this && (stream == null || stream == old(stream))
      ensures conn.View() == PumpSync(old(conn.View()), env)
      ensures old(stream == null || conn.queued >= env.io) ==>
                && stream == old(stream) && (stream != null ==> stream.left == old(stream.left))
                && conn.wire == old(conn.wire)
      ensures old(stream != null && conn.queued < env.io && stream.left == []) ==>
                stream == null && conn.wire == old(conn.wire) + [Item(Direct, End)]
      ensures old(stream != null && conn.queued < env.io && stream.left != []) ==>
                && stream == old(stream) && stream.left == old(stream.left)[1..]
                && conn.wire == old(conn.wire) + [Item(Direct, Chunk(old(stream.left)[0]))]
    {
      if stream == null {
        return;
      }
      if conn.queued >= env.io {
        return;
      }
      var chunk := stream.Get();
      if chunk.None? {
        conn.Append(Direct, End, env);
        stream := null;
        return;
      }
      conn.Append(Direct, Chunk(chunk.value), env);
    }

    method PumpAsyncStream(conn: Connection, stream: AsyncStream, env: Env)
      modifies stream`state
      ensures stream.View() == Pump(old(stream.View()), conn.queued, env)
      ensures stream.state == if old(stream.state) == Flush && conn.queued < env.io then Empty else old(stream.state)
    {
      if stream.state != Flush {
        return;
      }
      if conn.queued >= env.io {
        return;
      }
      stream.Mark(Empty);
    }
  }
}
