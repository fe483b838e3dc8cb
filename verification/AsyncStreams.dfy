/**
 async_stream: the cell through which a worker hands chunks to the event loop. The state is
 a sequentially consistent atomic; the data behind it is not atomic at all.
 */
module AsyncStreams {
  import opened Wrappers
  import opened Connections

  datatype StreamState = Start | HasData | Flush | Empty | Close | Completed | Failed

  datatype StreamVal = StreamVal(conn: ConnId, data: string, state: StreamState)

  /** The worker's three stores, one at a time: the data, the announcement, the failure. */
  function PutData(v: StreamVal, chunk: Option<string>): StreamVal {
    v.(data := chunk.GetOr(""))
  }

  function Announce(v: StreamVal, last: bool): StreamVal {
    v.(state := if last then Close else HasData)
  }

  function Fault(v: StreamVal): StreamVal {
    v.(state := Failed)
  }

  /** A whole send (Some) or close (None); mgr is None when the manager expired, else mg_wakeup's answer. */
  function HandOver(v: StreamVal, chunk: Option<string>, mgr: Option<bool>): StreamVal {
    var v' := Announce(PutData(v, chunk), chunk.None?);
    if mgr == Some(false) then Fault(v') else v'
  }

  /** The loop's half: take the data and wait for the send buffer to drain. */
  function Taken(v: StreamVal): StreamVal {
    v.(data := "", state := Flush)
  }

  /** The switch of handle_stream: the stream afterwards, and what is written for it. */
  function Served(v: StreamVal): (StreamVal, Option<Body>) {
    match v.state
    case Start => (Taken(v), Some(Preamble(v.data)))
    case HasData => (Taken(v), Some(Chunk(v.data)))
    case Close => (v.(state := Completed), Some(End))
    case _ => (v, None)
  }

  /** pump_async_stream, for a connection holding that many unsent bytes. */
  function Pump(v: StreamVal, queued: nat, env: Env): StreamVal {
    if v.state == Flush && queued < env.io then v.(state := Empty) else v
  }

  /** wait() returns on these states and blocks on all others. */
  predicate WaitEnds(s: StreamState) {
    s == Empty || s == Failed || s == Completed
  }

  class AsyncStream {
    const conn: ConnId
    const id: ReqId
    var data: string
    var state: StreamState

    ghost function View(): StreamVal
      reads this
    {
      StreamVal(conn, data, state)
    }

    constructor (conn: ConnId, id: ReqId, preamble: string)
      ensures this.conn == conn && this.id == id
      ensures View() == StreamVal(conn, preamble, Start)
    {
      this.conn, this.id := conn, id;
      data, state := preamble, Start;
    }

    /**
     The loop of wait(), fed with the values its successive loads return: it stops at the first
     empty, failed or completed, returning true exactly for empty, and blocks while none comes.
     */
    method Wait(loads: seq<StreamState>) returns (r: Option<bool>, n: nat)
      ensures n <= |loads| && forall i | 0 <= i < n :: !WaitEnds(loads[i])
      ensures r.None? <==> n == |loads|
      ensures forall i | 0 <= i < n :: loads[i] in {Start, HasData, Flush, Close}
      ensures r.Some? ==> WaitEnds(loads[n]) && if r.value then loads[n] == Empty else loads[n] in {Completed, Failed}
    {
      n := 0;
      while n < |loads| && loads[n] != Empty
        invariant n <= |loads|
        invariant forall i | 0 <= i < n :: !WaitEnds(loads[i])
      {
        if loads[n] == StreamState.Failed || loads[n] == Completed {
          return Some(false), n;
        }
        n := n + 1;
      }
      r := if n < |loads| then Some(true) else None;
    }

    method HasFailed() returns (r: bool)
      ensures r <==> View().state == StreamState.Failed
    {
      r := state == StreamState.Failed;
    }

    method Send(body: string, mgr: Option<bool>) returns (posted: bool)
      modifies this
      ensures View() == HandOver(old(View()), Some(body), mgr)
      ensures data == body && state == if mgr == Some(false) then StreamState.Failed else HasData
      ensures posted <==> mgr == Some(true)
    {
      data := body;
      state := HasData;
      posted := mgr == Some(true);
      if mgr.Some? && !mgr.value {
        state := StreamState.Failed;
      }
    }

    method CloseStream(mgr: Option<bool>) returns (posted: bool)
      modifies this
      ensures View() == HandOver(old(View()), None, mgr)
      ensures data == "" && state == if mgr == Some(false) then StreamState.Failed else Close
      ensures posted <==> mgr == Some(true)
    {
      data := "";
      state := Close;
      posted := mgr == Some(true);
      if mgr.Some? && !mgr.value {
        state := StreamState.Failed;
      }
    }

    method GetData() returns (r: string)
      modifies this`data
      ensures r == old(data) && data == ""
    {
      r := data;
      data := "";
    }

    method Mark(s: StreamState)
      modifies this`state
      ensures state == s
    {
      state := s;
    }
  }
}
