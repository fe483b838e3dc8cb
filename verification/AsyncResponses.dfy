/** async_response: one reply, or one promotion to a stream, decided by the worker. */
module AsyncResponses {
  import opened Texts
  import opened Wrappers
  import opened Connections
  import opened AsyncStreams
  import HT = HeaderTable
  import TX = HeaderText

  datatype ResponseState = Pending | Sending | Streaming | Completed | Failed

  datatype Payload = Payload(code: int, headers: string, body: string)

  const NO_PAYLOAD := Payload(-1, "", "")

  /** hasStream says that m_stream has not been moved out to the loop. */
  datatype ResponseVal = ResponseVal(conn: ConnId, payload: Payload, state: ResponseState, hasStream: bool)

  class AsyncResponse {
    const conn: ConnId
    const id: ReqId
    const headers: HT.Headers
    var payload: Payload
    var state: ResponseState
    var stream: AsyncStream?
    ghost var born: AsyncStream?   // the stream this response ever made
    ghost var taken: bool          // the loop has moved it out

    ghost predicate Valid()
      reads this
    {
      && (stream != null ==> stream == born && !taken)
      && (born != null ==> born.conn == conn && born.id == id)
      && (born == null ==> !taken)
      && (state == Pending ==> born == null)
      && (state == Streaming ==> born != null && (taken || stream == born))
    }

    ghost function View(): ResponseVal
      reads this
    {
      ResponseVal(conn, payload, state, stream != null)
    }

    constructor (conn: ConnId, id: ReqId, headers: HT.Headers)
      ensures this.conn == conn && this.id == id && this.headers == headers
      ensures Valid() && born == null && !taken
      ensures View() == ResponseVal(conn, NO_PAYLOAD, Pending, false)
    {
      this.conn, this.id, this.headers := conn, id, headers;
      payload, state := NO_PAYLOAD, Pending;
      stream, born, taken := null, null, false;
    }

    /** Only the first call while pending does anything; mgr as for AsyncStream.Send. */
    method Send(code: int, body: string, mgr: Option<bool>) returns (posted: bool, ghost es: seq<HT.Entry>)
      requires Valid() && headers.Valid()
      modifies this`payload, this`state
      ensures Valid() && HT.Enumerates(es, headers.contents)
      ensures posted <==> old(state) == Pending && mgr == Some(true)
      ensures old(state) != Pending ==> View() == old(View())
      ensures old(state) == Pending ==>
                View() == old(View()).(
                  payload := if mgr.None? then old(payload) else Payload(code, HT.FormatText(es, false), body),
                  state := if posted then Sending else ResponseState.Failed)
    {
      posted := false;
      var text;
      text, es := headers.Format(false);
      if state != Pending {
        return;
      }
      match mgr
      case Some(ok) =>
        payload := Payload(code, text, body);
        posted := ok;
        state := if ok then Sending else ResponseState.Failed;
      case None =>
        state := ResponseState.Failed;
    }

    /** Turns the response into a chunked stream whose first data is the preamble. */
    method Stream(code: int, reason: string, encoding: string, mgr: Option<bool>)
      returns (r: AsyncStream?, posted: bool, ghost es: seq<HT.Entry>)
      requires Valid() && headers.Valid()
      modifies this`state, this`stream, this`born, headers
      ensures Valid() && headers.Valid()
      ensures posted <==> old(state) == Pending && mgr == Some(true)
      ensures old(state) != Pending || mgr.None? ==>
                r == null && born == old(born) && headers.contents == old(headers.contents) &&
                View() == old(View()).(state := if old(state) == Pending then ResponseState.Failed else old(state))
      ensures old(state) == Pending && mgr.Some? ==>
                && headers.contents == TX.StreamFields(old(headers.contents), encoding)
                && HT.Enumerates(es, headers.contents)
                && born != null && fresh(born) && stream == born
                && born.View() == StreamVal(conn, TX.PreambleText(code, reason, es), Start)
                && View() == old(View()).(hasStream := true, state := if posted then Streaming else ResponseState.Failed)
                && r == (if posted then born else null)
    {
      hide TX.StatusLine, HT.FormatText, HT.Enumerates, HT.Apply;
      r, posted, es := null, false, [];
      if state != Pending {
        return;
      }
      match mgr
      case Some(ok) =>
        headers.Remove("Content-Length");
        headers.Set("Transfer-Encoding", encoding);
        var text;
        text, es := headers.Format(false);
        stream := new AsyncStream(conn, id, TX.StatusLine(code, reason) + CRLF + (text + CRLF));
        born := stream;
        if !ok {
          state := ResponseState.Failed;
          return;
        }
        posted := true;
        state := Streaming;
        r := stream;
      case None =>
        state := ResponseState.Failed;
    }

    method Mark(s: ResponseState)
      requires Valid() && s != Streaming && s != Pending
      modifies this`state
      ensures Valid() && state == s
    {
      state := s;
    }

    /** Moves the pointer out to the loop. */
    method GetStream() returns (r: AsyncStream?)
      requires Valid()
      modifies this`stream, this`taken
      ensures Valid() && r == old(stream) && stream == null
      ensures taken <==> old(taken) || r != null
    {
      r := stream;
      taken := taken || stream != null;
      stream := null;
    }
  }
}
