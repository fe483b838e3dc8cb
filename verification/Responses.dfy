/** The synchronous response: answers once, by send or by stream, and is inert afterwards. */
module Responses {
  import opened Texts
  import opened Connections
  import opened RemoteContexts
  import HT = HeaderTable
  import TX = HeaderText

  class Response {
    var conn: Connection?
    const headers: HT.Headers

    constructor (conn: Connection, headers: HT.Headers)
      ensures this.conn == conn && this.headers == headers
    {
      this.conn, this.headers := conn, headers;
    }

    /** One reply with the printed headers; a response already used does nothing. */
    method Send(code: int, body: string, env: Env) returns (ghost es: seq<HT.Entry>)
      requires headers.Valid() && (conn != null ==> conn.Valid())
      modifies this`conn, conn
      ensures conn == null && headers.Valid() && HT.Enumerates(es, headers.contents)
      ensures old(conn) != null ==>
                && old(conn).Valid() && old(conn).context == old(conn.context)
                && old(conn).View() == Write(old(conn.View()), Direct, Reply(code, HT.FormatText(es, false), body), env)
    {
      var text;
      text, es := headers.Format(false);
      if conn == null {
        return;
      }
      conn.Append(Direct, Reply(code, text, body), env);
      conn := null;
    }

    /**
     The preamble goes out at once and the producer is left for the pump; a response already used
     touches neither its headers nor any connection.
     */
    method Stream(code: int, reason: string, encoding: string, producer: Producer, env: Env)
      returns (ghost es: seq<HT.Entry>)
      requires headers.Valid() && !producer.ended
      requires conn != null ==> conn.Valid() && conn.open
      modifies this`conn, headers, conn, if conn != null then {conn.context} else {}
      ensures conn == null && headers.Valid()
      ensures old(conn) == null ==> headers.contents == old(headers.contents)
      ensures old(conn) != null ==>
                && headers.contents == TX.StreamFields(old(headers.contents), encoding)
                && HT.Enumerates(es, headers.contents)
                && old(conn).Valid()
                && old(conn).View() ==
                   StartSync(old(conn.View()), TX.PreambleText(code, reason, es), old(producer.left), env)
    {
      hide TX.StatusLine, HT.FormatText, HT.Enumerates, HT.Apply;
      es := [];
      if conn == null {
        return;
      }
      headers.Remove("Content-Length");
      headers.Set("Transfer-Encoding", encoding);
      var text;
      text, es := headers.Format(false);
      conn.Append(Direct, Preamble(TX.StatusLine(code, reason) + CRLF + (text + CRLF)), env);
      conn.context.SetStream(producer);
      conn := null;
    }
  }
}
