/**
 http::endpoint with its two two-level maps of live objects. Every handler is proved to do to the
 objects exactly what the function of the same name in Desks does to their values.
 */
module Endpoints {
  import opened Wrappers
  import opened Connections
  import opened AsyncStreams
  import opened AsyncResponses
  import opened RemoteContexts
  import Desks

  // ---- two-level maps ----

  type TwoLevel<T> = map<ConnId, map<ReqId, T>>

  /** m files nothing but what was made, each under its own connection. */
  ghost predicate Files<T>(m: TwoLevel<T>, owners: map<ReqId, ConnId>, made: map<ReqId, T>) {
    forall c, id | c in m && id in m[c] :: id in made && m[c][id] == made[id] && id in owners && owners[id] == c
  }

  /** The map read by id. */
  ghost function Flat<T>(m: TwoLevel<T>, owners: map<ReqId, ConnId>): Desks.Book {
    map id | id in owners && owners[id] in m && id in m[owners[id]] :: owners[id]
  }

  function Inner<T>(m: TwoLevel<T>, c: ConnId): map<ReqId, T> {
    if c in m then m[c] else map[]
  }

  lemma FlatInsert<T>(m: TwoLevel<T>, owners: map<ReqId, ConnId>, made: map<ReqId, T>, c: ConnId, id: ReqId, x: T)
    requires Files(m, owners, made) && (id in owners ==> owners[id] == c) && (id in made ==> made[id] == x)
    ensures var m' := m[c := Inner(m, c)[id := x]];
            Files(m', owners[id := c], made[id := x]) && Flat(m', owners[id := c]) == Flat(m, owners)[id := c]
  {
  }

  lemma FlatWiden<T>(m: TwoLevel<T>, owners: map<ReqId, ConnId>, made: map<ReqId, T>, c: ConnId, id: ReqId)
    requires Files(m, owners, made) && id !in made
    ensures Files(m, owners[id := c], made) && Flat(m, owners[id := c]) == Flat(m, owners)
  {
    assert forall i | i in owners && owners[i] in m && i in m[owners[i]] :: i in made;
  }

  lemma FlatErase<T>(m: TwoLevel<T>, owners: map<ReqId, ConnId>, made: map<ReqId, T>, c: ConnId, id: ReqId)
    requires Files(m, owners, made) && c in m && id in m[c]
    ensures var m' := m[c := m[c] - {id}]; Files(m', owners, made) && Flat(m', owners) == Flat(m, owners) - {id}
  {
  }

  /** The inner map is erased with its last id. */
  lemma FlatEraseLast<T>(m: TwoLevel<T>, owners: map<ReqId, ConnId>, made: map<ReqId, T>, c: ConnId, id: ReqId)
    requires Files(m, owners, made) && c in m && id in m[c] && m[c] - {id} == map[]
    ensures Files(m - {c}, owners, made) && Flat(m - {c}, owners) == Flat(m, owners) - {id}
  {
    assert forall i | i in m[c] :: i == id by {
      assert forall i :: i in m[c] && i != id ==> i in m[c] - {id};
    }
  }

  /** Several ids of one connection erased. */
  lemma FlatEraseAll<T>(m: TwoLevel<T>, owners: map<ReqId, ConnId>, made: map<ReqId, T>, c: ConnId, ids: set<ReqId>)
    requires Files(m, owners, made) && c in m && ids <= m[c].Keys
    ensures var m' := m[c := m[c] - ids]; Files(m', owners, made) && Flat(m', owners) == Flat(m, owners) - ids
  {
  }

  lemma FlatDrop<T>(m: TwoLevel<T>, owners: map<ReqId, ConnId>, made: map<ReqId, T>, c: ConnId)
    requires Files(m, owners, made)
    ensures Files(m - {c}, owners, made) && Flat(m - {c}, owners) == Desks.Without(Flat(m, owners), c)
  {
  }

  lemma FlatDomain<T>(m: TwoLevel<T>, owners: map<ReqId, ConnId>)
    ensures forall i | i in Flat(m, owners) :: i in owners
  {
  }

  lemma FlatHas<T>(m: TwoLevel<T>, owners: map<ReqId, ConnId>, made: map<ReqId, T>, c: ConnId, id: ReqId)
    requires Files(m, owners, made)
    ensures Desks.Has(Flat(m, owners), c, id) <==> c in m && id in m[c]
  {
  }

  // ---- the endpoint ----

  class Endpoint {
    var counter: nat
    var pendingResponses: TwoLevel<AsyncResponse>
    var pendingStreams: TwoLevel<AsyncStream>
    ghost var issued: map<ReqId, AsyncResponse>   // every response ever made

    ghost function Owners(): map<ReqId, ConnId>
      reads this`issued
    {
      map id | id in issued :: issued[id].conn
    }

    /** Every stream ever made. */
    ghost function Born(): map<ReqId, AsyncStream>
      reads this`issued, issued.Values
    {
      map id | id in issued && issued[id].born != null :: issued[id].born
    }

    ghost predicate IssuedFit()
      reads this`counter, this`issued, issued.Values
    {
      forall id | id in issued :: id < counter && issued[id].Valid() && issued[id].id == id
    }

    ghost predicate ResponsesFit()
      reads this`pendingResponses, this`issued, issued.Values
    {
      FilesResponses() && forall id | id in ResponseBook() :: !issued[id].taken
    }

    ghost predicate FilesResponses()
      reads this`pendingResponses, this`issued
    {
      Files(pendingResponses, Owners(), issued)
    }

    ghost predicate OthersUntaken(id: ReqId)
      reads this`pendingResponses, this`issued, issued.Values
    {
      forall i | i in ResponseBook() && i != id && i in issued :: !issued[i].taken
    }

    ghost predicate StreamsFit()
      reads this`pendingStreams, this`issued, issued.Values
    {
      Files(pendingStreams, Owners(), Born()) && forall c | c in pendingStreams :: pendingStreams[c] != map[]
    }

    ghost predicate Valid()
      reads this, issued.Values
    {
      IssuedFit() && ResponsesFit() && StreamsFit()
    }

    ghost function ResponseBook(): Desks.Book
      reads this`pendingResponses, this`issued
    {
      Flat(pendingResponses, Owners())
    }

    ghost function StreamBook(): Desks.Book
      reads this`pendingStreams, this`issued
    {
      Flat(pendingStreams, Owners())
    }

    ghost function ResponseVals(): map<ReqId, ResponseVal>
      reads this`issued, issued.Values
    {
      map id | id in issued :: issued[id].View()
    }

    ghost function StreamVals(): map<ReqId, StreamVal>
      reads this`issued, issued.Values, Born().Values
    {
      map id | id in Born() :: Born()[id].View()
    }

    /** The same bookkeeping as a value. */
    ghost function View(): (d: Desks.Desk)
      requires Valid()
      reads this, issued.Values, Born().Values
      ensures Desks.Wired(d)
    {
      BooksAreWired();
      Desks.Desk(counter, ResponseBook(), StreamBook(), ResponseVals(), StreamVals())
    }

    lemma BooksAreWired()
      requires Valid()
      ensures forall id | id in StreamBook() :: id in StreamVals()
      ensures forall id | id in ResponseBook() ::
                id in ResponseVals() && (ResponseVals()[id].state == Streaming ==> id in StreamVals())
    {
    }

    constructor ()
      ensures Valid() && View() == Desks.NEW_DESK
    {
      counter := 0;
      pendingResponses, pendingStreams, issued := map[], map[], map[];
    }

    lemma BooksHave(c: ConnId, id: ReqId)
      requires Valid()
      ensures Desks.Has(View().pendingResponses, c, id) <==> c in pendingResponses && id in pendingResponses[c]
      ensures Desks.Has(View().pendingStreams, c, id) <==> c in pendingStreams && id in pendingStreams[c]
    {
      FlatHas(pendingResponses, Owners(), issued, c, id);
      FlatHas(pendingStreams, Owners(), Born(), c, id);
    }

    /** What is filed is what was made. */
    lemma StreamAt(c: ConnId, id: ReqId)
      requires StreamsFit() && c in pendingStreams && id in pendingStreams[c]
      ensures id in Born() && pendingStreams[c][id] == Born()[id]
      ensures id in StreamVals() && StreamVals()[id] == Born()[id].View()
    {
    }

    lemma BornDistinct()
      requires IssuedFit()
      ensures forall i, j | i in Born() && j in Born() && i != j :: Born()[i] != Born()[j]
    {
    }

    /** No response was touched. */
    twostate lemma ResponsesKept()
      requires issued == old(issued) && counter == old(counter) && pendingResponses == old(pendingResponses)
      requires forall r | r in issued.Values :: unchanged(r)
      requires old(IssuedFit() && ResponsesFit())
      ensures IssuedFit() && ResponsesFit() && Born() == old(Born())
      ensures ResponseBook() == old(ResponseBook()) && ResponseVals() == old(ResponseVals())
    {
    }

    /** One stream object changed. */
    twostate lemma StreamChanged(id: ReqId)
      requires old(IssuedFit()) && issued == old(issued) && Born() == old(Born()) && id in Born()
      requires forall i | i in Born() && i != id :: Born()[i].View() == old(Born()[i].View())
      ensures StreamVals() == old(StreamVals())[id := Born()[id].View()]
    {
    }

    /** One response object changed. */
    twostate lemma ResponseChanged(id: ReqId)
      requires issued == old(issued) && counter == old(counter) && id in issued
      requires forall i | i in issued && i != id :: unchanged(issued[i])
      requires issued[id].Valid() && issued[id].born == old(issued[id].born)
      requires old(IssuedFit())
      ensures IssuedFit() && Born() == old(Born())
      ensures ResponseVals() == old(ResponseVals())[id := issued[id].View()]
    {
    }

    lemma IssuedDistinct()
      requires IssuedFit()
      ensures forall i, j | i in issued && j in issued && i != j :: issued[i] != issued[j]
    {
    }

    lemma ResponseAt(c: ConnId, id: ReqId)
      requires ResponsesFit() && IssuedFit() && c in pendingResponses && id in pendingResponses[c]
      ensures id in issued && pendingResponses[c][id] == issued[id] && issued[id].conn == c
      ensures issued[id].Valid() && !issued[id].taken
      ensures id in ResponseVals() && ResponseVals()[id] == issued[id].View()
      ensures Desks.Has(ResponseBook(), c, id)
    {
    }

    /** Erases a response; its connection keeps its inner map. */
    method EraseResponse(c: ConnId, id: ReqId)
      requires FilesResponses() && c in pendingResponses && id in pendingResponses[c]
      requires OthersUntaken(id)
      modifies this`pendingResponses
      ensures ResponsesFit() && ResponseBook() == old(ResponseBook()) - {id}
    {
      FlatErase(pendingResponses, Owners(), issued, c, id);
      pendingResponses := pendingResponses[c := pendingResponses[c] - {id}];
    }

    /** What workers do to their own responses and streams between two handlers leaves the endpoint valid. */
    twostate lemma WorkersKeepValid()
      requires old(Valid()) && issued == old(issued) && counter == old(counter)
      requires pendingResponses == old(pendingResponses) && pendingStreams == old(pendingStreams)
      requires forall id | id in issued ::
                 issued[id].Valid() && issued[id].taken == old(issued[id].taken) &&
                 (old(issued[id].born) != null ==> issued[id].born == old(issued[id].born))
      ensures Valid()
    {
      hide Flat;
      assert FilesResponses() && ResponseBook() == old(ResponseBook());
      FlatDomain(pendingResponses, Owners());
      assert IssuedFit() && ResponsesFit();
      forall c, id | c in pendingStreams && id in pendingStreams[c]
        ensures id in Born() && pendingStreams[c][id] == Born()[id]
      {
        assert id in old(Born()) && pendingStreams[c][id] == old(Born())[id];
      }
    }

    /** Erases a stream, and its connection's inner map with the last one. */
    method EraseStream(c: ConnId, id: ReqId)
      requires StreamsFit() && c in pendingStreams && id in pendingStreams[c]
      modifies this`pendingStreams
      ensures StreamsFit() && StreamBook() == old(StreamBook()) - {id}
    {
      hide Flat, Files;
      var streams := pendingStreams[c] - {id};
      if streams == map[] {
        FlatEraseLast(pendingStreams, Owners(), Born(), c, id);
        pendingStreams := pendingStreams - {c};
      } else {
        FlatErase(pendingStreams, Owners(), Born(), c, id);
        pendingStreams := pendingStreams[c := streams];
      }
    }

    /** The switch of handle_stream on a filed stream: nothing else is touched. */
    method ServeFiled(conn: Connection, id: ReqId, stream: AsyncStream, env: Env) returns (ended: bool)
      requires Valid() && id in Born() && Born()[id] == stream
      modifies conn`queued, conn`wire, stream
      ensures Valid() && Born() == old(Born()) && id in old(View()).streams
      ensures var (v, b) := Served(old(View()).streams[id]);
              && ended == (b == Some(End)) && conn.View() == WriteAny(old(conn.View()), Request(id), b, env)
              && View() == old(View()).(streams := old(View()).streams[id := v])
    {
      hide Files, Flat, Desks.Wired, Served, WriteAny;
      BornDistinct();
      ended := ServeStream(conn, id, stream, env);
      OnlyStreamsChanged();
      StreamChanged(id);
    }

    method HandleStream(conn: Connection, id: ReqId, env: Env) returns (found: bool)
      requires Valid()
      modifies this`pendingStreams, conn`queued, conn`wire, Born().Values
      ensures Valid() && Born() == old(Born())
      ensures (found, View(), conn.View()) == Desks.HandleStream(old(View()), conn.id, id, old(conn.View()), env)
    {
      hide Flat, Files, Served, WriteAny, Desks.Wired, IssuedFit;
      hide ResponsesFit, ResponseVals, StreamVals, ResponseBook, Owners, FilesResponses;
      BooksHave(conn.id, id);
      if conn.id !in pendingStreams {
        return false;
      }
      var streams := pendingStreams[conn.id];
      if id !in streams {
        return false;
      }
      found := true;
      StreamAt(conn.id, id);
      var ended := ServeFiled(conn, id, streams[id], env);
      if ended {
        EraseStream(conn.id, id);
      }
    }

    /** A pending response has just given its stream away or changed its state. */
    twostate lemma PendingTouched(id: ReqId)
      requires old(Valid()) && issued == old(issued) && counter == old(counter)
      requires pendingResponses == old(pendingResponses) && pendingStreams == old(pendingStreams)
      requires id in issued && issued[id].Valid()
      requires forall i | i in issued && i != id :: unchanged(issued[i])
      requires forall v | v in old(Born()).Values :: unchanged(v)
      requires issued[id].born == old(issued[id].born)
      ensures IssuedFit() && StreamsFit() && Born() == old(Born())
      ensures FilesResponses()
      ensures OthersUntaken(id)
      ensures ResponseVals() == old(ResponseVals())[id := issued[id].View()] && StreamVals() == old(StreamVals())
    {
      ResponseChanged(id);
      forall i | i in Born() ensures Born()[i].View() == old(Born()[i].View()) {
        assert Born()[i] in old(Born()).Values;
      }
    }

    /** Files a stream, in a new inner map if its connection has none. */
    method FileStream(c: ConnId, id: ReqId, stream: AsyncStream)
      requires StreamsFit() && id in Born() && Born()[id] == stream && id in issued && issued[id].conn == c
      modifies this`pendingStreams
      ensures StreamsFit() && StreamBook() == old(StreamBook())[id := c]
    {
      assert Born()[id := stream] == Born() && Owners()[id := c] == Owners();
      FlatInsert(pendingStreams, Owners(), Born(), c, id, stream);
      pendingStreams := pendingStreams[c := Inner(pendingStreams, c)[id := stream]];
    }

    /** The pointer moves from its response into the map of streams. */
    method MoveStream(c: ConnId, id: ReqId)
      requires Valid() && c in pendingResponses && id in pendingResponses[c] && pendingResponses[c][id].state == Streaming
      modifies this`pendingStreams, pendingResponses[c][id]
      ensures IssuedFit() && StreamsFit() && FilesResponses() && OthersUntaken(id) && Born() == old(Born())
      ensures id in old(ResponseVals()) && old(ResponseVals())[id].state == Streaming
      ensures ResponseVals() == old(ResponseVals())[id := old(ResponseVals())[id].(hasStream := false)]
      ensures StreamVals() == old(StreamVals()) && StreamBook() == old(StreamBook())[id := c]
    {
      hide Flat, Files, Desks.Wired, ResponseVals, StreamVals;
      hide IssuedFit, StreamsFit, FilesResponses, OthersUntaken;
      IssuedDistinct();
      ResponseAt(c, id);
      var stream := pendingResponses[c][id].GetStream();
      PendingTouched(id);
      FileStream(c, id, stream);
    }

    /** The branch of handle_response that makes a stream of a response. */
    method Promote(c: ConnId, id: ReqId)
      requires Valid() && c in pendingResponses && id in pendingResponses[c] && pendingResponses[c][id].state == Streaming
      modifies this`pendingResponses, this`pendingStreams, pendingResponses[c][id]
      ensures Valid() && Born() == old(Born())
      ensures Desks.Has(old(View()).pendingResponses, c, id) && old(View()).responses[id].state == Streaming
      ensures View() == Desks.Promote(old(View()), c, id)
    {
      hide Flat, Files, Desks.Wired, ResponseVals, StreamVals;
      hide IssuedFit, StreamsFit, FilesResponses, OthersUntaken;
      ResponseAt(c, id);
      MoveStream(c, id);
      EraseResponse(c, id);
    }

    /** A plain reply: the response is completed and erased. */
    method Complete(c: ConnId, id: ReqId)
      requires Valid() && c in pendingResponses && id in pendingResponses[c] && pendingResponses[c][id].state != Streaming
      modifies this`pendingResponses, pendingResponses[c][id]
      ensures Valid() && Desks.Has(old(View()).pendingResponses, c, id)
      ensures View() ==
              old(View()).(
                responses := old(View()).responses[id := old(View()).responses[id].(state := ResponseState.Completed)],
                pendingResponses := old(View()).pendingResponses - {id})
    {
      hide Flat, Desks.Wired, ResponseVals, StreamVals;
      hide IssuedFit, StreamsFit, FilesResponses, OthersUntaken;
      IssuedDistinct();
      ResponseAt(c, id);
      pendingResponses[c][id].Mark(ResponseState.Completed);
      PendingTouched(id);
      EraseResponse(c, id);
    }

    /** mg_http_reply leaves the bookkeeping alone. */
    method Respond(conn: Connection, ghost owner: Owner, body: Body, env: Env)
      requires Valid()
      modifies conn`queued, conn`wire
      ensures Valid() && View() == old(View()) && Born() == old(Born())
      ensures conn.View() == Write(old(conn.View()), owner, body, env)
    {
      conn.Append(owner, body, env);
    }

    method HandleResponse(conn: Connection, id: ReqId, env: Env) returns (handled: bool)
      requires Valid()
      modifies this`pendingResponses, this`pendingStreams, conn`queued, conn`wire, issued.Values, Born().Values
      ensures Valid()
      ensures (handled, View(), conn.View()) == Desks.HandleResponse(old(View()), conn.id, id, old(conn.View()), env)
    {
      hide Flat, Files, Desks.Wired, Desks.HandleStream, IssuedFit, StreamsFit, ResponsesFit;
      hide ResponseVals, StreamVals, ResponseBook, StreamBook, Born;
      BooksHave(conn.id, id);
      if conn.id !in pendingResponses || id !in pendingResponses[conn.id] {
        Respond(conn, Nobody, SERVER_ERROR, env);
        return false;
      }
      ResponseAt(conn.id, id);
      var response := pendingResponses[conn.id][id];
      if response.state == Streaming {
        Promote(conn.id, id);
        handled := HandleStream(conn, id, env);
        return;
      }
      var payload := response.payload;
      Respond(conn, Request(id), Reply(payload.code, payload.headers, payload.body), env);
      Complete(conn.id, id);
      handled := true;
    }

    method HandleWakeup(conn: Connection, id: ReqId, env: Env)
      requires Valid()
      modifies this`pendingResponses, this`pendingStreams, conn`queued, conn`wire, issued.Values, Born().Values
      ensures Valid()
      ensures (View(), conn.View()) == Desks.HandleWakeup(old(View()), conn.id, id, old(conn.View()), env)
    {
      hide View, Desks.Wired, Desks.HandleResponse, Served, WriteAny;
      var found := HandleStream(conn, id, env);
      if found {
        return;
      }
      var handled := HandleResponse(conn, id, env);
      if handled {
        return;
      }
      Respond(conn, Nobody, SERVER_ERROR, env);
    }

    /** Another response was made, without a stream. */
    twostate lemma OneMoreIssued(new res: AsyncResponse)
      requires res.id !in old(issued) && issued == old(issued)[res.id := res] && res.born == null
      requires forall r | r in old(issued).Values :: unchanged(r)
      requires forall v | v in old(Born()).Values :: unchanged(v)
      ensures forall i | i in old(issued) :: unchanged(issued[i])
      ensures Born() == old(Born()) && StreamVals() == old(StreamVals())
      ensures Owners() == old(Owners())[res.id := res.conn] && ResponseVals() == old(ResponseVals())[res.id := res.View()]
    {
      forall i | i in old(issued) ensures unchanged(issued[i]) {
        assert issued[i] in old(issued).Values;
      }
      forall i | i in Born() ensures Born()[i].View() == old(Born()[i].View()) {
        assert Born()[i] in old(Born()).Values;
      }
    }

    /** A response under a new id has just been made and filed. */
    twostate lemma Registered(new res: AsyncResponse)
      requires old(Valid()) && res.id == old(counter) && counter == res.id + 1 && issued == old(issued)[res.id := res]
      requires pendingStreams == old(pendingStreams)
      requires pendingResponses == old(pendingResponses)[res.conn := Inner(old(pendingResponses), res.conn)[res.id := res]]
      requires res.Valid() && res.born == null
      requires forall r | r in old(issued).Values :: unchanged(r)
      requires forall v | v in old(Born()).Values :: unchanged(v)
      ensures Valid()
      ensures View() == old(View()).(counter := counter, pendingResponses := old(ResponseBook())[res.id := res.conn],
                                     responses := old(ResponseVals())[res.id := res.View()])
    {
      hide Flat, Files, Desks.Wired, ResponseVals, StreamVals, Born;
      var c, id := res.conn, res.id;
      assert id !in old(issued);
      NotBorn(id);
      OneMoreIssued(res);
      FlatInsert(old(pendingResponses), old(Owners()), old(issued), c, id, res);
      FlatWiden(old(pendingStreams), old(Owners()), old(Born()), c, id);
      FlatDomain(old(pendingResponses), old(Owners()));
      forall i | i in ResponseBook() ensures !issued[i].taken {
        assert i == id || i in old(ResponseBook());
      }
    }

    twostate lemma NotBorn(id: ReqId)
      requires id !in old(issued)
      ensures id !in old(Born())
    {
    }

    /** handle_http_message, for the asynchronous listener that was found. */
    method HandleAsyncMessage(conn: Connection, buckets: nat) returns (res: AsyncResponse)
      requires Valid() && buckets > 0
      modifies this
      ensures Valid() && fresh(res) && res.headers.Valid() && res.headers.contents == map[]
      ensures issued == old(issued)[old(counter) := res]
      ensures View() == Desks.Issue(old(View()), conn.id)
    {
      hide Flat, Files, Desks.Wired, IssuedFit, ResponsesFit, StreamsFit, ResponseVals, StreamVals;
      var id := counter;
      counter := counter + 1;
      var headers := new HT.Headers(buckets);
      res := new AsyncResponse(conn.id, id, headers);
      pendingResponses := pendingResponses[conn.id := Inner(pendingResponses, conn.id)[id := res]];
      issued := issued[id := res];
      Registered(res);
    }

    /** One round of the loop below. */
    method PumpOne(conn: Connection, context: RemoteContext, c: ConnId, id: ReqId, env: Env)
      requires IssuedFit() && StreamsFit() && c in pendingStreams && id in pendingStreams[c]
      modifies Born().Values
      ensures id in Born() && Born()[id].View() == Pump(old(Born()[id].View()), conn.queued, env)
      ensures forall i | i in Born() && i != id :: Born()[i].View() == old(Born()[i].View())
    {
      hide IssuedFit, Files, Flat, Pump, Owners;
      BornDistinct();
      StreamAt(c, id);
      context.PumpAsyncStream(conn, pendingStreams[c][id], env);
    }

    /** The inner loop of handle_write: the streams of one connection, whichever connection fired. */
    method PumpInner(conn: Connection, context: RemoteContext, c: ConnId, env: Env)
      requires IssuedFit() && StreamsFit() && c in pendingStreams
      modifies Born().Values
      ensures StreamVals() == PumpedVals(old(StreamVals()), pendingStreams[c].Keys, conn.queued, env)
    {
      hide IssuedFit, StreamsFit, StreamVals, Pump, PumpedVals;
      var todo := pendingStreams[c].Keys;
      while todo != {}
        invariant todo <= pendingStreams[c].Keys
        invariant IssuedFit() && StreamsFit() && Born() == old(Born())
        invariant forall id | id in Born() ::
                    Born()[id].View() == if id in pendingStreams[c].Keys - todo
                                         then Pump(old(Born()[id].View()), conn.queued, env) else old(Born()[id].View())
        decreases |todo|
      {
        var id :| id in todo;
        PumpOne(conn, context, c, id, env);
        todo := todo - {id};
      }
      PumpedViews((pendingStreams[c].Keys, conn.queued, env));
    }

    /** room is the pumped ids, the length of a send buffer, and the environment. */
    twostate lemma PumpedViews(new room: (set<ReqId>, nat, Env))
      requires Born() == old(Born())
      requires forall id | id in Born() ::
                 Born()[id].View() == if id in room.0 then Pump(old(Born()[id].View()), room.1, room.2)
                                      else old(Born()[id].View())
      ensures StreamVals() == PumpedVals(old(StreamVals()), room.0, room.1, room.2)
    {
    }

    /** The pump of every stream, of every connection, against the one connection's buffer. */
    method PumpAll(conn: Connection, context: RemoteContext, env: Env)
      requires IssuedFit() && StreamsFit()
      modifies Born().Values
      ensures StreamVals() == PumpedVals(old(StreamVals()), StreamBook().Keys, conn.queued, env)
    {
      hide IssuedFit, StreamsFit, Files, Flat, StreamBook, StreamVals, PumpedVals;
      StreamBookOf(conn.id);
      ghost var vals, done := StreamVals(), {};
      NonePumped(vals, conn.queued, env);
      var todo := pendingStreams.Keys;
      while todo != {}
        invariant todo <= pendingStreams.Keys
        invariant forall id :: id in done <==> id in StreamBook() && StreamBook()[id] !in todo
        invariant StreamVals() == PumpedVals(vals, done, conn.queued, env)
        decreases |todo|
      {
        var c :| c in todo;
        PumpInner(conn, context, c, env);
        StreamBookOf(c);
        SomeMorePumped(vals, done, pendingStreams[c].Keys, conn.queued, env);
        done := done + pendingStreams[c].Keys;
        todo := todo - {c};
      }
      assert done == StreamBook().Keys;
    }

    lemma StreamBookOf(c: ConnId)
      requires StreamsFit()
      ensures forall id | id in StreamBook() :: StreamBook()[id] in pendingStreams
      ensures c in pendingStreams ==> forall id :: id in pendingStreams[c] <==> id in StreamBook() && StreamBook()[id] == c
    {
    }

    /** Only stream objects changed. */
    twostate lemma OnlyStreamsChanged()
      requires old(Valid()) && issued == old(issued) && counter == old(counter)
      requires pendingResponses == old(pendingResponses) && pendingStreams == old(pendingStreams)
      requires forall r | r in issued.Values :: unchanged(r)
      ensures Valid() && Born() == old(Born()) && View() == old(View()).(streams := StreamVals())
    {
      hide Files, Desks.Wired;
      ResponsesKept();
      assert StreamsFit();
    }

    /** A filed stream is filed under the connection it was made for. */
    lemma StreamsAreOwned()
      requires Valid()
      ensures forall id | id in StreamVals() && id in StreamBook() :: StreamBook()[id] == StreamVals()[id].conn
    {
    }

    method HandleWrite(conn: Connection, env: Env)
      requires Valid() && conn.Valid() && conn.context != null
      modifies conn.context, conn.context.stream, conn`queued, conn`wire, Born().Values
      ensures Valid() && conn.Valid()
      ensures (View(), conn.View()) == Desks.HandleWrite(old(View()), old(conn.View()), env)
    {
      hide Files, Flat, Desks.Wired, PumpSync, Pump, PumpedVals, IssuedFit, ResponsesFit;
      hide ResponseVals, StreamVals, ResponseBook, StreamBook;
      StreamsAreOwned();
      var context := conn.context;
      context.PumpStream(conn, env);
      PumpAll(conn, context, env);
      OnlyStreamsChanged();
      PumpedIsPumpStreams(old(View()), conn.queued, env);
    }

    /** Every failed response of the connection gets a 500 and is erased; order is that of the walk. */
    method HandlePoll(conn: Connection, env: Env) returns (ghost order: seq<ReqId>)
      requires Valid()
      modifies this`pendingResponses, conn`queued, conn`wire
      ensures Valid() && Desks.Lists(order, Desks.Swept(old(View()), conn.id))
      ensures (View(), conn.View()) == Desks.HandlePoll(old(View()), conn.id, order, old(conn.View()), env)
    {
      hide Flat, Files, Desks.Wired, Desks.Swept, IssuedFit, ResponseVals, StreamVals;
      order := [];
      SweptAt(conn.id);
      if conn.id !in pendingResponses {
        assert ResponseBook() - (set id | id in order) == ResponseBook();
        return;
      }
      var left;
      left, order := Sweep(pendingResponses[conn.id], conn, env);
      KeepResponses(conn.id, left, set id | id in order);
    }

    /** Some responses of a connection are erased. */
    method KeepResponses(c: ConnId, left: map<ReqId, AsyncResponse>, ghost ids: set<ReqId>)
      requires Valid() && c in pendingResponses && ids <= pendingResponses[c].Keys && left == pendingResponses[c] - ids
      modifies this`pendingResponses
      ensures Valid() && View() == old(View()).(pendingResponses := old(View()).pendingResponses - ids)
    {
      hide Flat, Files, Desks.Wired, IssuedFit, ResponseVals, StreamVals;
      FlatEraseAll(pendingResponses, Owners(), issued, c, ids);
      pendingResponses := pendingResponses[c := left];
      FlatDomain(pendingResponses, Owners());
      forall id | id in ResponseBook() ensures !issued[id].taken {
        assert id in old(ResponseBook());
      }
    }

    /** What a poll would sweep, read off the two-level map. */
    lemma SweptAt(c: ConnId)
      requires Valid()
      ensures forall id :: id in Desks.Swept(View(), c) <==>
                           c in pendingResponses && id in pendingResponses[c] &&
                           pendingResponses[c][id].state == ResponseState.Failed
    {
    }

    lemma ResponsesAt(c: ConnId)
      requires Valid() && c in pendingResponses
      ensures forall id | id in pendingResponses[c] ::
                id in issued && pendingResponses[c][id] == issued[id] && issued[id].Valid() && issued[id].id == id
      ensures forall id | id in issued :: issued[id] in pendingResponses[c].Values <==> id in pendingResponses[c]
    {
      forall id | id in issued && issued[id] in pendingResponses[c].Values ensures id in pendingResponses[c] {
        var i :| i in pendingResponses[c] && pendingResponses[c][i] == issued[id];
        assert issued[i].id == i && issued[id].id == id;
      }
    }

    /** The responses of a connection have just been failed and forgotten. */
    twostate lemma ResponsesFailed(c: ConnId)
      requires old(Valid()) && issued == old(issued) && counter == old(counter)
      requires pendingStreams == old(pendingStreams) && pendingResponses == old(pendingResponses) - {c}
      requires forall id | id in issued ::
                 issued[id].Valid() && issued[id].born == old(issued[id].born) &&
                 issued[id].taken == old(issued[id].taken) &&
                 issued[id].View() == if c in old(pendingResponses) && id in old(pendingResponses)[c]
                                      then old(issued[id].View()).(state := ResponseState.Failed) else old(issued[id].View())
      requires forall v | v in old(Born()).Values :: unchanged(v)
      ensures Valid() && Born() == old(Born())
      ensures View() == old(View()).(responses := Desks.HandleClose(old(View()), c).responses,
                                     pendingResponses := Desks.Without(old(View()).pendingResponses, c))
    {
      hide Files, Flat, Desks.Wired, Desks.Without;
      FlatDrop(old(pendingResponses), Owners(), issued, c);
      FlatDomain(old(pendingResponses), Owners());
      assert Owners() == old(Owners());
      forall id | id in issued
        ensures Desks.Has(old(ResponseBook()), c, id) <==> c in old(pendingResponses) && id in old(pendingResponses)[c]
      {
        FlatHas(old(pendingResponses), Owners(), issued, c, id);
      }
      assert Born() == old(Born());
      forall id | id in Born() ensures Born()[id].View() == old(Born()[id].View()) {
        assert Born()[id] in old(Born()).Values;
      }
      assert ResponseVals() == Desks.HandleClose(old(View()), c).responses;
      assert StreamVals() == old(StreamVals());
      WithoutIsPart(old(ResponseBook()), c);
    }

    lemma WithoutIsPart(b: Desks.Book, c: ConnId)
      ensures forall id | id in Desks.Without(b, c) :: id in b
    {
    }

    /** The first half of handle_close: the connection's responses. */
    method CloseResponses(c: ConnId)
      requires Valid()
      modifies this`pendingResponses, issued.Values
      ensures Valid() && Born() == old(Born())
      ensures View() == old(View()).(responses := Desks.HandleClose(old(View()), c).responses,
                                     pendingResponses := Desks.Without(old(View()).pendingResponses, c))
    {
      hide Flat, Files, Desks.Wired, Desks.HandleClose, StreamsFit;
      hide ResponsesFit, ResponseVals, StreamVals, ResponseBook;
      if c in pendingResponses {
        ResponsesAt(c);
        FailResponses(pendingResponses[c]);
        pendingResponses := pendingResponses - {c};
      }
      assert pendingResponses == old(pendingResponses) - {c};
      ResponsesFailed(c);
    }

    lemma StreamsAt(c: ConnId)
      requires Valid() && c in pendingStreams
      ensures forall id | id in pendingStreams[c] ::
                id in Born() && pendingStreams[c][id] == Born()[id] && Born()[id].id == id
      ensures forall id | id in Born() :: Born()[id] in pendingStreams[c].Values <==> id in pendingStreams[c]
    {
      forall id | id in Born() && Born()[id] in pendingStreams[c].Values ensures id in pendingStreams[c] {
        var i :| i in pendingStreams[c] && pendingStreams[c][i] == Born()[id];
        assert Born()[i].id == i && Born()[id].id == id;
      }
    }

    /** The streams of a connection have just been failed and forgotten. */
    twostate lemma StreamsFailed(c: ConnId)
      requires old(Valid()) && issued == old(issued) && counter == old(counter)
      requires pendingResponses == old(pendingResponses) && pendingStreams == old(pendingStreams) - {c}
      requires forall r | r in issued.Values :: unchanged(r)
      requires Born() == old(Born())
      requires forall id | id in Born() ::
                 Born()[id].View() == if c in old(pendingStreams) && id in old(pendingStreams)[c]
                                      then Fault(old(Born()[id].View())) else old(Born()[id].View())
      ensures Valid()
      ensures View() == old(View()).(streams := Desks.HandleClose(old(View()), c).streams,
                                     pendingStreams := Desks.Without(old(View()).pendingStreams, c))
    {
      hide Files, Flat, Desks.Wired, Desks.Without, IssuedFit, ResponsesFit, ResponseVals;
      ResponsesKept();
      FlatDrop(old(pendingStreams), Owners(), Born(), c);
      assert Owners() == old(Owners());
      forall id | id in Born()
        ensures Desks.Has(old(StreamBook()), c, id) <==> c in old(pendingStreams) && id in old(pendingStreams)[c]
      {
        FlatHas(old(pendingStreams), Owners(), Born(), c, id);
      }
      assert StreamVals() == Desks.HandleClose(old(View()), c).streams;
    }

    /** The second half: its streams. */
    method CloseStreams(c: ConnId)
      requires Valid()
      modifies this`pendingStreams, Born().Values
      ensures Valid()
      ensures View() == old(View()).(streams := Desks.HandleClose(old(View()), c).streams,
                                     pendingStreams := Desks.Without(old(View()).pendingStreams, c))
    {
      hide Flat, Files, Desks.Wired, Desks.HandleClose, StreamsFit;
      hide ResponsesFit, ResponseVals, StreamVals, StreamBook;
      if c in pendingStreams {
        StreamsAt(c);
        FailStreams(pendingStreams[c]);
        pendingStreams := pendingStreams - {c};
      }
      assert pendingStreams == old(pendingStreams) - {c};
      StreamsFailed(c);
    }

    method HandleClose(conn: Connection)
      requires Valid() && conn.Valid()
      modifies this`pendingResponses, this`pendingStreams, issued.Values, Born().Values, conn`open, conn`context
      ensures Valid() && conn.Valid()
      ensures View() == Desks.HandleClose(old(View()), conn.id)
      ensures conn.View() == old(conn.View()).(open := false, producer := None)
    {
      hide Desks.HandleClose, Desks.Wired, Desks.Without, IssuedFit, StreamsFit, ResponsesFit, ResponseVals;
      hide StreamVals, ResponseBook, StreamBook, Born, Flat, Files, Owners;
      InTwoHalves(View(), conn.id);
      CloseResponses(conn.id);
      CloseStreams(conn.id);
      conn.context, conn.open := null, false;
    }
  }

  /** handle_close does its responses first and its streams second. */
  lemma InTwoHalves(d: Desks.Desk, c: ConnId)
    ensures var d' := d.(responses := Desks.HandleClose(d, c).responses,
                         pendingResponses := Desks.Without(d.pendingResponses, c));
            Desks.HandleClose(d, c) ==
            d'.(streams := Desks.HandleClose(d', c).streams, pendingStreams := Desks.Without(d'.pendingStreams, c))
  {
  }

  lemma OneMoreReply(k: Conn, order: seq<ReqId>, id: ReqId, env: Env)
    ensures Desks.ReplyErrors(k, order + [id], env) ==
            Write(Desks.ReplyErrors(k, order, env), Request(id), SERVER_ERROR, env)
  {
    assert (order + [id])[..|order|] == order;
  }

  /** The streams after those of the given ids were pumped. */
  function PumpedVals(vals: map<ReqId, StreamVal>, ids: set<ReqId>, queued: nat, env: Env): map<ReqId, StreamVal> {
    map id | id in vals :: if id in ids then Pump(vals[id], queued, env) else vals[id]
  }

  lemma NonePumped(vals: map<ReqId, StreamVal>, queued: nat, env: Env)
    ensures PumpedVals(vals, {}, queued, env) == vals
  {
  }

  lemma SomeMorePumped(vals: map<ReqId, StreamVal>, ids: set<ReqId>, more: set<ReqId>, queued: nat, env: Env)
    requires ids !! more
    ensures PumpedVals(PumpedVals(vals, ids, queued, env), more, queued, env) == PumpedVals(vals, ids + more, queued, env)
  {
  }

  lemma PumpedIsPumpStreams(d: Desks.Desk, queued: nat, env: Env)
    requires forall id | id in d.streams && id in d.pendingStreams :: d.pendingStreams[id] == d.streams[id].conn
    ensures PumpedVals(d.streams, d.pendingStreams.Keys, queued, env) == Desks.PumpStreams(d, queued, env).streams
  {
  }

  /** The switch of handle_stream. */
  method ServeStream(conn: Connection, id: ReqId, stream: AsyncStream, env: Env) returns (ended: bool)
    modifies conn`queued, conn`wire, stream
    ensures var (v, b) := Served(old(stream.View()));
            stream.View() == v && conn.View() == WriteAny(old(conn.View()), Request(id), b, env) && ended == (b == Some(End))
  {
    ended := false;
    match stream.state
    case Start =>
      var preamble := stream.GetData();
      conn.Append(Request(id), Preamble(preamble), env);
      stream.Mark(Flush);
    case HasData =>
      var chunk := stream.GetData();
      conn.Append(Request(id), Chunk(chunk), env);
      stream.Mark(Flush);
    case Close =>
      conn.Append(Request(id), End, env);
      stream.Mark(StreamState.Completed);
      ended := true;
    case _ =>
  }

  /** The loop of handle_poll over one connection's responses: what is left of them. */
  method Sweep(inner: map<ReqId, AsyncResponse>, conn: Connection, env: Env)
    returns (left: map<ReqId, AsyncResponse>, ghost order: seq<ReqId>)
    modifies conn`queued, conn`wire
    ensures left == inner - set id | id in order
    ensures forall id :: id in order <==> id in inner && inner[id].state == ResponseState.Failed
    ensures forall i, j | 0 <= i < j < |order| :: order[i] != order[j]
    ensures conn.View() == Desks.ReplyErrors(old(conn.View()), order, env)
  {
    hide Write;
    left, order := inner, [];
    var todo := inner.Keys;
    while todo != {}
      invariant todo <= inner.Keys
      invariant forall id | id in todo :: id !in order
      invariant left == inner - set id | id in order
      invariant forall id :: id in order <==> id in inner && id !in todo && inner[id].state == ResponseState.Failed
      invariant forall i, j | 0 <= i < j < |order| :: order[i] != order[j]
      invariant conn.View() == Desks.ReplyErrors(old(conn.View()), order, env)
      decreases |todo|
    {
      var id :| id in todo;
      todo := todo - {id};
      if inner[id].state == ResponseState.Failed {
        conn.Append(Request(id), SERVER_ERROR, env);
        OneMoreReply(old(conn.View()), order, id, env);
        left, order := left - {id}, order + [id];
      }
    }
  }

  /** The loop of handle_close over a connection's responses. */
  method FailResponses(inner: map<ReqId, AsyncResponse>)
    requires forall id | id in inner :: inner[id].Valid() && inner[id].id == id
    modifies inner.Values
    ensures forall r | r in inner.Values ::
              r.Valid() && r.View() == old(r.View()).(state := ResponseState.Failed) &&
              r.born == old(r.born) && r.taken == old(r.taken)
  {
    var todo := inner.Keys;
    while todo != {}
      invariant todo <= inner.Keys
      invariant forall id | id in inner ::
                  inner[id].Valid() && inner[id].born == old(inner[id].born) && inner[id].taken == old(inner[id].taken) &&
                  inner[id].View() == if id in todo then old(inner[id].View())
                                      else old(inner[id].View()).(state := ResponseState.Failed)
      decreases |todo|
    {
      var id :| id in todo;
      inner[id].Mark(ResponseState.Failed);
      todo := todo - {id};
    }
  }

  /** And over its streams. */
  method FailStreams(inner: map<ReqId, AsyncStream>)
    requires forall id | id in inner :: inner[id].id == id
    modifies inner.Values
    ensures forall v | v in inner.Values :: v.View() == Fault(old(v.View()))
  {
    var todo := inner.Keys;
    while todo != {}
      invariant todo <= inner.Keys
      invariant forall id | id in inner ::
                  inner[id].View() == if id in todo then old(inner[id].View()) else Fault(old(inner[id].View()))
      decreases |todo|
    {
      var id :| id in todo;
      inner[id].Mark(StreamState.Failed);
      todo := todo - {id};
    }
  }
}
