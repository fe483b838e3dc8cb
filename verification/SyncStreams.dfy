/**
 Synchronous streams in runs of the whole server. From its dispatch on, a stream puts its preamble
 and its chunks on its connection, each once and in order, until it is finished, its connection is
 closed, or another synchronous stream is dispatched on the connection and takes its place.
 */
module SyncStreams {
  import opened Wrappers
  import opened ChunkCoding
  import opened Connections
  import opened AsyncStreams
  import opened Desks
  import opened Protocol
  import opened ProtocolShape
  import opened Slots
  import opened Histories
  import opened ProtocolTheorems
  import HT = HeaderTable
  import TX = HeaderText

  // ---- one connection, event by event ----

  predicate StreamsOn(e: Event, c: ConnId) {
    e.DispatchStream? && e.c == c
  }

  predicate RepliesOn(e: Event, c: ConnId) {
    e.DispatchReply? && e.c == c
  }

  ghost predicate NoStream(es: seq<Event>, c: ConnId) {
    forall e <- es :: !StreamsOn(e, c)
  }

  ghost predicate NoReply(es: seq<Event>, c: ConnId) {
    forall e <- es :: !RepliesOn(e, c)
  }

  /** What was written on the connection for no asynchronous request. */
  function Directs(k: Conn): seq<Body> {
    Project(k.wire, Direct)
  }

  /** Nothing the synchronous pump is concerned with has changed. */
  predicate Undirected(k: Conn, k': Conn) {
    k'.open == k.open && k'.producer == k.producer && k'.queued >= k.queued && Directs(k') == Directs(k)
  }

  lemma {:induction false} ErrorRepliesUndirected(k: Conn, order: seq<ReqId>, env: Env)
    ensures Undirected(k, ReplyErrors(k, order, env))
  {
    if order != [] {
      var n := |order| - 1;
      ErrorRepliesUndirected(k, order[..n], env);
      ProjectWrite(ReplyErrors(k, order[..n], env), Request(order[n]), SERVER_ERROR, env, Direct);
    }
  }

  lemma WakeupUndirected(d: Desk, c: ConnId, id: ReqId, k: Conn, env: Env)
    requires Wired(d)
    ensures Undirected(k, HandleWakeup(d, c, id, k, env).1)
  {
    hide HandleWakeup;
    WakeupEffect(d, c, id, k, env);
    WakeupAppends(d, c, id, k, env);
    var owner := if Has(d.pendingStreams, c, id) || Has(d.pendingResponses, c, id) then Request(id) else Nobody;
    ProjectOnlyWrites(k.wire, HandleWakeup(d, c, id, k, env).1.wire, owner, Direct);
  }

  /** Only a direct dispatch, a drain or the close of the connection itself concerns its producer. */
  ghost predicate Moves(k: Conn, k': Conn, e: Event, c: ConnId, env: Env) {
    match e
    case DispatchStream(c', p, chunks) =>
      if c' == c then k.open && k' == StartSync(k, p, chunks, env).(dispatched := k.dispatched + 1) else k' == k
    case DispatchReply(c', code, headers, text) =>
      if c' == c then
        k.open && k' == Write(k, Direct, Reply(code, headers, text), env).(dispatched := k.dispatched + 1)
      else k' == k
    case DrainAndWrite(c', n) =>
      if c' == c then k.open && 0 < n <= k.queued && k' == PumpSync(Drain(k, n), env) else k' == k
    case CloseConn(c') =>
      if c' == c then k.open && k' == k.(open := false, producer := None) else k' == k
    case _ => Undirected(k, k')
  }

  lemma ConnMoves(s: State, e: Event, c: ConnId, env: Env)
    requires Wired(s.desk) && Enabled(s, e) && c in s.conns
    ensures c in Apply(s, e, env).conns && Moves(s.conns[c], Apply(s, e, env).conns[c], e, c, env)
  {
    hide HandleWakeup, ReplyErrors, Wired, Undirected;
    SameUndirected(s.conns[c]);
    if e.DeliverWakeup? {
      WakeupUndirected(s.desk, e.c, e.id, s.conns[e.c], env);
    } else if e.Poll? {
      ErrorRepliesUndirected(s.conns[e.c], e.order, env);
    } else if e.DispatchAsync? {
      MoreDispatched(s.conns[c]);
    } else {
      RestMoves(s, e, c, env);
    }
  }

  lemma RestMoves(s: State, e: Event, c: ConnId, env: Env)
    requires Wired(s.desk) && Enabled(s, e) && c in s.conns
    requires !e.DeliverWakeup? && !e.Poll? && !e.DispatchAsync?
    ensures c in Apply(s, e, env).conns && Moves(s.conns[c], Apply(s, e, env).conns[c], e, c, env)
  {
    hide HandleClose, TakeStep, Wired, Undirected;
    SameUndirected(s.conns[c]);
  }

  lemma SameUndirected(k: Conn)
    ensures Undirected(k, k)
  {
  }

  lemma MoreDispatched(k: Conn)
    ensures Undirected(k, k.(dispatched := k.dispatched + 1))
  {
  }

  // ---- what became of a stream ----

  /** A stream's own items: replies dispatched in between are not part of it. */
  function NonReplies(bs: seq<Body>): seq<Body> {
    if bs == [] then []
    else
      var b := bs[|bs| - 1];
      NonReplies(bs[..|bs| - 1]) + if b.Reply? then [] else [b]
  }

  lemma NonRepliesAppend(bs: seq<Body>, b: Body)
    ensures NonReplies(bs + [b]) == NonReplies(bs) + if b.Reply? then [] else [b]
  {
    assert (bs + [b])[..|bs|] == bs;
  }

  datatype SyncFate =
    | Going(j: nat)               // its producer holds the chunks from j on
    | Dropped(j: nat)             // the connection was closed after j chunks
    | Finished
    | Lost(j: nat, next: string)  // another stream's preamble came after j chunks

  /** How it shows in the direct items since its dispatch, replies left out. */
  predicate Shows(f: SyncFate, k: Conn, items: seq<Body>, preamble: string, chunks: seq<string>) {
    match f
    case Going(j) =>
      j <= |chunks| && k.open && k.producer == Some(chunks[j..]) && items == StreamLog(preamble, chunks[..j])
    case Dropped(j) => j <= |chunks| && !k.open && items == StreamLog(preamble, chunks[..j])
    case Finished => StreamLog(preamble, chunks) + [End] <= items
    case Lost(j, next) => j <= |chunks| && StreamLog(preamble, chunks[..j]) + [Preamble(next)] <= items
  }

  /** One event of the stream's life, on the values it depends on: a written item, or none. */
  function Extended(items: seq<Body>, b: Option<Body>): seq<Body> {
    if b.Some? && !b.value.Reply? then items + [b.value] else items
  }

  lemma PumpMovesOn(f: SyncFate, k: Conn, items: seq<Body>, preamble: string, chunks: seq<string>, env: Env)
    returns (f': SyncFate, b: Option<Body>)
    requires Shows(f, k, items, preamble, chunks) && k.open && (k.producer.None? ==> !f.Going?)
    ensures Shows(f', PumpSync(k, env), Extended(items, b), preamble, chunks)
    ensures Directs(PumpSync(k, env)) == Directs(k) + (if b.Some? then [b.value] else []) && (b.Some? ==> !b.value.Reply?)
    ensures f'.Lost? <==> f.Lost?
    ensures f'.Going? ==> f.Going?
    ensures f.Finished? ==> f'.Finished?
    ensures f'.Finished? && f.Going? ==> PumpSync(k, env).producer.None? && Extended(items, b) == StreamLog(preamble, chunks) + [End]
    ensures k.producer.None? ==> b.None?
  {
    f', b := f, None;
    if k.producer.Some? && k.queued < env.io {
      var held := k.producer.value;
      b := Some(if held == [] then End else Chunk(held[0]));
      WriteDirects(k, b.value, env);
      match f
      case Going(j) =>
        GoesOn(j, held, preamble, chunks);
        f' := if held == [] then Finished else Going(j + 1);
      case _ =>
    }
  }

  lemma WriteDirects(k: Conn, b: Body, env: Env)
    ensures Directs(Write(k, Direct, b, env)) == Directs(k) + [b]
    ensures forall p :: Directs(Write(k, Direct, b, env).(producer := p)) == Directs(k) + [b]
  {
    ProjectWrite(k, Direct, b, env, Direct);
  }

  lemma GoesOn(j: nat, held: seq<string>, preamble: string, chunks: seq<string>)
    requires j <= |chunks| && held == chunks[j..]
    ensures held == [] ==> chunks[..j] == chunks
    ensures held != [] ==>
              && held[1..] == chunks[j + 1..]
              && StreamLog(preamble, chunks[..j + 1]) == StreamLog(preamble, chunks[..j]) + [Chunk(held[0])]
  {
    if held != [] {
      assert chunks[..j + 1] == chunks[..j] + [chunks[j]];
      StreamLogAppend(preamble, chunks[..j], chunks[j]);
    }
  }

  // ---- along a run ----

  /** The first further stream dispatched on the connection finds a producer still installed. */
  ghost predicate Overruns(base: seq<Event>, more: seq<Event>, c: ConnId, env: Env)
    decreases |more|
  {
    more != [] &&
    var init, e := more[..|more| - 1], more[|more| - 1];
    || Overruns(base, init, c, env)
    || (StreamsOn(e, c) && NoStream(init, c) &&
        var before := Exec(base + init, env);
        before.Some? && c in before.value.conns && before.value.conns[c].producer.Some?)
  }

  /** The stream dispatched at the end of base, after more: what it shows and what that depends on. */
  ghost predicate Tracked(f: SyncFate, k: Conn, log: seq<Body>, preamble: string, chunks: seq<string>,
                          more: seq<Event>, c: ConnId) {
    && log <= Directs(k)
    && var tail := Directs(k)[|log|..];
       && Shows(f, k, NonReplies(tail), preamble, chunks)
       && (f.Going? ==> NoStream(more, c))
       && (f.Lost? ==> !NoStream(more, c))
       && (f.Finished? && NoStream(more, c) ==>
             k.producer.None? && NonReplies(tail) == StreamLog(preamble, chunks) + [End])
       && (f.Dropped? ==> !k.open)
       && (!k.open ==> k.producer.None?)
  }

  lemma TailAppend(all: seq<Body>, log: seq<Body>, b: Option<Body>)
    requires log <= all
    ensures var all' := all + if b.Some? then [b.value] else [];
            log <= all' && NonReplies(all'[|log|..]) == Extended(NonReplies(all[|log|..]), b) &&
            all'[|log|..] == all[|log|..] + if b.Some? then [b.value] else []
  {
    if b.Some? {
      assert (all + [b.value])[|log|..] == all[|log|..] + [b.value];
      NonRepliesAppend(all[|log|..], b.value);
    } else {
      assert all + [] == all;
    }
  }

  lemma ShowsMore(f: SyncFate, k: Conn, k': Conn, items: seq<Body>, b: Option<Body>, preamble: string, chunks: seq<string>)
    requires Shows(f, k, items, preamble, chunks)
    requires k'.open == k.open && k'.producer == k.producer && (f.Going? || f.Dropped? ==> b.None? || b.value.Reply?)
    ensures Shows(f, k', Extended(items, b), preamble, chunks)
  {
  }

  lemma NoneMore(more: seq<Event>, e: Event, c: ConnId)
    ensures NoStream(more + [e], c) <==> NoStream(more, c) && !StreamsOn(e, c)
    ensures NoReply(more + [e], c) <==> NoReply(more, c) && !RepliesOn(e, c)
  {
    assert forall x :: x in more + [e] <==> x in more || x == e;
  }

  /** One event later. */
  lemma TrackedOn(f: SyncFate, s: State, e: Event, log: seq<Body>, preamble: string, chunks: seq<string>,
                  more: seq<Event>, c: ConnId, env: Env) returns (f': SyncFate)
    requires Wired(s.desk) && Enabled(s, e) && c in s.conns && Tracked(f, s.conns[c], log, preamble, chunks, more, c)
    ensures c in Apply(s, e, env).conns
    ensures Tracked(f', Apply(s, e, env).conns[c], log, preamble, chunks, more + [e], c)
    ensures f'.Lost? <==> f.Lost? || (StreamsOn(e, c) && NoStream(more, c) && s.conns[c].producer.Some?)
  {
    hide Wired, Enabled, Apply, Shows, NoStream, NoReply, NonReplies;
    ConnMoves(s, e, c, env);
    NoneMore(more, e, c);
    var k, k' := s.conns[c], Apply(s, e, env).conns[c];
    var items := NonReplies(Directs(k)[|log|..]);
    var b: Option<Body> := None;
    f' := f;
    if StreamsOn(e, c) {
      b := Some(Preamble(e.preamble));
      ProjectWrite(k, Direct, b.value, env, Direct);
      f' := Replaced(f, k, k', items, e.preamble, preamble, chunks);
    } else if RepliesOn(e, c) {
      b := Some(Reply(e.code, e.headers, e.text));
      ProjectWrite(k, Direct, b.value, env, Direct);
      ShowsMore(f, k, k', items, b, preamble, chunks);
    } else if e.DrainAndWrite? && e.c == c {
      GoingHasProducer(f, k, items, preamble, chunks);
      DrainShows(f, k, e.n, items, preamble, chunks);
      f', b := PumpMovesOn(f, Drain(k, e.n), items, preamble, chunks, env);
    } else if e.CloseConn? && e.c == c {
      f' := HungUp(f, k, k', items, preamble, chunks);
    } else {
      ShowsMore(f, k, k', items, None, preamble, chunks);
    }
    TailAppend(Directs(k), log, b);
  }

  lemma GoingHasProducer(f: SyncFate, k: Conn, items: seq<Body>, preamble: string, chunks: seq<string>)
    requires Shows(f, k, items, preamble, chunks)
    ensures f.Going? ==> k.producer.Some?
  {
  }

  lemma DrainShows(f: SyncFate, k: Conn, n: nat, items: seq<Body>, preamble: string, chunks: seq<string>)
    requires n <= k.queued && Shows(f, k, items, preamble, chunks)
    ensures Shows(f, Drain(k, n), items, preamble, chunks)
  {
  }

  /** Another stream's preamble, and its producer in the place of any other. */
  lemma Replaced(f: SyncFate, k: Conn, k': Conn, items: seq<Body>, next: string, preamble: string, chunks: seq<string>)
    returns (f': SyncFate)
    requires Shows(f, k, items, preamble, chunks) && k.open && k'.open
    ensures Shows(f', k', items + [Preamble(next)], preamble, chunks)
    ensures f' == if f.Going? then Lost(f.j, next) else f
    ensures !f'.Going? && !f'.Dropped?
    ensures f.Going? ==> k.producer.Some?
  {
    f' := if f.Going? then Lost(f.j, next) else f;
  }

  lemma HungUp(f: SyncFate, k: Conn, k': Conn, items: seq<Body>, preamble: string, chunks: seq<string>)
    returns (f': SyncFate)
    requires Shows(f, k, items, preamble, chunks) && k.open && k' == k.(open := false, producer := None)
    ensures Shows(f', k', items, preamble, chunks)
    ensures f' == if f.Going? then Dropped(f.j) else f
  {
    f' := if f.Going? then Dropped(f.j) else f;
  }

  /**
   Every continuation of a run that has just dispatched a synchronous stream: the stream is still
   going, was dropped by a close, is finished, or was lost to another one, and it was lost if and only
   if that one came while its producer was installed.
   */
  lemma {:induction false} SyncStreamFate(run: seq<Event>, c: ConnId, preamble: string, chunks: seq<string>,
                                          more: seq<Event>, env: Env, s: State, s': State) returns (f: SyncFate)
    requires Exec(run, env) == Some(s) && Open(s, c)
    requires Exec(run + [DispatchStream(c, preamble, chunks)] + more, env) == Some(s')
    ensures c in s'.conns && Tracked(f, s'.conns[c], Directs(s.conns[c]), preamble, chunks, more, c)
    ensures f.Lost? <==> Overruns(run + [DispatchStream(c, preamble, chunks)], more, c, env)
    decreases |more|
  {
    hide Exec, Apply, Tracked, Wired, Enabled;
    var e := DispatchStream(c, preamble, chunks);
    var base := run + [e];
    if more == [] {
      assert base + more == base;
      ExecStep(run, e, env);
      f := Begun(s, c, preamble, chunks, env);
    } else {
      var init, last := more[..|more| - 1], more[|more| - 1];
      assert base + more == (base + init) + [last] && more == init + [last];
      ExecStep(base + init, last, env);
      var m := Exec(base + init, env).value;
      var f0 := SyncStreamFate(run, c, preamble, chunks, init, env, s, m);
      f := TrackedOn(f0, m, last, Directs(s.conns[c]), preamble, chunks, init, c, env);
    }
  }

  lemma Begun(s: State, c: ConnId, preamble: string, chunks: seq<string>, env: Env) returns (f: SyncFate)
    requires Wired(s.desk) && Enabled(s, DispatchStream(c, preamble, chunks))
    ensures var s' := Apply(s, DispatchStream(c, preamble, chunks), env);
            f == Going(0) && c in s'.conns && Tracked(f, s'.conns[c], Directs(s.conns[c]), preamble, chunks, [], c)
  {
    f := Going(0);
    var log := Directs(s.conns[c]);
    ProjectWrite(s.conns[c], Direct, Preamble(preamble), env, Direct);
    assert (log + [Preamble(preamble)])[|log|..] == [Preamble(preamble)];
    NonRepliesAppend([], Preamble(preamble));
    assert [] + [Preamble(preamble)] == [Preamble(preamble)];
    assert chunks[..0] == [] && chunks[0..] == chunks;
    assert StreamLog(preamble, []) == [Preamble(preamble)];
  }

  // ---- what a reader of the wire sees ----

  /** The direct items written on the connection after a state of its wire, replies left out. */
  function ItemsSince(k: Conn, log: seq<Body>): seq<Body>
    requires log <= Directs(k)
  {
    NonReplies(Directs(k)[|log|..])
  }

  /** Chunks, or the end, are missing, and what stands in their place is another stream's preamble. */
  ghost predicate Cut(items: seq<Body>, preamble: string, chunks: seq<string>) {
    exists j: nat, next: string :: j <= |chunks| && StreamLog(preamble, chunks[..j]) + [Preamble(next)] <= items
  }

  /** A preamble among the items that belong to a stream of so many chunks, after its own. */
  ghost predicate SecondPreamble(items: seq<Body>, n: nat) {
    exists i :: 1 <= i < |items| && i <= n + 1 && items[i].Preamble?
  }

  lemma CutHasSecondPreamble(items: seq<Body>, preamble: string, chunks: seq<string>)
    ensures Cut(items, preamble, chunks) ==> SecondPreamble(items, |chunks|)
  {
    if Cut(items, preamble, chunks) {
      var j: nat, next: string :| j <= |chunks| && StreamLog(preamble, chunks[..j]) + [Preamble(next)] <= items;
      var part := StreamLog(preamble, chunks[..j]) + [Preamble(next)];
      assert part[j + 1] == Preamble(next) && items[j + 1] == part[j + 1];
    }
  }

  lemma UnlostHasNone(f: SyncFate, k: Conn, items: seq<Body>, preamble: string, chunks: seq<string>)
    requires Shows(f, k, items, preamble, chunks) && !f.Lost?
    ensures !SecondPreamble(items, |chunks|)
  {
    if f.Finished? {
      var full := StreamLog(preamble, chunks) + [End];
      assert forall i | 1 <= i < |full| :: items[i] == full[i];
    }
  }

  lemma CutMeansLost(f: SyncFate, k: Conn, items: seq<Body>, preamble: string, chunks: seq<string>)
    requires Shows(f, k, items, preamble, chunks)
    ensures Cut(items, preamble, chunks) <==> f.Lost?
  {
    if !f.Lost? {
      UnlostHasNone(f, k, items, preamble, chunks);
      CutHasSecondPreamble(items, preamble, chunks);
    }
  }

  /**
   A synchronous stream loses its rest if and only if the first further stream dispatched on its
   connection finds its producer still installed: in no other run, and in no continuation of that one.
   */
  lemma SyncStreamLostIffOverrun(run: seq<Event>, c: ConnId, preamble: string, chunks: seq<string>,
                                 more: seq<Event>, env: Env, s: State, s': State)
    requires Exec(run, env) == Some(s) && Open(s, c)
    requires Exec(run + [DispatchStream(c, preamble, chunks)] + more, env) == Some(s')
    ensures c in s'.conns && Directs(s.conns[c]) <= Directs(s'.conns[c])
    ensures Cut(ItemsSince(s'.conns[c], Directs(s.conns[c])), preamble, chunks) <==>
            Overruns(run + [DispatchStream(c, preamble, chunks)], more, c, env)
  {
    hide Exec, Shows, Cut, NonReplies, Overruns, Directs;
    var f := SyncStreamFate(run, c, preamble, chunks, more, env, s, s');
    CutMeansLost(f, s'.conns[c], ItemsSince(s'.conns[c], Directs(s.conns[c])), preamble, chunks);
  }

  // ---- in one piece ----

  lemma {:induction false} NonRepliesShorter(bs: seq<Body>)
    ensures |NonReplies(bs)| <= |bs|
    ensures forall b <- NonReplies(bs) :: !b.Reply?
  {
    if bs != [] {
      NonRepliesShorter(bs[..|bs| - 1]);
    }
  }

  lemma {:induction false} NonRepliesOfPrefix(part: seq<Body>, bs: seq<Body>)
    requires part <= bs && forall b <- part :: !b.Reply?
    ensures |part| <= |NonReplies(bs)|
  {
    if bs != [] {
      if part == bs {
        assert !bs[|bs| - 1].Reply?;
        NonRepliesOfPrefix(part[..|part| - 1], bs[..|bs| - 1]);
      } else {
        NonRepliesOfPrefix(part, bs[..|bs| - 1]);
      }
    }
  }

  /** A synchronous reply was dispatched on the connection while a producer was installed. */
  ghost predicate Interrupted(base: seq<Event>, more: seq<Event>, c: ConnId, env: Env)
    decreases |more|
  {
    more != [] &&
    var init, e := more[..|more| - 1], more[|more| - 1];
    var before := Exec(base + init, env);
    || Interrupted(base, init, c, env)
    || (RepliesOn(e, c) && before.Some? && c in before.value.conns && before.value.conns[c].producer.Some?)
  }

  /** The stream's items stand in a row from its preamble on; after its end, other items may follow. */
  predicate Unbroken(k: Conn, tail: seq<Body>) {
    if k.producer.Some? then NonReplies(tail) == tail else NonReplies(tail) <= tail
  }

  /** A chunk, or the end. */
  lemma ItemOn(tail: seq<Body>, b: Body)
    requires !b.Reply?
    ensures NonReplies(tail + [b]) == tail + [b] <==> NonReplies(tail) == tail
    ensures NonReplies(tail + [b]) <= tail + [b] <==> NonReplies(tail) == tail
  {
    NonRepliesAppend(tail, b);
    NonRepliesShorter(tail);
    var items := NonReplies(tail) + [b];
    if items <= tail + [b] && |items| < |tail| + 1 {
      assert items <= tail;
      NonRepliesOfPrefix(items, tail);
    } else if items <= tail + [b] {
      assert items[..|tail|] == (tail + [b])[..|tail|];
    }
  }

  lemma ReplyOn(tail: seq<Body>, b: Body)
    requires b.Reply?
    ensures NonReplies(tail + [b]) != tail + [b]
    ensures NonReplies(tail + [b]) <= tail + [b] <==> NonReplies(tail) <= tail
  {
    NonRepliesAppend(tail, b);
    NonRepliesShorter(tail);
    assert NonReplies(tail + [b]) <= tail + [b] <==> NonReplies(tail) <= (tail + [b])[..|tail|];
  }

  /** One event later, with the connection still open and no further stream dispatched on it. */
  lemma UnbrokenOn(s: State, e: Event, c: ConnId, log: seq<Body>, env: Env)
    requires Wired(s.desk) && Enabled(s, e) && c in s.conns && !StreamsOn(e, c) && log <= Directs(s.conns[c])
    requires c in Apply(s, e, env).conns && Apply(s, e, env).conns[c].open
    ensures s.conns[c].open && log <= Directs(Apply(s, e, env).conns[c])
    ensures var k, k' := s.conns[c], Apply(s, e, env).conns[c];
            Unbroken(k', Directs(k')[|log|..]) <==>
            Unbroken(k, Directs(k)[|log|..]) && !(RepliesOn(e, c) && k.producer.Some?)
  {
    hide Wired, Enabled, Apply, NonReplies;
    ConnMoves(s, e, c, env);
    var k, k' := s.conns[c], Apply(s, e, env).conns[c];
    var tail := Directs(k)[|log|..];
    if RepliesOn(e, c) {
      var b := Reply(e.code, e.headers, e.text);
      ProjectWrite(k, Direct, b, env, Direct);
      TailAppend(Directs(k), log, Some(b));
      ReplyOn(tail, b);
    } else if e.DrainAndWrite? && e.c == c {
      var b := PumpWrites(Drain(k, e.n), env);
      TailAppend(Directs(k), log, b);
      if b.Some? { ItemOn(tail, b.value); }
    }
  }

  /** What a pump adds to the direct items. */
  lemma PumpWrites(k: Conn, env: Env) returns (b: Option<Body>)
    ensures Directs(PumpSync(k, env)) == Directs(k) + if b.Some? then [b.value] else []
    ensures b.Some? ==> !b.value.Reply? && k.producer.Some?
    ensures b.None? ==> PumpSync(k, env) == k
  {
    b := None;
    if k.producer.Some? && k.queued < env.io {
      b := Some(if k.producer.value == [] then End else Chunk(k.producer.value[0]));
      ProjectWrite(k, Direct, b.value, env, Direct);
    }
  }

  lemma {:induction false} UnbrokenIffUninterrupted(run: seq<Event>, c: ConnId, preamble: string, chunks: seq<string>,
                                                    more: seq<Event>, env: Env, s: State, s': State)
    requires Exec(run, env) == Some(s) && Open(s, c) && NoStream(more, c)
    requires Exec(run + [DispatchStream(c, preamble, chunks)] + more, env) == Some(s') && Open(s', c)
    ensures Directs(s.conns[c]) <= Directs(s'.conns[c])
    ensures Unbroken(s'.conns[c], Directs(s'.conns[c])[|Directs(s.conns[c])|..]) <==>
            !Interrupted(run + [DispatchStream(c, preamble, chunks)], more, c, env)
    decreases |more|
  {
    hide Exec, Apply, Wired, Enabled, NoStream, Tracked, Unbroken, Directs;
    var e := DispatchStream(c, preamble, chunks);
    var base, log := run + [e], Directs(s.conns[c]);
    if more == [] {
      assert base + more == base;
      ExecStep(run, e, env);
      BegunUnbroken(s, c, preamble, chunks, env);
    } else {
      var init, last := more[..|more| - 1], more[|more| - 1];
      assert base + more == (base + init) + [last] && more == init + [last];
      ExecStep(base + init, last, env);
      NoneMore(init, last, c);
      var m := Exec(base + init, env).value;
      var f := SyncStreamFate(run, c, preamble, chunks, init, env, s, m);
      TrackedTail(f, m.conns[c], log, preamble, chunks, init, c);
      UnbrokenOn(m, last, c, log, env);
      UnbrokenIffUninterrupted(run, c, preamble, chunks, init, env, s, m);
    }
  }

  lemma TrackedTail(f: SyncFate, k: Conn, log: seq<Body>, preamble: string, chunks: seq<string>,
                    more: seq<Event>, c: ConnId)
    requires Tracked(f, k, log, preamble, chunks, more, c)
    ensures log <= Directs(k)
  {
  }

  lemma BegunUnbroken(s: State, c: ConnId, preamble: string, chunks: seq<string>, env: Env)
    requires Wired(s.desk) && Enabled(s, DispatchStream(c, preamble, chunks))
    ensures var k', log := Apply(s, DispatchStream(c, preamble, chunks), env).conns[c], Directs(s.conns[c]);
            log <= Directs(k') && Unbroken(k', Directs(k')[|log|..])
  {
    var b := Preamble(preamble);
    ProjectWrite(s.conns[c], Direct, b, env, Direct);
    TailAppend(Directs(s.conns[c]), Directs(s.conns[c]), Some(b));
    NonRepliesAppend([], b);
    assert [] + [b] == [b];
  }

  // ---- delivery ----

  /**
   Until another stream comes the wire has the preamble and a prefix of the chunks, each once and in
   order; the producer holds exactly the rest and is gone exactly when all chunks and one terminator are
   out. Nothing stands between those items if and only if no synchronous reply was dispatched on the
   connection while the producer was installed.
   */
  lemma SyncDeliversInOrder(run: seq<Event>, c: ConnId, preamble: string, chunks: seq<string>,
                            more: seq<Event>, env: Env, s: State, s': State) returns (j: nat)
    requires Exec(run, env) == Some(s) && Open(s, c) && NoStream(more, c)
    requires Exec(run + [DispatchStream(c, preamble, chunks)] + more, env) == Some(s') && Open(s', c)
    ensures j <= |chunks| && Directs(s.conns[c]) <= Directs(s'.conns[c])
    ensures var k := s'.conns[c];
            && (if k.producer.None? then j == |chunks| else k.producer.value == chunks[j..])
            && ItemsSince(k, Directs(s.conns[c])) ==
               StreamLog(preamble, chunks[..j]) + if k.producer.None? then [End] else []
    ensures Unbroken(s'.conns[c], Directs(s'.conns[c])[|Directs(s.conns[c])|..]) <==>
            !Interrupted(run + [DispatchStream(c, preamble, chunks)], more, c, env)
  {
    hide Exec, NonReplies, Directs, NoStream, NoReply, Interrupted;
    UnbrokenIffUninterrupted(run, c, preamble, chunks, more, env, s, s');
    var f := SyncStreamFate(run, c, preamble, chunks, more, env, s, s');
    j := if f.Going? then f.j else |chunks|;
    if f.Going? {
      assert StreamLog(preamble, chunks[..j]) + [] == StreamLog(preamble, chunks[..j]);
    } else {
      assert chunks[..j] == chunks;
    }
  }

  // ---- how much goes out ----

  /** A drain of the connection that leaves less than the limit. */
  predicate DrainsBelow(s: State, e: Event, c: ConnId, env: Env) {
    e.DrainAndWrite? && e.c == c && c in s.conns && s.conns[c].queued - e.n < env.io
  }

  /** How many events of the continuation are one. */
  ghost function DrainsBelowLimit(base: seq<Event>, more: seq<Event>, c: ConnId, env: Env): nat
    decreases |more|
  {
    if more == [] then 0
    else
      var init, e := more[..|more| - 1], more[|more| - 1];
      var before := Exec(base + init, env);
      DrainsBelowLimit(base, init, c, env) + if before.Some? && DrainsBelow(before.value, e, c, env) then 1 else 0
  }

  function Min(a: nat, b: nat): nat {
    if a < b then a else b
  }

  /** What n items after the preamble are: chunks in order, and once these are out the end. */
  function FirstItems(preamble: string, chunks: seq<string>, n: nat): seq<Body> {
    StreamLog(preamble, chunks[..Min(n, |chunks|)]) + if n > |chunks| then [End] else []
  }

  predicate Counted(k: Conn, log: seq<Body>, preamble: string, chunks: seq<string>, n: nat) {
    && log <= Directs(k) && ItemsSince(k, log) == FirstItems(preamble, chunks, n)
    && k.producer == if n > |chunks| then None else Some(chunks[n..])
  }

  lemma OneItemMore(preamble: string, chunks: seq<string>, n: nat)
    requires n <= |chunks|
    ensures FirstItems(preamble, chunks, n + 1) ==
            FirstItems(preamble, chunks, n) + [if n < |chunks| then Chunk(chunks[n]) else End]
    ensures n < |chunks| ==> chunks[n..][0] == chunks[n] && chunks[n..][1..] == chunks[n + 1..]
  {
    GoesOn(n, chunks[n..], preamble, chunks);
    assert StreamLog(preamble, chunks[..n]) + [] == StreamLog(preamble, chunks[..n]);
    if n < |chunks| {
      assert StreamLog(preamble, chunks[..n + 1]) + [] == StreamLog(preamble, chunks[..n + 1]);
    }
  }

  lemma PumpCounts(k: Conn, n: nat, log: seq<Body>, preamble: string, chunks: seq<string>, m: nat, env: Env)
    requires n <= k.queued && Counted(k, log, preamble, chunks, m)
    ensures var m' := if k.queued - n < env.io then m + 1 else m;
            Counted(PumpSync(Drain(k, n), env), log, preamble, chunks, m')
  {
    hide NonReplies, Directs, FirstItems;
    var k' := Drain(k, n);
    assert Directs(k') == Directs(k) by { SameWire(k, k'); }
    if k'.queued < env.io {
      if m <= |chunks| {
        OneItemMore(preamble, chunks, m);
        var b := if m < |chunks| then Chunk(chunks[m]) else End;
        WriteDirects(k', b, env);
        TailAppend(Directs(k), log, Some(b));
      } else {
        AllOut(preamble, chunks, m);
      }
    }
  }

  lemma SameWire(k: Conn, k': Conn)
    requires k'.wire == k.wire
    ensures Directs(k') == Directs(k)
  {
  }

  lemma AllOut(preamble: string, chunks: seq<string>, n: nat)
    requires n > |chunks|
    ensures FirstItems(preamble, chunks, n + 1) == FirstItems(preamble, chunks, n)
  {
  }

  lemma CountOn(s: State, e: Event, c: ConnId, log: seq<Body>, preamble: string, chunks: seq<string>, n: nat, env: Env)
    requires Wired(s.desk) && Enabled(s, e) && c in s.conns && !StreamsOn(e, c)
    requires s.conns[c].open ==> Counted(s.conns[c], log, preamble, chunks, n)
    requires c in Apply(s, e, env).conns && Apply(s, e, env).conns[c].open
    ensures s.conns[c].open
    ensures Counted(Apply(s, e, env).conns[c], log, preamble, chunks, n + if DrainsBelow(s, e, c, env) then 1 else 0)
  {
    hide Wired, Enabled, Apply, NonReplies, FirstItems, PumpSync;
    ConnMoves(s, e, c, env);
    var k := s.conns[c];
    if RepliesOn(e, c) {
      var b := Reply(e.code, e.headers, e.text);
      ProjectWrite(k, Direct, b, env, Direct);
      TailAppend(Directs(k), log, Some(b));
    } else if e.DrainAndWrite? && e.c == c {
      PumpCounts(k, e.n, log, preamble, chunks, n, env);
    }
  }

  lemma FirstCount(s: State, c: ConnId, preamble: string, chunks: seq<string>, env: Env)
    requires Wired(s.desk) && Enabled(s, DispatchStream(c, preamble, chunks))
    ensures var s' := Apply(s, DispatchStream(c, preamble, chunks), env);
            c in s'.conns && Counted(s'.conns[c], Directs(s.conns[c]), preamble, chunks, 0)
  {
    var f := Begun(s, c, preamble, chunks, env);
    assert chunks[..0] == [] && StreamLog(preamble, []) + [] == StreamLog(preamble, []);
  }

  /**
   While no further stream is dispatched on its open connection, exactly one item follows the preamble
   for each drain of the connection that left less than the limit, chunks in order and then the end, as
   long as there are any; a drain that left the limit or more, and any other event, adds none.
   */
  lemma {:induction false} OneItemADrain(run: seq<Event>, c: ConnId, preamble: string, chunks: seq<string>,
                                         more: seq<Event>, env: Env, s: State, s': State)
    requires Exec(run, env) == Some(s) && Open(s, c) && NoStream(more, c)
    requires Exec(run + [DispatchStream(c, preamble, chunks)] + more, env) == Some(s') && Open(s', c)
    ensures var k := DrainsBelowLimit(run + [DispatchStream(c, preamble, chunks)], more, c, env);
            Counted(s'.conns[c], Directs(s.conns[c]), preamble, chunks, k)
    decreases |more|
  {
    hide Exec, Apply, Wired, Enabled, NoStream, Counted, DrainsBelow, Directs;
    var e := DispatchStream(c, preamble, chunks);
    var base := run + [e];
    if more == [] {
      assert base + more == base;
      ExecStep(run, e, env);
      FirstCount(s, c, preamble, chunks, env);
    } else {
      var init, last := more[..|more| - 1], more[|more| - 1];
      assert base + more == (base + init) + [last] && more == init + [last];
      ExecStep(base + init, last, env);
      NoneMore(init, last, c);
      var m := Exec(base + init, env).value;
      var f := SyncStreamFate(run, c, preamble, chunks, init, env, s, m);
      if Open(m, c) { OneItemADrain(run, c, preamble, chunks, init, env, s, m); }
      CountOn(m, last, c, Directs(s.conns[c]), preamble, chunks, DrainsBelowLimit(base, init, c, env), env);
    }
  }

  // ---- synchronous replies ----

  /** The replies synchronous listeners gave on a connection, in the order of their dispatches. */
  function RepliesGiven(run: seq<Event>, c: ConnId): seq<Body> {
    if run == [] then []
    else
      match run[|run| - 1]
      case DispatchReply(c', code, headers, text) =>
        RepliesGiven(run[..|run| - 1], c) + if c' == c then [Reply(code, headers, text)] else []
      case _ => RepliesGiven(run[..|run| - 1], c)
  }

  function OnlyReplies(bs: seq<Body>): seq<Body> {
    if bs == [] then []
    else
      var b := bs[|bs| - 1];
      OnlyReplies(bs[..|bs| - 1]) + if b.Reply? then [b] else []
  }

  lemma OnlyRepliesAppend(bs: seq<Body>, b: Body)
    ensures OnlyReplies(bs + [b]) == OnlyReplies(bs) + if b.Reply? then [b] else []
  {
    assert (bs + [b])[..|bs|] == bs;
  }

  lemma StepReplies(s: State, e: Event, c: ConnId, env: Env)
    requires Wired(s.desk) && Enabled(s, e) && c in s.conns
    ensures c in Apply(s, e, env).conns
    ensures OnlyReplies(Directs(Apply(s, e, env).conns[c])) ==
            OnlyReplies(Directs(s.conns[c])) + if RepliesOn(e, c) then [Reply(e.code, e.headers, e.text)] else []
  {
    hide Wired, Enabled, Apply, OnlyReplies, PumpSync, StartSync;
    ConnMoves(s, e, c, env);
    var k, k' := s.conns[c], Apply(s, e, env).conns[c];
    if StreamsOn(e, c) {
      StartDirects(k, e.preamble, e.chunks, env);
      OnlyRepliesAppend(Directs(k), Preamble(e.preamble));
    } else if RepliesOn(e, c) {
      var b := Reply(e.code, e.headers, e.text);
      WriteDirects(k, b, env);
      OnlyRepliesAppend(Directs(k), b);
    } else if e.DrainAndWrite? && e.c == c {
      var b := PumpWrites(Drain(k, e.n), env);
      if b.Some? { OnlyRepliesAppend(Directs(k), b.value); }
    }
  }

  lemma StartDirects(k: Conn, preamble: string, chunks: seq<string>, env: Env)
    ensures Directs(StartSync(k, preamble, chunks, env)) == Directs(k) + [Preamble(preamble)]
  {
    WriteDirects(k, Preamble(preamble), env);
  }

  lemma NotYetReplying(s: State, e: Event, c: ConnId, env: Env)
    requires Wired(s.desk) && Enabled(s, e) && c !in s.conns
    ensures !RepliesOn(e, c)
    ensures c in Apply(s, e, env).conns ==> Apply(s, e, env).conns[c] == NEW_CONN
  {
  }

  /** In every run each of them is on the wire once, in that order, and no other reply for no request is. */
  lemma {:induction false} RepliesAreGiven(run: seq<Event>, env: Env, s: State, c: ConnId)
    requires Exec(run, env) == Some(s)
    ensures if c in s.conns then OnlyReplies(Directs(s.conns[c])) == RepliesGiven(run, c)
            else RepliesGiven(run, c) == []
  {
    if run != [] {
      hide Apply, Wired, Enabled, OnlyReplies, Directs;
      var m, e := ExecLast(run, env);
      RepliesAreGiven(run[..|run| - 1], env, m, c);
      if c in m.conns {
        StepReplies(m, e, c, env);
      } else {
        NotYetReplying(m, e, c, env);
        if c in s.conns { NothingDirect(); }
      }
    }
  }

  lemma NothingDirect()
    ensures OnlyReplies(Directs(NEW_CONN)) == []
  {
  }

  // ---- waiting and finishing ----

  predicate HasDrainComing(k: Conn) {
    k.producer.Some? ==> k.queued > 0
  }

  lemma StepKeepsDrain(s: State, e: Event, c: ConnId, env: Env)
    requires env.io > 0 && Wired(s.desk) && Enabled(s, e) && c in Apply(s, e, env).conns
    requires c in s.conns ==> HasDrainComing(s.conns[c])
    ensures HasDrainComing(Apply(s, e, env).conns[c])
  {
    hide Wired, Directs;
    if c in s.conns {
      hide Apply;
      ConnMoves(s, e, c, env);
    }
  }

  /** In every run, on an open connection, a producer has a write event coming, given a limit above zero. */
  lemma {:induction false} NoProducerIsStranded(run: seq<Event>, env: Env, s: State, c: ConnId)
    requires env.io > 0 && Exec(run, env) == Some(s) && c in s.conns
    ensures HasDrainComing(s.conns[c])
  {
    hide Apply, Wired, Enabled, HasDrainComing;
    var m, e := ExecLast(run, env);
    if c in m.conns { NoProducerIsStranded(run[..|run| - 1], env, m, c); }
    StepKeepsDrain(m, e, c, env);
  }

  /** No chunk has left the producer. */
  predicate Untaken(k: Conn, chunks: seq<string>) {
    k.open ==> k.producer == Some(chunks)
  }

  lemma StepTakesNothing(s: State, e: Event, c: ConnId, chunks: seq<string>, env: Env)
    requires env.io == 0 && Wired(s.desk) && Enabled(s, e) && c in s.conns && !StreamsOn(e, c)
    requires Untaken(s.conns[c], chunks)
    ensures c in Apply(s, e, env).conns && Untaken(Apply(s, e, env).conns[c], chunks)
  {
    hide Apply, Wired, Enabled, Directs;
    ConnMoves(s, e, c, env);
  }

  /** With a limit of zero no run ever takes a chunk from a producer. */
  lemma {:induction false} NoLimitNoChunk(run: seq<Event>, c: ConnId, preamble: string, chunks: seq<string>,
                                          more: seq<Event>, env: Env, s: State, s': State)
    requires env.io == 0 && Exec(run, env) == Some(s) && Open(s, c) && NoStream(more, c)
    requires Exec(run + [DispatchStream(c, preamble, chunks)] + more, env) == Some(s')
    ensures c in s'.conns && Untaken(s'.conns[c], chunks)
    decreases |more|
  {
    hide Exec, Apply, Wired, Enabled, NoStream, Untaken;
    var e := DispatchStream(c, preamble, chunks);
    var base := run + [e];
    if more == [] {
      assert base + more == base;
      ExecStep(run, e, env);
      FirstUntaken(s, c, preamble, chunks, env);
    } else {
      var init, last := more[..|more| - 1], more[|more| - 1];
      assert base + more == (base + init) + [last] && more == init + [last];
      ExecStep(base + init, last, env);
      NoneMore(init, last, c);
      var m := Exec(base + init, env).value;
      NoLimitNoChunk(run, c, preamble, chunks, init, env, s, m);
      StepTakesNothing(m, last, c, chunks, env);
    }
  }

  lemma FirstUntaken(s: State, c: ConnId, preamble: string, chunks: seq<string>, env: Env)
    requires Wired(s.desk) && Enabled(s, DispatchStream(c, preamble, chunks))
    ensures var s' := Apply(s, DispatchStream(c, preamble, chunks), env);
            c in s'.conns && Untaken(s'.conns[c], chunks)
  {
  }

  /** From every reachable state, one full drain for each chunk left and one more finish a stream. */
  lemma {:induction false} SyncStreamCanFinish(run: seq<Event>, env: Env, s: State, c: ConnId)
    returns (more: seq<Event>, s': State)
    requires env.io > 0 && Exec(run, env) == Some(s) && Open(s, c)
    ensures Exec(run + more, env) == Some(s') && Open(s', c) && s'.conns[c].producer.None?
    ensures NoStream(more, c) && NoReply(more, c)
    ensures |more| == if s.conns[c].producer.None? then 0 else |s.conns[c].producer.value| + 1
    decreases if s.conns[c].producer.None? then 0 else |s.conns[c].producer.value| + 1
  {
    hide Exec, Apply, Wired, Enabled, Sane, PumpSync, NoStream, NoReply;
    if s.conns[c].producer.None? {
      more, s' := [], s;
      NoneAtAll(c);
      assert run + more == run;
    } else {
      var e, s1 := OneChunkOn(run, env, s, c);
      var rest;
      rest, s' := SyncStreamCanFinish(run + [e], env, s1, c);
      more := [e] + rest;
      assert run + [e] + rest == run + more;
      NoneFirst(e, rest, c);
    }
  }

  lemma NoneAtAll(c: ConnId)
    ensures NoStream([], c) && NoReply([], c)
  {
  }

  lemma OneChunkOn(run: seq<Event>, env: Env, s: State, c: ConnId) returns (e: Event, s': State)
    requires env.io > 0 && Exec(run, env) == Some(s) && Open(s, c) && s.conns[c].producer.Some?
    ensures e.DrainAndWrite? && Exec(run + [e], env) == Some(s') && Open(s', c)
    ensures s'.conns[c].producer ==
            if s.conns[c].producer.value == [] then None else Some(s.conns[c].producer.value[1..])
  {
    hide Exec, Apply, Wired, Enabled, Sane, PumpSync;
    NoProducerIsStranded(run, env, s, c);
    RunsAreSane(run, env);
    e := DrainAndWrite(c, s.conns[c].queued);
    DrainTakesOne(s, c, env);
    ExecStep(run, e, env);
    s' := Apply(s, e, env);
  }

  lemma NoneFirst(e: Event, rest: seq<Event>, c: ConnId)
    requires e.DrainAndWrite? && NoStream(rest, c) && NoReply(rest, c)
    ensures NoStream([e] + rest, c) && NoReply([e] + rest, c)
  {
    assert forall x :: x in [e] + rest <==> x == e || x in rest;
  }

  lemma DrainTakesOne(s: State, c: ConnId, env: Env)
    requires Sane(s) && env.io > 0 && Open(s, c) && s.conns[c].queued > 0 && s.conns[c].producer.Some?
    ensures Wired(s.desk) && Enabled(s, DrainAndWrite(c, s.conns[c].queued))
    ensures var s' := Apply(s, DrainAndWrite(c, s.conns[c].queued), env);
            Open(s', c) &&
            s'.conns[c].producer ==
            if s.conns[c].producer.value == [] then None else Some(s.conns[c].producer.value[1..])
  {
    hide Project;
    ConnMoves(s, DrainAndWrite(c, s.conns[c].queued), c, env);
  }

  // ---- both paths write the same ----

  /**
   A finished synchronous stream of one run and a completed asynchronous one of another, or the same,
   with the same preamble and chunks, put the same items in the same order on the wire.
   */
  lemma PathsAgree(run: seq<Event>, env: Env, s: State, id: ReqId,
                   run2: seq<Event>, c: ConnId, more: seq<Event>, s2: State, s2': State)
    requires Exec(run, env) == Some(s) && Known(s, id)
    requires id in s.desk.streams && s.desk.streams[id].state == StreamState.Completed
    requires Exec(run2, env) == Some(s2) && Open(s2, c) && NoStream(more, c)
    requires var h := CallsOf(run, id);
             Exec(run2 + [DispatchStream(c, h.preamble, h.chunks)] + more, env) == Some(s2')
    requires Open(s2', c) && s2'.conns[c].producer.None?
    ensures Directs(s2.conns[c]) <= Directs(s2'.conns[c])
    ensures ItemsSince(s2'.conns[c], Directs(s2.conns[c])) == SlotOf(s, id).log
    ensures var h := CallsOf(run, id);
            !Interrupted(run2 + [DispatchStream(c, h.preamble, h.chunks)], more, c, env) <==>
            Directs(s2.conns[c]) + SlotOf(s, id).log <= Directs(s2'.conns[c])
    ensures Render(SlotOf(s, id).log, env) == CallsOf(run, id).preamble + Encode(CallsOf(run, id).chunks)
  {
    hide Exec, NonReplies, Directs, NoStream, Interrupted, Render, Encode, StreamLog, CallsOf;
    var h := CallsOf(run, id);
    DeliveredInOrder(run, env, s, id);
    var j := SyncDeliversInOrder(run2, c, h.preamble, h.chunks, more, env, s2, s2');
    assert h.chunks[..j] == h.chunks;
    PrefixOfTail(Directs(s2.conns[c]), SlotOf(s, id).log, Directs(s2'.conns[c]));
  }

  lemma PrefixOfTail(a: seq<Body>, b: seq<Body>, all: seq<Body>)
    requires a <= all
    ensures a + b <= all <==> b <= all[|a|..]
  {
    if b <= all[|a|..] {
      assert all == a + all[|a|..];
    }
  }

  /** What a recipient makes of a whole stream: its status line, its fields, and the coded body. */
  ghost predicate ReadsAs(bytes: string, code: int, reason: string, m: HT.Fields, body: string) {
    var r := TX.ReadPreamble(bytes);
    && r.Some? && r.value.version == "HTTP/1.1" && r.value.code == code && r.value.reason == reason
    && HT.Enumerates(r.value.fields, m) && r.value.body == body
  }

  /**
   And when the two preambles were printed from tables of the same history, in whatever order each
   table walks: a recipient of either stream reads the same status line, fields and body.
   */
  lemma PathsReadAlike(run: seq<Event>, env: Env, s: State, id: ReqId,
                       run2: seq<Event>, c: ConnId, more: seq<Event>, s2: State, s2': State,
                       us: seq<HT.Update>, encoding: string, es: seq<HT.Entry>, es2: seq<HT.Entry>,
                       code: int, reason: string)
    requires Exec(run, env) == Some(s) && Known(s, id)
    requires id in s.desk.streams && s.desk.streams[id].state == StreamState.Completed
    requires CallsOf(run, id).preamble == TX.PreambleText(code, reason, es)
    requires Exec(run2, env) == Some(s2) && Open(s2, c) && NoStream(more, c)
    requires var next := DispatchStream(c, TX.PreambleText(code, reason, es2), CallsOf(run, id).chunks);
             Exec(run2 + [next] + more, env) == Some(s2')
    requires Open(s2', c) && s2'.conns[c].producer.None?
    requires var m := TX.StreamFields(HT.Replay(us), encoding); HT.Enumerates(es, m) && HT.Enumerates(es2, m)
    requires TX.Absent(reason, '\r', '\n') && forall e <- es :: TX.Clean(e)
    ensures Directs(s2.conns[c]) <= Directs(s2'.conns[c])
    ensures var m, body := TX.StreamFields(HT.Replay(us), encoding), Encode(CallsOf(run, id).chunks);
            && ReadsAs(Render(SlotOf(s, id).log, env), code, reason, m, body)
            && ReadsAs(Render(ItemsSince(s2'.conns[c], Directs(s2.conns[c])), env), code, reason, m, body)
  {
    hide Exec, NonReplies, Directs, NoStream, Interrupted, Render, Encode, StreamLog, CallsOf;
    hide TX.ReadPreamble, TX.PreambleText, TX.StatusLine, TX.StreamFields, TX.Absent, TX.Clean, HT.Enumerates, HT.Replay;
    var sent := CallsOf(run, id).chunks;
    DeliveredInOrder(run, env, s, id);
    var j := SyncDeliversInOrder(run2, c, TX.PreambleText(code, reason, es2), sent, more, env, s2, s2');
    assert sent[..j] == sent;
    RenderStream(TX.PreambleText(code, reason, es2), sent, env);
    TX.StreamPreambleReadsBack(us, encoding, es, code, reason, Encode(sent));
    SameEntries(es, es2, TX.StreamFields(HT.Replay(us), encoding));
    TX.StreamPreambleReadsBack(us, encoding, es2, code, reason, Encode(sent));
  }

  lemma SameEntries(es: seq<HT.Entry>, es2: seq<HT.Entry>, m: HT.Fields)
    requires HT.Enumerates(es, m) && HT.Enumerates(es2, m)
    ensures forall e <- es2 :: e in es
  {
  }

  // ---- a stream does get lost ----

  /** Two streams dispatched one after the other on a fresh connection: of the first only the preamble is sent. */
  lemma OverrunHappens(env: Env) returns (base: seq<Event>, more: seq<Event>, s: State)
    ensures base == [Accept(0), DispatchStream(0, "p", ["x"])] && more == [DispatchStream(0, "q", [])]
    ensures Exec(base + more, env) == Some(s) && Overruns(base, more, 0, env)
    ensures 0 in s.conns && Directs(s.conns[0]) == [Preamble("p"), Preamble("q")] && s.conns[0].producer == Some([])
  {
    hide Exec, Apply, Enabled, Wired, Directs;
    base, more := [Accept(0), DispatchStream(0, "p", ["x"])], [DispatchStream(0, "q", [])];
    var s2 := FirstDispatched(env);
    assert base == [Accept(0)] + [DispatchStream(0, "p", ["x"])];
    SecondDispatched(s2, env);
    s := Apply(s2, DispatchStream(0, "q", []), env);
    ExecStep(base, DispatchStream(0, "q", []), env);
    assert more[..0] == [] && base + [] == base;
  }

  lemma SecondDispatched(s: State, env: Env)
    requires Wired(s.desk) && Open(s, 0) && Directs(s.conns[0]) == [Preamble("p")]
    ensures Enabled(s, DispatchStream(0, "q", []))
    ensures var s' := Apply(s, DispatchStream(0, "q", []), env);
            0 in s'.conns && Directs(s'.conns[0]) == [Preamble("p"), Preamble("q")] && s'.conns[0].producer == Some([])
  {
    hide Wired;
    ProjectWrite(s.conns[0], Direct, Preamble("q"), env, Direct);
  }

  lemma FirstDispatched(env: Env) returns (s: State)
    ensures Exec([Accept(0)] + [DispatchStream(0, "p", ["x"])], env) == Some(s)
    ensures Wired(s.desk) && Open(s, 0) && s.conns[0].producer == Some(["x"]) && Directs(s.conns[0]) == [Preamble("p")]
  {
    var s1 := Apply(INIT, Accept(0), env);
    s := Apply(s1, DispatchStream(0, "p", ["x"]), env);
    ExecStep([], Accept(0), env);
    assert [] + [Accept(0)] == [Accept(0)];
    ExecStep([Accept(0)], DispatchStream(0, "p", ["x"]), env);
    ProjectWrite(NEW_CONN, Direct, Preamble("p"), env, Direct);
  }
}
