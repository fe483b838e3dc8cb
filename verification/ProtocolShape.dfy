/** What every run keeps, calm or not: ids, maps, wakeups and wire tags fit together. */
module ProtocolShape {
  import opened Connections
  import opened AsyncResponses
  import opened Desks
  import opened Protocol

  predicate InsideStream(pc: Pc) {
    !(pc.Ready? || pc.SendChecked? || pc.SendWritten? || pc.SendPosted? || pc.SendRefused? || pc.Done?)
  }

  /** Ids are issued in order and never reused; each has a response on a known connection and a worker. */
  ghost predicate IdsFit(s: State) {
    && (forall id: ReqId :: id in s.desk.responses <==> id < s.desk.counter)
    && (forall id: ReqId :: id in s.workers <==> id < s.desk.counter)
    && (forall id | id in s.desk.responses :: s.desk.responses[id].conn in s.conns)
    && (forall id | id in s.desk.streams :: id in s.desk.responses && s.desk.streams[id].conn == s.desk.responses[id].conn)
    && (forall id | id in s.workers && InsideStream(s.workers[id].pc) :: id in s.desk.streams)
    && (forall id | id in s.desk.responses && s.desk.responses[id].state == Streaming :: id in s.desk.streams)
  }

  /** A pending id stands under its own open connection, in one map only. */
  ghost predicate BooksFit(s: State) {
    && (forall id | id in s.desk.pendingResponses ::
          && id in s.desk.responses && s.desk.responses[id].conn == s.desk.pendingResponses[id]
          && Open(s, s.desk.pendingResponses[id])
          && id !in s.desk.pendingStreams)
    && (forall id | id in s.desk.pendingStreams ::
          && id in s.desk.streams && s.desk.streams[id].conn == s.desk.pendingStreams[id]
          && Open(s, s.desk.pendingStreams[id]))
  }

  ghost predicate WakeupsFit(s: State) {
    forall c, id | (c, id) in s.wakeups :: id in s.desk.responses && s.desk.responses[id].conn == c
  }

  /** Everything on the wire of c tagged with a request belongs to a request of c. */
  ghost predicate WireFits(wire: seq<Item>, c: ConnId, d: Desk) {
    forall it <- wire | it.owner.Request? :: it.owner.id in d.responses && d.responses[it.owner.id].conn == c
  }

  ghost predicate WiresFit(s: State) {
    forall c | c in s.conns :: WireFits(s.conns[c].wire, c, s.desk)
  }

  ghost predicate Sane(s: State) {
    IdsFit(s) && BooksFit(s) && WakeupsFit(s) && WiresFit(s)
  }

  /** What a worker's own step keeps of its own parts. */
  lemma StepShape(l: Local, a: Step, alive: bool)
    requires CanStep(l, a)
    requires InsideStream(l.w.pc) || l.r.state == Streaming ==> l.v.Some?
    requires l.v.Some? ==> l.v.value.conn == l.r.conn
    ensures var l' := TakeStep(l, a, alive);
            && l'.r.conn == l.r.conn
            && (l.v.Some? ==> l'.v.Some?)
            && (l'.v.Some? ==> l'.v.value.conn == l.r.conn)
            && (InsideStream(l'.w.pc) || l'.r.state == Streaming ==> l'.v.Some?)
  {
  }

  /** New values for one request's parts, and perhaps one more wakeup for it. */
  lemma LocalKeepsSane(s: State, id: ReqId, l: Local, posts: bool)
    requires Sane(s) && Issued(s, id) && l.r.conn == s.desk.responses[id].conn
    requires id in s.desk.streams ==> l.v.Some?
    requires l.v.Some? ==> l.v.value.conn == l.r.conn
    requires InsideStream(l.w.pc) || l.r.state == Streaming ==> l.v.Some?
    ensures Sane(Commit(s, id, l, posts))
  {
    hide IdsFit, BooksFit;
    LocalKeepsIds(s, id, l);
    LocalKeepsBooks(s, id, l);
    var s' := SetLocal(s, id, l);
    forall c | c in s'.conns ensures WireFits(s'.conns[c].wire, c, s'.desk) {
      assert WireFits(s.conns[c].wire, c, s.desk);
    }
    if posts {
      PostKeepsSane(s', id);
    }
  }

  lemma LocalKeepsIds(s: State, id: ReqId, l: Local)
    requires IdsFit(s) && Issued(s, id) && l.r.conn == s.desk.responses[id].conn
    requires l.v.Some? ==> l.v.value.conn == l.r.conn
    requires InsideStream(l.w.pc) || l.r.state == Streaming ==> l.v.Some?
    ensures IdsFit(SetLocal(s, id, l))
  {
  }

  lemma LocalKeepsBooks(s: State, id: ReqId, l: Local)
    requires IdsFit(s) && BooksFit(s) && Issued(s, id) && l.r.conn == s.desk.responses[id].conn
    requires l.v.Some? ==> l.v.value.conn == l.r.conn
    ensures BooksFit(SetLocal(s, id, l))
  {
  }

  lemma PostKeepsSane(s: State, id: ReqId)
    requires Sane(s) && Issued(s, id)
    ensures Sane(Post(s, s.desk.responses[id].conn, id))
  {
    var c := s.desk.responses[id].conn;
    forall c', i | (c', i) in Post(s, c, id).wakeups ensures i in s.desk.responses && s.desk.responses[i].conn == c' {
      assert (c', i) in s.wakeups || (i == id && c' == c);
    }
  }

  lemma WorkKeepsSane(s: State, id: ReqId, a: Step)
    requires Sane(s) && Issued(s, id) && CanStep(LocalOf(s, id), a)
    ensures Sane(ApplyWork(s, id, a))
  {
    var l := LocalOf(s, id);
    StepShape(l, a, s.alive);
    LocalKeepsSane(s, id, TakeStep(l, a, s.alive), Posts(a, s.alive));
  }

  lemma KeepsWires(s: State, s': State, c: ConnId, owner: Owner)
    requires WiresFit(s) && c in s.conns && s'.conns.Keys == s.conns.Keys
    requires forall i | i in s.desk.responses ::
               i in s'.desk.responses && s'.desk.responses[i].conn == s.desk.responses[i].conn
    requires forall c' | c' in s.conns && c' != c :: s'.conns[c'].wire == s.conns[c'].wire
    requires forall it <- s'.conns[c].wire :: it in s.conns[c].wire || it.owner == owner
    requires owner.Request? ==> owner.id in s.desk.responses && s.desk.responses[owner.id].conn == c
    ensures WiresFit(s')
  {
    forall c' | c' in s'.conns ensures WireFits(s'.conns[c'].wire, c', s'.desk) {
      assert WireFits(s.conns[c'].wire, c', s.desk);
    }
  }

  lemma AcceptKeepsSane(s: State, e: Event, env: Env)
    requires Sane(s) && Wired(s.desk) && Enabled(s, e) && e.Accept?
    ensures Sane(Apply(s, e, env))
  {
    var s' := Apply(s, e, env);
    forall c | c in s'.conns ensures WireFits(s'.conns[c].wire, c, s'.desk) {
      assert c in s.conns ==> WireFits(s.conns[c].wire, c, s.desk);
    }
    assert forall c | Open(s, c) :: Open(s', c);
  }

  lemma DispatchKeepsSane(s: State, c: ConnId)
    requires Sane(s) && Open(s, c)
    ensures Sane(Dispatch(s, c))
  {
    DispatchKeepsIds(s, c);
    DispatchKeepsBooks(s, c);
    DispatchKeepsWires(s, c);
  }

  lemma DispatchKeepsIds(s: State, c: ConnId)
    requires IdsFit(s) && Open(s, c)
    ensures IdsFit(Dispatch(s, c))
  {
    assert s.desk.counter !in s.desk.responses && s.desk.counter !in s.desk.streams;
  }

  lemma DispatchKeepsBooks(s: State, c: ConnId)
    requires IdsFit(s) && BooksFit(s) && Open(s, c)
    ensures BooksFit(Dispatch(s, c))
  {
    hide BooksFit;
    assert s.desk.counter !in s.desk.responses;
    BooksGrow(s, Dispatch(s, c), s.desk.counter, c);
  }

  lemma BooksGrow(s: State, s': State, n: ReqId, c: ConnId)
    requires IdsFit(s) && BooksFit(s) && n !in s.desk.responses && Open(s', c)
    requires s'.desk.pendingResponses == s.desk.pendingResponses[n := c] && s'.desk.pendingStreams == s.desk.pendingStreams
    requires s'.desk.streams == s.desk.streams && n in s'.desk.responses && s'.desk.responses[n].conn == c
    requires forall i | i in s.desk.responses :: i in s'.desk.responses && s'.desk.responses[i] == s.desk.responses[i]
    requires forall c' | Open(s, c') :: Open(s', c')
    ensures BooksFit(s')
  {
  }

  lemma DispatchKeepsWires(s: State, c: ConnId)
    requires IdsFit(s) && WakeupsFit(s) && WiresFit(s) && Open(s, c)
    ensures WakeupsFit(Dispatch(s, c)) && WiresFit(Dispatch(s, c))
  {
    KeepsWires(s, Dispatch(s, c), c, Direct);
  }

  lemma DispatchSyncKeepsSane(s: State, e: Event, env: Env)
    requires Sane(s) && Wired(s.desk) && Enabled(s, e) && (e.DispatchReply? || e.DispatchStream?)
    ensures Sane(Apply(s, e, env))
  {
    var s' := Apply(s, e, env);
    KeepsWires(s, s', e.c, Direct);
    assert forall c | Open(s, c) :: Open(s', c);
  }

  /** Books that only lose entries, of connections still open. */
  lemma BooksShrink(s: State, s': State)
    requires BooksFit(s)
    requires s'.desk.responses.Keys == s.desk.responses.Keys && s'.desk.streams.Keys == s.desk.streams.Keys
    requires forall i | i in s.desk.responses :: s'.desk.responses[i].conn == s.desk.responses[i].conn
    requires forall i | i in s.desk.streams :: s'.desk.streams[i].conn == s.desk.streams[i].conn
    requires forall i | i in s'.desk.pendingResponses ::
               Has(s.desk.pendingResponses, s'.desk.pendingResponses[i], i) && Open(s', s'.desk.pendingResponses[i])
    requires forall i | i in s'.desk.pendingStreams ::
               Has(s.desk.pendingStreams, s'.desk.pendingStreams[i], i) && Open(s', s'.desk.pendingStreams[i])
    ensures BooksFit(s')
  {
  }

  lemma PumpKeepsSane(s: State, c: ConnId, k: Conn, env: Env)
    requires Sane(s) && Open(s, c)
    requires k.open && (forall it <- k.wire :: it in s.conns[c].wire || it.owner == Direct)
    ensures Sane(SetLoop(s, c, PumpStreams(s.desk, k.queued, env), k))
  {
    hide WiresFit, IdsFit;
    var s' := SetLoop(s, c, PumpStreams(s.desk, k.queued, env), k);
    LoopKeepsIds(s, s');
    BooksShrink(s, s');
    KeepsWires(s, s', c, Direct);
  }

  lemma {:induction false} ErrorRepliesWire(k: Conn, order: seq<ReqId>, env: Env)
    ensures var k' := ReplyErrors(k, order, env);
            && k'.open == k.open && k'.producer == k.producer && k'.dispatched == k.dispatched
            && k'.queued >= k.queued
            && (forall it <- k'.wire ::
                  it in k.wire || (it.owner.Request? && it.owner.id in order && it.body == SERVER_ERROR))
  {
    if order != [] {
      ErrorRepliesWire(k, order[..|order| - 1], env);
    }
  }

  lemma PollKeepsWires(s: State, s': State, c: ConnId, order: seq<ReqId>, env: Env)
    requires WiresFit(s) && c in s.conns && s'.desk.responses == s.desk.responses
    requires s'.conns == s.conns[c := ReplyErrors(s.conns[c], order, env)]
    requires forall id <- order :: id in s.desk.responses && s.desk.responses[id].conn == c
    ensures WiresFit(s')
  {
    ErrorRepliesWire(s.conns[c], order, env);
    forall c' | c' in s'.conns ensures WireFits(s'.conns[c'].wire, c', s'.desk) {
      assert WireFits(s.conns[c'].wire, c', s.desk);
    }
  }

  lemma PollKeepsSane(s: State, c: ConnId, order: seq<ReqId>, env: Env)
    requires Sane(s) && Wired(s.desk) && Open(s, c) && Lists(order, Swept(s.desk, c))
    ensures var (d, k) := HandlePoll(s.desk, c, order, s.conns[c], env);
            Sane(SetLoop(s, c, d, k))
  {
    hide IdsFit, WiresFit, ReplyErrors;
    var s' := SetLoop(s, c, HandlePoll(s.desk, c, order, s.conns[c], env).0, ReplyErrors(s.conns[c], order, env));
    ErrorRepliesWire(s.conns[c], order, env);
    assert forall id | id in order :: id in Swept(s.desk, c);
    LoopKeepsIds(s, s');
    PollKeepsWires(s, s', c, order, env);
    BooksShrink(s, s');
  }

  lemma CloseKeepsSane(s: State, c: ConnId)
    requires Sane(s) && Open(s, c)
    ensures Sane(Hangup(s, c))
  {
    hide WiresFit, IdsFit;
    var s' := Hangup(s, c);
    LoopKeepsIds(s, s');
    BooksShrink(s, s');
    KeepsWires(s, s', c, Direct);
  }

  /** What a delivered wakeup may do to the books, whichever of its branches runs. */
  ghost predicate OnlyWakes(d: Desk, d': Desk, c: ConnId, id: ReqId) {
    && d'.counter == d.counter
    && d'.responses.Keys == d.responses.Keys && d'.streams.Keys == d.streams.Keys
    && (forall i | i in d.responses && i != id :: d'.responses[i] == d.responses[i])
    && (forall i | i in d.streams && i != id :: d'.streams[i] == d.streams[i])
    && (id in d.responses ==>
          d'.responses[id].conn == d.responses[id].conn &&
          (d'.responses[id].state == Streaming ==> d.responses[id].state == Streaming))
    && (id in d.streams ==> d'.streams[id].conn == d.streams[id].conn)
    && (d'.pendingResponses == d.pendingResponses ||
        (Has(d.pendingResponses, c, id) && d'.pendingResponses == d.pendingResponses - {id}))
    && (d'.pendingStreams == d.pendingStreams || d'.pendingStreams == d.pendingStreams - {id} ||
        (Has(d.pendingResponses, c, id) && id in d.streams && d'.pendingResponses == d.pendingResponses - {id} &&
         (d'.pendingStreams == d.pendingStreams[id := c] || d'.pendingStreams == d.pendingStreams[id := c] - {id})))
  }

  /** And to the wire: only items of that request, or of nobody when it names nothing pending. */
  ghost predicate OnlyWrites(k: Conn, k': Conn, owner: Owner) {
    && k'.open == k.open && k'.producer == k.producer && k'.dispatched == k.dispatched
    && k'.queued >= k.queued
    && (forall it <- k'.wire :: it in k.wire || it.owner == owner)
  }

  lemma StreamEffect(d: Desk, c: ConnId, id: ReqId, k: Conn, env: Env)
    requires Wired(d)
    ensures var (found, d', k') := HandleStream(d, c, id, k, env);
            && (found <==> Has(d.pendingStreams, c, id))
            && d'.responses == d.responses && d'.pendingResponses == d.pendingResponses
            && (d'.pendingStreams == d.pendingStreams || d'.pendingStreams == d.pendingStreams - {id})
            && OnlyWakes(d, d', c, id) && OnlyWrites(k, k', Request(id))
            && (!found ==> d' == d && k' == k)
  {
  }

  lemma ResponseEffect(d: Desk, c: ConnId, id: ReqId, k: Conn, env: Env)
    requires Wired(d)
    ensures var (handled, d', k') := HandleResponse(d, c, id, k, env);
            && (handled <==> Has(d.pendingResponses, c, id))
            && OnlyWakes(d, d', c, id)
            && OnlyWrites(k, k', if handled then Request(id) else Nobody)
            && (!handled ==> d' == d)
  {
    if Has(d.pendingResponses, c, id) && d.responses[id].state == Streaming {
      StreamEffect(Promote(d, c, id), c, id, k, env);
    }
  }

  lemma WakeupEffect(d: Desk, c: ConnId, id: ReqId, k: Conn, env: Env)
    requires Wired(d)
    ensures var (d', k') := HandleWakeup(d, c, id, k, env);
            && OnlyWakes(d, d', c, id)
            && OnlyWrites(k, k', if Has(d.pendingStreams, c, id) || Has(d.pendingResponses, c, id) then Request(id) else Nobody)
  {
    StreamEffect(d, c, id, k, env);
    ResponseEffect(d, c, id, k, env);
  }

  lemma FewerWakeups(s: State, s': State, c: ConnId, id: ReqId)
    requires WakeupsFit(s) && (c, id) in s.wakeups && s'.wakeups == s.wakeups - multiset{(c, id)}
    requires forall i | i in s.desk.responses ::
               i in s'.desk.responses && s'.desk.responses[i].conn == s.desk.responses[i].conn
    ensures WakeupsFit(s') && id in s.desk.responses && s.desk.responses[id].conn == c
  {
    assert forall x | x in s'.wakeups :: x in s.wakeups;
  }

  lemma WakeupKeepsSane(s: State, c: ConnId, id: ReqId, env: Env)
    requires Sane(s) && Wired(s.desk) && Open(s, c) && (c, id) in s.wakeups
    ensures Sane(ApplyWakeup(s, c, id, env))
  {
    hide HandleWakeup, IdsFit, BooksFit, WakeupsFit, WiresFit;
    var s' := ApplyWakeup(s, c, id, env);
    WakeupEffect(s.desk, c, id, s.conns[c], env);
    LoopKeepsIds(s, s');
    FewerWakeups(s, s', c, id);
    OnlyWakesKeepsBooks(s, s', c, id);
    KeepsWires(s, s', c,
               if Has(s.desk.pendingStreams, c, id) || Has(s.desk.pendingResponses, c, id) then Request(id) else Nobody);
  }

  lemma OnlyWakesKeepsResponses(s: State, s': State, c: ConnId, id: ReqId)
    requires IdsFit(s) && BooksFit(s) && OnlyWakes(s.desk, s'.desk, c, id)
    ensures forall i | i in s'.desk.pendingResponses ::
              && i in s.desk.pendingResponses && s'.desk.pendingResponses[i] == s.desk.pendingResponses[i]
              && i !in s'.desk.pendingStreams
  {
  }

  lemma OnlyWakesKeepsStreams(s: State, s': State, c: ConnId, id: ReqId)
    requires IdsFit(s) && BooksFit(s) && OnlyWakes(s.desk, s'.desk, c, id)
    ensures forall i | i in s'.desk.pendingStreams ::
              && i in s.desk.streams && s.desk.streams[i].conn == s'.desk.pendingStreams[i]
              && Open(s, s'.desk.pendingStreams[i])
  {
  }

  lemma OnlyWakesKeepsConns(d: Desk, d': Desk, c: ConnId, id: ReqId)
    requires OnlyWakes(d, d', c, id)
    ensures forall i | i in d.responses :: i in d'.responses && d'.responses[i].conn == d.responses[i].conn
    ensures forall i | i in d.streams :: i in d'.streams && d'.streams[i].conn == d.streams[i].conn
  {
  }

  lemma OnlyWakesKeepsBooks(s: State, s': State, c: ConnId, id: ReqId)
    requires IdsFit(s) && BooksFit(s) && OnlyWakes(s.desk, s'.desk, c, id)
    requires forall c' | Open(s, c') :: Open(s', c')
    ensures BooksFit(s')
  {
    hide OnlyWakes, IdsFit;
    OnlyWakesKeepsResponses(s, s', c, id);
    OnlyWakesKeepsStreams(s, s', c, id);
    OnlyWakesKeepsConns(s.desk, s'.desk, c, id);
  }

  lemma LoopKeepsIds(s: State, s': State)
    requires IdsFit(s)
    requires s'.desk.counter == s.desk.counter && s'.workers == s.workers && s'.conns.Keys == s.conns.Keys
    requires s'.desk.responses.Keys == s.desk.responses.Keys && s'.desk.streams.Keys == s.desk.streams.Keys
    requires forall i | i in s.desk.responses :: s'.desk.responses[i].conn == s.desk.responses[i].conn
    requires forall i | i in s.desk.streams :: s'.desk.streams[i].conn == s.desk.streams[i].conn
    requires forall i | i in s'.desk.responses && s'.desk.responses[i].state == Streaming ::
               s.desk.responses[i].state == Streaming
    ensures IdsFit(s')
  {
    assert forall i :: i in s'.desk.responses <==> i in s.desk.responses;
    assert forall i :: i in s'.desk.streams <==> i in s.desk.streams;
  }

  lemma DropKeepsSane(s: State, c: ConnId, id: ReqId)
    requires Sane(s) && (c, id) in s.wakeups
    ensures Sane(s.(wakeups := s.wakeups - multiset{(c, id)}))
  {
    hide IdsFit, BooksFit, WiresFit;
    FewerWakeups(s, s.(wakeups := s.wakeups - multiset{(c, id)}), c, id);
    SameShape(s, s.(wakeups := s.wakeups - multiset{(c, id)}));
  }

  lemma SameShape(s: State, s': State)
    requires IdsFit(s) && BooksFit(s) && WiresFit(s)
    requires s'.desk == s.desk && s'.conns == s.conns && s'.workers == s.workers
    ensures IdsFit(s') && BooksFit(s') && WiresFit(s')
  {
    assert forall c | Open(s, c) :: Open(s', c);
    assert forall c | c in s.conns :: WireFits(s.conns[c].wire, c, s.desk);
  }

  lemma StepKeepsSane(s: State, e: Event, env: Env)
    requires Sane(s) && Wired(s.desk) && Enabled(s, e)
    ensures Sane(Apply(s, e, env))
  {
    hide IdsFit, BooksFit, WiresFit;
    if e.Work? {
      WorkKeepsSane(s, e.id, e.a);
    } else if e.DeliverWakeup? {
      WakeupKeepsSane(s, e.c, e.id, env);
    } else if e.CloseConn? {
      CloseKeepsSane(s, e.c);
    } else if e.Poll? {
      PollKeepsSane(s, e.c, e.order, env);
    } else if e.DrainAndWrite? {
      PumpKeepsSane(s, e.c, PumpSync(Drain(s.conns[e.c], e.n), env), env);
    } else if e.Accept? {
      AcceptKeepsSane(s, e, env);
    } else if e.DispatchAsync? {
      DispatchKeepsSane(s, e.c);
    } else if e.DispatchReply? || e.DispatchStream? {
      DispatchSyncKeepsSane(s, e, env);
    } else if e.DropWakeup? {
      DropKeepsSane(s, e.c, e.id);
    } else {
      SameShape(s, s.(alive := false));
    }
  }

  lemma {:induction false} RunsAreSane(run: seq<Event>, env: Env)
    requires Exec(run, env).Some?
    ensures Sane(Exec(run, env).value)
  {
    if run != [] {
      var s, e := ExecLast(run, env);
      RunsAreSane(run[..|run| - 1], env);
      StepKeepsSane(s, e, env);
    }
  }
}
