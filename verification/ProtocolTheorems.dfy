/** What every run keeps its promise of: delivery, wakeups, replies, ids and the ownership of the data. */
module ProtocolTheorems {
  import opened Texts
  import opened Wrappers
  import opened ChunkCoding
  import opened Connections
  import opened AsyncStreams
  import opened AsyncResponses
  import opened Desks
  import opened Protocol
  import opened ProtocolShape
  import opened Slots
  import opened ProtocolInvariant
  import opened Fates
  import opened Histories

  // ---- delivery ----

  lemma SlotDelivers(t: Slot)
    requires SlotFits(t) && t.l.v.Some?
    ensures var full := StreamLog(t.l.w.preamble, t.l.w.sent);
            && (t.open && t.inS && t.l.v.value.state != StreamState.Failed ==>
                  full == t.log + if t.l.v.value.state == HasData then [Chunk(t.l.v.value.data)] else [])
            && (t.l.v.value.state == StreamState.Completed ==> t.log == full + [End])
            && (t.log == [SERVER_ERROR] || t.log <= full + [End])
  {
    var sent := t.l.w.sent;
    if sent != [] {
      assert Earlier(sent) + [sent[|sent| - 1]] == sent;
      StreamLogAppend(t.l.w.preamble, Earlier(sent), sent[|sent| - 1]);
    }
  }

  lemma RacedDelivers(t: Slot)
    requires MeetsSlot(t, Orphaned)
    ensures t.l.v.value.state != HasData && t.l.v.value.state != StreamState.Completed
    ensures t.log == StreamLog(t.l.w.preamble, t.l.w.sent)
  {
    assert StreamLog(t.l.w.preamble, []) == [Preamble(t.l.w.preamble)];
  }

  /**
   Exactly once, in order: on an open connection the wire holds the preamble and every chunk the
   worker passed to send() and announced, except the one still in the cell, which is there exactly in
   has_data; a completed stream's bytes are the preamble and the chunked coding of those chunks; and one
   that failed, or was cut by a close, has a prefix of them on the wire, or the 500 and nothing else.
   A muted one has the reply with code -1 and nothing else.
   */
  lemma DeliveredInOrder(run: seq<Event>, env: Env, s: State, id: ReqId)
    requires Exec(run, env) == Some(s) && Known(s, id) && id in s.desk.streams
    ensures var t, v, h := SlotOf(s, id), s.desk.streams[id], CallsOf(run, id);
            var full := StreamLog(h.preamble, h.chunks);
            && (t.open && t.inS && v.state != StreamState.Failed ==>
                  full == t.log + if v.state == HasData then [Chunk(v.data)] else [])
            && (v.state == StreamState.Completed ==>
                  t.log == full + [End] && Render(t.log, env) == h.preamble + Encode(h.chunks))
            && (if Mute(s, id) then t.log == [Reply(-1, "", "")]
                else t.log == [Reply(500, "Content-Type: text/plain\r\n", "Internal Server Error\n")] ||
                     t.log <= full + [End])
  {
    hide Exec, SlotFits, MeetsSlot, Encode, StreamLog, Render, Sane, CallsOf;
    BooksAreCalls(run, env, s, id);
    RequestIsAccounted(run, env, s, id);
    var t := SlotOf(s, id);
    if Mute(s, id) { MuteIsNotDelivered(t); }
    else if Fits(s, id) { SlotDelivers(t); }
    else { RacedDelivers(t); }
    RenderStream(s.workers[id].preamble, s.workers[id].sent, env);
  }

  lemma MuteIsNotDelivered(t: Slot)
    requires MeetsSlot(t, Muted)
    ensures t.log == [UNWRITTEN] && !t.inS && t.l.v.value.state == Start
  {
  }

  // ---- what a recipient decodes ----

  function Bodies(wire: seq<Item>): (bs: seq<Body>)
    ensures |bs| == |wire|
  {
    seq(|wire|, i requires 0 <= i < |wire| => wire[i].body)
  }

  lemma {:induction false} RenderJoin(a: seq<Body>, b: seq<Body>, env: Env)
    ensures Render(a + b, env) == Render(a, env) + Render(b, env)
  {
    if b == [] {
      assert a + b == a && Render(a, env) + "" == Render(a, env);
    } else {
      var n := |b| - 1;
      RenderJoin(a, b[..n], env);
      assert a + b == (a + b[..n]) + [b[n]] && b == b[..n] + [b[n]];
      RenderAppend(a + b[..n], b[n], env);
      RenderAppend(b[..n], b[n], env);
      Assoc(Render(a, env), Render(b[..n], env), Bytes(b[n], env));
    }
  }

  lemma {:induction false} ProjectJoin(a: seq<Item>, b: seq<Item>, o: Owner)
    ensures Project(a + b, o) == Project(a, o) + Project(b, o)
  {
    if b == [] {
      assert a + b == a;
    } else {
      assert (a + b)[..|a + b| - 1] == a + b[..|b| - 1];
      ProjectJoin(a, b[..|b| - 1], o);
    }
  }

  lemma {:induction false} ProjectAll(wire: seq<Item>, o: Owner)
    requires forall it <- wire :: it.owner == o
    ensures Project(wire, o) == Bodies(wire)
  {
    if wire != [] {
      var n := |wire| - 1;
      ProjectAll(wire[..n], o);
      assert Bodies(wire) == Bodies(wire[..n]) + [wire[n].body];
    }
  }

  /** The wire is all of one request's items in a row, between items of others. */
  ghost predicate InOnePiece(wire: seq<Item>, before: seq<Item>, own: seq<Item>, after: seq<Item>, o: Owner) {
    && wire == before + own + after
    && (forall it <- before :: it.owner != o) && (forall it <- own :: it.owner == o) && (forall it <- after :: it.owner != o)
  }

  lemma PieceProjects(wire: seq<Item>, before: seq<Item>, own: seq<Item>, after: seq<Item>, o: Owner)
    requires InOnePiece(wire, before, own, after, o)
    ensures Project(wire, o) == Bodies(own)
  {
    hide Project, Bodies;
    ProjectJoin(before + own, after, o);
    ProjectJoin(before, own, o);
    ProjectOther(before, o);
    ProjectOther(after, o);
    ProjectAll(own, o);
    assert [] + Bodies(own) + [] == Bodies(own);
  }

  lemma BodiesJoin(a: seq<Item>, b: seq<Item>, c: seq<Item>)
    ensures Bodies(a + b + c) == Bodies(a) + (Bodies(b) + Bodies(c))
  {
  }

  lemma PieceRenders(wire: seq<Item>, before: seq<Item>, own: seq<Item>, after: seq<Item>, o: Owner, env: Env)
    requires InOnePiece(wire, before, own, after, o)
    ensures Render(Bodies(wire), env) ==
            Render(Bodies(before), env) + (Render(Project(wire, o), env) + Render(Bodies(after), env))
  {
    hide Project, Bodies, Render;
    PieceProjects(wire, before, own, after, o);
    BodiesJoin(before, own, after);
    RenderJoin(Bodies(before), Bodies(own) + Bodies(after), env);
    RenderJoin(Bodies(own), Bodies(after), env);
  }

  /**
   A recipient of the connection's bytes, on which a completed stream's items were not broken up by
   those of other requests: past the preamble it decodes exactly what the worker passed to send(), and
   goes on with what was written later, if and only if no chunk was empty.
   */
  lemma CompletedStreamDecodes(run: seq<Event>, env: Env, s: State, id: ReqId,
                               before: seq<Item>, own: seq<Item>, after: seq<Item>)
    requires Exec(run, env) == Some(s) && Known(s, id)
    requires id in s.desk.streams && s.desk.streams[id].state == StreamState.Completed
    requires InOnePiece(s.conns[s.desk.responses[id].conn].wire, before, own, after, Request(id))
    ensures var bytes := Render(Bodies(s.conns[s.desk.responses[id].conn].wire), env);
            var head := Render(Bodies(before), env) + CallsOf(run, id).preamble;
            && head <= bytes
            && (Decode(bytes[|head|..]) == Decoded(Concat(CallsOf(run, id).chunks), Render(Bodies(after), env)) <==>
                forall c <- CallsOf(run, id).chunks :: c != "")
  {
    hide Exec, Render, Bodies, Decode, Encode, Project, Mute, CallsOf;
    DeliveredInOrder(run, env, s, id);
    PieceRenders(s.conns[s.desk.responses[id].conn].wire, before, own, after, Request(id), env);
    var h, rest := CallsOf(run, id), Render(Bodies(after), env);
    RoundTripIffNoEmptyChunk(h.chunks, rest);
    HeadAndBody(Render(Bodies(before), env), h.preamble, Encode(h.chunks), rest);
  }

  lemma HeadAndBody(a: string, b: string, c: string, d: string)
    ensures a + b <= a + (b + c + d) && (a + (b + c + d))[|a + b|..] == c + d
  {
    assert a + (b + c + d) == (a + b) + (c + d);
  }

  // ---- wakeups ----

  predicate AboutToPost(pc: Pc) {
    pc.SendWritten? || pc.StreamMade? || pc.Stored?
  }

  /** Something the loop must still be told about. */
  predicate Owed(t: Slot) {
    var pc := t.l.w.pc;
    || (t.inR && (pc.SendWritten? || pc.SendPosted? || pc.StreamMade? || pc.StreamPosted? ||
                  t.l.r.state == Sending || t.l.r.state == Streaming))
    || (t.inS && t.l.v.Some? && (t.l.v.value.state == HasData || t.l.v.value.state == Close) && !pc.Refused?)
  }

  lemma SlotWakeups(t: Slot)
    requires SlotFits(t) && t.open
    ensures t.posted + (if AboutToPost(t.l.w.pc) then 1 else 0) == (if Owed(t) then 1 else 0)
    ensures t.posted > 0 ==> t.inR || t.inS
  {
  }

  lemma RacedWakeups(t: Slot)
    requires MeetsSlot(t, Orphaned) || MeetsSlot(t, Muted)
    ensures t.posted == 0 && !AboutToPost(t.l.w.pc) && !Owed(t)
  {
  }

  /**
   No wakeup is lost and none is spare: in every run, on an open connection, exactly one is queued or
   about to be posted for a request the loop owes something, and none for any other. Hence every queued
   wakeup finds its request.
   */
  lemma WakeupsAreExact(run: seq<Event>, env: Env, s: State, id: ReqId)
    requires Exec(run, env) == Some(s) && Known(s, id)
    ensures var t := SlotOf(s, id);
            t.open ==>
              && t.posted + (if AboutToPost(t.l.w.pc) then 1 else 0) == (if Owed(t) then 1 else 0)
              && (t.posted > 0 ==> t.inR || t.inS)
  {
    hide Exec, SlotFits, MeetsSlot, AboutToPost, Owed;
    RequestIsAccounted(run, env, s, id);
    if SlotOf(s, id).open {
      if Fits(s, id) { SlotWakeups(SlotOf(s, id)); } else { RacedWakeups(SlotOf(s, id)); }
    }
  }

  // ---- no stray reply ----

  ghost predicate Quiet(wire: seq<Item>) {
    forall it <- wire :: it.owner != Nobody
  }

  ghost predicate QuietWires(s: State) {
    forall c | c in s.conns :: Quiet(s.conns[c].wire)
  }

  lemma QuietElsewhere(s: State, s': State, c: ConnId)
    requires QuietWires(s)
    requires c in s'.conns && s'.conns == s.conns[c := s'.conns[c]] && Quiet(s'.conns[c].wire)
    ensures QuietWires(s')
  {
  }

  lemma StaysQuiet(wire: seq<Item>, wire': seq<Item>, owner: Owner)
    requires Quiet(wire) && owner != Nobody && forall it <- wire' :: it in wire || it.owner == owner
    ensures Quiet(wire')
  {
  }

  lemma StepStaysQuiet(s: State, e: Event, env: Env)
    requires AllAccounted(s) && Wired(s.desk) && Enabled(s, e) && QuietWires(s)
    ensures QuietWires(Apply(s, e, env))
  {
    hide Quiet, AllAccounted, ReplyErrors, HandleWakeup, HandleClose, TakeStep, Wired;
    var s' := Apply(s, e, env);
    match e
    case DeliverWakeup(c, id) => WakeupStaysQuiet(s, c, id, env); QuietElsewhere(s, s', c);
    case Poll(c, order) => PollStaysQuiet(s.conns[c], order, env); QuietElsewhere(s, s', c);
    case Accept(c) => assert Quiet([]) by { EmptyIsQuiet(); } QuietElsewhere(s, s', c);
    case DispatchAsync(c) => QuietElsewhere(s, s', c);
    case DispatchReply(c, _, _, _) => StaysQuiet(s.conns[c].wire, s'.conns[c].wire, Direct); QuietElsewhere(s, s', c);
    case DispatchStream(c, _, _) => StaysQuiet(s.conns[c].wire, s'.conns[c].wire, Direct); QuietElsewhere(s, s', c);
    case DrainAndWrite(c, n) => StaysQuiet(s.conns[c].wire, s'.conns[c].wire, Direct); QuietElsewhere(s, s', c);
    case CloseConn(c) => QuietElsewhere(s, s', c);
    case _ =>
  }

  lemma EmptyIsQuiet()
    ensures Quiet([])
  {
  }

  lemma PollStaysQuiet(k: Conn, order: seq<ReqId>, env: Env)
    requires Quiet(k.wire)
    ensures Quiet(ReplyErrors(k, order, env).wire)
  {
    ErrorRepliesWire(k, order, env);
  }

  /** A wakeup, early or not, finds its request. */
  lemma WakeupStaysQuiet(s: State, c: ConnId, id: ReqId, env: Env)
    requires AllAccounted(s) && Wired(s.desk) && Open(s, c) && (c, id) in s.wakeups && Quiet(s.conns[c].wire)
    ensures Quiet(HandleWakeup(s.desk, c, id, s.conns[c], env).1.wire)
  {
    hide Quiet, HandleWakeup;
    QueuedIsPending(s, c, id);
    WakeupEffect(s.desk, c, id, s.conns[c], env);
    StaysQuiet(s.conns[c].wire, HandleWakeup(s.desk, c, id, s.conns[c], env).1.wire, Request(id));
  }

  lemma {:induction false} RunsStayQuiet(run: seq<Event>, env: Env)
    requires Exec(run, env).Some?
    ensures QuietWires(Exec(run, env).value)
  {
    if run != [] {
      hide Apply, Quiet, Wired, Enabled, AllAccounted;
      var s, e := ExecLast(run, env);
      RunsStayQuiet(run[..|run| - 1], env);
      RunsAreAccounted(run[..|run| - 1], env, s);
      StepStaysQuiet(s, e, env);
    }
  }

  /** The "not found" replies are never sent, in any run. */
  lemma NoStrayReply(run: seq<Event>, env: Env, s: State, c: ConnId)
    requires Exec(run, env) == Some(s) && c in s.conns
    ensures forall it <- s.conns[c].wire :: it.owner != Nobody
  {
    RunsStayQuiet(run, env);
    assert Quiet(s.conns[c].wire);
  }

  // ---- conservation of request ids ----

  predicate Replied(t: Slot) {
    t.log != [] && t.log[0].Reply?
  }

  predicate Ended(t: Slot) {
    t.log != [] && t.log[|t.log| - 1] == End
  }

  predicate Dropped(t: Slot) {
    !t.open && !t.inR && !t.inS && !Replied(t) && !Ended(t)
  }

  function One(b: bool): nat {
    if b then 1 else 0
  }

  lemma SlotIsInOnePlace(t: Slot)
    requires SlotFits(t)
    ensures One(t.inR) + One(t.inS) + One(Replied(t)) + One(Ended(t)) + One(Dropped(t)) == 1
  {
    StreamLogShape(t);
    if t.log != [] && t.l.v.Some? && t.log <= StreamLog(t.l.w.preamble, t.l.w.sent) {
      assert t.log[0] == StreamLog(t.l.w.preamble, t.l.w.sent)[0];
      assert t.log[|t.log| - 1] == StreamLog(t.l.w.preamble, t.l.w.sent)[|t.log| - 1];
    }
  }

  /** In every run at all: ids are issued in order, and nothing beyond the counter exists. */
  lemma IdsStopAtTheCounter(run: seq<Event>, env: Env, s: State, id: ReqId)
    requires Exec(run, env) == Some(s)
    ensures Known(s, id) <==> id < s.desk.counter
    ensures id in s.desk.pendingResponses || id in s.desk.pendingStreams || id in s.desk.streams ==> id < s.desk.counter
  {
    RunsAreSane(run, env);
  }

  /** And no id is in both maps, or under a connection that is not its own or not open. */
  lemma PendingOnceAtHome(run: seq<Event>, env: Env, s: State, id: ReqId)
    requires Exec(run, env) == Some(s) && Known(s, id)
    ensures !(id in s.desk.pendingResponses && id in s.desk.pendingStreams)
    ensures id in s.desk.pendingResponses ==> s.desk.pendingResponses[id] == s.desk.responses[id].conn
    ensures id in s.desk.pendingStreams ==> s.desk.pendingStreams[id] == s.desk.responses[id].conn
    ensures id in s.desk.pendingResponses || id in s.desk.pendingStreams ==> Open(s, s.desk.responses[id].conn)
  {
    RunsAreSane(run, env);
  }

  /**
   In every run, every issued id is in exactly one place: pending as a response, as a stream, replied,
   ended or dropped.
   */
  lemma IdsAreConserved(run: seq<Event>, env: Env, s: State, id: ReqId)
    requires Exec(run, env) == Some(s) && Known(s, id)
    ensures var t := SlotOf(s, id);
            One(t.inR) + One(t.inS) + One(Replied(t)) + One(Ended(t)) + One(Dropped(t)) == 1
  {
    hide Exec, SlotFits, MeetsSlot, SlotOf, Replied, Ended, Dropped;
    FitsOrRaced(run, env, s, id);
    if Fits(s, id) { SlotIsInOnePlace(SlotOf(s, id)); } else { RacedIsInOnePlace(SlotOf(s, id)); }
  }

  lemma RacedIsInOnePlace(t: Slot)
    requires MeetsSlot(t, Orphaned) || MeetsSlot(t, Muted)
    ensures One(t.inR) + One(t.inS) + One(Replied(t)) + One(Ended(t)) + One(Dropped(t)) == 1
  {
  }

  lemma StreamLogShape(t: Slot)
    ensures var full := StreamLog(t.l.w.preamble, t.l.w.sent);
            && full[0].Preamble? && forall i | 0 <= i < |full| :: full[i] != End
    ensures t.l.w.sent != [] ==>
              var part := StreamLog(t.l.w.preamble, Earlier(t.l.w.sent));
              part[0].Preamble? && forall i | 0 <= i < |part| :: part[i] != End
  {
  }

  // ---- one reply ----

  lemma SlotReplies(t: Slot, b: Body)
    requires SlotFits(t) && b in t.log && b.Reply?
    ensures t.log == [b]
    ensures b == SERVER_ERROR || (t.l.w.asked.Some? && b == ReplyOf(t.l.w.asked.value))
  {
    NoReplyInStream(t.l.w.preamble, t.l.w.sent);
    if t.l.w.sent != [] { NoReplyInStream(t.l.w.preamble, Earlier(t.l.w.sent)); }
  }

  lemma RacedReplies(t: Slot, b: Body)
    requires b in t.log && b.Reply?
    requires MeetsSlot(t, Orphaned) || MeetsSlot(t, Muted)
    ensures MeetsSlot(t, Muted) && t.log == [b] && b == UNWRITTEN
  {
  }

  /**
   In every run a request gets at most one reply, and then nothing else. It has code -1 exactly if the
   request is muted, which one that called send never is; otherwise it is what the worker passed to
   send, or the 500 of a failed one.
   */
  lemma SingleReply(run: seq<Event>, env: Env, s: State, id: ReqId, b: Body)
    requires Exec(run, env) == Some(s) && Known(s, id)
    requires b in SlotOf(s, id).log && b.Reply?
    ensures SlotOf(s, id).log == [b]
    ensures Mute(s, id) ==> b == Reply(-1, "", "") && CallsOf(run, id).payload.None?
    ensures !Mute(s, id) ==>
              || b == Reply(500, "Content-Type: text/plain\r\n", "Internal Server Error\n")
              || (CallsOf(run, id).payload.Some? &&
                  var p := CallsOf(run, id).payload.value; b == Reply(p.code, p.headers, p.body))
  {
    hide Exec, SlotFits, CallsOf;
    BooksAreCalls(run, env, s, id);
    RequestIsAccounted(run, env, s, id);
    if Mute(s, id) || Orphan(s, id) { RacedReplies(SlotOf(s, id), b); } else { SlotReplies(SlotOf(s, id), b); }
  }

  lemma NoReplyInStream(preamble: string, sent: seq<string>)
    ensures forall b <- StreamLog(preamble, sent) :: !b.Reply?
  {
  }

  // ---- who may touch m_data ----

  predicate WorkerWrites(s: State, id: ReqId) {
    id in s.workers && s.workers[id].pc == Granted
  }

  /** A wakeup is there to be handled and handling it would move the data out. */
  predicate LoopMoves(t: Slot) {
    t.open && t.posted > 0 && t.l.v.Some? &&
    ((t.inS && (t.l.v.value.state == Start || t.l.v.value.state == HasData)) ||
     (t.inR && t.l.r.state == Streaming && t.l.v.value.state == Start))
  }

  lemma SlotOwnsData(t: Slot)
    requires SlotFits(t) && t.l.w.pc == Granted
    ensures t.l.v.Some? && (t.l.v.value.state == Empty || t.l.v.value.state == StreamState.Failed)
    ensures !LoopMoves(t)
  {
  }

  lemma RacedIsNotGranted(t: Slot)
    requires MeetsSlot(t, Orphaned) || MeetsSlot(t, Muted)
    ensures t.l.w.pc != Granted
  {
  }

  /** In every run the unsynchronised data has one owner at a time. */
  lemma DataHasOneOwner(run: seq<Event>, env: Env, s: State, id: ReqId)
    requires Exec(run, env) == Some(s) && Known(s, id)
    ensures WorkerWrites(s, id) ==>
              id in s.desk.streams && (s.desk.streams[id].state == Empty || s.desk.streams[id].state == StreamState.Failed)
    ensures !(WorkerWrites(s, id) && LoopMoves(SlotOf(s, id)))
  {
    hide Exec, SlotFits, MeetsSlot, LoopMoves;
    FitsOrRaced(run, env, s, id);
    if Fits(s, id) {
      if WorkerWrites(s, id) { SlotOwnsData(SlotOf(s, id)); }
    } else {
      RacedIsNotGranted(SlotOf(s, id));
    }
  }
}
