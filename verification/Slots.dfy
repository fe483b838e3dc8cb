/**
 One request's slice of the system: its worker, response and stream, where the loop files it,
 how many wakeups name it, what the wire shows of it. Each event changes a slice in one way.
 */
module Slots {
  import opened Wrappers
  import opened Connections
  import opened AsyncStreams
  import opened AsyncResponses
  import opened Desks
  import opened Protocol
  import opened ProtocolShape

  datatype Slot = Slot(l: Local, inR: bool, inS: bool, posted: nat, log: seq<Body>, open: bool, queued: nat)

  function DeskSlot(d: Desk, k: Conn, w: Worker, posted: nat, id: ReqId): Slot
    requires id in d.responses
  {
    Slot(Local(w, d.responses[id], if id in d.streams then Some(d.streams[id]) else None),
         id in d.pendingResponses, id in d.pendingStreams,
         posted, Project(k.wire, Request(id)), k.open, k.queued)
  }

  function SlotOf(s: State, id: ReqId): Slot
    requires Issued(s, id) && s.desk.responses[id].conn in s.conns
  {
    var c := s.desk.responses[id].conn;
    DeskSlot(s.desk, s.conns[c], s.workers[id], s.wakeups[(c, id)], id)
  }

  ghost predicate Known(s: State, id: ReqId) {
    Issued(s, id) && s.desk.responses[id].conn in s.conns
  }

  /** The slice of a request as handle_http_message leaves it. */
  function NewSlot(c: ConnId, queued: nat): Slot {
    Slot(Local(NEW_WORKER, ResponseVal(c, NO_PAYLOAD, Pending, false), None), true, false, 0, [], true, queued)
  }

  function Stepped(t: Slot, a: Step, alive: bool): Slot
    requires CanStep(t.l, a)
  {
    t.(l := TakeStep(t.l, a, alive), posted := t.posted + if Posts(a, alive) then 1 else 0)
  }

  function Written(t: Slot, b: Body, env: Env): Slot {
    t.(log := t.log + [b], queued := t.queued + |Bytes(b, env)|)
  }

  /** handle_stream on the request's own wakeup. */
  function WakeStream(t: Slot, env: Env): Slot
    requires t.l.v.Some?
  {
    var (v, b) := Served(t.l.v.value);
    var t' := t.(l := t.l.(v := Some(v)), inS := t.inS && b != Some(End));
    if b.Some? then Written(t', b.value, env) else t'
  }

  /** handle_wakeup on the request's own wakeup, for a request that is still pending. */
  function Wake(t: Slot, env: Env): Slot
    requires t.posted > 0 && (t.inS || (t.inR && t.l.r.state == Streaming) ==> t.l.v.Some?)
  {
    var t' := t.(posted := t.posted - 1);
    if t.inS then WakeStream(t', env)
    else if !t.inR then t'
    else if t.l.r.state == Streaming then
      WakeStream(t'.(inR := false, inS := true, l := t'.l.(r := t'.l.r.(hasStream := false))), env)
    else
      var p := t.l.r.payload;
      Written(t'.(inR := false, l := t'.l.(r := t'.l.r.(state := ResponseState.Completed))),
              Reply(p.code, p.headers, p.body), env)
  }

  function Pumped(t: Slot, queued: nat, env: Env): Slot {
    t.(l := t.l.(v := if t.inS && t.l.v.Some? then Some(Pump(t.l.v.value, queued, env)) else t.l.v))
  }

  function Closed(t: Slot): Slot {
    t.(open := false, inR := false, inS := false,
       l := t.l.(r := if t.inR then t.l.r.(state := ResponseState.Failed) else t.l.r,
                 v := if t.inS && t.l.v.Some? then Some(Fault(t.l.v.value)) else t.l.v))
  }

  // ---- each event, seen from one request ----

  lemma LocalSlot(s: State, i: ReqId, l: Local, posts: bool, id: ReqId)
    requires Sane(s) && Issued(s, i) && id in s.desk.responses && l.r.conn == s.desk.responses[i].conn
    requires i in s.desk.streams ==> l.v.Some?
    ensures var s' := Commit(s, i, l, posts);
            && Issued(s', id) && s'.desk.responses[id].conn == s.desk.responses[id].conn
            && SlotOf(s', id) ==
               if i == id then SlotOf(s, id).(l := l, posted := SlotOf(s, id).posted + if posts then 1 else 0)
               else SlotOf(s, id)
  {
    hide InsideStream, Project;
  }

  lemma SameSlice(s: State, s': State, id: ReqId)
    requires Known(s, id) && s'.desk == s.desk && s'.workers == s.workers && s'.wakeups == s.wakeups
    requires forall c | c in s.conns :: c in s'.conns && s'.conns[c] == s.conns[c]
    ensures Known(s', id) && SlotOf(s', id) == SlotOf(s, id)
  {
  }

  lemma LocalFacts(s: State, i: ReqId)
    requires Sane(s) && i in s.desk.responses
    ensures Issued(s, i) && s.desk.responses[i].conn in s.conns
    ensures var l := LocalOf(s, i);
            && (InsideStream(l.w.pc) || l.r.state == Streaming ==> l.v.Some?)
            && (l.v.Some? ==> l.v.value.conn == l.r.conn)
            && l.r == s.desk.responses[i] && l == SlotOf(s, i).l
            && (i in s.desk.streams ==> l.v.Some?)
  {
  }

  lemma WorkSlot(s: State, i: ReqId, a: Step, id: ReqId)
    requires Sane(s) && Issued(s, i) && CanStep(LocalOf(s, i), a) && id in s.desk.responses
    ensures var s' := ApplyWork(s, i, a);
            && Issued(s', id) && s'.desk.responses[id].conn == s.desk.responses[id].conn
            && SlotOf(s', id) == if i == id then Stepped(SlotOf(s, id), a, s.alive) else SlotOf(s, id)
  {
    hide TakeStep, CanStep, Commit, Posts, Sane, SlotOf, LocalOf;
    LocalFacts(s, i);
    LocalFacts(s, id);
    StepShape(LocalOf(s, i), a, s.alive);
    var t, l := SlotOf(s, i), TakeStep(LocalOf(s, i), a, s.alive);
    assert Stepped(t, a, s.alive) == t.(l := l, posted := t.posted + if Posts(a, s.alive) then 1 else 0);
    LocalSlot(s, i, l, Posts(a, s.alive), id);
  }

  lemma OwnStream(d: Desk, c: ConnId, id: ReqId, k: Conn, w: Worker, posted: nat, env: Env)
    requires Wired(d) && Has(d.pendingStreams, c, id) && id in d.responses
    ensures var (found, d', k') := HandleStream(d, c, id, k, env);
            found && d'.responses == d.responses &&
            DeskSlot(d', k', w, posted, id) == WakeStream(DeskSlot(d, k, w, posted, id), env)
  {
    hide Project;
    var b := Served(d.streams[id]).1;
    if b.Some? { ProjectWrite(k, Request(id), b.value, env, Request(id)); }
  }

  lemma OwnResponse(d: Desk, c: ConnId, id: ReqId, k: Conn, w: Worker, posted: nat, env: Env)
    requires Wired(d) && Has(d.pendingResponses, c, id) && id !in d.pendingStreams
    ensures var (handled, d', k') := HandleResponse(d, c, id, k, env);
            handled && id in d'.responses && d'.responses[id].conn == d.responses[id].conn &&
            DeskSlot(d', k', w, posted, id) == Wake(DeskSlot(d, k, w, posted + 1, id), env)
  {
    var r := d.responses[id];
    if r.state == Streaming {
      OwnStream(Promote(d, c, id), c, id, k, w, posted, env);
    } else {
      ProjectWrite(k, Request(id), Reply(r.payload.code, r.payload.headers, r.payload.body), env, Request(id));
    }
  }

  lemma OwnWakeup(d: Desk, c: ConnId, id: ReqId, k: Conn, w: Worker, posted: nat, env: Env)
    requires Wired(d) && (Has(d.pendingStreams, c, id) || Has(d.pendingResponses, c, id)) && id in d.responses
    requires id !in d.pendingStreams || id !in d.pendingResponses
    ensures var (d', k') := HandleWakeup(d, c, id, k, env);
            id in d'.responses && d'.responses[id].conn == d.responses[id].conn &&
            DeskSlot(d', k', w, posted, id) == Wake(DeskSlot(d, k, w, posted + 1, id), env)
  {
    if id in d.pendingStreams {
      OwnStream(d, c, id, k, w, posted, env);
    } else {
      OwnResponse(d, c, id, k, w, posted, env);
    }
  }

  lemma OwnWakeupSlot(s: State, c: ConnId, id: ReqId, env: Env)
    requires Sane(s) && Wired(s.desk) && Open(s, c) && (c, id) in s.wakeups
    requires id in s.desk.pendingStreams || id in s.desk.pendingResponses
    ensures Issued(s, id) && s.desk.responses[id].conn == c
    ensures s.desk.responses[id].state == Streaming || id in s.desk.pendingStreams ==> id in s.desk.streams
    ensures var s' := ApplyWakeup(s, c, id, env);
            && Issued(s', id) && s'.desk.responses[id].conn == c
            && SlotOf(s', id) == Wake(SlotOf(s, id), env)
  {
    OwnWakeup(s.desk, c, id, s.conns[c], s.workers[id], s.wakeups[(c, id)] - 1, env);
  }

  lemma {:induction false} ProjectOnlyWrites(wire: seq<Item>, wire': seq<Item>, owner: Owner, o: Owner)
    requires wire <= wire' && o != owner
    requires forall i | |wire| <= i < |wire'| :: wire'[i].owner == owner
    ensures Project(wire', o) == Project(wire, o)
  {
    if |wire| < |wire'| {
      ProjectOnlyWrites(wire, wire'[..|wire'| - 1], owner, o);
    } else {
      assert wire == wire';
    }
  }

  /** A wakeup for another request leaves this one alone, but for the length of a shared buffer. */
  lemma OtherWakeupSlot(s: State, c: ConnId, i: ReqId, id: ReqId, env: Env)
    requires Sane(s) && Wired(s.desk) && Open(s, c) && (c, i) in s.wakeups && id in s.desk.responses && id != i
    ensures var s' := ApplyWakeup(s, c, i, env);
            && Issued(s', id) && s'.desk.responses[id].conn == s.desk.responses[id].conn
            && SlotOf(s', id).queued >= SlotOf(s, id).queued
            && SlotOf(s', id) == SlotOf(s, id).(queued := SlotOf(s', id).queued)
  {
    hide HandleWakeup, OnlyWakes, Sane, Project, InsideStream, DeskSlot, LocalOf;
    var k := s.conns[c];
    var (d', k') := HandleWakeup(s.desk, c, i, k, env);
    LocalFacts(s, id);
    WakeupEffect(s.desk, c, i, k, env);
    WakeupAppends(s.desk, c, i, k, env);
    ProjectOnlyWrites(k.wire, k'.wire,
                      if Has(s.desk.pendingStreams, c, i) || Has(s.desk.pendingResponses, c, i) then Request(i) else Nobody,
                      Request(id));
    var o := s.desk.responses[id].conn;
    var own, posted := if o == c then k' else s.conns[o], s.wakeups[(o, id)];
    OtherDeskSlot(s.desk, d', c, i, id, s.conns[o], own, s.workers[id], posted);
    assert (s.wakeups - multiset{(c, i)})[(o, id)] == posted;
    assert SlotOf(ApplyWakeup(s, c, i, env), id) == DeskSlot(d', own, s.workers[id], posted, id);
  }

  lemma OtherDeskSlot(d: Desk, d': Desk, c: ConnId, i: ReqId, id: ReqId, k: Conn, k': Conn, w: Worker, posted: nat)
    requires OnlyWakes(d, d', c, i) && id in d.responses && id != i
    requires k'.open == k.open && Project(k'.wire, Request(id)) == Project(k.wire, Request(id))
    ensures id in d'.responses && d'.responses[id] == d.responses[id]
    ensures DeskSlot(d, k, w, posted, id).queued == k.queued && DeskSlot(d', k', w, posted, id).queued == k'.queued
    ensures DeskSlot(d', k', w, posted, id) == DeskSlot(d, k, w, posted, id).(queued := k'.queued)
  {
  }

  lemma WakeupAppends(d: Desk, c: ConnId, id: ReqId, k: Conn, env: Env)
    requires Wired(d)
    ensures var k' := HandleWakeup(d, c, id, k, env).1;
            var owner := if Has(d.pendingStreams, c, id) || Has(d.pendingResponses, c, id) then Request(id) else Nobody;
            k.wire <= k'.wire && forall i | |k.wire| <= i < |k'.wire| :: k'.wire[i].owner == owner
  {
  }

  lemma DispatchSlot(s: State, c: ConnId, id: ReqId)
    requires Sane(s) && Open(s, c) && id <= s.desk.counter
    ensures var s' := Dispatch(s, c);
            && Issued(s', id)
            && (id < s.desk.counter ==> s'.desk.responses[id] == s.desk.responses[id] && SlotOf(s', id) == SlotOf(s, id))
            && (id == s.desk.counter ==> SlotOf(s', id) == NewSlot(c, s.conns[c].queued))
  {
    if id == s.desk.counter {
      assert id !in s.desk.responses;
      assert WireFits(s.conns[c].wire, c, s.desk);
      ProjectOther(s.conns[c].wire, Request(id));
      assert (c, id) !in s.wakeups;
    }
  }

  /** Something written on a connection for no request at all. */
  lemma DirectSlot(s: State, c: ConnId, k: Conn, id: ReqId)
    requires Sane(s) && Open(s, c) && id in s.desk.responses
    requires k.open && k.queued >= s.conns[c].queued && s.conns[c].wire <= k.wire
    requires forall i | |s.conns[c].wire| <= i < |k.wire| :: k.wire[i].owner == Direct
    ensures var s' := SetLoop(s, c, s.desk, k);
            && SlotOf(s', id).queued >= SlotOf(s, id).queued
            && SlotOf(s', id) == SlotOf(s, id).(queued := SlotOf(s', id).queued)
  {
    ProjectOnlyWrites(s.conns[c].wire, k.wire, Direct, Request(id));
  }

  lemma PumpSlot(s: State, c: ConnId, n: nat, id: ReqId, env: Env)
    requires Sane(s) && Open(s, c) && n <= s.conns[c].queued && id in s.desk.responses
    ensures var (d, k) := HandleWrite(s.desk, Drain(s.conns[c], n), env);
            var s' := SetLoop(s, c, d, k);
            && Issued(s', id) && s'.desk.responses == s.desk.responses
            && SlotOf(s', id) == Pumped(SlotOf(s, id), k.queued, env).(queued := SlotOf(s', id).queued)
            && (s.desk.responses[id].conn != c ==> SlotOf(s', id).queued == SlotOf(s, id).queued)
            && (s.desk.responses[id].conn == c ==> SlotOf(s', id).queued == k.queued)
  {
    var k0 := Drain(s.conns[c], n);
    ProjectOnlyWrites(k0.wire, PumpSync(k0, env).wire, Direct, Request(id));
  }

  lemma {:induction false} ErrorRepliesProject(k: Conn, order: seq<ReqId>, id: ReqId, env: Env)
    requires forall i, j | 0 <= i < j < |order| :: order[i] != order[j]
    ensures Project(ReplyErrors(k, order, env).wire, Request(id)) ==
            Project(k.wire, Request(id)) + if id in order then [SERVER_ERROR] else []
  {
    hide Project;
    if order != [] {
      var n := |order| - 1;
      ErrorRepliesProject(k, order[..n], id, env);
      ProjectWrite(ReplyErrors(k, order[..n], env), Request(order[n]), SERVER_ERROR, env, Request(id));
      assert order == order[..n] + [order[n]];
    }
  }

  lemma PollSlot(s: State, c: ConnId, order: seq<ReqId>, id: ReqId, env: Env)
    requires Sane(s) && Wired(s.desk) && Open(s, c) && Lists(order, Swept(s.desk, c)) && id in s.desk.responses
    ensures var (d, k) := HandlePoll(s.desk, c, order, s.conns[c], env);
            var s' := SetLoop(s, c, d, k);
            var t, t' := SlotOf(s, id), SlotOf(s', id);
            && t'.queued >= t.queued
            && t' == (if t.inR && t.l.r.state == ResponseState.Failed && t.l.r.conn == c
                      then t.(inR := false, log := t.log + [SERVER_ERROR]) else t).(queued := t'.queued)
  {
    ErrorRepliesWire(s.conns[c], order, env);
    ErrorRepliesProject(s.conns[c], order, id, env);
    assert id in order <==> id in Swept(s.desk, c);
  }

  lemma CloseSlot(s: State, c: ConnId, id: ReqId)
    requires Sane(s) && Open(s, c) && id in s.desk.responses
    ensures var s' := Hangup(s, c);
            && Issued(s', id) && s'.desk.responses[id].conn == s.desk.responses[id].conn
            && SlotOf(s', id) == if s.desk.responses[id].conn == c then Closed(SlotOf(s, id)) else SlotOf(s, id)
  {
  }

  lemma DropSlot(s: State, c: ConnId, i: ReqId, id: ReqId)
    requires Sane(s) && !Open(s, c) && (c, i) in s.wakeups && id in s.desk.responses
    ensures var s' := s.(wakeups := s.wakeups - multiset{(c, i)});
            && SlotOf(s', id) == (if i == id then SlotOf(s, id).(posted := SlotOf(s', id).posted) else SlotOf(s, id))
            && (i == id ==> !SlotOf(s, id).open)
  {
  }
}
