/**
 When the items of an asynchronous stream stand in a row on its connection's wire: exactly when
 nothing else was written on the connection between its preamble and its end.
 */
module Rows {
  import opened Texts
  import opened Wrappers
  import opened ChunkCoding
  import opened Connections
  import opened AsyncStreams
  import opened AsyncResponses
  import opened Desks
  import opened Protocol
  import opened ProtocolShape
  import opened Slots
  import opened ProtocolInvariant
  import opened Fates
  import opened ProtocolTheorems
  import opened Progress
  import opened Histories

  // ---- wires ----

  /** Nothing of others after the first item of this owner. */
  ghost predicate Trailing(wire: seq<Item>, o: Owner) {
    forall i, j | 0 <= i < j < |wire| && wire[i].owner == o :: wire[j].owner == o
  }

  /** Nothing of others between two items of this owner. */
  ghost predicate Contiguous(wire: seq<Item>, o: Owner) {
    forall i, j, k | 0 <= i < j < k < |wire| && wire[i].owner == o && wire[k].owner == o :: wire[j].owner == o
  }

  lemma OthersOn(wire: seq<Item>, more: seq<Item>, o: Owner)
    requires forall it <- more :: it.owner != o
    ensures Contiguous(wire + more, o) <==> Contiguous(wire, o)
    ensures Trailing(wire + more, o) <==> Trailing(wire, o) && (more == [] || forall it <- wire :: it.owner != o)
  {
    var all := wire + more;
    if Contiguous(all, o) {
      forall i, j, k | 0 <= i < j < k < |wire| && wire[i].owner == o && wire[k].owner == o ensures wire[j].owner == o {
        assert all[i] == wire[i] && all[j] == wire[j] && all[k] == wire[k];
      }
    }
    if Trailing(all, o) {
      forall i, j | 0 <= i < j < |wire| && wire[i].owner == o ensures wire[j].owner == o {
        assert all[i] == wire[i] && all[j] == wire[j];
      }
      if more != [] {
        forall i | 0 <= i < |wire| ensures wire[i].owner != o {
          assert all[i] == wire[i] && all[|wire|] == more[0];
        }
      }
    }
  }

  lemma OwnOn(wire: seq<Item>, it: Item, o: Owner)
    requires it.owner == o
    ensures Trailing(wire + [it], o) <==> Trailing(wire, o)
    ensures Contiguous(wire + [it], o) <==> Trailing(wire, o)
  {
    var all := wire + [it];
    if Trailing(all, o) {
      forall i, j | 0 <= i < j < |wire| && wire[i].owner == o ensures wire[j].owner == o {
        assert all[i] == wire[i] && all[j] == wire[j];
      }
    }
    if Contiguous(all, o) {
      forall i, j | 0 <= i < j < |wire| && wire[i].owner == o ensures wire[j].owner == o {
        assert all[i] == wire[i] && all[j] == wire[j] && all[|wire|] == it;
      }
    }
  }

  lemma {:induction false} NoneProjected(wire: seq<Item>, o: Owner)
    ensures Project(wire, o) == [] <==> forall it <- wire :: it.owner != o
  {
    if wire != [] {
      var n := |wire| - 1;
      NoneProjected(wire[..n], o);
      assert wire == wire[..n] + [wire[n]];
    }
  }

  lemma {:induction false} FirstOwn(wire: seq<Item>, o: Owner) returns (n: nat)
    ensures n <= |wire| && (forall it <- wire[..n] :: it.owner != o) && (n < |wire| ==> wire[n].owner == o)
  {
    if wire == [] || wire[0].owner == o {
      n := 0;
    } else {
      n := FirstOwn(wire[1..], o);
      n := n + 1;
      assert wire[..n] == [wire[0]] + wire[1..][..n - 1];
    }
  }

  lemma {:induction false} LastOwn(wire: seq<Item>, o: Owner) returns (n: nat)
    ensures n <= |wire| && (forall it <- wire[n..] :: it.owner != o) && (n > 0 ==> wire[n - 1].owner == o)
  {
    if wire == [] || wire[|wire| - 1].owner == o {
      n := |wire|;
    } else {
      n := LastOwn(wire[..|wire| - 1], o);
      assert wire[n..] == wire[..|wire| - 1][n..] + [wire[|wire| - 1]];
    }
  }

  ghost predicate InARow(wire: seq<Item>, o: Owner) {
    exists before, own, after :: InOnePiece(wire, before, own, after, o)
  }

  lemma ContiguousIsInARow(wire: seq<Item>, o: Owner)
    requires Contiguous(wire, o)
    ensures InARow(wire, o)
  {
    var i := FirstOwn(wire, o);
    var k := LastOwn(wire, o);
    if i < k {
      MiddleIsOwn(wire, i, k, o);
      assert wire == wire[..i] + wire[i..k] + wire[k..];
      assert InOnePiece(wire, wire[..i], wire[i..k], wire[k..], o);
    } else {
      forall j | 0 <= j < |wire| ensures wire[j].owner != o {
        assert j < i ==> wire[j] in wire[..i];
        assert j >= k ==> wire[j] in wire[k..];
      }
      assert InOnePiece(wire, wire, [], [], o);
    }
  }

  lemma MiddleIsOwn(wire: seq<Item>, i: nat, k: nat, o: Owner)
    requires Contiguous(wire, o) && i < k <= |wire| && wire[i].owner == o && wire[k - 1].owner == o
    ensures forall it <- wire[i..k] :: it.owner == o
  {
    forall j | i <= j < k ensures wire[j].owner == o {
    }
  }

  lemma InARowIsContiguous(wire: seq<Item>, before: seq<Item>, own: seq<Item>, after: seq<Item>, o: Owner)
    requires InOnePiece(wire, before, own, after, o)
    ensures Contiguous(wire, o)
  {
    forall i | 0 <= i < |wire| ensures wire[i].owner == o <==> |before| <= i < |before| + |own| {
      if i < |before| {
        assert wire[i] == before[i];
      } else if i < |before| + |own| {
        assert wire[i] == own[i - |before|];
      } else {
        assert wire[i] == after[i - |before| - |own|];
      }
    }
  }

  // ---- what an event writes ----

  lemma {:induction false} ErrorRepliesAppend(k: Conn, order: seq<ReqId>, env: Env)
    ensures var k' := ReplyErrors(k, order, env);
            k.wire <= k'.wire && forall it <- k'.wire[|k.wire|..] :: it.owner.Request? && it.owner.id in order
  {
    if order != [] {
      var n := |order| - 1;
      ErrorRepliesAppend(k, order[..n], env);
      var k0, k' := ReplyErrors(k, order[..n], env), ReplyErrors(k, order, env);
      assert k'.wire[|k.wire|..] == k0.wire[|k.wire|..] + [Item(Request(order[n]), SERVER_ERROR)];
    }
  }

  lemma WakeupWrites(d: Desk, c: ConnId, i: ReqId, k: Conn, id: ReqId, env: Env)
    requires Wired(d)
    ensures var k' := HandleWakeup(d, c, i, k, env).1;
            k.wire <= k'.wire && OnesOwn(k'.wire[|k.wire|..], id)
  {
  }

  /** Nothing of this request, or one item of its own. */
  ghost predicate OnesOwn(more: seq<Item>, id: ReqId) {
    (forall it <- more :: it.owner != Request(id)) || (|more| == 1 && more[0].owner == Request(id))
  }

  lemma EventWrites(s: State, e: Event, c: ConnId, id: ReqId, env: Env)
    requires Wired(s.desk) && Enabled(s, e) && c in s.conns
    ensures var s' := Apply(s, e, env);
            && c in s'.conns && s.conns[c].wire <= s'.conns[c].wire
            && (OnesOwn(s'.conns[c].wire[|s.conns[c].wire|..], id) || (e.Poll? && id in e.order))
  {
    hide HandleWakeup, ReplyErrors, Wired;
    if e.DeliverWakeup? {
      WakeupWrites(s.desk, e.c, e.id, s.conns[e.c], id, env);
    } else if e.Poll? {
      ErrorRepliesAppend(s.conns[e.c], e.order, env);
    } else {
      RestWrites(s, e, c, id, env);
    }
  }

  lemma RestWrites(s: State, e: Event, c: ConnId, id: ReqId, env: Env)
    requires Wired(s.desk) && Enabled(s, e) && c in s.conns && !e.DeliverWakeup? && !e.Poll?
    ensures var s' := Apply(s, e, env);
            && c in s'.conns && s.conns[c].wire <= s'.conns[c].wire
            && forall it <- s'.conns[c].wire[|s.conns[c].wire|..] :: it.owner == Direct
  {
    hide HandleClose, TakeStep, Wired;
  }

  lemma PolledIsFresh(s: State, order: seq<ReqId>, c: ConnId, id: ReqId)
    requires Sane(s) && Accounted(s, id) && Wired(s.desk) && Enabled(s, Poll(c, order)) && id in order
    ensures SlotOf(s, id).log == [] && SlotOf(s, id).inR && s.desk.responses[id].state == ResponseState.Failed
    ensures s.desk.responses[id].conn == c
  {
    assert id in Swept(s.desk, c);
    PendingIsFresh(SlotOf(s, id));
  }

  lemma PendingIsFresh(t: Slot)
    requires AccountedSlot(t) && t.inR
    ensures t.log == []
  {
  }

  /** The end of a stream is the last of its items. */
  lemma EndIsLast(t: Slot)
    requires AccountedSlot(t)
    ensures forall i | 0 <= i < |t.log| - 1 :: t.log[i] != End
  {
    StreamLogShape(t);
  }

  // ---- along a run ----

  /** Its preamble, or a reply, is out and its end is not. */
  ghost predicate Begun(s: State, id: ReqId) {
    Known(s, id) && SlotOf(s, id).log != [] && !Ended(SlotOf(s, id))
  }

  ghost predicate WritesForeign(wire: seq<Item>, wire': seq<Item>, o: Owner) {
    wire <= wire' && exists it <- wire'[|wire|..] :: it.owner != o
  }

  /** Something else goes out on its connection in between. */
  ghost predicate Intrudes(s: State, e: Event, id: ReqId, env: Env)
    requires Wired(s.desk) && Enabled(s, e)
  {
    Begun(s, id) &&
    var c, s' := s.desk.responses[id].conn, Apply(s, e, env);
    c in s'.conns && WritesForeign(s.conns[c].wire, s'.conns[c].wire, Request(id))
  }

  ghost predicate Intruded(run: seq<Event>, env: Env, id: ReqId)
    decreases |run|
  {
    run != [] &&
    var init, e := run[..|run| - 1], run[|run| - 1];
    || Intruded(init, env, id)
    || (Exec(init, env).Some? && Wired(Exec(init, env).value.desk) && Enabled(Exec(init, env).value, e) &&
        Intrudes(Exec(init, env).value, e, id, env))
  }

  predicate Streams(log: seq<Body>) {
    log == [] || log[0].Preamble?
  }

  /** While the stream lasts nothing of others follows its preamble; afterwards nothing stands in between. */
  ghost predicate Row(wire: seq<Item>, o: Owner, ended: bool) {
    if ended then Contiguous(wire, o) else Trailing(wire, o)
  }

  ghost predicate RowTells(s: State, id: ReqId, intruded: bool)
    requires Known(s, id)
  {
    var t := SlotOf(s, id);
    Streams(t.log) ==> (Row(s.conns[s.desk.responses[id].conn].wire, Request(id), Ended(t)) <==> !intruded)
  }

  /** On the values an event changes. */
  lemma RowOn(wire: seq<Item>, more: seq<Item>, log: seq<Body>, id: ReqId)
    requires log == Project(wire, Request(id)) && OnesOwn(more, id)
    requires log != [] && log[|log| - 1] == End ==> forall it <- more :: it.owner != Request(id)
    ensures var o, log' := Request(id), Project(wire + more, Request(id));
            var begun := log != [] && log[|log| - 1] != End;
            log <= log' &&
            (Row(wire + more, o, log' != [] && log'[|log'| - 1] == End) <==>
             Row(wire, o, log != [] && log[|log| - 1] == End) && !(begun && exists it <- more :: it.owner != o))
  {
    hide Project, Trailing, Contiguous;
    var o := Request(id);
    ProjectJoin(wire, more, o);
    NoneProjected(wire, o);
    NoneProjected(more, o);
    if forall it <- more :: it.owner != o {
      OthersOn(wire, more, o);
      assert Project(wire + more, o) == log + [] == log;
      assert more != [] ==> more[0] in more && more[0].owner != o;
      assert wire + [] == wire;
    } else {
      assert more == [more[0]];
      OwnOn(wire, more[0], o);
      OneProjected(more[0], o);
    }
  }

  lemma OneProjected(it: Item, o: Owner)
    requires it.owner == o
    ensures Project([it], o) == [it.body]
  {
    assert [it][..0] == [];
  }

  lemma RowStep(s: State, e: Event, id: ReqId, intruded: bool, env: Env)
    requires Sane(s) && Accounted(s, id) && Wired(s.desk) && Enabled(s, e) && RowTells(s, id, intruded)
    requires Accounted(Apply(s, e, env), id) && Apply(s, e, env).desk.responses[id].conn == s.desk.responses[id].conn
    ensures RowTells(Apply(s, e, env), id, intruded || Intrudes(s, e, id, env))
  {
    hide Wired, Enabled, Apply, Sane, AccountedSlot, Project, Row, OnesOwn;
    var s', c := Apply(s, e, env), s.desk.responses[id].conn;
    var wire, wire' := s.conns[c].wire, s'.conns[c].wire;
    EventWrites(s, e, c, id, env);
    var more := wire'[|wire|..];
    assert wire' == wire + more;
    if OnesOwn(more, id) {
      EndStays(s, s', id, more);
      RowOn(wire, more, SlotOf(s, id).log, id);
    } else {
      PolledIsNoStream(s, e, id, env);
    }
  }

  /** After its end nothing more is written for a stream. */
  lemma EndStays(s: State, s': State, id: ReqId, more: seq<Item>)
    requires Accounted(s, id) && Accounted(s', id)
    requires var c := s.desk.responses[id].conn;
             s'.desk.responses[id].conn == c && s'.conns[c].wire == s.conns[c].wire + more
    ensures Ended(SlotOf(s, id)) ==> forall it <- more :: it.owner != Request(id)
  {
    hide AccountedSlot, Project;
    var log := SlotOf(s, id).log;
    ProjectJoin(s.conns[s.desk.responses[id].conn].wire, more, Request(id));
    NoneProjected(more, Request(id));
    EndIsLast(SlotOf(s', id));
    if log != [] && Project(more, Request(id)) != [] {
      assert SlotOf(s', id).log[|log| - 1] == log[|log| - 1];
    }
  }

  lemma PolledIsNoStream(s: State, e: Event, id: ReqId, env: Env)
    requires Sane(s) && Accounted(s, id) && Wired(s.desk) && Enabled(s, e) && e.Poll? && id in e.order
    ensures var s' := Apply(s, e, env); Known(s', id) && !Streams(SlotOf(s', id).log)
  {
    hide AccountedSlot;
    PolledIsFresh(s, e.order, e.c, id);
    PollSlot(s, e.c, e.order, id, env);
  }

  lemma Unsent(s: State, id: ReqId)
    requires Known(s, id) && SlotOf(s, id).log == []
    ensures RowTells(s, id, false)
  {
    NoneProjected(s.conns[s.desk.responses[id].conn].wire, Request(id));
  }

  lemma EffectKeepsConn(t: Slot, t': Slot, f: Effect, env: Env)
    requires Shows(t, t', f, env)
    ensures t'.l.r.conn == t.l.r.conn
  {
  }

  lemma KnownStays(s: State, e: Event, id: ReqId, env: Env)
    requires Sane(s) && Wired(s.desk) && Enabled(s, e) && Accounted(s, id)
    ensures Known(Apply(s, e, env), id) && Apply(s, e, env).desk.responses[id].conn == s.desk.responses[id].conn
  {
    hide Apply, Sane, Wired, Shows, AccountedSlot, EffectOf;
    EventShows(s, e, id, env);
    EffectKeepsConn(SlotOf(s, id), SlotOf(Apply(s, e, env), id), EffectOf(s, e, id, env), env);
  }

  lemma NotYetIntruded(s: State, e: Event, id: ReqId, env: Env)
    requires Wired(s.desk) && Enabled(s, e) && id !in s.desk.responses
    ensures !Intrudes(s, e, id, env)
  {
  }

  lemma NewcomerRow(s: State, e: Event, id: ReqId, env: Env)
    requires Sane(s) && Wired(s.desk) && Enabled(s, e) && id !in s.desk.responses
    requires id in Apply(s, e, env).desk.responses
    ensures Known(Apply(s, e, env), id) && RowTells(Apply(s, e, env), id, false)
  {
    hide RowTells;
    NewcomerIsDispatched(s, e, id, env);
    DispatchSlot(s, e.c, id);
    Unsent(Apply(s, e, env), id);
  }

  lemma {:induction false} RunsTellRows(run: seq<Event>, env: Env, s: State, id: ReqId)
    requires Exec(run, env) == Some(s)
    ensures if id in s.desk.responses then Known(s, id) && RowTells(s, id, Intruded(run, env, id))
            else !Intruded(run, env, id)
  {
    hide Wired, Enabled, Apply, Sane, AccountedSlot, RowTells, Intrudes;
    if run != [] {
      var m, e := ExecLast(run, env);
      var init := run[..|run| - 1];
      RequestIsAccounted(init, env, m, id);
      RequestIsAccounted(run, env, s, id);
      RunsTellRows(init, env, m, id);
      if id in m.desk.responses {
        KnownStays(m, e, id, env);
        RowStep(m, e, id, Intruded(init, env, id), env);
      } else {
        NotYetIntruded(m, e, id, env);
        if id in s.desk.responses { NewcomerRow(m, e, id, env); }
      }
    }
  }

  /**
   The items of a completed stream stand in a row on its connection's wire if and only if nothing else
   was written on the connection between its preamble and its end.
   */
  lemma InARowIffNotIntruded(run: seq<Event>, env: Env, s: State, id: ReqId)
    requires Exec(run, env) == Some(s) && Known(s, id)
    requires id in s.desk.streams && s.desk.streams[id].state == StreamState.Completed
    ensures InARow(s.conns[s.desk.responses[id].conn].wire, Request(id)) <==> !Intruded(run, env, id)
  {
    hide Exec, Intruded, Contiguous, Trailing, Mute, CallsOf;
    var wire, o := s.conns[s.desk.responses[id].conn].wire, Request(id);
    DeliveredInOrder(run, env, s, id);
    RunsTellRows(run, env, s, id);
    if Contiguous(wire, o) {
      ContiguousIsInARow(wire, o);
    } else if InARow(wire, o) {
      var before, own, after :| InOnePiece(wire, before, own, after, o);
      InARowIsContiguous(wire, before, own, after, o);
    }
  }

  /** A recipient of the connection's bytes then decodes what the worker passed to send() if and only if no chunk was empty. */
  lemma UnintrudedStreamDecodes(run: seq<Event>, env: Env, s: State, id: ReqId)
    returns (before: seq<Item>, own: seq<Item>, after: seq<Item>)
    requires Exec(run, env) == Some(s) && Known(s, id)
    requires id in s.desk.streams && s.desk.streams[id].state == StreamState.Completed
    requires !Intruded(run, env, id)
    ensures InOnePiece(s.conns[s.desk.responses[id].conn].wire, before, own, after, Request(id))
    ensures var bytes := Render(Bodies(s.conns[s.desk.responses[id].conn].wire), env);
            var head := Render(Bodies(before), env) + CallsOf(run, id).preamble;
            && head <= bytes
            && (Decode(bytes[|head|..]) == Decoded(Concat(CallsOf(run, id).chunks), Render(Bodies(after), env)) <==>
                forall c <- CallsOf(run, id).chunks :: c != "")
  {
    hide Exec, Intruded, InOnePiece, Render, Bodies, Decode, CallsOf;
    InARowIffNotIntruded(run, env, s, id);
    before, own, after :| InOnePiece(s.conns[s.desk.responses[id].conn].wire, before, own, after, Request(id));
    CompletedStreamDecodes(run, env, s, id, before, own, after);
  }
}
