/** Interleavings that do happen: wakeups handled inside stream(), and closes that strand a worker. */
module Races {
  import opened Texts
  import opened Wrappers
  import opened ChunkCoding
  import opened Connections
  import opened AsyncStreams
  import opened AsyncResponses
  import opened Desks
  import opened Protocol
  import opened ProtocolShape
  import opened Slots
  import opened ProtocolInvariant
  import opened Fates
  import opened Closing
  import opened Liveness
  import opened Scenarios
  import opened CrossPumping

  /** A calm run can be followed by an early wakeup, which leaves its worker mute. */
  lemma MutingHappens(env: Env) returns (run: seq<Event>, s: State)
    ensures Calm(run, env) && Exec(run, env) == Some(s)
    ensures Wired(s.desk) && Enabled(s, DeliverWakeup(0, 0)) && Early(s, DeliverWakeup(0, 0))
    ensures Mute(ApplyWakeup(s, 0, 0, env), 0)
  {
    hide Leads, Inv, Sane, Wired, ApplyWakeup, Calm, Exec;
    s := Posting(env);
    InvMeans(s, 0);
    run := LeadsIsCalm(s, env);
    assert SlotOf(s, 0).posted == 1 && SlotOf(s, 0).l.w.pc == StreamPosted;
    EarlyWakeupMutes(run, env, s, 0, 0);
  }

  /** Or by one that comes between the store and the return: the stream is then nobody's. */
  lemma OrphaningHappens(env: Env) returns (run: seq<Event>, s: State)
    ensures Calm(run, env) && Exec(run, env) == Some(s)
    ensures Wired(s.desk) && Enabled(s, DeliverWakeup(0, 0)) && Early(s, DeliverWakeup(0, 0))
    ensures Orphan(ApplyWakeup(s, 0, 0, env), 0)
  {
    hide Leads, Inv, Sane, Wired, ApplyWakeup, Calm, Exec;
    s := Posting(env);
    s := MakeStep(s, StreamSlot(StreamPosted, Pending, 1), StreamStore, env);
    InvMeans(s, 0);
    run := LeadsIsCalm(s, env);
    assert SlotOf(s, 0).posted == 1 && SlotOf(s, 0).l.w.pc == StreamStored;
    EarlyWakeupOrphans(run, env, s, 0, 0);
  }

  /** A calm run can close a connection on a stream whose first wakeup is still queued: its worker waits for ever. */
  lemma CloseStrandsWaiter(env: Env) returns (run: seq<Event>, s: State)
    ensures Calm(run, env) && Exec(run, env) == Some(s) && Open(s, 0) && Stuck(Hangup(s, 0), 0)
  {
    hide Leads, Inv, Sane, Wired, Calm, Exec;
    s := Parking(env);
    run := LeadsIsCalm(s, env);
    assert SlotOf(s, 0).l.w.pc == Waiting && SlotOf(s, 0).inR;
    InvMeans(s, 0);
    PendingIsNotFiled(s, 0);
    CloseReleasesIffPromoted(run, env, s, 0, 0);
  }

  lemma PendingIsNotFiled(s: State, id: ReqId)
    requires Sane(s) && id in s.desk.pendingResponses
    ensures id !in s.desk.pendingStreams
  {
  }

  // ---- a send after the close ----

  lemma GrantLayout(s: State, env: Env)
    requires Sane(s) && Layout(s, Stage(1, 0, Waiting, Flush, "", 0), env) && env.io > 0
    ensures var (d, k) := HandleWrite(s.desk, Drain(s.conns[0], 1), env);
            Layout(SetLoop(s, 0, d, k), Stage(0, 0, Waiting, Empty, "", 0), env)
  {
    PumpSlot(s, 0, 1, 0, env);
  }

  /** The first grant: the preamble has drained and wait() has returned true. */
  lemma Granting(env: Env) returns (s: State)
    requires env.io > 0
    ensures Leads(INIT, s, env) && IsAt(s, Stage(0, 0, Granted, Empty, "", 0), env)
  {
    hide Leads, Inv, Layout, Sane, Wired;
    var s1 := FirstStage(env);
    var s2 := DrainOwn(s1, env);
    LeadsOn(INIT, s1, s2, env);
    s := Granted1(s2, env);
    LeadsOn(INIT, s2, s, env);
  }

  lemma DrainOwn(s: State, env: Env) returns (s': State)
    requires IsAt(s, Stage(1, 0, Waiting, Flush, "", 0), env) && env.io > 0
    ensures Leads(s, s', env) && IsAt(s', Stage(0, 0, Waiting, Empty, "", 0), env)
  {
    hide Leads, Inv, Sane, Wired;
    InvMeans(s, 0);
    s' := Apply(s, DrainAndWrite(0, 1), env);
    OneStep(s, DrainAndWrite(0, 1), env);
    GrantLayout(s, env);
  }

  lemma Granted1(s: State, env: Env) returns (s': State)
    requires IsAt(s, Stage(0, 0, Waiting, Empty, "", 0), env) && env.io > 0
    ensures Leads(s, s', env) && IsAt(s', Stage(0, 0, Granted, Empty, "", 0), env)
  {
    hide Leads, Inv, Sane;
    s' := WorkStage(s, Stage(0, 0, Waiting, Empty, "", 0), WaitReturn, Stage(0, 0, Granted, Empty, "", 0), env);
  }

  lemma WorkOn(run: seq<Event>, s: State, id: ReqId, a: Step, env: Env) returns (s': State)
    requires Exec(run, env) == Some(s) && Known(s, id) && CanStep(SlotOf(s, id).l, a)
    ensures Exec(run + [Work(id, a)], env) == Some(s')
    ensures Known(s', id) && SlotOf(s', id) == Stepped(SlotOf(s, id), a, s.alive)
  {
    hide Exec, Sane, Wired, TakeStep, Stepped;
    RunsAreSane(run, env);
    ShapeIsWired(s);
    LocalFacts(s, id);
    s' := ApplyWork(s, id, a);
    WorkSlot(s, id, a, id);
    ExecStep(run, Work(id, a), env);
  }

  lemma ShapeIsWired(s: State)
    requires Sane(s)
    ensures Wired(s.desk)
  {
  }

  lemma {:induction false} NoRefusal(base: seq<Event>, more: seq<Event>, env: Env, id: ReqId)
    requires forall k | 0 <= k < |more| :: more[k] != Work(id, PostState(false))
    ensures !RefusedAlive(base, more, env, id)
  {
    if more != [] {
      NoRefusal(base, more[..|more| - 1], env, id);
    }
  }

  /** After a close, wherever it finds a granted worker, an accepted send leaves it in wait(). */
  lemma SendAfterClose(run: seq<Event>, s: State, env: Env) returns (more: seq<Event>, s': State)
    requires Exec(run, env) == Some(s) && Known(s, 0) && !SlotOf(s, 0).open
    requires SlotOf(s, 0).l.w.pc == Granted && SlotOf(s, 0).l.v.Some?
    ensures more == [Work(0, WriteData(Some("x"))), Work(0, StoreState), Work(0, PostState(true))]
    ensures Exec(run + more, env) == Some(s') && Known(s', 0) && s'.workers[0].pc == Waiting
  {
    hide Exec;
    var e1, e2, e3 := Work(0, WriteData(Some("x"))), Work(0, StoreState), Work(0, PostState(true));
    var s1 := WorkOn(run, s, 0, WriteData(Some("x")), env);
    var s2 := WorkOn(run + [e1], s1, 0, StoreState, env);
    s' := WorkOn(run + [e1] + [e2], s2, 0, PostState(true), env);
    more := [e1, e2, e3];
    assert run + [e1] + [e2] + [e3] == run + more;
  }

  /** A calm run can close a connection on a granted worker, whose next send then strands it. */
  lemma CloseStrandsSender(env: Env) returns (run: seq<Event>, more: seq<Event>, s': State)
    requires env.io > 0
    ensures Calm(run, env) && Exec(run + [CloseConn(0)] + more, env) == Some(s') && Stuck(s', 0)
    ensures more == [Work(0, WriteData(Some("x"))), Work(0, StoreState), Work(0, PostState(true))]
  {
    hide Exec, Calm, Leads, Inv, Sane, Wired, Undisturbed, RefusedAlive;
    var s := Granting(env);
    run := LeadsIsCalm(s, env);
    CalmIsUndisturbed(run, env, 0);
    InvMeans(s, 0);
    ExecStep(run, CloseConn(0), env);
    CloseSlot(s, 0, 0);
    more, s' := SendAfterClose(run + [CloseConn(0)], Hangup(s, 0), env);
    NoRefusal(run + [CloseConn(0)], more, env, 0);
    CloseDecides(run, 0, more, env, s, s', 0);
  }

  // ---- the buffer limit ----

  ghost predicate SomeStreamCompletes(env: Env) {
    exists run: seq<Event>, id: ReqId :: Completes(run, env, id)
  }

  /** Some stream of some run completes if and only if the buffer limit is not zero. */
  lemma CompletionNeedsBuffer(env: Env)
    ensures SomeStreamCompletes(env) <==> env.io > 0
  {
    hide Completes;
    if env.io > 0 {
      var run := BufferSuffices(env);
      assert Completes(run, env, 0);
    } else if SomeStreamCompletes(env) {
      var run: seq<Event>, id: ReqId :| Completes(run, env, id);
      NoneWithoutBuffer(run, env, id);
    }
  }

  lemma BufferSuffices(env: Env) returns (run: seq<Event>)
    requires env.io > 0
    ensures Completes(run, env, 0)
  {
    hide Exec, Calm, Leads, Inv, Undisturbed, Sane, Wired;
    var s := Parking(env);
    var before := LeadsIsCalm(s, env);
    CalmIsUndisturbed(before, env, 0);
    var more, s' := EveryStreamCanFinish(before, env, s, 0);
    run := before + more;
  }

  lemma NoneWithoutBuffer(run: seq<Event>, env: Env, id: ReqId)
    requires Completes(run, env, id)
    ensures env.io > 0
  {
    hide Exec;
    if env.io == 0 {
      RunsAreSane(run, env);
      NothingGrantedWithoutBuffer(run, env, Exec(run, env).value, id);
    }
  }

  // ---- an empty chunk ----

  /** A worker can send an empty chunk and its stream complete: a recipient then does not get the worker's data. */
  lemma EmptyChunkHappens(env: Env) returns (run: seq<Event>, s: State)
    requires env.io > 0
    ensures Completes(run, env, 0) && Exec(run, env) == Some(s) && Known(s, 0)
    ensures var sent := s.workers[0].sent; "" in sent && Decode(Encode(sent)) != Decoded(Concat(sent), "")
  {
    hide Exec, Calm, Leads, Inv, Undisturbed, Sane, Wired, Decode, Encode;
    var s1 := WritingEmpty(env);
    var before := LeadsIsCalm(s1, env);
    CalmIsUndisturbed(before, env, 0);
    assert SlotOf(s1, 0).l.w.pc == Wrote(false) && Announcing(SlotOf(s1, 0)) == s1.workers[0].sent + [""];
    var more;
    more, s := EveryStreamCanFinish(before, env, s1, 0);
    run := before + more;
    var sent := s.workers[0].sent;
    assert sent[|sent| - 1] == "";
    RoundTripIffNoEmptyChunk(sent, "");
    assert Encode(sent) + "" == Encode(sent);
  }

  /** Granted, its worker has put an empty chunk in the cell. */
  lemma WritingEmpty(env: Env) returns (s: State)
    requires env.io > 0
    ensures Leads(INIT, s, env) && IsAt(s, Stage(0, 0, Wrote(false), Empty, "", 0), env)
  {
    hide Leads, Inv, Sane;
    var s1 := Granting(env);
    s := WorkStage(s1, Stage(0, 0, Granted, Empty, "", 0), WriteData(Some("")), Stage(0, 0, Wrote(false), Empty, "", 0), env);
    LeadsOn(INIT, s1, s, env);
  }
}
