/**
 handle_write tests the firing connection's buffer but pumps every connection's streams. With two
 connections the buffer bound is lost: drains of one let a stream of the other write without end.
 */
module CrossPumping {
  import opened Wrappers
  import opened ChunkCoding
  import opened Connections
  import opened AsyncStreams
  import opened AsyncResponses
  import opened Desks
  import opened Protocol
  import opened ProtocolShape
  import opened Slots
  import opened ProtocolInvariant
  import opened Backpressure
  import opened Scenarios

  // ---- a stream on connection 0, short replies on connection 1 ----

  datatype Stage = Stage(queued: nat, other: nat, pc: Pc, state: StreamState, data: string, posted: nat)

  ghost predicate IsAt(s: State, g: Stage, env: Env) {
    Inv(s) && Layout(s, g, env)
  }

  ghost predicate Layout(s: State, g: Stage, env: Env) {
    && Open(s, 0) && Open(s, 1) && Known(s, 0) && s.desk.responses[0].conn == 0
    && s.conns[0].dispatched == 1 && s.conns[0].producer.None? && SmallItems(s.conns[0].wire, 6, env)
    && s.conns[1].queued == g.other && s.conns[1].producer.None?
    && var t := SlotOf(s, 0);
       && t.inS && t.l.v.Some? && t.l.w.pc == g.pc && t.l.v.value.state == g.state && t.l.v.value.data == g.data
       && t.posted == g.posted && t.queued == g.queued
  }

  lemma WorkStage(s: State, g: Stage, a: Step, g': Stage, env: Env) returns (s': State)
    requires IsAt(s, g, env) && CanStep(LocalOf(s, 0), a) && env.io > 0
    requires var l' := TakeStep(LocalOf(s, 0), a, true);
             l'.v.Some? && g' == g.(pc := l'.w.pc, state := l'.v.value.state, data := l'.v.value.data,
                                    posted := g.posted + if Posts(a, true) then 1 else 0)
    ensures Leads(s, s', env) && IsAt(s', g', env)
  {
    hide Leads, Inv, Sane, Wired;
    InvMeans(s, 0);
    s' := ApplyWork(s, 0, a);
    OneStep(s, Work(0, a), env);
    WorkSlot(s, 0, a, 0);
  }

  function Replied(k: Conn, env: Env): Conn {
    Write(k, Direct, Reply(200, "", ""), env).(dispatched := k.dispatched + 1)
  }

  lemma ReplyLayout(s: State, g: Stage, env: Env)
    requires Sane(s) && Layout(s, g, env)
    ensures Layout(SetLoop(s, 1, s.desk, Replied(s.conns[1], env)), g.(other := g.other + |(env.render)(200, "", "")|), env)
  {
    DirectSlot(s, 1, Replied(s.conns[1], env), 0);
  }

  lemma ReplyTaken(s: State, env: Env)
    requires Inv(s) && Open(s, 1) && env.io > 0
    ensures var s' := SetLoop(s, 1, s.desk, Replied(s.conns[1], env)); Leads(s, s', env) && Inv(s')
  {
    hide Leads, Inv, Sane, Wired;
    InvMeans(s, 1);
    OneStep(s, DispatchReply(1, 200, "", ""), env);
  }

  lemma ReplyStage(s: State, g: Stage, env: Env) returns (s': State)
    requires IsAt(s, g, env) && env.io > 0
    ensures Leads(s, s', env) && IsAt(s', g.(other := g.other + |(env.render)(200, "", "")|), env)
  {
    s' := SetLoop(s, 1, s.desk, Replied(s.conns[1], env));
    ReplyTaken(s, env);
    ReplyLayout(s, g, env);
  }

  lemma DrainLayout(s: State, g: Stage, env: Env)
    requires Sane(s) && Layout(s, g, env) && env.io > 0 && g.state == Flush
    ensures var (d, k) := HandleWrite(s.desk, Drain(s.conns[1], g.other), env);
            Layout(SetLoop(s, 1, d, k), g.(other := 0, state := Empty), env)
  {
    PumpSlot(s, 1, g.other, 0, env);
  }

  lemma DrainStage(s: State, g: Stage, env: Env) returns (s': State)
    requires IsAt(s, g, env) && env.io > 0 && g.other > 0 && g.state == Flush
    ensures Leads(s, s', env) && IsAt(s', g.(other := 0, state := Empty), env)
  {
    s' := Apply(s, DrainAndWrite(1, g.other), env);
    OneStep(s, DrainAndWrite(1, g.other), env);
    DrainLayout(s, g, env);
  }

  lemma ChunkLayout(s: State, g: Stage, env: Env)
    requires Sane(s) && Wired(s.desk) && Layout(s, g, env)
    requires g.pc == Waiting && g.state == HasData && g.data == "x" && g.posted == 1
    ensures Layout(ApplyWakeup(s, 0, 0, env), Stage(g.queued + 6, g.other, Waiting, Flush, "", 0), env)
  {
    OwnWakeupSlot(s, 0, 0, env);
    FrameOfX();
    ChunkWire(s, env);
  }

  lemma FrameOfX()
    ensures |Frame("x")| == 6
  {
  }

  lemma ChunkStage(s: State, g: Stage, env: Env) returns (s': State)
    requires IsAt(s, g, env) && env.io > 0 && g.pc == Waiting && g.state == HasData && g.data == "x" && g.posted == 1
    ensures Leads(s, s', env) && IsAt(s', Stage(g.queued + 6, g.other, Waiting, Flush, "", 0), env)
  {
    hide Leads, HandleWakeup, Inv, Sane, Wired;
    InvMeans(s, 0);
    s' := ApplyWakeup(s, 0, 0, env);
    OneStep(s, DeliverWakeup(0, 0), env);
    ChunkLayout(s, g, env);
  }

  lemma ChunkWire(s: State, env: Env)
    requires Wired(s.desk) && Open(s, 0) && Has(s.desk.pendingStreams, 0, 0)
    requires s.desk.streams[0].state == HasData && s.desk.streams[0].data == "x" && SmallItems(s.conns[0].wire, 6, env)
    ensures var k := HandleWakeup(s.desk, 0, 0, s.conns[0], env).1;
            SmallItems(k.wire, 6, env) && k.dispatched == s.conns[0].dispatched && k.producer == s.conns[0].producer
  {
    FrameOfX();
  }

  /** One round: a reply on connection 1 drains, and connection 0 takes six more bytes it has not sent. */
  lemma Round(s: State, queued: nat, env: Env) returns (s': State)
    requires IsAt(s, Stage(queued, 0, Waiting, Flush, "", 0), env) && env.io > 0 && |(env.render)(200, "", "")| > 0
    ensures Leads(s, s', env) && IsAt(s', Stage(queued + 6, 0, Waiting, Flush, "", 0), env)
  {
    hide IsAt, Leads;
    var g := Stage(queued, 0, Waiting, Flush, "", 0);
    var s1 := ReplyStage(s, g, env);
    var s2 := DrainStage(s1, g.(other := |(env.render)(200, "", "")|), env);
    LeadsOn(s, s1, s2, env);
    var s3 := SendOne(s2, queued, env);
    LeadsOn(s, s2, s3, env);
    s' := ChunkStage(s3, Stage(queued, 0, Waiting, HasData, "x", 1), env);
    LeadsOn(s, s3, s', env);
  }

  /** The worker's part of a round: wait() returns and it sends one byte. */
  lemma WriteOne(s: State, queued: nat, env: Env) returns (s': State)
    requires IsAt(s, Stage(queued, 0, Waiting, Empty, "", 0), env) && env.io > 0
    ensures Leads(s, s', env) && IsAt(s', Stage(queued, 0, Wrote(false), Empty, "x", 0), env)
  {
    hide Leads, Inv, SmallItems, Sane;
    var g := Stage(queued, 0, Waiting, Empty, "", 0);
    var g1 := g.(pc := Granted);
    var s1 := WorkStage(s, g, WaitReturn, g1, env);
    s' := WorkStage(s1, g1, WriteData(Some("x")), g1.(pc := Wrote(false), data := "x"), env);
    LeadsOn(s, s1, s', env);
  }

  lemma SendOne(s: State, queued: nat, env: Env) returns (s': State)
    requires IsAt(s, Stage(queued, 0, Waiting, Empty, "", 0), env) && env.io > 0
    ensures Leads(s, s', env) && IsAt(s', Stage(queued, 0, Waiting, HasData, "x", 1), env)
  {
    hide Leads, Inv, SmallItems, Sane;
    var g := Stage(queued, 0, Wrote(false), Empty, "x", 0);
    var s1 := WriteOne(s, queued, env);
    var g2 := g.(pc := Stored(false), state := HasData);
    var s2 := WorkStage(s1, g, StoreState, g2, env);
    LeadsOn(s, s1, s2, env);
    s' := WorkStage(s2, g2, PostState(true), g2.(pc := Waiting, posted := 1), env);
    LeadsOn(s, s2, s', env);
  }

  // ---- from the start ----

  lemma FirstLayout(s: State, env: Env)
    requires Sane(s) && Wired(s.desk) && Making(s, StreamSlot(Waiting, Streaming, 1))
    ensures Layout(ApplyWakeup(s, 0, 0, env), Stage(1, 0, Waiting, Flush, "", 0), env)
  {
    hide BooksFit, WakeupsFit, WiresFit, SmallItems;
    OwnWakeupSlot(s, 0, 0, env);
    WakeupEffect(s.desk, 0, 0, s.conns[0], env);
    FirstItem(s.desk, s.conns[0], env);
  }

  lemma FirstItem(d: Desk, k: Conn, env: Env)
    requires Wired(d) && Has(d.pendingResponses, 0, 0) && !Has(d.pendingStreams, 0, 0)
    requires d.responses[0].state == Streaming && d.streams[0] == StreamVal(0, "p", Start) && k.wire == []
    ensures SmallItems(HandleWakeup(d, 0, 0, k, env).1.wire, 6, env)
    ensures HandleWakeup(d, 0, 0, k, env).1.queued == k.queued + 1
  {
    assert |Bytes(Preamble("p"), env)| == 1;
  }

  lemma FirstWrite(s: State, env: Env) returns (s': State)
    requires Inv(s) && Making(s, StreamSlot(Waiting, Streaming, 1)) && env.io > 0
    ensures Leads(s, s', env) && IsAt(s', Stage(1, 0, Waiting, Flush, "", 0), env)
  {
    hide Layout, Leads, Inv, HandleWakeup, Sane, Wired;
    InvMeans(s, 0);
    assert SlotOf(s, 0).posted == 1 && SlotOf(s, 0).l.w.pc == Waiting;
    s' := ApplyWakeup(s, 0, 0, env);
    OneStep(s, DeliverWakeup(0, 0), env);
    FirstLayout(s, env);
  }

  lemma FirstStage(env: Env) returns (s: State)
    requires env.io > 0
    ensures Leads(INIT, s, env) && IsAt(s, Stage(1, 0, Waiting, Flush, "", 0), env)
  {
    var s0 := Parking(env);
    s := FirstWrite(s0, env);
    LeadsOn(INIT, s0, s, env);
  }

  lemma {:induction false} AfterRounds(n: nat, env: Env) returns (s: State)
    requires env.io > 0 && |(env.render)(200, "", "")| > 0
    ensures Leads(INIT, s, env) && IsAt(s, Stage(1 + 6 * n, 0, Waiting, Flush, "", 0), env)
  {
    if n == 0 {
      s := FirstStage(env);
    } else {
      var s0 := AfterRounds(n - 1, env);
      s := Round(s0, 1 + 6 * (n - 1), env);
      LeadsOn(INIT, s0, s, env);
    }
  }

  /**
   No bound in terms of the limit, the requests and the item size exists for two connections: for
   every number there is a calm run after which connection 0, with one request ever dispatched and
   no item longer than six bytes, has more unsent bytes than that.
   */
  lemma BufferIsUnboundedAcrossConnections(limit: nat, env: Env) returns (run: seq<Event>, s: State)
    requires env.io > 0 && |(env.render)(200, "", "")| > 0
    ensures Calm(run, env) && Exec(run, env) == Some(s)
    ensures Open(s, 0) && s.conns[0].dispatched == 1 && SmallItems(s.conns[0].wire, 6, env)
    ensures s.conns[0].queued > limit
  {
    s := AfterRounds(limit, env);
    run := LeadsIsCalm(s, env);
  }
}
