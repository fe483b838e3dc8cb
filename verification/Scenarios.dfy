/** Building concrete runs: continuations of a state, and the first steps of a small server. */
module Scenarios {
  import opened Wrappers
  import opened Connections
  import opened AsyncStreams
  import opened AsyncResponses
  import opened Desks
  import opened Protocol
  import opened ProtocolShape
  import opened Slots
  import opened ProtocolInvariant
  import opened Liveness

  // ---- continuations ----

  ghost predicate Leads(s: State, s': State, env: Env) {
    exists more :: Follow(s, more, env) == Some(s')
  }

  lemma LeadsByOne(s: State, e: Event, env: Env)
    requires Wired(s.desk) && Enabled(s, e) && !Early(s, e)
    ensures Leads(s, Apply(s, e, env), env)
  {
    FollowCons(s, e, [], env);
    assert Follow(s, [e] + [], env) == Some(Apply(s, e, env));
  }

  lemma InvMeans(s: State, c: ConnId)
    requires Inv(s)
    ensures Sane(s) && Wired(s.desk) && (Open(s, c) ==> s.alive)
  {
  }

  lemma OneStep(s: State, e: Event, env: Env)
    requires Inv(s) && Wired(s.desk) && Enabled(s, e) && !Early(s, e)
    ensures Leads(s, Apply(s, e, env), env) && Inv(Apply(s, e, env))
  {
    LeadsByOne(s, e, env);
    StepKeepsInv(s, e, env);
  }

  lemma {:induction false} FollowOn(s: State, a: seq<Event>, b: seq<Event>, whole: seq<Event>, env: Env)
    requires Follow(s, a, env).Some? && whole == a + b
    ensures Follow(s, whole, env) == Follow(Follow(s, a, env).value, b, env)
    decreases |a|
  {
    if a == [] {
      assert whole == b;
    } else {
      assert whole[0] == a[0] && whole[1..] == a[1..] + b;
      FollowOn(Apply(s, a[0], env), a[1..], b, whole[1..], env);
    }
  }

  lemma LeadsOn(s: State, s1: State, s2: State, env: Env)
    requires Leads(s, s1, env) && Leads(s1, s2, env)
    ensures Leads(s, s2, env)
  {
    var a :| Follow(s, a, env) == Some(s1);
    var b :| Follow(s1, b, env) == Some(s2);
    FollowOn(s, a, b, a + b, env);
    assert Follow(s, a + b, env) == Some(s2);
  }

  // ---- from the start ----

  const TWO_CONNS := INIT.(conns := map[0 := NEW_CONN, 1 := NEW_CONN])

  lemma InitFits()
    ensures Inv(INIT) && Wired(INIT.desk)
  {
  }

  lemma Connecting(env: Env)
    ensures Leads(INIT, TWO_CONNS, env) && Inv(TWO_CONNS) && Wired(TWO_CONNS.desk)
  {
    InitFits();
    var s1 := Apply(INIT, Accept(0), env);
    OneStep(INIT, Accept(0), env);
    OneStep(s1, Accept(1), env);
    assert Apply(s1, Accept(1), env) == TWO_CONNS;
    LeadsOn(INIT, s1, TWO_CONNS, env);
  }

  /** One asynchronous request on connection 0, and no byte anywhere. */
  ghost predicate Making(s: State, t: Slot) {
    && Open(s, 0) && Open(s, 1) && Known(s, 0) && s.desk.responses[0].conn == 0 && SlotOf(s, 0) == t
    && s.conns == map[0 := NEW_CONN.(dispatched := 1), 1 := NEW_CONN]
  }

  lemma Opening(env: Env) returns (s: State)
    ensures Leads(INIT, s, env) && Inv(s) && Making(s, NewSlot(0, 0))
  {
    hide Leads, Inv;
    Connecting(env);
    s := Dispatch(TWO_CONNS, 0);
    OneStep(TWO_CONNS, DispatchAsync(0), env);
    DispatchSlot(TWO_CONNS, 0, 0);
    LeadsOn(INIT, TWO_CONNS, s, env);
  }

  lemma MakeStep(s: State, t: Slot, a: Step, env: Env) returns (s': State)
    requires Leads(INIT, s, env) && Inv(s) && Making(s, t) && CanStep(t.l, a)
    ensures Leads(INIT, s', env) && Inv(s') && Making(s', Stepped(t, a, true))
  {
    hide Leads, TakeStep, Inv, Sane, Wired, SlotOf, Stepped, CanStep;
    InvMeans(s, 0);
    LocalFacts(s, 0);
    s' := ApplyWork(s, 0, a);
    OneStep(s, Work(0, a), env);
    LeadsOn(INIT, s, s', env);
    WorkSlot(s, 0, a, 0);
  }

  /** The slice of a request whose worker is somewhere inside stream(), or just past it. */
  function StreamSlot(pc: Pc, state: ResponseState, posted: nat): Slot {
    NewSlot(0, 0).(
      l := Local(NEW_WORKER.(pc := pc, preamble := "p"), ResponseVal(0, NO_PAYLOAD, state, true),
                 Some(StreamVal(0, "p", Start))),
      posted := posted)
  }

  /** stream() with a preamble of one byte, up to its wakeup. */
  lemma Posting(env: Env) returns (s: State)
    ensures Leads(INIT, s, env) && Inv(s) && Making(s, StreamSlot(StreamPosted, Pending, 1))
  {
    hide Leads, Inv, Making;
    s := Opening(env);
    s := MakeStep(s, NewSlot(0, 0), StreamMake("p"), env);
    assert Stepped(NewSlot(0, 0), StreamMake("p"), true) == StreamSlot(StreamMade, Pending, 0);
    s := MakeStep(s, StreamSlot(StreamMade, Pending, 0), StreamPost(true), env);
    assert Stepped(StreamSlot(StreamMade, Pending, 0), StreamPost(true), true) == StreamSlot(StreamPosted, Pending, 1);
  }

  /** And on, until the worker is in wait(). */
  lemma Parking(env: Env) returns (s: State)
    ensures Leads(INIT, s, env) && Inv(s) && Making(s, StreamSlot(Waiting, Streaming, 1))
  {
    hide Leads, Inv, Making;
    s := Posting(env);
    s := MakeStep(s, StreamSlot(StreamPosted, Pending, 1), StreamStore, env);
    assert Stepped(StreamSlot(StreamPosted, Pending, 1), StreamStore, true) == StreamSlot(StreamStored, Streaming, 1);
    s := MakeStep(s, StreamSlot(StreamStored, Streaming, 1), StreamReturn, env);
    assert Stepped(StreamSlot(StreamStored, Streaming, 1), StreamReturn, true) == StreamSlot(Waiting, Streaming, 1);
  }

  lemma LeadsIsCalm(s: State, env: Env) returns (run: seq<Event>)
    requires Leads(INIT, s, env)
    ensures Calm(run, env) && Exec(run, env) == Some(s)
  {
    run :| Follow(INIT, run, env) == Some(s);
    FollowOnRun([], INIT, run, run, env);
  }
}
