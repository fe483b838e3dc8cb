/**
 The worker's calls as wholes: run without interruption, the steps of Protocol add up to what
 the methods of AsyncResponse and AsyncStream are proved to do.
 */
module WorkerCalls {
  import opened Wrappers
  import opened AsyncStreams
  import opened AsyncResponses
  import opened Protocol

  /** A worker's consecutive steps, each possible after the last, and how many wakeups they post. */
  function Steps(l: Local, todo: seq<Step>, alive: bool): Option<(Local, nat)>
    decreases |todo|
  {
    if todo == [] then Some((l, 0))
    else if !CanStep(l, todo[0]) then None
    else
      match Steps(TakeStep(l, todo[0], alive), todo[1..], alive)
      case None => None
      case Some((l', n)) => Some((l', n + if Posts(todo[0], alive) then 1 else 0))
  }

  /** What mgr.lock() and mg_wakeup answer. */
  function Answer(alive: bool, ok: bool): Option<bool> {
    if alive then Some(ok) else None
  }

  lemma OneStepMore(l: Local, a: Step, rest: seq<Step>, alive: bool)
    requires CanStep(l, a)
    ensures var r := Steps(TakeStep(l, a, alive), rest, alive);
            Steps(l, [a] + rest, alive) ==
            if r.Some? then Some((r.value.0, r.value.1 + if Posts(a, alive) then 1 else 0)) else None
  {
    assert ([a] + rest)[1..] == rest;
  }

  /** async_stream::send (Some) and close (None), AsyncStream.Send and CloseStream. */
  lemma HandOverIsItsSteps(l: Local, chunk: Option<string>, alive: bool, ok: bool)
    requires l.w.pc == Granted && l.v.Some?
    ensures var mgr := Answer(alive, ok);
            var end := if mgr == Some(false) then [StoreFailed] else [];
            var todo := [WriteData(chunk)] + ([StoreState] + ([PostState(ok)] + end));
            var r := Steps(l, todo, alive);
            && r.Some? && r.value.0.v == Some(HandOver(l.v.value, chunk, mgr))
            && HandOver(l.v.value, chunk, mgr) ==
               StreamVal(l.v.value.conn, if chunk.Some? then chunk.value else "",
                         if mgr == Some(false) then StreamState.Failed else if chunk.None? then Close else HasData)
            && r.value.0.w.pc == Next(chunk.None?) && r.value.0.r == l.r
            && r.value.1 == if mgr == Some(true) then 1 else 0
  {
    var mgr, end := Answer(alive, ok), [];
    var l1 := TakeStep(l, WriteData(chunk), alive);
    var l2 := TakeStep(l1, StoreState, alive);
    var l3 := TakeStep(l2, PostState(ok), alive);
    if mgr == Some(false) {
      end := [StoreFailed];
      assert [StoreFailed] + [] == [StoreFailed];
      OneStepMore(l3, StoreFailed, [], alive);
    }
    OneStepMore(l2, PostState(ok), end, alive);
    OneStepMore(l1, StoreState, [PostState(ok)] + end, alive);
    OneStepMore(l, WriteData(chunk), [StoreState] + ([PostState(ok)] + end), alive);
  }

  /** async_response::send on a pending response, as in AsyncResponse.Send. */
  lemma SendIsItsSteps(l: Local, p: Payload, alive: bool, ok: bool)
    requires l.w.pc == Ready && l.r.state == Pending
    ensures var mgr := Answer(alive, ok);
            var todo := [SendCheck(p)] + ([SendWrite] + ((if alive then [SendPost(ok)] else []) + [SendStore]));
            var r := Steps(l, todo, alive);
            && r.Some? && r.value.0.w.pc == Done && r.value.0.v == l.v
            && r.value.0.r == l.r.(payload := if mgr.None? then l.r.payload else p,
                                   state := if mgr == Some(true) then Sending else ResponseState.Failed)
            && r.value.1 == if mgr == Some(true) then 1 else 0
  {
    var l1 := TakeStep(l, SendCheck(p), alive);
    var l2 := TakeStep(l1, SendWrite, alive);
    var end := (if alive then [SendPost(ok)] else []) + [SendStore];
    assert [SendStore] + [] == [SendStore];
    if alive {
      var l3 := TakeStep(l2, SendPost(ok), alive);
      OneStepMore(l3, SendStore, [], alive);
      OneStepMore(l2, SendPost(ok), [SendStore], alive);
    } else {
      assert end == [SendStore];
      OneStepMore(l2, SendStore, [], alive);
    }
    OneStepMore(l1, SendWrite, end, alive);
    OneStepMore(l, SendCheck(p), [SendWrite] + end, alive);
  }

  /** async_response::stream on a pending response, as in AsyncResponse.Stream: the worker gets its stream or nothing. */
  lemma StreamIsItsSteps(l: Local, preamble: string, ok: bool)
    requires l.w.pc == Ready && l.r.state == Pending && preamble != ""
    ensures var todo := [StreamMake(preamble)] + ([StreamPost(ok)] + ([StreamStore] + if ok then [StreamReturn] else []));
            var r := Steps(l, todo, true);
            && r.Some? && r.value.0.w.pc == (if ok then Waiting else Done)
            && r.value.0.v == Some(StreamVal(l.r.conn, preamble, Start))
            && r.value.0.r == l.r.(hasStream := true, state := if ok then Streaming else ResponseState.Failed)
            && r.value.1 == if ok then 1 else 0
    ensures var r := Steps(l, [StreamMake(preamble)], false);
            r == Some((Goto(l, Done).(r := l.r.(state := ResponseState.Failed)), 0))
  {
    var l1 := TakeStep(l, StreamMake(preamble), true);
    var l2 := TakeStep(l1, StreamPost(ok), true);
    var l3 := TakeStep(l2, StreamStore, true);
    var end := [];
    if ok {
      end := [StreamReturn];
      assert [StreamReturn] + [] == [StreamReturn];
      OneStepMore(l3, StreamReturn, [], true);
    }
    OneStepMore(l2, StreamStore, end, true);
    OneStepMore(l1, StreamPost(ok), [StreamStore] + end, true);
    OneStepMore(l, StreamMake(preamble), [StreamPost(ok)] + ([StreamStore] + end), true);
  }
}
