# mgxx: a verified model

mgxx is a C++ HTTP server on top of Mongoose. One event-loop thread owns every connection; worker
threads answer requests later, through shared `async_response` and `async_stream` objects whose state
is one atomic word each, and tell the loop by a wakeup that names a connection and a request id. This
project models that protocol and the pieces around it in Dafny and proves what the library promises
its users: which bytes reach the wire, that nobody waits for ever, that nothing is answered twice,
how large a send buffer can grow, and what exactly goes wrong in the few places where it does.

`dafny verify dfyconfig.toml` checks everything.

## How it is built

**Objects.** `AsyncStreams`, `AsyncResponses`, `RemoteContexts`, `Responses`, `Endpoints`,
`HeaderTable`, `AsyncRequests` and `LogBuffer` hold classes with the source's own fields and one
method per operation. Each method is proved against a function on values; `Endpoints.Endpoint` keeps
the two two-level maps of live objects and is proved to do to them what the functions of `Desks` say.

**The system.** `Protocol` is the whole server as a step system. A worker advances by one store or one
call at a time, for `send` and `stream` of a response as well as for `wait`, `send` and `close` of a
stream; the loop runs one handler at a time, and the handlers are the functions of `Desks`.
Wakeups are a multiset, connections carry the list of what was written with the owner of each item
(a tag for the proofs only), and the bytes not yet sent. A run is any sequence of enabled events.
`WorkerCalls` shows that the steps of an uninterrupted call add up to the class methods.

**The proofs.** `ProtocolShape` has what every run keeps of ids, maps and wires. `Slots` cuts the state
into one slice per request and says what each event does to a slice; `ProtocolInvariant` is the
invariant of a slice at every point of its worker's program; `Fates` has the only states outside it,
which an early wakeup leads to, and shows that they, and the states after a close, are final. `Histories` reads off the events of a run what a worker passed to its calls, and shows that what the
proofs note of a worker is that; delivery and replies are stated of those arguments. The
theorems are in `ProtocolTheorems`, `Rows`, `Fates`, `Closing`, `Replies`, `Progress`, `Histories`, `Ranks`,
`Liveness`, `Fairness`, `Schedules`, `Waits`, `SendBuffers`, `Backpressure`, `CrossPumping`, `Races` and
`SyncStreams`, all about runs of `Protocol`.

## What is assumed

* Mongoose: `mg_wakeup` queues the wakeup or returns false; `mg_send` and `mg_http_reply` append;
  `mg_http_write_chunk` appends the length in hexadecimal, CRLF, the data, CRLF; a write event
  follows every drain of a non-empty buffer; a wakeup for a closed connection is dropped.
  `mg_strdup` copies, and gives the null slice for an empty one. `mg_http_get_header` returns the
  first header of that name in any casing and stops at the first empty name. What `mg_http_reply`
  makes of a code, header text and body is the parameter `Env.render`; `MG_IO_SIZE` is `Env.io`.
* Workers follow the loop of README.md:208-225: one worker a response, `send` or `close` only after
  `wait()` returned true. A worker whose `stream()` returned null is done (the loop as printed there
  would call `wait()` on the null pointer).
* Atomics are sequentially consistent; a handler of the loop is one event. The manager can expire only
  when no connection is open. A request carries its connection's id as long as the server lives.
* A connection can be handed a further message while a response on it is outstanding, as by a client
  that pipelines. A second stream on a connection, and a reply between the chunks of one, depend on that.
* `std::tolower` is that of the "C" locale, `size_t` has 64 bits.

## What goes wrong, exactly

Six places do not do what their callers expect. Each is kept in the model, shown by a reachable run,
and delimited by an exact condition.

* `async_response::stream` posts its wakeup before it stores `streaming` and re-reads `m_stream`
  after that. `Fates.PromotedIffNotEarly`: the wakeup is handled properly if and only if `stream()` has
  returned. Handled before the store, the client gets a reply with code -1 and the worker waits for
  ever (`EarlyWakeupMutes`); handled after it, the preamble is out and nobody can complete the stream
  (`EarlyWakeupOrphans`). In every run a request either fits the protocol or is in one of these two
  states for good (`FitsOrRaced`). Order of delivery, wakeups, replies, ids, the ownership of the data and
  buffer bounds are proved of every run, early wakeups or not. `Liveness.NeverDeadlocked` says exactly
  which requests nothing can be done for: besides settled ones, muted ones in `wait()` and orphans that
  were granted. A stream can still be finished (`FinishableIffUnrefused`), and every fair schedule
  finishes it (`Fairness.FairRunsComplete`), if none of its own wakeups was early (`Protocol.Undisturbed`)
  or refused and its connection is open.
* A close should make every later `wait()` return false. `Closing.CloseDecides`: a worker that is in
  `wait()` after the close, wherever the close found it, waits for ever if and only if its stream was not yet
  promoted at the close (`Races.CloseStrandsWaiter`), or it stood between `wait()` and the store of
  `has_data` or `close`, which overwrites `failed`, and the wakeup of that hand-over was not refused
  through a live manager (`Races.CloseStrandsSender`). In all other cases `wait()` can only return false.
* `set_stream` drops a producer that is still installed. `SyncStreams.SyncStreamLostIffOverrun`: a
  synchronous stream loses its rest if and only if the next stream dispatched on its connection finds
  its producer there (`OverrunHappens`). The items of a stream stand in a row among those written for no
  asynchronous request if and only if no synchronous reply was dispatched on the connection while its
  producer was installed (`SyncDeliversInOrder`).
* With `MG_IO_SIZE` zero the pump grants nothing: some stream of some run completes if and only if the
  limit is not zero (`Races.CompletionNeedsBuffer`, `SyncStreams.NoLimitNoChunk`). Only the theorems on
  progress and on buffer lengths ask for a limit above zero.
* `handle_write` pumps the streams of all connections against one connection's buffer. With one
  connection, or while no other pump wakes a stream of a connection over the limit, the buffer is
  bounded (`Backpressure.BufferIsBounded`, `LoneBufferIsBounded`); without that it is unbounded
  (`CrossPumping.BufferIsUnboundedAcrossConnections`).
* An empty chunk is coded like the terminator: a stream decodes to its data if and only if no chunk
  was empty (`ChunkCoding.RoundTripIffNoEmptyChunk`, `ProtocolTheorems.CompletedStreamDecodes`,
  `Races.EmptyChunkHappens`). On the wire the items of a stream stand in a row if and only if nothing else was
  written on the connection between its preamble and its end (`Rows.InARowIffNotIntruded`).

## Model

| member | source | states |
|---|---|---|
| ProtocolTheorems.DeliveredInOrder | src/http/endpoint.cpp:291-333 | exactly-once, in-order delivery in every state of every run: the preamble and the chunks the worker passed to send() and announced, read off the events, are on the wire, except the one in the cell, which is there exactly in has_data; a completed stream's bytes are preamble, every chunk frame in order, one terminator; a failed or cut one has a prefix of that, or the 500 alone; a muted one the code -1 reply alone |
| Histories.BooksAreCalls | src/http/async_stream.cpp:27-35 | in every run what the system holds for a worker is what its calls were given, as the events say: the chunks of the writes it announced, the chunk in the cell between its two stores, the preamble, the payload |
| ProtocolTheorems.CompletedStreamDecodes | src/http/endpoint.cpp:312-320 | read off the connection's own bytes, where the items of a completed stream were not broken up by others, the body after the preamble decodes to what the worker passed to send(), and the rest is what was written later, if and only if no chunk was empty |
| Rows.InARowIffNotIntruded | src/http/endpoint.cpp:305-320 | in every run the items of a completed stream stand in a row on its connection's wire if and only if nothing else was written on the connection between its preamble and its end |
| Rows.UnintrudedStreamDecodes | src/http/endpoint.cpp:312-320 | and then a recipient of the connection's bytes decodes what the worker passed to send() if and only if no chunk was empty |
| ProtocolTheorems.WakeupsAreExact | src/http/endpoint.cpp:204-289 | in every run, on an open connection, one wakeup is queued or about to be posted for a request the loop owes something and none for any other; every queued wakeup finds its request |
| ProtocolTheorems.NoStrayReply | src/http/endpoint.cpp:213-273 | the not-found replies are never sent in any run |
| ProtocolTheorems.IdsAreConserved | src/http/endpoint.cpp:142-198 | in every run, whichever wakeups were early, every issued id is in exactly one of: pending responses, pending streams, replied, stream ended, dropped by a close |
| ProtocolTheorems.IdsStopAtTheCounter | src/http/endpoint.cpp:152-154 | in every run at all a request exists if and only if its id is below the counter, and nothing is pending beyond it |
| ProtocolTheorems.PendingOnceAtHome | src/http/endpoint.cpp:142-289 | no id is ever in both maps, and a pending one stands under its own, open connection |
| ProtocolTheorems.SingleReply | src/http/async_response.cpp:24-42 | in every run, however the steps of send interleave with poll, wakeup and close, a request gets at most one reply, alone in its own log: the one nobody wrote, with code -1, exactly if it is muted, which a sender never is, else code, headers and body as the worker passed them to send, or the 500 |
| Replies.SettledSendHasOneReply | src/http/async_response.cpp:24-42 | in every run a send that is over, on a connection still open, has had exactly one reply: what the worker passed to send, field by field, if mg_wakeup accepted its wakeup, the reply with code 500 if not |
| Replies.WakeupAnswers | src/http/endpoint.cpp:283-288 | in every run the wakeup of a pending response that is no stream writes its payload, field by field, marks it completed and erases it, and changes no other request |
| ProtocolTheorems.DataHasOneOwner | src/http/async_stream.cpp:27-49 | in every run, whichever wakeups were early, the worker is about to write m_data only in empty or failed, and never while a queued wakeup would make the loop move it |
| Fates.FateIsFinal | src/http/async_stream.cpp:11-23 | a stream failed by a close, stranded by one, a worker that had not begun at one, a stream orphaned or muted by an early wakeup is so in every state of every continuation of any run |
| Fates.PromotedIffNotEarly | src/http/async_response.cpp:49-75 | in every run a stream's first wakeup promotes it, with its worker holding the stream, if and only if stream() has already returned |
| Fates.EarlyWakeupMutes | src/http/endpoint.cpp:276-288 | handled before streaming is stored the wakeup is answered with code -1, no headers and no body and nothing else, the stream is never filed, and the worker waits for ever |
| Fates.EarlyWakeupOrphans | src/http/async_response.cpp:69-93 | handled between the store and the return it takes the pointer away: the preamble is out and no continuation completes the stream |
| Fates.FitsOrRaced | src/http/async_response.cpp:49-75 | in every run a request satisfies the per-request invariant if none of its own wakeups was early, and is orphaned or muted if one was |
| Closing.CloseDecides | src/http/endpoint.cpp:229-244 | in every run, wherever a close finds a worker, if that is ever in wait() afterwards, wait() can only return false or never returns: the latter if and only if the stream was not promoted, or the worker was between wait() and the store and its hand-over was not refused through a live manager |
| Closing.CloseSilencesUnbegun | src/http/endpoint.cpp:229-236 | in every continuation of a close that finds a worker before its first call, its response is failed, whatever it calls changes nothing, and it never has a stream |
| Closing.ClosedForGood | src/http/endpoint.cpp:229-252 | in no continuation does a closed connection reopen, get another byte, or have anything pending |
| Races.MutingHappens | src/http/async_response.cpp:64-69 | a run exists after which such a wakeup mutes its worker |
| Races.OrphaningHappens | src/http/async_response.cpp:69-70 | a run exists after which such a wakeup orphans its stream |
| Races.CloseStrandsWaiter | src/http/endpoint.cpp:229-236 | a run exists after which a close leaves a worker waiting for ever |
| Races.CloseStrandsSender | src/http/async_stream.cpp:27-35 | a run exists that closes a connection on a granted worker, whose next accepted send leaves it waiting for ever |
| Races.CompletionNeedsBuffer | src/http/remote_context.cpp:245-249 | some stream of some run completes if and only if the buffer limit is above zero |
| Races.EmptyChunkHappens | src/http/endpoint.cpp:312-314 | a run exists that completes a stream with an empty chunk, whose coded body does not decode to its data |
| ProtocolInvariant.UndisturbedRunsFit | src/http/endpoint.cpp:109-333 | the per-request invariant holds in every state of every run that did not handle this request's wakeup early |
| ProtocolInvariant.CalmRunsKeepInv | src/http/endpoint.cpp:109-333 | it holds of all requests at once in every run without early wakeups |
| ProtocolShape.RunsAreSane | src/http/endpoint.cpp:142-198 | in every run at all ids, maps, queued wakeups and wire tags fit together: a pending id is below the counter, in one map only, under its own open connection |
| Histories.CompletesAfter3nPlus4 | src/http/async_stream.cpp:11-68 | in every run a stream of n chunks that completes has changed state exactly 3n + 4 times |
| Progress.ChangesAreCounted | src/http/async_stream.cpp:11-68 | at every point of every run the number of state changes of a stream that has not failed is a function of its state and the chunks announced |
| Liveness.NeverDeadlocked | src/http/endpoint.cpp:109-227 | in every run, on an open connection, an enabled event that does something for a request (a step of its worker, its wakeup, a poll that answers it, a drain while its filed stream is in flush) exists if and only if the request is not settled, not muted in wait(), not an orphan given up after its grant, and its stream does not wait for the drain of an empty buffer; the last cannot be when the limit is above zero |
| Ranks.RankFalls | src/http/remote_context.cpp:219-250 | every step of an unrefused stream and every drain of its connection lowers the rank (state changes to go, worker steps before the next, chunks of a synchronous stream on the connection, bytes to drain) |
| Ranks.OthersDoNotRaise | src/http/endpoint.cpp:218-227 | no event of other requests or connections, and no poll, adds to the state changes to go or the worker steps before the next |
| Ranks.TurnsAreCounted | src/http/async_stream.cpp:11-68 | at every point of every run the turns taken so far by the worker and by the loop for it are a function of where an unrefused stream stands |
| Ranks.CompletesIn5nPlus10Turns | src/http/async_stream.cpp:11-68 | in every run a completed stream of n chunks took exactly 5n + 10 such turns |
| Liveness.EveryStreamCanFinish | src/http/async_stream.cpp:11-45 | from every reachable point of an unrefused, undisturbed stream on an open connection some calm continuation completes it with exactly the chunks passed to send() so far |
| Liveness.FinishableIffUnrefused | src/http/async_stream.cpp:11-45 | in every run a stream can be finished by some continuation if and only if it has completed, or its connection is open, none of its wakeups was early or refused, and the buffer limit is above zero |
| Fairness.FairRunsComplete | src/http/async_stream.cpp:11-68 | every endless continuation that does not put off an enabled turn of the worker or its wakeup for ever, brings a drain below the limit while the stream waits for one, keeps the connection open, and has no wakeup of the stream early or refused, completes a stream of at most n chunks, at the latest with turn 5n + 10, whatever else the server does |
| Schedules.FairSchedulesExist | src/http/endpoint.cpp:204-227 | such a continuation exists from every reachable point of an unrefused, undisturbed stream on an open connection |
| Liveness.NoStreamIsStranded | src/http/remote_context.cpp:238-250 | in every run, given a limit above zero, a stream that waits for the buffer of an open connection to drain has bytes in it, so that a write event comes |
| Waits.WaitMissesNothing | src/http/async_stream.cpp:11-23 | while the worker takes no step, two loads of the state that agree agree with every load between them: waiting on a compared value misses no change |
| Waits.EndedStaysEnded | src/http/async_stream.cpp:12-16 | once the state would end wait(), it would at every later load, until the worker goes on |
| Liveness.NothingGrantedWithoutBuffer | src/http/remote_context.cpp:245-249 | with a limit of zero no run ever has an empty stream, a granted worker or an announced chunk |
| Backpressure.BufferIsBounded | src/http/remote_context.cpp:219-250 | in every run with N requests dispatched and items of at most m bytes the send buffer never exceeds MG_IO_SIZE - 1 + N * m, while no other connection's pump, itself below the limit, wakes a stream of this one over it |
| Backpressure.LoneBufferIsBounded | src/http/remote_context.cpp:219-250 | with a single connection the bound needs no such condition |
| Backpressure.ConfinedRunsKeepBudget | src/http/endpoint.cpp:218-227 | the credit potential behind the bound: bytes queued plus m for every request that may write before the next pump |
| SendBuffers.BytesAreConserved | src/http/remote_context.cpp:219-236 | in every run the bytes of everything written on a connection are those drained from it and those still queued |
| SendBuffers.DrainGrantsFlushed | src/http/remote_context.cpp:238-250 | in every run a drain turns a filed stream in flush, of whichever connection, to empty if and only if it left its connection, with its own pump's chunk, below the limit, and changes no other stream |
| SendBuffers.DispatchesAreCounted | src/http/endpoint.cpp:142-161 | the number of requests the bound speaks of is the number of dispatch events on the connection |
| CrossPumping.BufferIsUnboundedAcrossConnections | src/http/endpoint.cpp:222-226 | for every number there is a run with two connections, one request and items of at most six bytes after which more bytes than that are queued on one of them |
| SyncStreams.SyncStreamFate | src/http/remote_context.cpp:215-236 | in every continuation of every run of the server a dispatched synchronous stream is going, dropped by a close, finished, or lost to another, with exactly the items on the wire and the rest in the producer that this means |
| SyncStreams.SyncStreamLostIffOverrun | src/http/remote_context.cpp:215-217 | chunks or the end are missing in favour of another preamble if and only if the next stream dispatched on the connection found the producer installed |
| SyncStreams.SyncDeliversInOrder | src/http/remote_context.cpp:219-236 | until then the wire has the preamble and a prefix of the chunks once and in order, the producer holds exactly the rest, and is gone exactly when the terminator is out; the items stand in a row if and only if no synchronous reply was dispatched while the producer was installed |
| SyncStreams.OneItemADrain | src/http/remote_context.cpp:219-236 | exact count in every run: after the preamble exactly one item goes out for each drain of the connection that left less than the limit, the chunks in order and then the end, and none for any other event, until all are out |
| SyncStreams.RepliesAreGiven | src/http/response.cpp:18-27 | in every run the replies of synchronous listeners are on their connection once each, as given, in the order of their dispatches |
| SyncStreams.NoProducerIsStranded | src/http/remote_context.cpp:219-236 | in every run an installed producer on an open connection has unsent bytes ahead of it, so that a write event comes |
| SyncStreams.NoLimitNoChunk | src/http/remote_context.cpp:224-226 | with a buffer limit of zero no run takes a chunk from a producer |
| SyncStreams.SyncStreamCanFinish | src/http/remote_context.cpp:219-236 | from every reachable state, one full drain for each chunk left and one more finish the producer installed on an open connection |
| SyncStreams.PathsAgree | include/mgxx/http/response.hpp:65-84 | a finished synchronous and a completed asynchronous stream of the same preamble and chunks, in any two runs, write the same items and bytes, in a row exactly when no reply came between |
| SyncStreams.PathsReadAlike | include/mgxx/http/response.hpp:65-84 | with preambles printed from tables of the same history in any two orders, a recipient reads the same code and reason, the same fields and the same coded body from both |
| SyncStreams.OverrunHappens | src/http/remote_context.cpp:215-217 | a run exists in which a second dispatch takes the first stream's place after its preamble |
| RemoteContexts.RemoteContext.PumpStream | src/http/remote_context.cpp:219-236 | one pump on the live objects: nothing at or above the limit; below it exactly the next chunk, or the end when there is none, after which the producer is never asked again |
| RemoteContexts.RemoteContext.PumpAsyncStream | src/http/remote_context.cpp:238-250 | a stream in flush becomes empty exactly when the given connection is below the limit |
| RemoteContexts.RemoteContext.SetStream | src/http/remote_context.cpp:215-217 | the producer is installed in place of any other |
| Responses.Response.Stream | include/mgxx/http/response.hpp:65-84 | the preamble with the rewritten headers is sent and the producer installed, once; a used response changes nothing, not even its headers |
| Responses.Response.Send | src/http/response.cpp:18-27 | one reply with every header once; a used response writes nothing |
| Endpoints.Endpoint.HandleAsyncMessage | src/http/endpoint.cpp:142-161 | the next id is issued and its response filed under the connection |
| Endpoints.Endpoint.HandleStream | src/http/endpoint.cpp:291-333 | the maps, objects and connection end up as handle_stream on values says, the inner map going with its last stream |
| Endpoints.Endpoint.HandleResponse | src/http/endpoint.cpp:254-289 | likewise, for replies, promotions and requests not found |
| Endpoints.Endpoint.HandleWakeup | src/http/endpoint.cpp:204-216 | likewise, for the stream, then the response, then the 500 |
| Desks.StrayWakeup | src/http/endpoint.cpp:204-273 | a wakeup for nothing pending is answered twice with the 500 and changes nothing else |
| Endpoints.Endpoint.HandleWrite | src/http/endpoint.cpp:218-227 | every stream of every connection is pumped against the firing connection's buffer, and nothing else changes |
| Endpoints.Endpoint.HandlePoll | src/http/endpoint.cpp:109-126 | exactly the failed responses of the connection get one 500 each, in the order of the walk, and are erased |
| Desks.ErrorRepliesInOrder | src/http/endpoint.cpp:109-126 | the walk appends the reply with code 500 for each response it fails, in its order |
| Endpoints.Endpoint.HandleClose | src/http/endpoint.cpp:229-252 | everything pending on the connection is failed and forgotten, and its context with the producer is gone |
| Endpoints.Endpoint.WorkersKeepValid | src/http/async_response.cpp:24-75 | what workers do to their objects between handlers keeps the endpoint's invariant |
| AsyncResponses.AsyncResponse.Send | src/http/async_response.cpp:24-42 | only the first call on a pending response writes the payload and posts; the state says whether the loop will hear of it |
| AsyncResponses.AsyncResponse.Stream | src/http/async_response.cpp:49-75 | likewise; the new stream starts with the preamble of the rewritten headers |
| AsyncResponses.AsyncResponse.GetStream | src/http/async_response.cpp:91-93 | the pointer leaves the response |
| AsyncStreams.AsyncStream.Wait | src/http/async_stream.cpp:11-23 | returns at the first empty, failed or completed state it loads, true exactly for empty, and blocks while there is none |
| AsyncStreams.AsyncStream.Send | src/http/async_stream.cpp:27-35 | the whole body is the data and the state is has_data, or failed if the wakeup was refused; posted exactly if it was accepted |
| AsyncStreams.AsyncStream.CloseStream | src/http/async_stream.cpp:37-45 | the same for the end of the stream, with no data and the state close |
| AsyncStreams.AsyncStream.GetData | src/http/async_stream.cpp:49 | the data leaves the cell |
| WorkerCalls.HandOverIsItsSteps | src/http/async_stream.cpp:27-45 | the single steps of send and close, uninterrupted, add up to the whole call: the argument as data, has_data or close or failed as state, one wakeup exactly when mg_wakeup accepts it |
| WorkerCalls.SendIsItsSteps | src/http/async_response.cpp:24-42 | the same for a response's send |
| WorkerCalls.StreamIsItsSteps | src/http/async_response.cpp:49-75 | the same for stream(): the worker gets its stream or is done |
| ChunkCoding.DecodeEncode | src/http/remote_context.cpp:228-235 | what a recipient reads off the coded bytes, by section 7.1 of RFC 9112, for every chunk list: the chunks in front of the first empty one, and which bytes are left unread |
| ChunkCoding.RoundTripIffNoEmptyChunk | src/http/endpoint.cpp:312-320 | a chunk list survives the wire if and only if none of its chunks is empty |
| ChunkCoding.ReadFrame | src/http/endpoint.cpp:312-314 | a frame reads back as its data, whatever bytes it holds and whatever follows |
| ChunkCoding.HexIsCanonical | src/http/endpoint.cpp:312-314 | the length of a frame is printed in lower-case hexadecimal without a leading zero |
| Connections.RenderStream | src/http/endpoint.cpp:305-320 | the bytes of a stream's items are its preamble and the chunked coding of its chunks |
| HeaderTable.HashKey | include/mgxx/http/headers.hpp:15-26 | the loop computes the FNV-1a hash of the folded octets that the specification gives by recursion |
| HeaderTable.MixIsOneRound | include/mgxx/http/headers.hpp:19-23 | a round changes bits of the lowest octet only and then multiplies by the prime modulo 2^64 |
| HeaderTable.PublishedHashes | include/mgxx/http/headers.hpp:15-26 | the hashes of the empty text and of "a" are the published 64-bit FNV-1a values, and "A" hashes like "a" |
| HeaderTable.XorIsBitwise | include/mgxx/http/headers.hpp:21 | the xor of a round is bitwise: bit k of the result is set exactly when k is below the width and exactly one operand has it |
| HeaderTable.EqualIffSameName | include/mgxx/http/headers.hpp:37-44 | two names are equal to the table if and only if they have the same length and at each position the same character or the two forms of one of the 26 letters |
| HeaderTable.EqualNamesHashAlike | include/mgxx/http/headers.hpp:15-44 | equal names have equal hashes |
| HeaderTable.LookupIsLastSet | src/http/headers.cpp:6-39 | after any history of set, remove and clear a name of any casing finds the last value set under it, filed under the casing it was first set in, and nothing when it was removed since |
| HeaderTable.EntriesAreLastSet | src/http/headers.cpp:41-56 | after any history the entries printed hold each name that is set exactly once, with its last value and its first casing, and no other |
| HeaderTable.Headers.Find | src/http/headers.cpp:10-17 | walking one bucket finds the entry whose name is the given one in any casing if and only if the table holds one |
| HeaderTable.Headers.Get | src/http/headers.cpp:10-17 | the value of the entry whose name is the given one in any casing, nothing if there is none |
| HeaderTable.Headers.Has | src/http/headers.cpp:6-8 | likewise |
| HeaderTable.Headers.Set | src/http/headers.cpp:29-31 | the table becomes the updated map; an existing entry keeps the casing of its name |
| HeaderTable.Headers.Remove | src/http/headers.cpp:33-37 | the table becomes the map without that name in any casing |
| HeaderTable.Headers.Clear | src/http/headers.cpp:39 | the table becomes the empty map |
| HeaderTable.Headers.Format | src/http/headers.cpp:41-56 | prints each entry of the map exactly once, in some order, as name, colon, space, value, CRLF; an empty table as nothing or as the default line |
| HeaderText.FormatReadsBackIffClean | src/http/headers.cpp:41-56 | cutting at CRLF and at the first colon and space recovers exactly the entries, in every order, if and only if no name holds either separator and no value holds CRLF |
| HeaderText.PlainFieldsReadBack | src/http/headers.cpp:41-56 | in particular fields are recovered whose names hold no colon, CR or LF and whose values no CR or LF |
| HeaderText.StreamHeaders | src/http/async_response.cpp:56-57 | after any history of updates in any casing a stream's headers hold no Content-Length, exactly one Transfer-Encoding with the requested value, and every other field as last set |
| HeaderText.DigitsReadBack | include/mgxx/http/response.hpp:75-77 | the printed status code reads back as the number, without a leading zero |
| HeaderText.StreamPreambleReadsBack | include/mgxx/http/response.hpp:73-77 | the preamble, read by sections 4 and 6.2 of RFC 9112, gives back HTTP/1.1, the code as a number, the reason and exactly those headers, and the body starts where it should, given decodable header text |
| AsyncRequests.AsyncRequest.constructor | src/http/async_request.cpp:9-47 | every accessor of the copy reads what the original said: each field, group and visible header line holds the same bytes, all inside a buffer no older data shares |
| AsyncRequests.AsyncRequest.OutlivesItsOriginal | src/http/async_request.cpp:16-49 | no write outside the copy's own buffer changes what it says |
| AsyncRequests.RebasedMessage | src/http/async_request.cpp:18-46 | moving every slice by the distance of two equal buffers preserves all texts, header lines and groups and keeps them inside |
| AsyncRequests.CopiedLines | src/http/async_request.cpp:31-40 | the header loop that stops at the first null name copies every line a lookup can see |
| AsyncRequests.CopiedVisibly | src/http/async_request.cpp:31-40 | each line in front of the first empty name is copied byte by byte, and no other line becomes visible |
| AsyncRequests.OnlyItsBufferMatters | src/http/async_request.cpp:57-93 | a message whose slices lie in its buffer depends on that buffer alone |
| AsyncRequests.AsyncRequest.GetHeader | src/http/async_request.cpp:81-89 | the bytes of the value of the first line, in front of the first empty name, whose name is the given one in any casing; nothing exactly if there is no such line |
| AsyncRequests.AsyncRequest.GetParam | src/http/async_request.cpp:65-71 | the bytes of a group, or nothing beyond the last |
| LogBuffer.Logger.Log | src/server.cpp:23-31 | one character joins the input; the held text with it goes to the listener at a newline or when the buffer is full, else it is held |
| LogBuffer.Logger.LogAll | src/server.cpp:23-31 | after any text what was emitted and what is held are the greedy split, at newlines and full buffers, of all the input since the registration |
| LogBuffer.GreedySplitIsUnique | src/server.cpp:23-31 | there is only one such split |
| LogBuffer.Logger.Register | src/server.cpp:77-84 | the buffer is resized with what it holds and the offset kept, the held text opening the new listener's input; there is room for a character if and only if the size exceeds the offset |

## Left out

- Mongoose itself, its sockets, parsing and matching, and TLS: they are behind the interface listed above.
- Routes, captures, assets and the fallback listener's choice: `HandleAsyncMessage` starts where the listener was found.
- A producer is a finite list of chunks; one that blocks, throws or never ends is not modelled.
- Status reason phrases: a parameter, which the preamble theorem wants free of CRLF.
- LogBuffer.Logger.Log: a registration whose size does not exceed the offset leaves the buffer without room (`Register`); the write past its end that follows is not modelled.
- Rehashing of the header table: the number of buckets is fixed and arbitrary, and so is the order in which `format` walks.
- The bytes of a header name are characters below 256; longer characters do not occur.
- ChunkCoding.DecodeEncode: the recipient accepts no chunk extensions and no trailer fields, which the server never writes.
- SyncStreams.PathsAgree: about the same preamble text; `PathsReadAlike` is about tables that print in different orders, which `std::unordered_map` leaves open.
- Ranks.OthersDoNotRaise: the last two components, which belong to the connection, are raised by what others write on it; `CompletesIn5nPlus10Turns` counts without them.
- AsyncStreams.AsyncStream.Wait: its successive loads are a parameter, because other threads store between them; what the loads of a run can be is in `Waits`, and blocking and notification are one event of `Protocol`, enabled exactly when a load would end the wait.
- Endpoints.Endpoint.HandlePoll: erasing while iterating is a walk over the ids with the erased ones removed at the end.
- AsyncRequests.AsyncRequest.constructor: `mg_strdup` never runs out of memory.
- Memory orders weaker than sequential consistency, the lifetime of shared pointers, and the destructors.
- The remaining getters, overloads that only forward, `headers::get_view` and the reserve hint of `format`.
