# A verified model of pyreqwest's core

pyreqwest is a Python HTTP client written in Rust on top of an async runtime. This project models the parts of it
that are hard to get right, in Dafny, and proves what they promise:

- **The streamed response body.** A prefetch phase reads up to a limit; a spawned reader task batches the rest and
  sends it over a channel of capacity two; the consumer re-slices it for `next_chunk`, `read(amount)` and `bytes`.
  Close, read errors, cancelled calls, an aborted task and a dropped receiver come at any point.
  `BodyProtocol` is the labelled transition system, `BodyProofs`, `BodyBounds` and `BodyErrors` prove what holds in
  every run, and the classes of `BodyReader` are the code itself: each of its methods records the protocol steps it
  takes, so every theorem about runs holds for every object. `BodyCalls` says what one call does to the bytes ahead,
  `BodySession` what whole programs of calls get.
- **Permits.** `Permits` is the transition system of any number of concurrent requests that share a semaphore. A
  request that streams carries a state of the body protocol, and its permit can come back exactly when the reader
  task of that state is over. `Spawner` is the task of one request, whose ends are paths of that system.
- **The asyncio bridge** (`AsyncioBridge`) between a future and a task on a Python event loop, and the stream
  adapter on top of it (`BodyStream`).
- **Linear requests and middleware chains.** `Request` and `Middleware` are the classes. `RequestWorld` says on plain
  values what a program can do with a request and its copies, and middlewares can do all of it too; `Program` holds
  the real objects, with shared body handles, and follows those values step by step.
- **Header maps** (`Headers`, `HeaderMap`, `HeaderViews`) and the resolution of request headers
  (`RequestHeaders`). A map is a list of entries with distinct names and at least one value each. A removal may put
  the entries in any other order; the values of one name keep theirs, as section 5.3 of RFC 9110 asks.
- **The global runtime** (`Runtime`), query grouping (`Grouping`) and the position of a JSON error
  (`ErrorPosition`).

`Wrappers`, `Lists` and `Chunks` hold what the others share. `dafny verify dfyconfig.toml` checks everything.

## How to read the body model

A protocol state has the chunks *ahead* of the consumer (pending, queued, in the task, still in frames), the bytes
*in hand* of the call in progress, and a history of what calls delivered, lost, or saw. The invariant is a
conservation law: history, hand and ahead make the body, or a prefix of it once a close, an abort, a dropped
receiver or a read error has cut it. `Clean(state)` means that nothing of that kind happened. An await is modelled
as any number of turns of the reader task, so a contract holds for every scheduling. A call that fails part-way
drops what it had collected; the model keeps those bytes as `Lost` events instead of assuming failure away.

A reader is `Safe` when nothing that its caller can see has gone wrong: there is a body, the runtime stays, nobody
closed the reader, and no call raised anything but a refusal. For a safe reader the contracts speak about the whole
body directly, without any ghost condition.

## What the proofs found

- `bytes()` after a whole-body read that failed part-way returns the rest as if it were everything:
  `BodyCounterexample.LossyRun` is such a run, made of the steps of two whole-body reads, and
  `BodyCounterexample.BytesTwice` shows that it is so whenever a cancelled read had collected something. On a clean
  run the result is the whole body if and only if no call has lost bytes; if no call has raised, it always is
  (`BodyReader.BodyReader.ReadAll`). A cancelled `next_chunk` never loses any.
- A read error ends the body for good (`BodyErrors.ErrorEndsBody`). A first `bytes()` after it gives an empty body as a
  success, and `read` and `next_chunk` report a plain end. The error itself costs less than one batch
  (`BodyErrors.ErrorLosesLittle`).
- `read(amount)` gives exactly the next `min(amount, remaining)` bytes. At the end of the body it gives none if
  and only if not even an empty chunk is left, and empty bytes if only empty chunks are: the reader task drops
  empty chunks, the prefetch does not (`BodyReader.BodyReader.Read`, with `BodyCounterexample.EmptyRead` as a witness).
- The items iterator panics exactly when a name that it has not reached yet lost all its values after the iterator
  was made (`HeaderMap.ItemsIter.Next`, with `HeaderMap.IteratorPanics` as a witness).
- A multi-threaded runtime whose build fails stays failed for ever, but leaves the configuration changeable; it is
  frozen exactly from a successful build on.
- The reported JSON error position is one byte before line start plus column, except at column zero and at the end
  of a line, where it is equal to it.

## Model

| member | source | states |
|---|---|---|
| BodyProofs.PrefetchKeepsBody | src/response/internal/body_reader.rs:176-208 | The hand-over from prefetch to reader task loses and repeats nothing: prefetched chunks and the frames left make the body; reading stops early only when the limit is reached, and fails only on a read error |
| BodyProofs.PrefetchMeans | src/response/internal/body_reader.rs:176-208 | In terms of the body alone: a prefetch fails exactly if the body fails before the limit is reached, leaves something exactly if it is reached, stops at the first chunk that reaches it, and with limit zero reads nothing |
| BodyProofs.StartAhead | src/response/internal/body_reader.rs:25-57 | A fresh reader has the whole body ahead of it, except when it was asked for no body |
| BodyProofs.PollFrameChunks | src/response/internal/body_reader.rs:254-276 | A turn of the task's loop keeps the chunks still to come, in order, or turns into the one read error |
| BodyProofs.CompleteSendChunks | src/response/internal/body_reader.rs:289-313 | A send that completes, waits or ends the task moves chunks to the channel without changing what the consumer will see |
| BodyProofs.ReceiveAccount | src/response/internal/body_reader.rs:68-79 | Receiving a batch or an error conserves the bytes: what was in hand is lost only with an error, and then accounted for |
| BodyProofs.PutBackAccount | src/response/internal/body_reader.rs:124-148 | Splitting a chunk and pushing its tail to the front conserves the bytes and their order |
| BodyProofs.StepInv | src/response/internal/body_reader.rs:59-80 | Every step of consumer, task and environment, in any interleaving, keeps the invariant: conservation, non-empty batches, channel capacity, exact byte count, no made-up or swallowed error, final end |
| BodyProofs.Reachable | src/response/internal/body_reader.rs:25-57 | The invariant holds after every run from every response |
| BodyProofs.NoSilentTruncation | src/response/internal/body_reader.rs:59-80 | An end of body reported without a cut and without an error is the real end: the connection had no error, everything was taken, and without lost bytes the calls returned the whole body |
| BodyProofs.FlatCursor | src/response/internal/body_reader.rs:59-159 | In every reachable state taken bytes are a prefix of the body, in order and none twice; without a cut nothing is missing between them and what is ahead; delivered and lost bytes add up |
| BodyBounds.PrefetchFits | src/response/internal/body_reader.rs:189-207 | A prefetch overshoots its limit by less than one frame |
| BodyBounds.StepFits | src/response/internal/body_reader.rs:289-313 | Every step keeps each batch, queued, pending or being sent, within limit and one frame |
| BodyBounds.MemoryBound | src/response/internal/body_reader.rs:243-305 | In every reachable state at most 4·(max(L,1)−1+M) bytes are held for a reader, and the task's byte count is exact |
| BodyBounds.BatchesAreFull | src/response/internal/body_reader.rs:294-312 | The other side of the bound: no batch below the limit is sent, except the rest at the end of the body |
| BodyBounds.TaskProgress | src/response/internal/body_reader.rs:254-276 | A task that is not blocked uses up a finite amount of work with every turn |
| BodyBounds.NoDeadlock | src/response/internal/body_reader.rs:68-71 | Consumer and task never wait for each other: a waiting receive means that the task can move, a blocked send means that the next receive succeeds and unblocks it |
| BodyBounds.EveryWaitEnds | src/response/internal/body_reader.rs:220-222 | If the task keeps taking turns, every waiting receive gets a batch, the error or the end |
| BodyBounds.AbandonedTaskEnds | src/response/internal/body_reader.rs:278-284 | A task whose receiver is gone ends by itself after finitely many turns |
| BodyErrors.ErrorEndsBody | src/response/internal/body_reader.rs:258-261 | Once a read error was reported, the body is at its end for good |
| BodyErrors.StepAccount | src/response/internal/body_reader.rs:254-276 | Every step that neither cuts the body nor meets the read error keeps all bytes: taken, in hand and ahead |
| BodyErrors.ErrorLosesLittle | src/response/internal/body_reader.rs:256-266 | A read error costs less than one batch: unless the body was cut, all but fewer than max(L,1) of its bytes were taken, are in hand or are ahead; queued batches are never thrown away |
| BodyErrors.UnbrokenEnd | src/response/internal/body_reader.rs:59-80 | An end that comes without a cut and without an error seen is the end of a body that does not fail |
| BodyCalls.ReceiveTook | src/response/internal/body_reader.rs:72-79 | A received batch is never empty, and its first chunk is the first of everything ahead |
| BodyCalls.WholeBody | src/response/internal/body_reader.rs:91-113 | At the end of a clean run the calls returned the whole body if and only if no call lost bytes |
| BodyCalls.ReturnedExactly | src/response/internal/body_reader.rs:115-159 | A result that is full, or short only at the end, is exactly the next min(amount, remaining) bytes |
| BodyCalls.ReadFromLeft | src/response/internal/body_reader.rs:115-159 | An unbroken read is a slice of the whole body at the position where the calls before it stopped |
| BodyCalls.EndIsEmpty | src/response/internal/body_reader.rs:120-122 | An end that is not due to a cut or an error means that nothing was ahead, not even an empty chunk |
| BodyCalls.ErrorIsReal | src/response/internal/body_reader.rs:258-261 | A read error that a consumer sees comes from the connection |
| BodyReader.Reader.SendChunk | src/response/internal/body_reader.rs:289-305 | The imperative batching step is the protocol's, with the count reset exactly when a batch goes out |
| BodyReader.Reader.Finalize | src/response/internal/body_reader.rs:307-313 | The rest of the batch is sent last, and nothing if there is none |
| BodyReader.Reader.Turn | src/response/internal/body_reader.rs:256-275 | One turn of the loop: error, end, frame without data, empty chunk, chunk |
| BodyReader.Reader.PollSend | src/response/internal/body_reader.rs:304-312 | Without a receiver the task is over; with two messages queued it waits; otherwise the message goes to the back of the channel |
| BodyReader.BodyReader.ReadLimit | src/response/internal/body_reader.rs:176-208 | The loop reads nothing of no body, everything of a body to be consumed, and of a streamed one just the chunks that reach the limit, zero included; it fails exactly if the body fails before that |
| BodyReader.BodyReader.Initialize | src/response/internal/body_reader.rs:25-57 | No body: no chunks and no task. A consumed body: all its chunks, or an error exactly if it fails. A streamed one: an error exactly if it fails below the limit, and a task for what is left exactly if it reaches the limit; with limit zero always a task, for the whole body, and no chunks |
| BodyReader.BodyReader.AwaitMessage | src/response/internal/body_reader.rs:68-71 | The wait terminates under every scheduling, with a message, a closed channel or a cancellation by someone who can; other tasks change nothing that the call has |
| BodyReader.BodyReader.ReadNext | src/response/internal/body_reader.rs:59-80 | The next chunk is the first of those ahead; an end is an end; a failure drops what the call had in hand, and is either a cancellation or a real read error |
| BodyReader.BodyReader.TakeOne | src/response/internal/body_reader.rs:105-107 | One turn of a collecting loop: the chunk extends what the call has in hand, or the failed call loses exactly that |
| BodyReader.BodyReader.NextChunk | src/response/internal/body_reader.rs:82-89 | Returns the very next chunk, which is the next piece of the body; a failed or cancelled call skips nothing; at an end, and after a whole-body read, there is only the end, and for a safe reader nothing of the body is left then |
| BodyReader.BodyReader.Collect | src/response/internal/body_reader.rs:133-155 | The collecting loop terminates although chunks may be empty and tails are pushed back, and never takes more than is asked for |
| BodyReader.BodyReader.Read | src/response/internal/body_reader.rs:115-159 | At most `amount` bytes off the front, fewer only at the end; none exactly if not even an empty chunk is left, and empty bytes only if all chunks left are empty; for a safe reader exactly the next min(amount, remaining) bytes of the body; a failed call loses fewer than `amount` bytes, and they are accounted for |
| BodyReader.BodyReader.ReadAll | src/response/internal/body_reader.rs:91-113 | Refused exactly after a partial read that returned bytes; the same value on every later call; on a clean run the whole body if and only if no earlier call lost bytes, and always if no earlier call raised; after a read error an empty success |
| BodyReader.BodyReader.Close | src/response/internal/body_reader.rs:161-165 | Asks the task to stop and takes nothing that is already there |
| BodyReader.BodyReader.HoldsAtMost | src/response/internal/body_reader.rs:189-207 | The memory bound for every reader object, whatever was done with it |
| BodyCounterexample.LossyRun | src/response/internal/body_reader.rs:91-113 | Two whole-body reads, step by step: the first is cancelled in its second wait, and the second silently returns only the rest |
| BodyCounterexample.BytesTwice | src/response/internal/body_reader.rs:91-113 | For every reader: what a cancelled whole-body read had collected and what the next one returns make what was left |
| BodyCounterexample.EmptyChunkAhead | src/response/internal/body_reader.rs:189-207 | The prefetch keeps a chunk without bytes, so that it is ahead of the consumer |
| BodyCounterexample.EmptyRead | src/response/internal/body_reader.rs:115-159 | On such a body the first read gives empty bytes, and only the second one none |
| BodySession.ReadsAgree | src/response/internal/body_reader.rs:91-159 | Two programs with the same reads and whole-body reads get the same results, however the body is chunked, prefetched or scheduled |
| BodySession.WholeThenNothing | src/response/internal/body_reader.rs:92-94 | After a whole-body read that succeeded, every partial read finds nothing and every whole-body read gives the body again |
| BodySession.PartialThenRefused | src/response/internal/body_reader.rs:96-98 | After a partial read that gave bytes, every whole-body read is refused |
| BodySession.RunCalls | src/response/internal/body_reader.rs:82-159 | Any mix of `next_chunk`, `read` and `bytes` takes the bytes of one flat body in order; on a safe reader every result is the one on the flat body; only a cancellation or a read error ends a program |
| BodySession.Session | src/response/internal/body_reader.rs:25-159 | From the response to the results: with a runtime that stays, a program that is not ended by a cancellation or by a real read error gets exactly the results on the flat body |
| Permits.Conservation | src/client/internal/spawner.rs:41-78 | In every reachable state of any number of requests the free permits and those owned by tasks make the limit; a finished request acquired at most one permit and returned exactly as many |
| Permits.StillOwned | src/runtime/runtime.rs:90-104 | Over any run a permit stays out until its own task ends, whatever callers, clients and other tasks do |
| Permits.CallersDoNotMatter | src/client/internal/spawner.rs:73-78 | Any run without the steps in which callers are cancelled, or their client is closed, has the same tasks in the same phases and the same free permits |
| Permits.CallersAreAnswered | src/client/internal/spawner.rs:73-78 | Over any run, every caller that stays is answered, exactly when its body starts to stream or its task is over |
| Permits.UntimedWaits | src/client/internal/connection_limiter.rs:28-33 | Without a time limit a request waits for its permit over any run until it gets it or is aborted |
| Permits.PrefetchDecides | src/response/internal/body_reader.rs:31-46 | After the response head the body alone decides, but for an abort: an error if it breaks off in the prefetch, a stream exactly if it reaches the limit, and fully read otherwise |
| Permits.PermitFollowsReaderTask | src/response/internal/body_reader.rs:278-284 | While a body streams its permit is out, and it can come back if and only if the reader task is over: finished, errored, closed, aborted or without a receiver |
| Permits.AbandonedPermitReturns | src/response/internal/body_reader.rs:278-284 | A response that nobody reads any more gives its permit back, by steps of its own task alone, and changes no other request |
| Permits.ClosedPermitReturns | src/response/internal/body_reader.rs:278-284 | After a close the task can end at once and gives its permit back |
| Permits.PathEffect | src/client/internal/spawner.rs:41-71 | Every way in which the task of one request ends by itself returns its permit; only a streaming body keeps it on |
| Permits.PoolProgress | src/client/internal/spawner.rs:90-108 | With a positive limit, while some request is not over, some task can go on, or its consumer can read on, and uses up work |
| Permits.AllPermitsReturn | src/client/internal/spawner.rs:125-133 | From every reachable state, if consumers read on, the tasks run without timeout, abort or close until every permit is free |
| Spawner.ConnectionLimiter.LimitConnections | src/client/internal/connection_limiter.rs:20-35 | A permit is taken exactly when it comes within both time limits, whichever of them exist |
| Spawner.SpawnedRequestPermit.Drop | src/client/internal/spawner.rs:125-133 | A permit is returned once, however often it is dropped |
| Spawner.LimitConnections | src/client/internal/spawner.rs:90-108 | Time waited and time left make the original time limit, the subtraction never underflows, and a permit that comes too late goes back |
| Spawner.Execute | src/client/internal/spawner.rs:46-71 | A send that failed is a send error, and a body that breaks off in the prefetch a read error; in both cases, and for a fully read body, the permit is back; only a reader task keeps it; a HEAD request never has a body |
| Spawner.RunRequest | src/client/internal/spawner.rs:35-71 | The whole task of a request: which error it ends with and when, with the time left of its limit on the wire; it takes one of the paths of the pool, the semaphore agrees with the pool at its end, and a streaming request has the body state that its reader starts in |
| AsyncioBridge.BridgeInner.OnInit | src/internal/asyncio_coro.rs:45-72 | Uses up the coroutine, makes a task only if it was still there, and reports every failure to start through the sender, once |
| AsyncioBridge.BridgeInner.OnDone | src/internal/asyncio_coro.rs:74-90 | Uses up sender, extractor and task, and sends the extracted result if the sender was still there |
| AsyncioBridge.BridgeInner.CancelTask | src/internal/asyncio_coro.rs:92-98 | Drops the coroutine, and cancels a task only if there is one and only once |
| AsyncioBridge.StepInv | src/internal/asyncio_coro.rs:45-98 | Every interleaving of init, done, cancel, poll and drop keeps the bridge consistent |
| AsyncioBridge.NoLostWakeup | src/internal/asyncio_coro.rs:140-187 | A pending waiter always has a scheduled init, a live task with its callback, or a value; if anything arrived after its last poll, it was woken |
| AsyncioBridge.SettlesOnce | src/internal/asyncio_coro.rs:74-90 | One send, one task and one cancellation at most; a result is the task's own, never changes, and is what the waiter resolves with |
| AsyncioBridge.CancelBeforeInit | src/internal/asyncio_coro.rs:92-98 | After a cancel that came before init no task is ever made, whatever follows |
| AsyncioBridge.CancelAfterInit | src/internal/asyncio_coro.rs:140-151 | A cancel between init and done cancels the task, exactly once for ever |
| AsyncioBridge.PollOrder | src/internal/asyncio_coro.rs:140-161 | A poll looks for a cancellation before it looks for a result |
| AsyncioBridge.CancelStands | src/internal/asyncio_coro.rs:140-151 | Once a waiter is asked to cancel, its next poll says so, even if a result arrives in between |
| AsyncioBridge.EventLoopSettles | src/internal/asyncio_coro.rs:168-187 | Three turns of the event loop settle every waiter, however the task fares, and its next poll is final |
| AsyncioBridge.StartedTaskReports | src/internal/asyncio_coro.rs:74-90 | A started task whose callback is registered reports its own result |
| BodyStream.BodyStream.PollOnce | src/internal/body_stream.rs:23-52 | A poll starts a step only if none is outstanding, and keeps a pending waiter; a value is handed on with its bytes, anything else as the error that it is, and the end after the last item |
| BodyStream.BodyStream.PyNext | src/internal/body_stream.rs:90-121 | Asks for exactly one step, or for none if an async iterator has no event loop |
| BodyStream.BodyStream.SetTaskLocal | src/internal/body_stream.rs:83-88 | The first event loop stays, and sync streams need none |
| BodyStream.EmitsPromised | src/internal/body_stream.rs:23-52 | Among all results that any schedule of polls hands on, those from the iterator are a prefix of what it promised; steps asked for match them and the one outstanding |
| BodyStream.AllFromIterator | src/internal/body_stream.rs:97-101 | With an event loop whenever a step may start, no error is handed on that does not come from the iterator |
| BodyStream.PollScheduleIndependence | src/internal/body_stream.rs:23-52 | The results from the iterator are those of its items, one by one and by their cases, and then the sentinel, for any schedule with any number of pending polls; after enough polls the chunks handed on are the chunks that it had to give; with an event loop nothing else is handed on |
| BodyStream.OneOutstanding | src/internal/body_stream.rs:90-121 | Never more than one `anext` is outstanding, and only for async iterators |
| BodyStream.PendingKeepsWaiter | src/internal/body_stream.rs:41-51 | A pending poll drops no waiter and takes no item |
| Request.RequestBody.TakeInner | src/request/request_body.rs:89-95 | A body moves to a new handle and leaves the old one empty; a second take fails |
| Request.RequestBody.TryClone | src/request/request_body.rs:80-87 | A copy has the same bytes, or streams the same items, and is independent |
| Request.RequestBody.SetTaskLocal | src/request/request_body.rs:97-103 | Only an async stream needs an event loop, and only once; nothing else of the body changes |
| Request.RequestBody.IntoReqwest | src/request/request_body.rs:105-112 | A body goes on the wire once, and an async stream never from a blocking call |
| Request.Request.GetHeaders | src/request/request.rs:53-67 | The live handle holds the headers that the request stands for, wherever they were kept, and is the same every time; which error if they were taken or the request was sent |
| Request.Request.SetHeaders | src/request/request.rs:70-73 | The request stands for the new headers, in a handle of its own |
| Request.Request.GetBody | src/request/request.rs:76-87 | The live handle holds the body that the request stands for, and is the same every time; which error if it was taken or the request was sent |
| Request.Request.SetBody | src/request/request.rs:90-93 | The request refers to the given handle |
| Request.Request.PrepareSpawnRequest | src/request/request.rs:234-260 | Verb and address, the headers from wherever they were kept, and the very bytes or items of the body go on the wire; afterwards the object and its handles are empty; exactly when it fails, and with which error |
| Request.Request.Copy | src/request/request.rs:262-293 | A copy stands for the same headers and the same bytes or items, in handles and a middleware chain of its own; exactly when it can be made, and with which error it fails |
| Request.Request.BeginSend | src/request/request.rs:189-213 | The first part of a send: the body remembers the event loop or the send fails, and the chain leaves the request exactly if the body could |
| RequestWorld.ApplyKeeps | src/request/request.rs:325-342 | Every operation, middlewares included, keeps wire requests as they are and what was sent gone |
| RequestWorld.HistoryIsLinear | src/request/request.rs:189-293 | In any history of gets, sets, edits, shared bodies, copies and sends through middlewares, every request goes on the wire at most once, and all together at most once more than there were copies |
| RequestWorld.FirstWireSend | src/middleware/next.rs:44-52 | Whatever the middlewares edit, copy, send or run: a request that is ready when a chain ends with it goes on the wire as it is at that moment, and never again |
| RequestWorld.PassedAlong | src/middleware/next.rs:44-79 | Middlewares that only pass a request along send it exactly if one of their runs comes to the end |
| RequestWorld.ReadyRequestIsSent | src/request/request.rs:189-221 | A ready request goes out as it is, once, exactly if its chain comes to the end, and nothing else does |
| RequestWorld.BytesAreSent | src/request/request_body.rs:105-112 | A ready request with a body of bytes puts exactly these bytes on the wire, with its verb, address and headers |
| RequestWorld.EditedHeadersAreSent | src/request/request.rs:53-67 | Headers edited through the live handle are those that go on the wire, with the rest of the request as it was |
| RequestWorld.WireCarries | src/request/request.rs:238-259 | The wire request has the verb, address, headers and body that the request stands for |
| RequestWorld.NewBody | src/request/request.rs:90-93 | A body that is set is the one that will be sent; without one the body from the beginning will |
| RequestWorld.SharedBody | src/request/request.rs:76-93 | A shared body is the other request's body: both refer to one cell |
| RequestWorld.SharedBodyIsSpent | src/request/request_body.rs:105-112 | A body that one request has sent can never be sent by another that shares it |
| RequestWorld.CopyOperation | src/request/request.rs:262-293 | A copy would go on the wire exactly like the request it was copied from, through the same chain |
| Program.Program.ReadHeadersAt | src/request/request.rs:53-67 | Moving headers to the Python heap is invisible to every request of the program |
| Program.Program.MoveBodyAt | src/request/request.rs:76-87 | Moving a body to the Python heap is invisible to every request of the program |
| Program.Program.ShareBodyAt | src/request/request.rs:76-93 | A body handle given to another request is shared: both refer to one cell from then on |
| Program.Program.SendWireAt | src/request/request.rs:234-260 | Taking a request apart sends what it stands for, empties the handles it refers to, and leaves all others alone |
| Program.Program.BeginAt | src/request/request.rs:189-213 | The start of a send on the real object does what it does to the values |
| Program.Program.CopyAt | src/request/request.rs:262-293 | A copy joins the program with headers, body and chain of its own |
| Program.Program.SendAt | src/request/request.rs:189-221 | A send on the real objects, through the chain and all that its middlewares do, does what it does to the values |
| Program.Program.Perform | src/request/request.rs:53-293 | Every operation on the real objects does what it does to the values, whatever is shared |
| Program.History | src/request/request.rs:53-293 | Any program on any request puts exactly the wire requests of its history on the wire: each from a request of its own, at most one more than the copies |
| Middleware.NextInner.New | src/middleware/next.rs:124-133 | A chain over the client's shared list exists exactly if that list is not empty |
| Middleware.NextInner.CurrentMiddleware | src/middleware/next.rs:135-145 | Whichever list is there, the middleware at the current position of the one chain that this request has, and none at its end |
| Middleware.NextInner.CreateNext | src/middleware/next.rs:147-156 | The same chain, one position on |
| Middleware.NextInner.AddMiddleware | src/middleware/next.rs:158-168 | Appends to this request's chain only; the client's list is not touched; exactly one of the two lists is there |
| Middleware.NextInner.CloneRef | src/middleware/next.rs:170-181 | A copy starts equal |
| Middleware.NextInner.Run | src/middleware/next.rs:44-79 | Running a chain object, with whatever its middlewares do in between, gives the trace of its list from its position on |
| Middleware.ActsInOrder | src/middleware/next.rs:54-67 | What a middleware does happens in the order in which it does it |
| Middleware.OneAct | src/middleware/next.rs:44-79 | A run of the rest of the chain enters the next middleware, lets it act and leaves it, or sends the given request at the end |
| Middleware.AddAll | src/middleware/next.rs:158-168 | Any additions to any chains of a client: each chain grows by exactly its own, in order; other chains and the shared list are outside the frame |
| Middleware.ChainNests | src/middleware/next.rs:44-79 | Whatever the middlewares do, every send of the chain happens inside all of it, entered in order, and they are left in reverse order |
| Middleware.ChainOrder | src/middleware/next.rs:103-120 | If every middleware passes on once, each is entered once in order, one request is sent, and each is left once in reverse |
| Headers.LookupExtend | src/request/internal/request_builder_headers.rs:17-24 | Extending one map with another replaces the names that the other carries and no others |
| Headers.LookupAppendAll | src/http/header_map/header_map.rs:348-354 | Appending pairs puts the new values of each name behind its old ones, in order |
| Headers.SameMapSamePairs | src/http/header_map/header_map.rs:306-319 | Maps that agree per name hold the same pairs equally often, whatever the order of names |
| HeaderMap.HeaderMap.TryTakeInner | src/http/header_map/header_map.rs:276-280 | The entries can be taken once |
| HeaderMap.HeaderMap.Insert | src/http/header_map/header_map.rs:189-201 | Replaces the values of one name and returns the old ones |
| HeaderMap.HeaderMap.AppendValue | src/http/header_map/header_map.rs:204-212 | Adds one value behind the others of its name, and says whether there were any |
| HeaderMap.HeaderMap.ExtendPairs | src/http/header_map/header_map.rs:348-354 | The loop gives every name its new values, in order, behind the old ones |
| HeaderMap.HeaderMap.PopAll | src/http/header_map/header_map.rs:219-235 | Removes and returns all values of one name and touches no other |
| HeaderMap.HeaderMap.PopInner | src/http/header_map/header_map.rs:321-346 | Removes the first value of one name, keeps its others in order, and touches no other name, although the entry moves |
| HeaderMap.HeaderMap.PopItem | src/http/header_map/header_map.rs:125-134 | Removes and returns the first pair of the current order |
| HeaderMap.DrainByPopItem | src/http/header_map/header_map.rs:125-134 | Popping until empty takes exactly as many calls as there are values, returns every pair once, and the values of each name in stored order |
| HeaderMap.ItemsIter.Next | src/http/header_map/iters.rs:19-41 | Yields the next pair and keeps its two queues in step; exactly when it stops, finds the map consumed, or fails its assertion because the next name has lost its values |
| HeaderMap.IterateAll | src/http/header_map/iters.rs:19-50 | Over a map that does not change, the two queues yield exactly the map's pairs in its order, then stop, and nothing fails |
| HeaderMap.IteratorsAgree | src/http/header_map/iters.rs:59-87 | Names and values iterators yield the two halves of the same pairs, one for one, and as many as the length of the map |
| HeaderMap.IteratorPanics | src/http/header_map/iters.rs:19-27 | A name popped after the iterator was made and before it came to it makes it panic |
| HeaderViews.ItemsViewEquality | src/http/header_map/views.rs:264-282 | Comparing by sorting both sides is equality of the multisets of pairs, for any total order; reordered names compare equal |
| HeaderViews.ItemsContains | src/http/header_map/views.rs:21-31 | A pair is found among the values of its name exactly when the view holds it |
| HeaderViews.DictMultiValue | src/http/header_map/header_map.rs:356-379 | The multi-value dict holds exactly the values of each name in order, as a list only for several |
| RequestHeaders.NamedHasValues | src/request/internal/request_builder_headers.rs:26-56 | A header has explicit values if and only if some call named it |
| RequestHeaders.RequestBuilderHeaders.Disjoint | src/request/internal/request_builder_headers.rs:26-56 | Defaults and explicit headers never share a name, after any calls |
| RequestHeaders.RequestBuilderHeaders.AddHeader | src/request/internal/request_builder_headers.rs:26-41 | One more explicit value of the name behind the others, and no default of that name; all other names stay |
| RequestHeaders.RequestBuilderHeaders.AddHeaders | src/request/internal/request_builder_headers.rs:43-56 | The names that the other map carries have exactly its values, and no defaults; all other names stay |
| RequestHeaders.RequestBuilderHeaders.DrainInto | src/request/internal/request_builder_headers.rs:17-24 | The finished request holds, per name, the explicit values if some call named it, else the client's defaults, else its own |
| Runtime.RuntimeConfig.SetConfigCheckInit | src/runtime/runtime.rs:67-77 | A setter succeeds exactly if nothing is frozen or nothing changes, and sets its own field and no other |
| Runtime.RuntimeConfig.BuildTokioRuntime | src/runtime/runtime.rs:37-65 | Only a successful multi-threaded build freezes the configuration, and the runtime has the tuning of that moment |
| Runtime.RuntimeConfig.GlobalHandle | src/runtime/runtime.rs:114-136 | The runtime that was asked for, else the default kind, else the multi-threaded one exactly if it is already there; the same handle, or the same failure, every time; the other runtime is not touched |
| Runtime.ConfigurationFreeze | src/runtime/runtime.rs:37-77 | Over all interleavings, once a multi-threaded runtime works the tuning is for ever the one it was built with, setters succeed exactly as no-ops, and each kind is built at most once |
| Runtime.Configure | src/runtime/runtime.rs:114-201 | Any program of setters and handle requests has every runtime that it asked for by name, and its configuration is the one its multi-threaded runtime works with |
| Grouping.GroupPairs | src/http/url.rs:146-162 | The loop over the pairs makes the grouped dict |
| Grouping.FlattenEntries | src/http/url.rs:338-353 | The nested loops write the pairs of the dict, entry by entry and list by list |
| Grouping.GroupKeeps | src/http/url.rs:146-162 | Every key keeps exactly its values in order, keys are distinct, and every list has at least two items |
| Grouping.GroupRoundTrip | src/http/url.rs:338-353 | Grouping, flattening and grouping again gives the same dict in the same order |
| Grouping.GroupKeepsPairs | src/http/url.rs:338-353 | Flattening a grouped query gives every pair equally often, and each key its values in order |
| ErrorPosition.ErrorPositionOnItsLine | src/response/response.rs:324-343 | The position lies in the text, has exactly the newlines of the earlier lines before it, and is line start plus column or one byte less, and exactly when |

## Left out

- reqwest, hyper, TLS, DNS, sockets, decompression, redirects: foreign code. A body is any sequence of frames that ends or fails.
- Python object plumbing: lock poisoning, garbage-collection clearing, type extraction, repr strings. Every method under a lock is one atomic step.
- Calls on one reader run one after the other, as its mutex makes them; the model has no two consumers at once.
- Wall-clock time: waits and measured times are parameters, and a wait that never ends needs a time limit.
- Spawner.RunRequest: does not model the caller, which the transition system of `Permits` has as separate steps, nor the random choice of `select!` between result and close.
- Permits.Conservation: does not model the order in which a semaphore serves its waiters. The end of a reader task and the return of its permit are two steps, with nothing of that task between them.
- BodyReader.BodyReader.ReadAll: does not model the capacity that is reserved from the content length; neither does `Read`.
- BodyReader.BodyReader.Close: does not model when the task observes it, which is any later turn.
- Widths of machine integers: byte counters are unbounded; subtractions are proved not to underflow.
- AsyncioBridge.EventLoopSettles: does not model an event loop that is closed before its callbacks are called, in which case the waiter stays pending; nor errors raised by `task.cancel()`. The poll of the waiter is a step of the transition system, without a class.
- BodyStream.PollScheduleIndependence: does not model a waiter that fails without consuming an item, as when the event loop is gone.
- Request.RequestBody.TryClone: does not model a Python iterable whose copy gives other items.
- RequestWorld.FirstWireSend: a middleware is a list of what it does, so it does not model how one decides by the results it gets; every run of such a middleware is one of those lists. Responses and their error status are not modelled.
- Program.History: does not model setters for method, URL and extensions, copies made with a body of the caller's choice, nor a request that remembers an event loop from an earlier failed send.
- Headers: sensitivity flags, names that are not valid, the size limit of a map, and the default argument of the pop methods. Names are already in lower case.
- HeaderViews.ItemsViewEquality: does not model the ordering comparisons and set operations of views.
- Response slots for the body reader, text decoding and JSON parsing: the error position takes the decoded text as it is, byte for byte.
- Builder setters, cookies, MIME types, URL accessors, exception mapping, test helpers: they would add only easy members.
