# Harrow, in Dafny

A model of the parts of the Harrow web framework where most can go wrong, with proofs of what
they promise. `dafny verify dfyconfig.toml` checks all of it.

**The io_uring worker.** `EventLoop` is the worker as a transition system: the slab of
connections, the SQEs in flight, the open sockets, and one action for every completion,
per-connection turn, move of the handler or of a response producer, drain and teardown step.
`Connection` says what each event does to one connection. `ConnectionInvariant` and
`ConnectionFrame` prove what every handler keeps and what none may touch, `EventLoopInvariant`,
`EventLoopActions` and `EventLoopRun` carry that to all connections and all runs, and
`EventLoopTheorems`, `Messages` and `Replies` say what it means: the kernel is never left with a
slot or buffer that was given up, every socket is closed exactly once, requests are cut at the
same boundaries however the bytes arrive, responses leave in order and carry the handler's data.
`Endings` accounts for every connection that is closed: its responses were sent to their end, the
last one included, or the step that closed it is a cause to cut it short. `Timeouts` says that the
deadlines the heap keeps are those the sweep enforces, and what outlasts a sweep.
`Progress` says that nothing is left lying: what each connection waits for, and that every turn does
all there is to do. `Answers` says what each event is answered with and when a connection is kept,
`Admission` who is let in, and what a drain leaves to those who were.
`ShortRuns` has runs that reach two of the states listed below. `ConnectionCell`,
`RequestBody` and `Worker` are the same code in its own imperative form, proved equal to the
functions the invariants are about. `UserData` is the 64-bit token of an SQE.

**The HTTP/1.1 payload codec.** `PayloadCodec` has the decoder and a byte-at-a-time reference,
`PayloadDriving` what driving it over segments gives, `PayloadLimit` exactly when the body limit
makes that depend on the segments,
`ChunkedGrammar` the grammar of section 7.1 of RFC 9112 as the code reads it, `ChunkEncoder` the
encoder; all three agree. `PayloadDecoder` is the decoder with its mutable state. `Framing` (with
`Text`) is the fold over a request's fields that decides framing, keep-alive and `Expect`.

**Flow within a connection.** `BodyPump` is the bounded request-body pump, `ResponseStream` the
producer that turns a response into stream events.

**The GCRA rate limiter.** `Gcra` has the decision, its exact outcomes, and all interleavings of
threads on one key; `GcraBackend` the retry loop.

**Smaller parts.** `Session` and `Cookie` (a client's session as one persistent map),
`ProblemJson` (the problem-details printer against a JSON reader), `Path` (patterns and
captures), `Routes` (the route index and the 404/405 decision). `Bytes` holds what all share.

## What turned out not to hold as documented

- `prepare_recv` promises `min_spare` bytes of spare capacity. `reserve(min_spare - spare)` gives
  that for every allocator exactly when `spare` was zero or already enough
  (`ConnectionInvariant.FullBufferExactly`); half of it, and never nothing, is always given. A
  second RECV for one head already gets less (`ShortRuns.SmallRecv`).
- A `max_body_size` of zero means "no limit" to the head check and a limit of zero bytes to the
  body pump: a request with a declared body then passes the first and is refused by the second
  (`ConnectionInvariant.ZeroLimitExactly`), as five bytes are (`ConnectionInvariant.HelloRefused`).
- Under the body limit the bytes used, and the body handed out before the error, depend on how the
  stream was cut (`PayloadDriving.TooLargeDependsOnSplit`), exactly when the chunk data at hand that
  goes over the limit is more than one byte (`PayloadLimit.SplitExact`); the verdict does not.
- Which error a bad head gets depends on the order of its fields (`Framing.ErrorDependsOnOrder`),
  exactly when it both asks for an unsupported expectation and holds something the scan rejects as
  invalid (`Framing.ErrorOrderExact`); whether it is accepted does not.
- `Allow` lists a method as often as it was registered for the pattern
  (`Routes.AllowDistinctIff`, `Routes.GetListedTwice`).
- `per_second` and `per_minute` round the interval down. The configured rate is kept over all runs
  if and only if it divides the period (`Gcra.SteadyRate`); seven a second is not
  (`Gcra.SevenPerSecond`). A rate above one per nanosecond gives an interval of zero, by which an
  allowed request divides, and the product in `burst` may wrap around, as it does for 2^63
  (`Gcra.SoundRates`, `Gcra.BurstTooLarge`).
- A `Cookie` header that is not visible ASCII ends the search. A session cookie is missed for it
  (`Cookie.UnreadableHides`) exactly when such a header stands before the first one that claims the
  name (`Cookie.ExtractExact`).
- Segments behind a glob are ignored (`Path.NothingAfterGlob`), although a glob "must be last".
- An interim `100 Continue` that the socket takes only in part is not completed
  (`ShortRuns.OneByteSent`, `Replies.OneByteInterim`). What a client has received splits into whole
  messages if and only if each was taken whole or not at all (`Replies.MessagesWhole`).

## How the model reads the code

- The kernel is a nondeterministic environment: a RECV brings between zero and the requested
  number of bytes or fails, a SEND takes any prefix or fails, an SQE finds room or not, the
  allocator moves a buffer whenever it may. Time is a parameter, in nanoseconds.
- The slab owns each connection through its slot, so the slab maps slots to connection values;
  there is no aliasing to lose. A loop over the slab is one action per connection, and other
  actions may come in between, which contains every order the server can produce.
- `Worker` calls what happens to one connection as functions on the value in its slot;
  `ConnectionCell` and `RequestBody` prove that the methods on mutable fields compute the same.
- Debug assertions became a `fault` flag that is proved never to be set.
- `log` in a connection records what the environment saw; nothing reads it but the theorems.
- The head parser, the serialized error responses, the router and the keyed hash are functions
  given from outside. `Messages.PipelinedAlike` asks of the parser that a head is recognised from
  its own bytes; nothing else does.

## Model

| member | source | states |
|---|---|---|
| EventLoopTheorems.InFlightExactly | harrow-server-meguri/src/lib.rs:26-57 | in every reachable state of the worker an SQE is in flight if and only if it is the RECV or SEND of a connection in memory, by slot and generation, whose pending flag is set; its kind is the one its `user_data` says |
| EventLoopTheorems.CompletionFinds | harrow-server-meguri/src/lib.rs:194-232 | in every reachable state the `user_data` of an SQE in flight decodes to its own connection, also after generations wrap; a RECV writes exactly at the buffer's end, within its capacity, into at least half the default buffer; a SEND is a non-empty prefix of the unwritten tail |
| EventLoopTheorems.ClosedExactlyOnce | harrow-server-meguri/src/lib.rs:723-798 | in every run no accepted socket is closed twice; it is unclosed exactly while open; once teardown has begun every accepted socket was closed exactly once |
| EventLoopTheorems.SocketsAreOwned | harrow-server-meguri/src/lib.rs:32-39 | in every reachable state each open socket belongs to the one connection that holds its fd, and a connection is closed exactly when its fd is -1 |
| EventLoopTheorems.NothingFaults | harrow-server-meguri/src/connection.rs:266-280 | no run fails a debug assertion of the connection, closes what is not open, or has two SQEs of one name |
| EventLoopTheorems.KernelBuffersPinned | harrow-server-meguri/src/lib.rs:40-50 | no step except its own completion frees or reuses the slot of an operation in flight, moves the end of the buffer under a RECV, or changes the bytes under a SEND |
| EventLoopTheorems.HeapIsMinimum | harrow-server-meguri/src/lib.rs:1299-1373 | in every reachable state each live connection tracks its present deadline, and the least heap entry that is not stale is the earliest deadline of all live connections, none exactly if none has one |
| Timeouts.ExpiredIsDue | harrow-server-meguri/src/lib.rs:1351-1396 | the sweep takes a live connection for expired exactly when the deadline the heap keeps for it has come |
| Timeouts.SweptRuns | harrow-server-meguri/src/lib.rs:1385-1434 | in every reachable state, after a sweep of the slab at `now` a connection still has a deadline at or before `now` if and only if its body timed out, its operation found room, and either a RECV was in flight or its lifetime is over as well; it is then having that RECV cancelled, or sending its 408 |
| Timeouts.SweepAll | harrow-server-meguri/src/lib.rs:1385-1434 | the same slot by slot for a sweep of any set of slots, which leaves all others alone |
| Timeouts.SweepLeaves | harrow-server-meguri/src/lib.rs:1404-1433 | the same for one connection of the sweep, whatever the queue and the allocator decide |
| EventLoopRun.ApplyKeeps | harrow-server-meguri/src/lib.rs:433-661 | each of the sixteen actions (accept, completions, sweep, turns, handler and producer moves, drain, teardown, exit) keeps the worker's invariant |
| EventLoopRun.RunKeeps | harrow-server-meguri/src/lib.rs:433-661 | the invariant holds after every possible sequence of actions |
| EventLoopRun.RunGoesOn | harrow-server-meguri/src/lib.rs:433-661 | any action that is possible in the last state of a run continues the run, so the theorems about runs speak of every behaviour |
| EventLoopInvariant.PerformKeeps | harrow-server-meguri/src/lib.rs:1526-1547 | whatever a handler asks for is performed so that its slot, its sockets and its SQEs are in order again, also when the submission queue is full |
| EventLoopInvariant.CloseKeeps | harrow-server-meguri/src/lib.rs:1473-1507 | closing keeps the slot exactly while an SQE is in flight, closes the fd once, touches no other slot, and records what was sent: everything, if the response ended |
| EventLoopInvariant.Owner | harrow-server-meguri/src/lib.rs:219-232 | an SQE in flight names a connection that waits for it |
| EventLoopActions.AcceptAction | harrow-server-meguri/src/lib.rs:1012-1047 | accepting keeps the invariant, whether the socket gets a connection or is closed at once (`Admission.AcceptExact` says which) |
| EventLoopActions.RecvAction | harrow-server-meguri/src/lib.rs:1083-1157 | a RECV completion, with any result the kernel may report, keeps the invariant |
| EventLoopActions.SendAction | harrow-server-meguri/src/lib.rs:1160-1197 | a SEND completion, with any short count or error, keeps the invariant |
| EventLoopActions.TeardownAction | harrow-server-meguri/src/lib.rs:723-732 | closing every slot leaves no live connection and no open socket |
| EventLoopActions.NothingToReap | harrow-server-meguri/src/lib.rs:829-843 | a closed connection in its slot always still waits for the kernel, so reaping never removes anything |
| EventLoopActions.DrainAllKeeps | harrow-server-meguri/src/lib.rs:669-686 | beginning the drain keeps the invariant |
| Admission.AcceptExact | harrow-server-meguri/src/lib.rs:1012-1047 | an accepted socket gets a connection of its own, fresh, with the next generation, its first RECV in flight and its deadline counted from now, if and only if the worker is serving, has fewer connections than it may, and the queue has room; otherwise it is closed at once and nothing else changes |
| Admission.AtMostMax | harrow-server-meguri/src/lib.rs:1027-1031 | in every reachable state there are at most `max_connections` connections |
| Admission.DrainedForGood | harrow-server-meguri/src/lib.rs:669-686 | in every run, once the drain has begun no connection comes in, none is idle, none is kept after its response, and none finishes its request to begin another |
| Progress.TurnsSettle | harrow-server-meguri/src/lib.rs:1687-1848 | every step of every run that looks at a connection does all there is to do: afterwards no answer, event, head or body byte that has arrived is left lying; a body still being read either has a RECV in flight, with its input used up and the decoder wanting more, or holds bytes back because exactly 32 KiB are queued |
| Progress.EveryoneWaits | harrow-server-meguri/src/lib.rs:1526-1547 | in every reachable state a connection that reads a head has a RECV in flight and no complete head in its buffer; one whose body is being read has a RECV in flight, with all input decoded and passed on, or decoded bytes it cannot pass on; one that writes has a SEND in flight or waits for its producer; at most four events of a response are queued |
| UserData.RoundTrip | harrow-server-meguri/src/lib.rs:201-225 | decoding `user_data` with its own tag gives slot and generation back, with another tag nothing |
| UserData.Injective | harrow-server-meguri/src/lib.rs:201-225 | different operations, slots or generations never share a `user_data` |
| UserData.DecodeExact | harrow-server-meguri/src/lib.rs:219-225 | whatever decodes is the encoding of its token |
| UserData.SpecialsDecodeToNothing | harrow-server-meguri/src/lib.rs:140-192 | the reserved values at the top of `u64` never decode as a connection's |
| Messages.EveryByteAccounted | harrow-server-meguri/src/connection.rs:361-398 | in every reachable state the bytes received, those that came too late and were thrown away included, begin with the finished requests; until some are thrown away, behind them come just the current request and the buffer; each finished request is a parsed head and one body decoded to its end (`Messages.RequestsFramed` says which); a connection that waits for a head stands at such a boundary |
| Messages.BoundariesAgree | harrow-server-meguri/src/connection.rs:361-398 | two lists of requests read from the same bytes agree as far as both go |
| Messages.PipelinedAlike | harrow-server-meguri/src/connection.rs:606-634 | connections of any two runs that received the same bytes, or one a prefix of the other's, read the same requests, however the bytes were cut into receives |
| Messages.RequestsFramed | harrow-codec-h1/src/lib.rs:347-360 | in every reachable state, of every finished request: behind a head that says chunked stands exactly a word of the chunked grammar, behind any other exactly as many bytes as it declares, none if it declares none; a request kept its connection only if its head asks for that |
| Replies.ResponsesInOrder | harrow-server-meguri/src/connection.rs:425-493 | in every reachable state what was sent is a prefix of the responses in request order without interleaving, and the finished responses have been sent to their end; while writing, sent bytes, unwritten tail and queued data are all of it; every finished response is a beginning of the interim one and a stream of events that ended well |
| Replies.FinishedCarriesData | harrow-server-meguri/src/connection.rs:736-804 | in every run, however events, polls, short sends, sweeps and drains interleave: a response finished on a connection that was kept, whose events are the producer's, is the interim part, the head, and a body that is unbroken and carries exactly the handler's data, decoding to it in any segments if chunked and being it at exactly the declared length if fixed (for the response that ends its connection see `Endings.EndedCarriesData`) |
| Replies.WholeCarries | harrow-server-meguri/src/connection.rs:736-804 | any response sent whole, whose events are the producer's, is the interim part, the head, and an unbroken body that carries exactly the handler's data in the way its framing says, close-delimited included |
| Endings.EndingsExplained | harrow-server-meguri/src/lib.rs:1655-1684 | in any step of any run, a connection whose socket is closed has sent all of its responses to their end, the last one included, unless the step itself is a cause: the peer closed or an operation failed, the queue had no room, the next request could not be built, the producer failed, a timeout ran out, an idle connection was drained, or the server was torn down |
| Endings.EndedCarriesData | harrow-server-meguri/src/connection.rs:534-556 | for every connection of every run that was closed because its response ended (`Connection: close`, HTTP/1.0, draining, early answers, errors, close-delimited bodies): the bytes sent are exactly all its responses; an error response went out in full, and each response of a producer carries exactly its handler's data |
| Endings.FinishedWereSent | harrow-server-meguri/src/lib.rs:1473-1507 | whatever closed a connection, its finished responses had been sent to their end and ended well, and of the last one no more was sent than there is |
| Endings.EndingStays | harrow-server-meguri/src/lib.rs:1473-1507 | in every run what a closed connection had sent, and why it was closed, never changes again |
| Replies.ClientSeesBeginning | harrow-server-meguri/src/connection.rs:425-493 | at any moment of any run with part of the producer's events emitted, the client has a beginning of the same responses; what it has of a chunked body decodes to the handler's data or wants more, and always wants more if the handler's body broke |
| Replies.MessagesWhole | harrow-server-meguri/src/lib.rs:1436-1462 | what a connection has sent splits into whole messages if and only if every interim `100 Continue` was taken whole or not at all |
| Replies.WholeExactly | harrow-server-meguri/src/lib.rs:1436-1462 | the same for any list of responses whose final parts begin with a status line of HTTP/1.1 other than 100 |
| Replies.OneByteInterim | harrow-server-meguri/src/lib.rs:1436-1462 | after one byte of the interim response no final response makes a whole message |
| Replies.InterimText | harrow-server-meguri/src/lib.rs:1436-1462 | the interim response is the text `HTTP/1.1 100 Continue` and an empty line |
| ShortRuns.OneByteSent | harrow-server-meguri/src/lib.rs:1626-1640 | a run of two steps in which the socket takes one byte of `100 Continue` and the request goes on |
| ShortRuns.SmallRecv | harrow-server-meguri/src/connection.rs:266-283 | a run of two steps in which a RECV in flight is smaller than the documented default buffer |
| Messages.HandlerGetsBody | harrow-server-meguri/src/connection.rs:1005-1040 | in every reachable state the body queue counts its bytes and holds at most 32 KiB, and unless the handler let go of the body, what it took, then the queue, then the pending chunk are exactly what was decoded so far; given up, they are a beginning of it; closed, they are the whole body read to its end |
| Messages.HandlerGetsWhole | harrow-server-meguri/src/connection.rs:835-904 | in every run, a handler whose body has come to its end, and that did not let go of it, got the payload of that word if the head says chunked, otherwise the declared bytes themselves, and nothing if the head announces no body; the end comes as soon as there is no body left to read |
| ConnectionInvariant.HandleRecvKeeps | harrow-server-meguri/src/lib.rs:1083-1157 | handling a RECV completion, whatever it brought, leaves a connection that owes the event loop a permitted operation |
| ConnectionInvariant.HandleSendKeeps | harrow-server-meguri/src/lib.rs:1160-1197 | the same for a SEND completion with any number of bytes taken |
| ConnectionInvariant.AdvanceDispatchingKeeps | harrow-server-meguri/src/lib.rs:1770-1848 | a turn of a dispatching connection keeps its invariant: early answers give up the unread body and with it keep-alive, and a body still being read has a RECV in flight or a chunk that waits for room |
| ConnectionInvariant.AdvanceResponseKeeps | harrow-server-meguri/src/lib.rs:1687-1717 | a turn of a response keeps the invariant, including errors before and after the first byte |
| ConnectionInvariant.ProcessHeadKeeps | harrow-server-meguri/src/lib.rs:1615-1654 | acting on a request head keeps the invariant on each of its outcomes: more input, rejection, a body over the limit, dispatch, and a request that cannot be built |
| ConnectionInvariant.PumpBodyKeeps | harrow-server-meguri/src/lib.rs:1817-1848 | reading more body keeps the invariant on each outcome of the pump |
| ConnectionInvariant.PollKeeps | harrow-server-meguri/src/connection.rs:425-493 | each outcome of polling the response channel means what the event loop takes it to mean |
| ConnectionInvariant.OnWriteKeeps | harrow-server-meguri/src/connection.rs:534-556 | after a short or full write the connection writes on, waits, starts over, or closes; it closes only once every response, the last one included, was sent to its end |
| ConnectionInvariant.ResetKeeps | harrow-server-meguri/src/connection.rs:606-626 | a keep-alive reset happens with no I/O in flight, after a body read to its end, and keeps buffered input |
| Answers.HeadExact | harrow-server-meguri/src/connection.rs:361-398 | what a head leads to: more input, the error its parser reports, 413 for a declared length over a limit that is not zero, or a request that gets an interim response exactly if it expects one, a handler, and a connection kept exactly if the head asks for it and no drain has begun |
| Answers.BodyExact | harrow-server-meguri/src/lib.rs:1817-1848 | reading on does nothing while an operation is in flight; it answers 413 only to a body over the limit and 400 only to a malformed one, gives up keep-alive exactly if the handler let go of the body, and reads on otherwise |
| Answers.FailureExact | harrow-server-meguri/src/lib.rs:1687-1717 | a response that fails before its first byte is answered with 500, after it the connection is closed as failed |
| Answers.TimeoutExact | harrow-server-meguri/src/lib.rs:1385-1434 | a body that came too late is answered with 408, whether or not its RECV was in flight |
| Answers.CompletionExact | harrow-server-meguri/src/lib.rs:1083-1197 | a failed operation, and the end of the input while a request is read, closes the connection; input that comes while a response is written is kept behind it |
| Answers.WriteExact | harrow-server-meguri/src/connection.rs:534-556 | a completed write goes on exactly if bytes are left, waits exactly if more may come, and at the end of its response keeps the connection exactly if it is to be kept, and closes it exactly if not |
| Answers.PollExact | harrow-server-meguri/src/connection.rs:425-493 | looking at a response gives up keep-alive exactly if its first bytes come while the request body is unread, or if it fails |
| Answers.AnswerExact | harrow-server-meguri/src/lib.rs:1787-1806 | an answer gives up keep-alive exactly if it ends the connection or leaves the request body unread |
| Answers.DeadlinesExact | harrow-server-meguri/src/lib.rs:1351-1373 | a deadline is the earlier of the lifetime, counted from the accept, and the time for the head or the body, counted from the accept or the end of the response before, as far as they are configured |
| ConnectionInvariant.SweepKeeps | harrow-server-meguri/src/lib.rs:1385-1434 | an expired connection is closed, answered with a timeout, or has its RECV cancelled, keeping the invariant |
| ConnectionInvariant.CommitKeeps | harrow-server-meguri/src/connection.rs:291-307 | a completed RECV always finds its buffer where it was and appends exactly the received bytes |
| ConnectionInvariant.MarkClosedKeeps | harrow-server-meguri/src/connection.rs:318-326 | closing drops the request and the response channel and keeps the buffers an SQE may point into |
| ConnectionInvariant.PrepareRecvGives | harrow-server-meguri/src/connection.rs:266-283 | a RECV gets at least half of the default buffer, and never nothing |
| ConnectionInvariant.FullBufferExactly | harrow-server-meguri/src/connection.rs:266-283 | the documented full amount is guaranteed for every allocator exactly when there was no spare capacity or already enough |
| ConnectionInvariant.ZeroLimitExactly | harrow-server/src/h1.rs:11-16 | a declared body that passes the head check is refused by the pump at once exactly when the limit is zero |
| ConnectionInvariant.HelloRefused | harrow-server/src/h1.rs:11-16 | a declared body of five bytes under a limit of zero: the head check lets it through and the pump refuses it |
| ConnectionInvariant.EmitKeeps | harrow-server-meguri/src/connection.rs:711-716 | an event emitted by the response producer keeps the connection's invariant |
| ConnectionFrame.HandleRecvFrame | harrow-server-meguri/src/lib.rs:40-43 | no handler of a RECV completion changes fd, flags or generation, moves the buffer under a RECV, or touches the response under a SEND |
| ConnectionFrame.HandleSendFrame | harrow-server-meguri/src/lib.rs:44-46 | the same for a SEND completion |
| ConnectionFrame.AdvanceDispatchingFrame | harrow-server-meguri/src/lib.rs:40-46 | the same for a turn of a dispatching connection |
| ConnectionFrame.AdvanceResponseFrame | harrow-server-meguri/src/lib.rs:40-46 | the same for a turn of a response |
| ConnectionFrame.SweepFrame | harrow-server-meguri/src/lib.rs:40-46 | the same for the timeout sweep |
| ConnectionCell.Conn.constructor | harrow-server-meguri/src/connection.rs:206-241 | a new connection is idle, keeps alive, and has empty buffers |
| ConnectionCell.Conn.PrepareRecv | harrow-server-meguri/src/connection.rs:266-283 | reserves capacity and records the RECV target as the specification does |
| ConnectionCell.Conn.CommitRecv | harrow-server-meguri/src/connection.rs:291-307 | succeeds exactly if the buffer did not move, and then appends what was received, clamped to what the SQE allowed |
| ConnectionCell.Conn.DiscardRecv | harrow-server-meguri/src/connection.rs:311-313 | forgets the target and nothing else |
| ConnectionCell.Conn.MarkClosed | harrow-server-meguri/src/connection.rs:318-326 | the connection is closed with request and response plumbing dropped, buffers kept |
| ConnectionCell.Conn.ProcessHeaders | harrow-server-meguri/src/connection.rs:361-398 | parses, consumes the head, and starts the request, rejects it, or asks for more; a request that starts has a body in progress exactly if the head says chunked or declares a length above zero, and is kept exactly if the head asks for it and no drain has begun |
| ConnectionCell.Conn.PumpRequestBody | harrow-server-meguri/src/connection.rs:511-531 | pumps the body and drops its state on every outcome that ends it |
| ConnectionCell.Conn.SetResponseReceiver | harrow-server-meguri/src/connection.rs:418-423 | a fresh response stream with nothing started, done or failed |
| ConnectionCell.Conn.PollResponseStream | harrow-server-meguri/src/connection.rs:425-493 | the loop that skips empty data events gives the specified progress and connection |
| ConnectionCell.Conn.PrepareWrite | harrow-server-meguri/src/connection.rs:561-573 | the unwritten tail, up to the `u32` limit, or nothing exactly when all is written |
| ConnectionCell.Conn.SetSerializedResponse | harrow-server-meguri/src/connection.rs:575-589 | an error response replaces the response, drops the body and ends keep-alive |
| ConnectionCell.Conn.OnWrite | harrow-server-meguri/src/connection.rs:534-556 | a write completion leads to the specified result and connection |
| ConnectionCell.Conn.FinishResponse | harrow-server-meguri/src/connection.rs:636-649 | a kept connection is reset, another is to be closed |
| ConnectionCell.Conn.Reset | harrow-server-meguri/src/connection.rs:606-626 | everything of the finished request is cleared; the read buffer is not |
| ConnectionCell.Conn.TakeTimeoutError | harrow-server-meguri/src/connection.rs:676-682 | an armed timeout error is taken once |
| BodyPump.PumpConserves | harrow-server-meguri/src/connection.rs:848-904 | bytes taken by the handler, queue and pending chunk are the bytes decoded so far, across any pump; it consumes a prefix of the buffer and blocks only when the queue is full |
| BodyPump.FlushConserves | harrow-server-meguri/src/connection.rs:874-904 | flushing moves bytes from the pending chunk to the queue, loses none, and reports dropped, full or ready exactly |
| BodyPump.DecodeConserves | harrow-server-meguri/src/connection.rs:848-872 | each decoded item moves the reference decoder on by exactly the bytes consumed |
| BodyPump.PushKeepsQueue | harrow-server-meguri/src/connection.rs:1023-1032 | pushing what fits keeps the byte count and the bound and appends to the queue |
| BodyPump.PopKeepsQueue | harrow-server-meguri/src/connection.rs:1034-1040 | popping keeps the byte count, and taken plus queued bytes |
| RequestBody.PayloadChannel.AvailableCapacity | harrow-server-meguri/src/connection.rs:1018-1021 | the room is what the queue lacks to the bound, or nothing beyond it, and a chunk that fits into it keeps the bound |
| RequestBody.PayloadChannel.PushChunk | harrow-server-meguri/src/connection.rs:1023-1032 | a non-empty chunk goes to the back and is counted; an empty one is ignored |
| RequestBody.PayloadChannel.PopChunk | harrow-server-meguri/src/connection.rs:1034-1040 | the oldest chunk comes out and is no longer counted |
| RequestBody.PayloadChannel.PollFrame | harrow-server-meguri/src/connection.rs:931-952 | a chunk if there is one, the end only if the queue is closed and empty |
| RequestBody.RequestBodyState.FlushPendingChunk | harrow-server-meguri/src/connection.rs:874-904 | the flushing loop is the specification's flush |
| RequestBody.RequestBodyState.Pump | harrow-server-meguri/src/connection.rs:848-872 | the pump loop over decoder, chunk and channel is the specification's pump, and terminates |
| Worker.Worker.CloseConn | harrow-server-meguri/src/lib.rs:1473-1507 | updates the slab, the socket and the record of its end as the transition system's close, for any reason |
| Worker.Worker.ReleaseIfIdle | harrow-server-meguri/src/lib.rs:808-826 | frees a closed slot exactly when nothing is in flight |
| Worker.Worker.SubmitRecv | harrow-server-meguri/src/lib.rs:1057-1080 | queues a RECV at the buffer's end and sets the flag, or closes if the queue is full |
| Worker.Worker.SubmitWrite | harrow-server-meguri/src/lib.rs:1205-1227 | queues a SEND of the tail and sets the flag, or closes if the queue is full |
| Worker.Worker.RefreshTimeoutDeadline | harrow-server-meguri/src/lib.rs:1324-1348 | a new timer generation, the current deadline, and an entry in the heap if there is one |
| Worker.Worker.NextTimeoutDeadline | harrow-server-meguri/src/lib.rs:1299-1321 | pops stale entries only and returns the least deadline of all live connections, or none exactly if none has one |
| Worker.Worker.HandleAccept | harrow-server-meguri/src/lib.rs:1012-1047 | the accept step that `Admission.AcceptExact` spells out, on the slab itself |
| Worker.Worker.HandleRecvCompletion | harrow-server-meguri/src/lib.rs:1083-1157 | the RECV completion step, stale tokens ignored |
| Worker.Worker.HandleWriteCompletion | harrow-server-meguri/src/lib.rs:1160-1197 | the SEND completion step, stale tokens ignored |
| Worker.Worker.DiscardRecvCompletion | harrow-server-meguri/src/lib.rs:768-773 | during teardown a RECV completion clears its flag, its bytes are lost, and the slot may be freed |
| Worker.Worker.DiscardWriteCompletion | harrow-server-meguri/src/lib.rs:774-779 | during teardown a SEND completion clears its flag and may free the slot |
| Worker.Worker.SweepTimedOutConnections | harrow-server-meguri/src/lib.rs:1385-1434 | collecting the expired first and handling them one by one is one sweep action per connection |
| Worker.Worker.AdvanceDispatchingConnections | harrow-server-meguri/src/lib.rs:1720-1740 | collecting the dispatching first is one turn per connection |
| Worker.Worker.BeginDrain | harrow-server-meguri/src/lib.rs:669-686 | marking all and then closing the idle is draining one connection after the other |
| Worker.DrainIsTwoLoops | harrow-server-meguri/src/lib.rs:669-686 | the two loops of the drain commute with the single one |
| Worker.ApplyAllKeeps | harrow-server-meguri/src/lib.rs:433-661 | a loop that is a sequence of actions keeps the invariant |
| Worker.TopIsEarliest | harrow-server-meguri/src/lib.rs:1299-1321 | a current entry on top of the heap carries the least deadline of all live connections |
| PayloadDriving.SplitInvariance | harrow-codec-h1/src/lib.rs:381-440 | for any stream and any division into segments the verdict is that of the whole, and unless the body is too large so are body and bytes used, and otherwise both bodies are beginnings of the reference's, up to the limit; loop iterations are at most bytes used plus calls |
| PayloadCodec.DecodeExplained | harrow-codec-h1/src/lib.rs:381-440 | one `decode` call agrees with a reference that reads byte by byte |
| PayloadDriving.OneShotExact | harrow-codec-h1/src/lib.rs:626-640 | the one-shot decoder reports exactly the reference's verdict, body and length |
| PayloadCodec.RunAppend | harrow-codec-h1/src/lib.rs:443-614 | reading a stream in two parts is reading it at once; bytes after the end or an error never change the answer |
| PayloadDriving.TooLargeDependsOnSplit | harrow-codec-h1/src/lib.rs:424-433 | a concrete stream for which the bytes used under the body limit do depend on the segments |
| PayloadLimit.SplitExact | harrow-codec-h1/src/lib.rs:381-440 | all divisions of a chunked stream give one and the same body, bytes used and verdict if and only if its data, read without a limit, is within the limit, or the chunk data at hand that goes over it is a single byte |
| PayloadLimit.LimitedRun | harrow-codec-h1/src/lib.rs:424-433 | the limit changes nothing as long as the data stays within it, and otherwise the body is refused as too large |
| PayloadLimit.LengthSplitExact | harrow-codec-h1/src/lib.rs:387-410 | with a declared length, over the limit or not, every division gives the same |
| PayloadLimit.DriveFails | harrow-codec-h1/src/lib.rs:424-433 | one drive over the limit fails on all the data of a chunk that is at hand, after handing out exactly the data before it |
| PayloadLimit.SegmentsFail | harrow-codec-h1/src/lib.rs:424-433 | driven over segments it fails on a piece of data no longer than the longest segment |
| PayloadDriving.TotalBoundedByInput | harrow-codec-h1/src/lib.rs:381-440 | the running total is at most the bytes read, and a chunk size stays below 2^64 |
| PayloadDecoder.Decoder.FromParsed | harrow-codec-h1/src/lib.rs:352-364 | a decoder exactly for a head with a body, chunked before length |
| PayloadDecoder.Decoder.Step | harrow-codec-h1/src/lib.rs:443-483 | one transition on the mutable state is the specification's step |
| PayloadDecoder.Decoder.Decode | harrow-codec-h1/src/lib.rs:381-440 | the decoding loop is the specification's decode |
| PayloadDecoder.DecodeChunkedWithLimit | harrow-codec-h1/src/lib.rs:626-640 | the loop over one buffer is the specification's one-shot decoder |
| ChunkedGrammar.GrammarExact | harrow-codec-h1/src/lib.rs:443-614 | the decoder is done after n bytes with body b if and only if those bytes are in the language of section 7.1 of RFC 9112 as the code reads it, with payload b within the limit |
| ChunkedGrammar.PrefixFree | harrow-codec-h1/src/lib.rs:443-614 | that n is unique: no proper prefix is a body, the payload is unique, and later bytes do not matter |
| ChunkEncoder.HexRoundTrip | harrow-codec-h1/src/lib.rs:712-720 | printing a length in hex and reading it gives it back |
| ChunkEncoder.DigitExact | harrow-codec-h1/src/lib.rs:712-720 | a size is written in the digits `0` to `f` |
| ChunkEncoder.NoLeadingZero | harrow-codec-h1/src/lib.rs:712-720 | a size is written without a leading zero |
| ChunkEncoder.HexExact | harrow-codec-h1/src/lib.rs:485-500 | the decoder reads the digits of either case, each for its value, and nothing else |
| ChunkEncoder.FramingText | harrow-codec-h1/src/lib.rs:27 | the terminator is `0` and two line ends, and an extension may hold any byte but controls |
| ChunkEncoder.EncodeChunkInto | harrow-codec-h1/src/lib.rs:712-720 | appends the encoded chunk to the caller's buffer, nothing for empty data |
| ChunkEncoder.DecodeUndoesEncode | harrow-codec-h1/src/lib.rs:27 | decoding encoded chunks, the terminator and any trailing bytes, in any segments, gives the concatenation and leaves exactly the trailing bytes |
| Framing.ParseFraming | harrow-codec-h1/src/lib.rs:118-220 | the loop with its mutable flags is the fold over the fields whose reading `Framing.FramingExact` spells out |
| Framing.FramingExact | harrow-codec-h1/src/lib.rs:118-220 | a head is accepted with this reading if and only if its fields are acceptable and say so: equal valid lengths, at most one `chunked`, never both, a length on HTTP/1.0 POST/PUT, supported expectations only; it keeps the connection exactly if no field says `close` and the version is 1.1 or some field says `keep-alive` |
| Framing.OrderDoesNotMatter | harrow-codec-h1/src/lib.rs:118-220 | acceptance and reading do not change under permutation of the fields |
| Framing.ErrorDependsOnOrder | harrow-codec-h1/src/lib.rs:118-220 | a concrete head whose error, not its rejection, depends on the order |
| Framing.ErrorOrderExact | harrow-codec-h1/src/lib.rs:118-220 | all orders of a rejected head report the same error if and only if it does not both ask for an unsupported expectation and hold something the scan rejects as invalid: an invalid field, two lengths that differ, or two transfer encodings |
| Framing.OneError | harrow-codec-h1/src/lib.rs:118-220 | with only one of the two there, a rejected head reports that one |
| Framing.OneFraming | harrow-codec-h1/src/lib.rs:186-206 | an accepted head never has both framings, chunked only in HTTP/1.1 |
| Framing.LengthExact | harrow-codec-h1/src/lib.rs:134-155 | a length value is accepted exactly if it is digits below 2^64 within optional whitespace, and is that number |
| Framing.TransferEncodingExact | harrow-codec-h1/src/lib.rs:263-286 | a transfer encoding is accepted exactly if it is the one word `chunked`, in any case, within optional whitespace, in HTTP/1.1 |
| Framing.ExpectExact | harrow-codec-h1/src/lib.rs:226-245 | the members of `Expect` are accepted exactly if each non-empty one is `100-continue`, which is asked for exactly if there is one |
| Framing.TokenExact | harrow-codec-h1/src/lib.rs:247-257 | a field has a token exactly if it is UTF-8 and the token, in any case, stands in it between two commas or ends, with only white space around it |
| Framing.WordsExact | harrow-codec-h1/src/lib.rs:118-257 | the words looked for are `chunked`, `close`, `keep-alive` and `100-continue` |
| Framing.ExpectValueExact | harrow-codec-h1/src/lib.rs:226-245 | an `Expect` value is read exactly if it has only visible ASCII, blanks and tabs and each member that is not empty is `100-continue` |
| Framing.DecimalRoundTrip | harrow-codec-h1/src/lib.rs:134-155 | a length printed in decimal digits is read as that number |
| Text.TrimOwsExact | harrow-codec-h1/src/lib.rs:259-261 | trimming splits off blanks only and leaves a core that neither starts nor ends with one |
| Text.SplitExact | harrow-codec-h1/src/lib.rs:247-257 | the parts of a list are the one way to cut it at each separator |
| Text.PartExact | harrow-codec-h1/src/lib.rs:247-257 | what is among the parts is what stands between separators |
| Text.TrimExact | harrow-codec-h1/src/lib.rs:226-245 | trimming takes white space off both ends, as Unicode knows it, and nothing else |
| Text.WhiteExact | harrow-codec-h1/src/lib.rs:226-245 | white space is the encoding of a Unicode white-space character |
| Text.CaseExact | harrow-codec-h1/src/lib.rs:263-286 | two words are the same without regard to case exactly if they differ only in the case of ASCII letters |
| Text.CharExact | harrow-codec-h1/src/lib.rs:118-286 | a byte string starts with a character exactly as far as that is the encoding of a Unicode scalar value |
| Text.Utf8Exact | harrow-codec-h1/src/lib.rs:118-286 | text is UTF-8 exactly if it encodes some sequence of Unicode scalar values |
| ResponseStream.SendResponseBytes | harrow-server-meguri/src/connection.rs:806-820 | bytes go out in order in pieces of at most 8 KiB until the receiver is gone |
| ResponseStream.SendChunked | harrow-server-meguri/src/connection.rs:776-789 | the chunked loop offers exactly the specified events and reports failure exactly when a frame breaks |
| ResponseStream.SendFixed | harrow-server-meguri/src/connection.rs:758-775 | the fixed-length loop offers exactly the specified events and reports failure on a broken, long or short body |
| ResponseStream.SendRaw | harrow-server-meguri/src/connection.rs:790-802 | the close-delimited loop offers exactly the specified events |
| ResponseStream.StreamResponse | harrow-server-meguri/src/connection.rs:718-734 | what the receiver gets is a prefix of the produced events, all of them if it stays |
| ResponseStream.ChunkedResponseDecodes | harrow-server-meguri/src/connection.rs:736-804 | a chunked response that ends well decodes, in any segments, to the concatenation of the handler's frames and leaves nothing |
| ResponseStream.BrokenResponseIncomplete | harrow-server-meguri/src/connection.rs:776-789 | a chunked response that breaks ends in an error event, and no part of its bytes looks like a complete body |
| ResponseStream.FixedBodyExact | harrow-server/src/h1.rs:169-196 | a fixed body never exceeds its declared length, and ends well exactly if unbroken and of that length |
| ResponseStream.ProducedExact | harrow-server-meguri/src/connection.rs:736-804 | a response that ends well is its head and then nothing, the handler's data in chunks and the last chunk, or the data as it is, by its mode; it ends well exactly if its mode has no body, or the body does not break and has the declared length if there is one |
| ResponseStream.ProducedShape | harrow-server-meguri/src/connection.rs:736-820 | only the last event is terminal, and every data event has one to 8192 bytes |
| Gcra.WindowBound | harrow-bench/src/lib.rs:859-893 | for every interleaving of loads and swaps and every window of grants in swap order, count times interval is at most the clock difference plus one burst |
| Gcra.StoredGrows | harrow-bench/src/lib.rs:859-893 | the stored time only grows, strictly with each grant, and never returns to zero |
| Gcra.RemainingExact | harrow-bench/src/lib.rs:876-880 | `remaining` is the number of further requests at the same instant that are allowed |
| Gcra.RetryExact | harrow-middleware/src/rate_limit.rs:10-12 | without other traffic waiting is enough exactly from `retry_after_ns` on; the whole seconds of `Retry-After` suffice and one less does not |
| Gcra.ResetExact | harrow-bench/src/lib.rs:881-889 | without other traffic a full burst is allowed exactly from `reset_after_ns` on |
| Gcra.FullBurst | harrow-bench/src/lib.rs:859-893 | at one instant at most a burst is allowed, and a full one exactly when the key is caught up |
| Gcra.OverflowExactly | harrow-bench/src/lib.rs:871-878 | the sums of an allowed request leave `u64` exactly when a full burst from now would |
| Gcra.NoOverflow | harrow-bench/src/lib.rs:859-893 | no decision of any run overflows while the clocks stay a full burst below 2^64 |
| Gcra.SoundRates | harrow-bench/src/lib.rs:831-857 | a rate gives a limiter whose arithmetic is defined exactly if it is at least one and at most one per nanosecond of the period; a burst, with `u64` wrapping around, leaves it so exactly if it is at least one and the product of burst less one and interval is below 2^64 |
| Gcra.BurstTooLarge | harrow-bench/src/lib.rs:853-857 | one request a second with a burst of 2^63 wraps around |
| Gcra.SteadyRate | harrow-bench/src/lib.rs:831-851 | over all runs the configured rate is kept, by a client that asks once per interval and, up to one burst, by every client over any number of periods, if and only if the rate divides the period |
| Gcra.PerSecondMeans | harrow-bench/src/lib.rs:831-840 | every rate a second up to 1_000_000_000 gives a limiter with a full burst that reports that limit; it keeps the rate, over windows of any number of 1_000_000_000 ns, if and only if the rate divides that |
| Gcra.PerMinuteMeans | harrow-bench/src/lib.rs:842-851 | the same for every rate a minute and windows of 60_000_000_000 ns |
| Gcra.PacedAllowed | harrow-bench/src/lib.rs:859-893 | a client that asks once per interval is allowed every time, any number of times |
| Gcra.SevenPerSecond | harrow-bench/src/lib.rs:831-840 | seven requests a second exceed the configured rate |
| Gcra.ThirtyPerMinute | harrow-bench/src/lib.rs:842-851 | thirty requests a minute keep it over windows of 60_000_000_000 ns |
| GcraBackend.InMemoryBackend.GcraCheck | harrow-bench/src/lib.rs:859-892 | the retry loop, with other threads storing between load and swap, decides by one value the cell passed through and counts the request on exactly that value |
| GcraBackend.InMemoryBackend.Check | harrow-bench/src/lib.rs:895-910 | a check creates its key if needed, decides exactly by one value the key passed through while other threads store to it, counts an allowed request on just that value, and leaves other keys alone; with no other thread that value is the one found |
| Session.EveryVisitSeesOwnMap | harrow-middleware/src/session.rs:393-450 | in every run of visits by clients that replay their latest cookie, a handler starts with its client's own map of the reference |
| Session.VisitRefines | harrow-middleware/src/session.rs:393-450 | one visit keeps the refinement for all clients |
| Session.ReferenceMeans | harrow-middleware/src/session.rs:115-118 | in the reference the next handler starts with the map left until it expires, with an empty one after `destroy`, and other clients' maps are unchanged |
| Session.UnmodifiedUnchanged | harrow-middleware/src/session.rs:61-135 | a session not marked as modified holds what it was loaded with |
| Session.OpsMean | harrow-middleware/src/session.rs:61-118 | after any operations of a handler a key holds what the last of them that concerns it says, and what it held before if there is none; the session is destroyed exactly if one of them says so |
| Session.MarkedExactly | harrow-middleware/src/session.rs:61-118 | a session is marked as modified exactly if some operation set a value, removed one that was there, emptied a map that was not, or destroyed it |
| Session.JarExact | harrow-middleware/src/session.rs:425-449 | a client has a cookie after its visit exactly if the session was not destroyed and either something is in it to keep, or it was not modified and the client had a cookie |
| Session.Call | harrow-middleware/src/session.rs:394-449 | the middleware loads, runs the handler, and saves, removes or leaves alone as specified, on the store as other visits left it meanwhile |
| Session.LastToEndDecides | harrow-middleware/src/session.rs:393-450 | of visits to one session that overlap the last to end decides alone what is kept under its identifier, and an unmodified one changes nothing |
| Session.Session.Insert | harrow-middleware/src/session.rs:87-93 | sets the value and marks the session |
| Session.Session.Delete | harrow-middleware/src/session.rs:96-102 | removes the value, marks the session only if there was one, and returns it |
| Session.Session.Empty | harrow-middleware/src/session.rs:105-111 | clears the map and marks the session only if it was not empty |
| Session.Session.MarkDestroyed | harrow-middleware/src/session.rs:115-118 | marks the session destroyed and modified |
| Session.SessionStore.LoadData | harrow-bench/src/lib.rs:782-789 | the entry's data unless it is missing or expired |
| Session.SessionStore.SaveData | harrow-bench/src/lib.rs:791-800 | stores the data until `ttl` from now |
| Session.SessionStore.RemoveData | harrow-bench/src/lib.rs:802-805 | removes the entry |
| Session.IdentifiesByJar | harrow-middleware/src/session.rs:356-372 | a client is identified as the owner of the cookie it replays, and without one as nobody |
| Session.IdentifiedExactly | harrow-middleware/src/session.rs:287-372 | a request is identified as a session's exactly if the first cookie of that name, as far as headers can be read, is a 32-character identifier with the hex of its own keyed hash |
| Cookie.ReplayVerifies | harrow-middleware/src/session.rs:287-372 | a cookie sent back among other pairs and headers, none before it unreadable or claiming its name, is extracted and verifies to exactly the identifier it was written for |
| Cookie.ExtractExact | harrow-middleware/src/session.rs:356-372 | the search finds what it would find among the readable headers alone if and only if no header that is not visible ASCII stands before the first one that claims the name |
| Cookie.UnreadableHides | harrow-middleware/src/session.rs:356-372 | a session cookie behind one such header is not found, and without that header it is |
| Cookie.VerifyExact | harrow-middleware/src/session.rs:287-312 | a value verifies exactly if it is a 32-character identifier and the hex of its own keyed hash |
| Cookie.RefusedExact | harrow-middleware/src/session.rs:287-312 | a value is refused for the first of these that fails: a separator, 32 characters before it, 64 behind it, hex, the keyed hash |
| Cookie.ClaimExact | harrow-middleware/src/session.rs:356-372 | a pair is claimed for a name exactly if it is that name, `=` and the value, with blanks around each |
| Cookie.HexDecodeExact | harrow-middleware/src/session.rs:269-280 | a text decodes to bytes exactly if its lower-case form is what they encode to |
| Cookie.HexAlphabet | harrow-middleware/src/session.rs:269-276 | bytes are encoded in the digits `0` to `f` |
| Cookie.KeepsPair | harrow-middleware/src/session.rs:314-335 | what a client keeps of `Set-Cookie` is the pair of name and value |
| Cookie.HexRoundTrip | harrow-middleware/src/session.rs:269-280 | hex encoding can be decoded again and has no separator in it |
| Cookie.EncodeHex | harrow-middleware/src/session.rs:269-276 | the loop over the bytes is the hex encoding |
| ProblemJson.ProblemRoundTrip | harrow-core/src/problem.rs:66-105 | reading the body of a problem with a JSON reader gives exactly type, title, status, the optional members and the extensions that are not reserved, in order and without duplicate keys, for all strings |
| ProblemJson.MembersExact | harrow-core/src/problem.rs:66-105 | the members of a problem are `type`, or about:blank, `title`, or the reason of the status, `status`, `detail` and `instance` if given, and each extension whose key is none of these |
| ProblemJson.BodyJson | harrow-core/src/problem.rs:66-105 | the printer with its `first` flag writes the object with exactly these members |
| ProblemJson.StringBuilder.PushJsonString | harrow-core/src/problem.rs:140-160 | the loop over the characters writes the quoted string |
| ProblemJson.StringBuilder.AppendJsonField | harrow-core/src/problem.rs:121-129 | a comma unless first, then key and text |
| ProblemJson.StringBuilder.AppendJsonNumber | harrow-core/src/problem.rs:131-138 | a comma unless first, then key and number |
| ProblemJson.CharsRoundTrip | harrow-core/src/problem.rs:140-160 | a printed string reads back as itself, for every Unicode character |
| ProblemJson.ExtensionKeys | harrow-core/src/problem.rs:92-101 | the extensions printed are exactly those with a key that is not reserved |
| Path.MatchIffMatches | harrow-core/src/path.rs:77-133 | matching with captures succeeds exactly if matching without does |
| Path.MatchExact | harrow-core/src/path.rs:55-108 | a pattern matches exactly if, part for part, it is the path, where a part that begins with `:` agrees with any and one that begins with `*` with all that are left; captured are, in order, what these agree with, under the names behind the sign |
| Path.PartsExact | harrow-core/src/path.rs:55-70 | slashes separate the parts, and do not count at the ends or repeated |
| Path.SubstituteRoundTrip | harrow-core/src/path.rs:77-108 | substituting the captures into a pattern whose glob is last gives the path's non-empty segments back |
| Path.NothingAfterGlob | harrow-core/src/path.rs:94-99 | segments behind a glob play no part in matching |
| Path.PathPattern.MatchPath | harrow-core/src/path.rs:77-108 | the walk with its iterator and capture list is the recursive match |
| Path.PathPattern.Matches | harrow-core/src/path.rs:113-133 | the walk without captures is the recursive one |
| Path.PathPattern.constructor | harrow-core/src/path.rs:55-70 | the segments are those of the pattern's non-empty parts |
| Routes.IndexIsLinearScan | harrow-core/src/route.rs:234-240 | the index finds a route exactly if the router selects its pattern and it is the first registered with that pattern and method |
| Routes.AllowedIffServed | harrow-core/src/route.rs:262-276 | a method is in `Allow` exactly if a request with it would be served, directly or HEAD by GET |
| Routes.DecisionExact | harrow-core/src/dispatch.rs:38-120 | 404 exactly if no pattern is selected; 405 with a non-empty list without the method; otherwise a route of the method, or of GET for HEAD |
| Routes.ServedExact | harrow-core/src/dispatch.rs:38-60 | the route served is the first of the method on the selected pattern, and only without one, for HEAD, the first of GET |
| Routes.KeysExact | harrow-core/src/route.rs:149-167 | the router's patterns are the registered ones, each once, in the order of their first registration |
| Routes.AllowDistinctIff | harrow-core/src/route.rs:262-276 | `Allow` names no method twice exactly if none was registered twice for the pattern |
| Routes.GetListedTwice | harrow-core/src/route.rs:262-276 | GET registered twice for one pattern: `Allow` is GET, GET, HEAD |
| Routes.RouteTable.Push | harrow-core/src/route.rs:149-167 | registering panics exactly if the pattern is new and the router refuses it; otherwise it appends the route and keeps the index exact |
| Routes.RouteTable.MatchRouteIdx | harrow-core/src/route.rs:234-239 | the lookup through router and method map is the specified route |
| Routes.RouteTable.AllowedMethods | harrow-core/src/route.rs:262-276 | the collecting loop gives the specified list |
| Routes.RouteTable.Dispatch | harrow-core/src/dispatch.rs:38-60 | the decision with its HEAD fallback is the specified one |

## Left out

- Syscalls, io_uring, tokio, wakers and threads: the environment's moves stand for them.
- Arming and cancelling the kernel timer, the dispatch tick, re-arming the accept, and the bounded
  wait of the teardown: the model may stop waiting at any time.
- The error result of a dispatch: no code constructs it, so handlers always answer.
- Trace events, peer addresses and logging.
- Parsing of the request line and of field syntax; names and values come parsed.
- Writing a response head and normalising its fields: a prepared response has a head and a body
  mode, or could not be prepared.
- `u16` and `usize` widths, where a value is bounded by memory; `u64` times in the rate limiter are
  unbounded here, with the exact conditions under which no sum or product wraps around.
- Concurrent visits of one session in `Session.EveryVisitSeesOwnMap`: there one visit ends before the
  next begins; `Session.Call` and `Session.LastToEndDecides` say what overlapping ones do.
- Worker.Worker.NextTimeoutDeadline: the heap is a multiset with an arbitrary least entry on top.
- Behaviour of a decoder after it reported an error; callers discard it.
- Route groups and middleware chains, compression, CORS, security headers, body limit middleware,
  OpenAPI, HTTP/2, WebSocket and buffer pools: thin or easy claims.
