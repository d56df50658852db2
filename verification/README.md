# ThingsBoard SDK: a verified model of its protocol and encoding logic

This project models the logic of the ThingsBoard CoAP SDK for Zephyr in Dafny and proves what its
functions promise together. `dafny verify dfyconfig.toml` checks all of it.

## The parts

**Timeseries** (`Paths`, `TimeseriesText`, `ArrayRoundTrip`, `Batching`, `Verdicts`, `RequestPool`,
`SendTimeseries`, `Delivery`). `thingsboard_send_timeseries` splits records into requests. It first
prepares all requests, each in a block of the request slab, and then hands them to the CoAP client.
The JSON encoder packs records into the payload buffer of a block, in place; it is proved to write
exactly the array of the longest prefix that its reservation rule accepts. On top of it:

- the prepare phase succeeds exactly when *some* in-order split into accepted batches fits the free
  blocks, and then uses the fewest requests of all splits (`PlanExistsIffSplitExists`, `PlanIsOptimal`);
- a send delivers the records exactly: a reader of the messages that cuts the arrays at top-level
  commas gets all records back in order if and only if the call reports success and every record has a
  field, and otherwise a proper prefix of records that all have one (`SendAndReceive`);
- every block ends up free or owned by one accepted request, for every index of the first rejected
  request (`SendTimeseries.Sender.SendTimeseries`).

A record stands for what the JSON library makes of it: a text, empty if no field is present, or an
error. Results on inputs for which the code does not do what one would expect:

- the array round trip holds if and only if every record has a field (`ArrayRoundTrips`);
- which of its four ways the prepare phase goes is decided by splits alone, for all inputs
  (`VerdictBySplits`). With k the first record that does not fit a buffer on its own: if record k can be
  encoded, the assertion that no array is empty fails exactly when the records before it can be split
  with one request to spare; if it cannot be encoded, the encoder's error is met exactly when the
  records before it can be split together with an empty record; without such a record the call
  succeeds exactly when the records can be split. In every other case the slab runs out;
- where that assertion fails (`OversizeExample`), a build without assertions takes blocks until none is
  left (`UncheckedRunsOut`). That loop is the one modelled; `tripped` reports the failed assertion;
- the cleanup loop runs to `request_num` inclusive. After an encoder error that is right; after a
  failed allocation, and only then, it also frees a slot that holds no block. The model frees exactly
  the allocated blocks and reports the extra visit as `stray` (`ReleaseRequests`).

The Protobuf encoder takes all records or fails, so that the same call sends one request or none
(`ProtobufTimeseries`).

**Client lifecycle** (`Lifecycle`, `Outcomes`, `Connections`, `Ownership`, `Sessions`, `Subscriptions`,
`Runs`, `ClientObject`).
`Lifecycle` describes one flat step per API call and per CoAP callback on state, socket, observation,
access token, event log, free blocks and blocks in flight; sending timeseries is one of the steps. The
choices of the network, the allocator, the settings storage and the CoAP client are parts of the
action, so the theorems hold for all of them. `ClientObject` holds the same client as the source writes
it: fields updated in place under a recursive lock by nested and mutually recursive functions, and the
sender of timeseries on the same slab. Each of its steps is proved to be exactly the flat step and to
restore the lock depth, with no hypothesis about the source's assertions; the recursion `SetState`, `StartClient`, `ProvisionDevice`, `ProvisionCallback`
terminates on token presence and target state.

`Outcomes` and `Connections` say where each operation leads, in terms of the phase before and the
choices of the environment. A send is refused exactly outside CONNECTING and CONNECTED, and otherwise
puts the fewest possible batches in flight (`TimeseriesSends`). A connection attempt with a token ends
CONNECTED, observing and with the new socket open, exactly if the observe request goes through and a
block is left for it after the start-up requests, and DISCONNECTED with the socket closed otherwise
(`ConnectConcludes`). A resume reports success exactly if the client is connected afterwards
(`ResumeOutcome`).

Over every run from power-up, as a build without assertions takes it (`EveryRun`; one with assertions
stops at the first that fails):

- every block is free or owned by one request in flight, and at most one provisioning request is in
  flight, only while connecting;
- the socket the state needs is open, no socket is closed twice, and no other socket is open exactly
  as long as no connection attempt ended in the provisioning error exit (`RunSocketsExactIff`);
- the event log never has ACTIVE after ACTIVE, has SUSPENDED only directly after ACTIVE, and its last
  event tells the state (`RunLogTellsPhase`).

When a send exhausts the slab, these claims are about the intended release: the source then also frees
the slot behind the last block, which `Client.SendTimeseries` reports and the model does not carry out.

Where the assertion held that no observation exists when subscribing, the observation is non-NULL
exactly if one observe request is in flight, and owns its block (`RunKeepsObservation`). Without it,
subscribing replaces the observation.

The environment is assumed as follows. A rejected request has no callback. Callbacks come only for
requests in flight; a callback with `last_block` is a request's last; a negative result of the observe
or the firmware request is its last. The operating system hands out descriptors that are not open.
Cancelling an observation (section 3.6 of RFC 7641) delivers its last callback within the call or
later: the action's `cancelled` says which. With `cancelled` always true that assertion holds in every
run (`SynchronousRunAsserts`). In general it fails exactly when a connection attempt subscribes while a
closed session still waits for that last callback (`AssertionFailsIff`), and
`LateCancellationTripsAssertion` gives such a run.

Two more findings. A provisioning attempt that fails before its request is accepted leaves the socket
open for good (`FailedAttemptsLeaveSockets`). And a connecting client stays connecting for good, with
every lifecycle call refused, if and only if no provisioning request is in flight (`StrandedIff`); an
error response to that request leads there (`FailedProvisioningStrands`).

**Attributes** (`AttributeValues`, `MiniC`, `UpdateCodegen`, `AttributeCache`, `JsonCodegen`,
`ProtobufAttributes`). `gen_json_parser.py` is treated as a compiler. The update function it emits
is a syntax tree of a small C fragment with an interpreter, and for every flat schema with distinct
names it overrides the cache with exactly the fields present before the first one that is too long.
Over any sequence of notifications the cache is then the map that each of them overrides, and does not
depend on any received payload. Parsing what the generated encoder wrote restores flags and values. For
up to 31 fields this holds for all values if and only if no two field names are equal up to case,
because the macros of the bit positions are upper-cased names (`SchemaRoundTripsIff`). With 32 fields
it fails exactly if the last one is set, because its bit makes the result negative
(`EncodeParseRoundTrip`). In the Protobuf build, one notification with entries xs and ys leaves what
two notifications leave, entries of unknown keys make no difference wherever they stand, integers never
wrap, the second cut of a string has no effect, and a rejected
entry leaves the cache as it was.

**Firmware and time** (`Firmware`, `TimeSync`). For every image and every chunking of it, the image
is applied if and only if every block arrived and was written, in the callback of the last block. What
is applied is the complete image exactly if no response without a block came in between: such a
response resets the slot but not the offset (`OnlyCompleteImagesApplied`), so that a later last block
applies the second part alone, given a DFU target that accepts writes after its reset
(`DisturbedDownloadAppliesPart`). Blocks are those of section 2.4 of RFC 7959. The check of the first
bytes is taken to accept the first block of the image and no other one.

## Model

| member | source | states |
|---|---|---|
| Paths.PutSegment | src/thingsboard.c:44-59 | one turn of the loop: a slash and a segment are written if they fit, and a failing turn writes at most the slash; no other byte changes |
| Paths.CatPath | src/thingsboard.c:36-68 | succeeds exactly if the sum of (length + 1) plus one fits; on success the buffer starts with the terminated path, on failure with a prefix of it; all other bytes are untouched |
| Paths.TelemetryPathText | src/tb_internal.h:8-36 | the telemetry path is /api/v1/telemetry with DTLS, else it names the token in between, and ends before it while there is none |
| Paths.SplitUndoesJoin | src/thingsboard.c:36-68 | cutting the path at slashes returns the segments, for any number of slash-free ones |
| Paths.JoinUndoesSplit | src/thingsboard.c:36-68 | joining the cut segments returns the path, for every path that begins with a slash |
| Paths.BufferHoldsPath | src/thingsboard.c:36-68 | the path is read back from the buffer as a C string, whatever stale bytes lie behind the terminator |
| Paths.BufferHoldsSegments | src/thingsboard.c:36-68 | the segments are read back from the buffer whatever stale bytes lie behind the terminator |
| CStrings.StrNCpyKeepsShort | scripts/gen_json_parser.py:196-203 | a string shorter than the buffer is stored unchanged and terminated |
| CStrings.StrNCpyTruncates | src/thingsboard_messages_protobuf.c:13-16 | strncpy with the forced terminator stores exactly the longest prefix that fits |
| TimeseriesText.EncodeEntry | src/thingsboard_messages_json.c:94-121 | the contract of the library for one record: success, no space or error, and no byte touched outside the space given |
| TimeseriesText.EncodeReserved | src/thingsboard_messages_json.c:152-155 | the library may use the space left less two bytes, and what it writes lies behind the text so far |
| TimeseriesText.PackRecord | src/thingsboard_messages_json.c:142-172 | one turn: position plus space left stays the capacity, the record is appended, or the text before the comma is restored because no longer prefix is accepted |
| TimeseriesText.CloseArray | src/thingsboard_messages_json.c:178-183 | closing bracket and terminator complete the array text |
| TimeseriesText.TimeseriesEncode | src/thingsboard_messages_json.c:123-187 | the exact status for every input; on success the count is the longest accepted prefix and the buffer holds its array and a terminator within the capacity; no byte beyond the capacity changes |
| TimeseriesText.AcceptsPrefix | src/thingsboard_messages_json.c:142-174 | a batch that the encoder packs has only prefixes that it packs |
| TimeseriesText.AcceptsSuffix | src/thingsboard_messages_json.c:142-174 | a batch that the encoder packs has only suffixes that it packs |
| TimeseriesText.AcceptsIff | src/thingsboard_messages_json.c:134-176 | a batch is packed exactly if its texts, the commas between them, the opening bracket and the two or three bytes kept behind them fit the capacity |
| TimeseriesText.LongestIsMaximal | src/thingsboard_messages_json.c:142-172 | a prefix could be packed if and only if it is no longer than the one that is packed |
| TimeseriesText.LongestUnique | src/thingsboard_messages_json.c:142-172 | an accepted prefix that cannot be extended is the longest one |
| ArrayRoundTrip.ScanJoined | src/thingsboard_messages_json.c:142-172 | the joined records leave a JSON scanner at the top level, whatever their strings contain |
| ArrayRoundTrip.SplitJoined | src/thingsboard_messages_json.c:123-187 | cutting the joined records at top-level commas returns them in order |
| ArrayRoundTrip.ArrayRoundTrips | src/thingsboard_messages_json.c:123-187 | the array parses back to the encoded records if and only if none of them is empty |
| ArrayRoundTrip.FieldlessRecordBreaksArray | src/thingsboard_messages_json.c:102-104 | a record without fields leaves a trailing comma, which does not parse |
| Batching.PlanIsSplit | src/thingsboard.c:494-516 | the prepared batches are non-empty, accepted, concatenate to the input, and are no more than the free requests |
| Batching.CatchesUp | src/thingsboard.c:502-505 | the next prepared batch reaches at least as far as any accepted batch that ends behind its start |
| Batching.StaysAhead | src/thingsboard.c:494-516 | the greedy plan needs no more batches than any other split of the records that remain |
| Batching.PlanExistsIffSplitExists | src/thingsboard.c:489-516 | the prepare phase succeeds if and only if some split into accepted batches fits the free requests |
| Batching.PlanIsOptimal | src/thingsboard.c:489-516 | no split into accepted batches uses fewer requests |
| Batching.NoRequestMeansTooFew | src/thingsboard.c:495-499 | if the slab runs out, every split needs more requests than were free |
| Batching.EnoughRequestsSuffice | src/thingsboard.c:489-516 | with a request for each record the prepare phase succeeds if and only if each record fits a request alone |
| Verdicts.OversizeRecordTripsAssertion | src/thingsboard.c:504-510 | if the first record that does not fit alone can be encoded: the assertion on the count fails exactly if a request is left after the records before it, otherwise memory is reported missing |
| Verdicts.FailsWhereTried | src/thingsboard.c:504-509 | a record that cannot be encoded fails the call exactly where a record without text could be packed |
| Verdicts.UnencodableVerdict | src/thingsboard.c:494-509 | if the first record that does not fit alone cannot be encoded: the encoder's error exactly if the records before it and an empty one can be split over the free requests, otherwise memory is missing |
| Verdicts.MisfitVerdict | src/thingsboard.c:494-510 | if it can be encoded: the assertion on the count fails exactly if the records before it can be split with a request to spare, otherwise memory is missing |
| Verdicts.VerdictBySplits | src/thingsboard.c:494-516 | success, missing memory, encoder error and failed assertion, each if and only if, in terms of splits, for all inputs |
| Verdicts.OversizeExample | src/thingsboard.c:504-510 | two records in buffers of six bytes: with two requests the assertion fails, with one the slab runs out |
| Batching.UncheckedRunsOut | src/thingsboard.c:494-516 | without assertions the loop takes requests until none is left where the assertion on the count would have failed, and goes the same way otherwise |
| RequestPool.Choose | src/thingsboard.c:70-82 | whatever the allocator chooses is a free block, and it fails only if none is free |
| RequestPool.Pool.Alloc | src/thingsboard.c:70-82 | a free block becomes held by the caller, or nothing changes |
| RequestPool.Pool.Free | src/thingsboard.c:84-87 | only a block that a call holds can be freed: never a free one or one in flight |
| RequestPool.Pool.Submit | src/thingsboard.c:606-614 | an accepted request owns the block, a rejected one leaves it held by the caller |
| RequestPool.Pool.Finish | src/thingsboard.c:555-558 | the last callback takes the block back from the request |
| RequestPool.ChoicesAreFree | src/thingsboard.c:495-500 | allocations in a row hand out different free blocks, as long as there are enough |
| SendTimeseries.Sender.SendTelemetryRequest | src/thingsboard.c:584-615 | the block is in flight with the right path and body after success, and free after either failure; the path depends on DTLS and on whether a token is known |
| SendTimeseries.Sender.FreeSlots | src/thingsboard.c:522-524 | exactly the blocks of the remaining slots become free |
| SendTimeseries.Sender.ReleaseSlot | src/thingsboard.c:531-534 | one turn of the cleanup loop frees the block of its slot, or finds none |
| SendTimeseries.Sender.ReleaseRequests | src/thingsboard.c:531-534 | the inclusive loop frees exactly the held blocks, and visits an empty slot if and only if the last allocation failed |
| SendTimeseries.Sender.PrepareNext | src/thingsboard.c:495-513 | one block is taken and loaded with the longest accepted prefix, or the kind of failure is told apart |
| SendTimeseries.Sender.PrepareTurn | src/thingsboard.c:494-516 | one block is taken that no slot holds yet, so that the slot index stays in bounds, and the records taken or the kind of failure are the greedy plan's |
| SendTimeseries.Sender.PrepareRound | src/thingsboard.c:494-516 | one turn of the loop keeps its invariant with fewer records to go, or leaves distinct blocks for the cleanup with the plan's verdict |
| SendTimeseries.Sender.Prepare | src/thingsboard.c:489-516 | the loop ends with the plan's verdict and tells whether the assertion on the count failed; on success distinct blocks hold the texts of the plan's batches |
| SendTimeseries.Sender.SendNext | src/thingsboard.c:519-526 | a rejected request is freed by the sender and those behind it by the caller, each once |
| SendTimeseries.Sender.SendPrepared | src/thingsboard.c:518-527 | for every position of the first rejected request: those before it are in flight, that one and those behind it are free, and the messages sent are those before it |
| SendTimeseries.Sender.Send | src/thingsboard.c:518-529 | the same in terms of batches |
| SendTimeseries.Sender.SendTimeseries | src/thingsboard.c:474-537 | the outcome of the whole call for every input, all or nothing in the prepare phase, the exact messages sent and the exact blocks in flight afterwards, all others free, and exactly when the assertion on the count fails and an empty slot is freed |
| Delivery.ReceivedBatches | src/thingsboard.c:494-527 | the arrays of any batches parse to their records in order |
| Delivery.SendDeliversRecords | src/thingsboard.c:474-537 | the server reads all records in order exactly if all requests were accepted and every record has a field; records that all have one are read as a prefix after a rejection |
| Delivery.SendAndReceive | src/thingsboard.c:474-537 | the same for a whole call, by its result and what it added to the accepted messages |
| Outcomes.SendOutcome | src/thingsboard.c:441-472 | each status of a single send exactly under its condition, refused exactly outside CONNECTING and CONNECTED; one more block in flight exactly for Ok |
| Outcomes.SubmissionOutcome | src/tb_fota.c:343-377 | telemetry of the SDK's own takes a block if one is free and it is built and accepted, while CONNECTING or CONNECTED |
| Outcomes.SubmissionsOutcome | src/tb_fota.c:343-377 | several of them take as many blocks as go out, or all that are free, and change nothing else |
| Outcomes.TimeseriesRefused | src/thingsboard.c:476-478 | sending timeseries is refused exactly outside CONNECTING and CONNECTED |
| Outcomes.TimeseriesFails | src/thingsboard.c:494-516 | records that cannot be split over the free requests: nothing is sent, with the encoder's error or ENOMEM, told apart by splits |
| Outcomes.TimeseriesSends | src/thingsboard.c:474-529 | otherwise one telemetry request for each of the fewest possible batches up to the first rejected one, and Ok exactly if none is |
| Outcomes.TimeseriesGoOut | src/thingsboard.c:474-529 | records that fit alone, enough blocks, a fitting path and an accepting CoAP client: Ok, with one block in flight for each of the fewest batches |
| Connections.ConnectConcludes | src/thingsboard.c:736-761 | an attempt with a token ends CONNECTED, ACTIVE, with the new socket open and a block observing, exactly if the observe request goes through with a block left for it; otherwise DISCONNECTED with the socket closed |
| Connections.ConnectWaits | src/thingsboard.c:721-734 | without a token the client waits with one provisioning request in flight, or gives up and leaves the socket open |
| Connections.ConnectStatus | src/thingsboard.c:171-203 | each result of connect exactly under its condition; without Ok nothing has changed |
| Connections.ResponseConcludes | src/provision.c:48-116 | a granted token concludes the attempt like a known one, any other response leaves the client CONNECTING; the request's block is free |
| Connections.InitOutcome | src/thingsboard.c:774-841 | each result of init exactly under its condition, and where the attempt within it ends |
| Connections.DisconnectOutcome | src/thingsboard.c:205-237 | from CONNECTED and SUSPENDED to DISCONNECTED with Ok, the socket closed and one event; refused elsewhere |
| Connections.SuspendOutcome | src/thingsboard.c:239-265 | from CONNECTED to SUSPENDED with Ok and one event, with the socket closed or kept; elsewhere nothing changes |
| Connections.ResumeOutcome | src/thingsboard.c:267-293 | Ok exactly if the client is CONNECTED afterwards: from SUSPENDED always without closing on suspend, and otherwise exactly if the socket opened and the observe request was granted |
| Connections.NotificationOutcome | src/thingsboard.c:310-376 | only the last notification ends the observation and frees its block |
| Connections.ResponseOutcome | src/thingsboard.c:617-648 | a response changes nothing but its block, which the last one frees, and a time response logs exactly one event |
| Connections.ResponseSends | src/tb_fota.c:120-170 | the same with requests sent from within the callback |
| Ownership.NotifiedIsObservation | src/thingsboard.c:368-373 | the assertion in the callback: a notified request is the observation, where that is the only observe request |
| Ownership.LaunchedKeeps | src/thingsboard.c:719-762 | starting the client keeps every block in one place, and leaves at most one provisioning request, while connecting |
| Ownership.ConnectKeeps | src/thingsboard.c:171-203 | connecting keeps every block in one place |
| Ownership.UnsubscribedKeeps | src/thingsboard.c:429-437 | cancelling keeps every block in one place, and gives the observation's block back if its last callback came |
| Ownership.LastNotificationKeeps | src/thingsboard.c:368-373 | the last callback of an observe request frees its block and leaves no observation |
| Ownership.SubmitAll | src/thingsboard.c:518-527 | several accepted requests own a block each |
| Ownership.TimeseriesKeeps | src/thingsboard.c:474-537 | sending timeseries keeps every block in one place, for every plan, allocation and rejection |
| Ownership.ResumeKeeps | src/socket.c:155-178 | resuming keeps every block in one place |
| Ownership.NotificationKeeps | src/thingsboard.c:310-376 | notifications, last ones included, keep every block in one place |
| Ownership.ResponseKeeps | src/thingsboard.c:539-559 | responses keep every block in one place, while the callback sends requests and after it frees its own |
| Ownership.ProvisionedKeeps | src/provision.c:48-116 | the provisioning response keeps every block in one place, whether it starts the client or not |
| Ownership.StepKeepsOwnership | src/thingsboard.c:171-293 | every call and callback keeps every block free or in flight, with none held afterwards, in every run; one observe request is in flight exactly if there is an observation, as long as the assertion before subscribing holds |
| Sessions.LanguageMeaning | src/thingsboard.c:120-133 | in the event log ACTIVE never follows ACTIVE and SUSPENDED follows only ACTIVE |
| Sessions.LaunchedKept | src/thingsboard.c:719-762 | a connection attempt keeps socket and log in step with the state; it leaves a socket behind exactly if provisioning fails |
| Sessions.ErrorExitKept | src/thingsboard.c:728-732 | the provisioning error exit is the one that leaves the socket open |
| Sessions.ConnectKept | src/thingsboard.c:171-203 | the same for the whole connect call |
| Sessions.DisconnectKept | src/thingsboard.c:205-237 | disconnecting closes the socket in use and keeps log and state in step |
| Sessions.SuspendKept | src/thingsboard.c:239-265 | the same for suspending, in both socket variants |
| Sessions.ResumeKept | src/thingsboard.c:267-293 | the same for resuming, in both socket variants, failures included |
| Sessions.ProvisionedKept | src/provision.c:107-109 | the provisioning response keeps socket and log in step with the state |
| Sessions.TimeseriesKept | src/thingsboard.c:474-537 | sending timeseries leaves state, socket, observation and log alone |
| Sessions.StepKept | src/thingsboard.c:171-293 | every call and callback keeps socket and log in step with the state, and the open sockets stay exact unless it leaves one behind |
| Subscriptions.LaunchedFits | src/thingsboard.c:719-762 | a connection attempt without an observation ends with one exactly if it ends connected |
| Subscriptions.StepSettles | src/thingsboard.c:429-437 | a step begins and ends the waiting for an observation's last callback exactly as its kind says, where the assertion before subscribing holds |
| Subscriptions.QuietMeansAssertionHolds | src/thingsboard.c:378-382 | without a pending callback the assertion before subscribing holds |
| Runs.StepKeepsInv | src/thingsboard.c:171-293 | one step keeps block ownership, sockets and log together, whether assertions hold or not |
| Runs.StepKeepsObservation | src/thingsboard.c:378-382 | one step in which the assertion before subscribing holds keeps the observation the only observe request |
| Runs.RunKeepsInv | src/thingsboard.c:171-293 | so does every run, timeseries included |
| Runs.RunKeepsObservation | src/thingsboard.c:368-382 | after a run in which the assertion held, the observation is the one observe request in flight |
| Runs.SynchronousRunAsserts | src/thingsboard.c:378-382 | with synchronous cancellation the assertion before subscribing holds throughout every run |
| Runs.RunSocketsExactIff | src/thingsboard.c:719-762 | after any run only the socket in use is open, if and only if no attempt took the provisioning error exit |
| Runs.TokenBuildsLeaveNoSocket | src/thingsboard.c:721-739 | with a configured token or DTLS no attempt takes that exit |
| Runs.FailedAttemptsLeaveSockets | src/thingsboard.c:728-732 | two failed attempts leave two sockets open |
| Runs.EveryRun | src/thingsboard.c:774-841 | all invariants for every run from power-up; with synchronous cancellation the assertion before subscribing holds as well |
| Runs.RunLogTellsPhase | src/thingsboard.c:115-169 | over every run ACTIVE never follows ACTIVE, SUSPENDED follows only ACTIVE, and the last event tells the state outside INIT and CONNECTING |
| Runs.BlocksAddUp | src/thingsboard.c:70-87 | between calls no block is held or lost: free blocks and blocks in flight add up to the slab size |
| Runs.PendingMeansNotQuiet | src/thingsboard.c:429-437 | after any run an observation without session exists exactly if a closed session still waits for its last callback |
| Runs.AssertionFailsIff | src/thingsboard.c:378-382 | after any run in which it held, the assertion fails if and only if a connection attempt subscribes while such a callback is pending |
| Runs.LateCancellationTripsAssertion | src/thingsboard.c:378-382 | connect, disconnect, connect with a late cancellation fails the assertion |
| Runs.ConnectingRefusesCalls | src/thingsboard.c:171-293 | while CONNECTING every lifecycle call is refused and changes nothing |
| Runs.StrandedIff | src/provision.c:48-116 | a CONNECTING client stays so whatever is called and whatever arrives, if and only if no provisioning request is in flight |
| Runs.NoProvisioningStrands | src/provision.c:48-116 | without one, every run ends CONNECTING |
| Runs.TokenArrives | src/provision.c:107-109 | with one, its response can end CONNECTING |
| Runs.FailedProvisioningStrands | src/provision.c:48-116 | an error response to the provisioning request, in a run from power-up, after which the client is CONNECTING for good |
| ClientObject.Client.constructor | src/thingsboard.c:14-17 | the initial client satisfies all invariants |
| ClientObject.Client.SocketClose | src/socket.c:109-120 | closes an open descriptor, never one that is closed already |
| ClientObject.Client.SocketConnect | src/socket.c:79-107 | a descriptor is left open exactly on success |
| ClientObject.Client.SendRequest | src/thingsboard.c:650-698 | the new state and status for all failures; a block is in flight afterwards exactly if the request was accepted |
| ClientObject.Client.SendRequestIfActive | src/thingsboard.c:441-472 | takes the flat step of a send, refused unless the client is active |
| ClientObject.Client.SendTimeseries | src/thingsboard.c:474-537 | the sender's call on the client's slab takes exactly the flat step, whatever the client's state, and passes on whether an empty slot was freed and the assertion on the count failed |
| ClientObject.Client.SubscribeAttributes | src/thingsboard.c:378-427 | the observation is the accepted request's block, or NULL after any failure, replacing one that the source asserts not to exist |
| ClientObject.Client.SetState | src/thingsboard.c:135-169 | the nested state change ends, restores the lock depth, and is the flat launch of a connection attempt or a logged transition |
| ClientObject.Client.StartClient | src/thingsboard.c:719-762 | the recursion through provisioning ends and amounts to the flat launch |
| ClientObject.Client.SubscribeAndConnect | src/thingsboard.c:749-761 | CONNECTED after an accepted observe request, otherwise socket closed and DISCONNECTED |
| ClientObject.Client.ProvisionDevice | src/provision.c:164-190 | the three ways provisioning goes, each with its exact new state |
| ClientObject.Client.ProvisionCallback | src/thingsboard.c:708-716 | with the token set the client starts without coming back here |
| ClientObject.Client.Connect | src/thingsboard.c:171-203 | takes exactly the flat step, and restores the lock depth on every return path |
| ClientObject.Client.EndObservation | src/thingsboard.c:368-373 | clears the observation and frees its block |
| ClientObject.Client.HandleNotification | src/thingsboard.c:310-376 | takes exactly the flat step for all six ways a notification fares, and restores the lock depth on every return path |
| ClientObject.Client.UnsubscribeAttributes | src/thingsboard.c:429-437 | cancels the observation now or later, and refuses without one |
| ClientObject.Client.Disconnect | src/thingsboard.c:205-237 | takes exactly the flat step, and restores the lock depth on every return path |
| ClientObject.Client.SocketSuspend | src/socket.c:140-153 | closes the socket once, after cancelling the observation |
| ClientObject.Client.Suspend | src/thingsboard.c:239-265 | takes exactly the flat step, and restores the lock depth on every return path |
| ClientObject.Client.SocketResume | src/socket.c:155-178 | a failed resume leaves no new socket open, and after a failed subscription no observation |
| ClientObject.Client.Resume | src/thingsboard.c:267-293 | takes exactly the flat step, and restores the lock depth on every return path |
| ClientObject.Client.Initialize | src/thingsboard.c:774-841 | takes exactly the flat step, the connection attempt included |
| ClientObject.Client.HandleResponse | src/thingsboard.c:539-559 | the block is freed by the last callback only, after whatever requests the callback sends |
| ClientObject.Client.HandleProvisionResponse | src/provision.c:48-116 | starts the client on success, and frees the block in any case |
| ClientObject.Client.Step | src/thingsboard.c:171-293 | any call or callback of the object is the flat step, keeps all invariants and gives the lock back, whether the source's assertions hold or not; where the one before subscribing holds, the observation stays the one observe request |
| UpdateCodegen.ExecText | scripts/gen_json_parser.py:196-203 | running the emitted copy of a string returns early if the string does not fit, else stores it in the client's own buffer |
| UpdateCodegen.ExecNumber | scripts/gen_json_parser.py:212-213 | running the emitted copy of a number sets the member, its flag and the counter |
| UpdateCodegen.ExecField | scripts/gen_json_parser.py:222-229 | running the emitted code of one field: no effect if absent, early return if too long, applied otherwise |
| UpdateCodegen.AfterFieldMeaning | scripts/gen_json_parser.py:196-203 | one applied field overrides one entry of the map that the cache means |
| UpdateCodegen.UpdateMeetsSpec | scripts/gen_json_parser.py:219-242 | the emitted function overrides the cache with the applied fields, returns their number, and fails exactly if a present string is too long, for every flat schema with distinct names |
| UpdateCodegen.AppliedMeaning | scripts/gen_json_parser.py:219-242 | the applied fields are exactly those present before the first one that is too long |
| UpdateCodegen.UpdateSucceedsIff | scripts/gen_json_parser.py:219-242 | success exactly if every text that arrived is shorter than its buffer, with the number of schema fields that arrived |
| UpdateCodegen.StoredInMemory | scripts/gen_json_parser.py:196-213 | after success the current struct holds the number that arrived, or a pointer to the client's own buffer holding the text |
| UpdateCodegen.OthersUntouched | scripts/gen_json_parser.py:219-242 | what did not arrive is as it was |
| AttributeCache.CacheOutlivesPayload | scripts/gen_json_parser.py:201-202 | what the cache says does not depend on any received payload |
| AttributeCache.DeliverOverrides | src/thingsboard_messages_json.c:12-33 | one notification overrides the cache with the fields it applies |
| AttributeCache.CacheRefinesMap | src/thingsboard.c:336-351 | any sequence of notifications leaves what a map overridden by each of them holds |
| AttributeCache.LastAcceptedWins | src/thingsboard.c:336-351 | a field holds the value accepted last |
| AttributeCache.SharedAttributes.HandleAttributes | src/thingsboard.c:336-366 | the cache after any outcome, and the application is told exactly if the update succeeded |
| JsonCodegen.ObjectProperty.AddProperty | scripts/gen_json_parser.py:104-106 | a property is appended and gets its new parent |
| JsonCodegen.ObjectProperty.MergeWith | scripts/gen_json_parser.py:108-112 | the properties of the other schema follow, all under the first schema's struct name |
| JsonCodegen.DefinedIndex | scripts/gen_json_parser.py:176-183 | the value of an index macro is the last position whose property defines it |
| JsonCodegen.MacroIsIndex | scripts/gen_json_parser.py:176-183 | with distinct macros each stands for its own position |
| JsonCodegen.GenObjDescComplete | scripts/gen_json_parser.py:285-302 | the bound check of the emitted encoder never fires, and the descriptors are those of the set flags in order |
| JsonCodegen.FindEncoded | scripts/gen_json_parser.py:304-315 | reading the written document finds a member exactly if its flag was set, with its value |
| JsonCodegen.MaskBit | scripts/gen_json_parser.py:254-256 | bit i of the parser's result tells whether descriptor i was found |
| JsonCodegen.MaskAsInt | scripts/gen_json_parser.py:261-267 | as a 32-bit int the result is negative exactly if the 32nd descriptor was found |
| JsonCodegen.EncodeParseRoundTrip | scripts/gen_json_parser.py:249-315 | parsing what the encoder wrote restores flags and values for up to 31 members, and with 32 exactly if the last one is not set |
| JsonCodegen.ParsedDocument | scripts/gen_json_parser.py:249-271 | for any document a member's flag is set exactly if some entry has its key and type, with the value of the first such entry |
| JsonCodegen.OnlyMembersFlagged | scripts/gen_json_parser.py:249-271 | no other flag is set |
| JsonCodegen.NothingWrittenIff | scripts/gen_json_parser.py:304-315 | nothing is written exactly if no flag is set |
| JsonCodegen.WrittenInOrder | scripts/gen_json_parser.py:285-302 | members are written in the order of the schema |
| JsonCodegen.SharedMacroLosesField | scripts/gen_json_parser.py:64-65 | two members with one macro: the first one's flag is lost in the round trip |
| JsonCodegen.CaseCollisionExample | scripts/gen_json_parser.py:64-65 | the members ab and AB are such a pair |
| JsonCodegen.MacrosDistinctIff | scripts/gen_json_parser.py:64-65 | macros of one schema differ if and only if the names differ by more than case |
| JsonCodegen.SchemaRoundTripsIff | scripts/gen_json_parser.py:249-315 | a schema of up to 31 members round-trips for all values if and only if no two names are equal up to case |
| ProtobufAttributes.SameUpToIsEqual | src/thingsboard_messages_protobuf.c:115-115 | comparing up to the key size is equality for decoded keys |
| ProtobufAttributes.ReadSlot | src/thingsboard_messages_protobuf.c:64-112 | an entry is rejected exactly if its type or range does not fit the field, and otherwise neither cast nor copy loses anything but the cut end of a string |
| ProtobufAttributes.ValueStored | src/thingsboard_messages_protobuf.c:64-112 | which type and range each field accepts, and the number or cut text that it stores |
| ProtobufAttributes.OneEntry | src/thingsboard_messages_protobuf.c:121-141 | a single entry sets the field of its name, is rejected by it, or is ignored if no field has the name |
| ProtobufAttributes.CopySlot | src/thingsboard_messages_protobuf.c:13-33 | copying a member keeps its value: the second cut has no effect |
| ProtobufAttributes.Attributes.DecodeEntry | src/thingsboard_messages_protobuf.c:121-141 | one entry sets its field, is rejected, or is ignored for an unknown key |
| ProtobufAttributes.Attributes.Decode | src/thingsboard_messages_protobuf.c:143-163 | all entries are decoded, or the first rejected one fails the notification |
| ProtobufAttributes.Attributes.CopyField | src/thingsboard_messages_protobuf.c:35-40 | one member is copied if it is set |
| ProtobufAttributes.Attributes.Update | src/thingsboard_messages_protobuf.c:42-58 | the cache is overridden by the decoded members, and their number is returned |
| ProtobufAttributes.Attributes.HandleNotification | src/thingsboard.c:336-351 | a notification takes effect as a whole or not at all |
| ProtobufAttributes.DecodeAppend | src/thingsboard_messages_protobuf.c:121-141 | decoding xs + ys is decoding xs, then ys |
| ProtobufAttributes.DecodeOverrides | src/thingsboard_messages_protobuf.c:121-141 | decoding overrides whatever was there |
| ProtobufAttributes.NotificationsCompose | src/thingsboard_messages_protobuf.c:42-163 | one notification with xs + ys leaves the cache as xs and then ys do, if all entries are acceptable |
| ProtobufAttributes.InertMakesNoDifference | src/thingsboard_messages_protobuf.c:135-141 | entries without a pair or with an unknown key make no difference, wherever they stand in a notification |
| ProtobufAttributes.OneEntryNotified | src/thingsboard.c:336-351 | the cache after a notification of one entry |
| ProtobufAttributes.RejectedChangesNothing | src/thingsboard_messages_protobuf.c:151-160 | an entry that does not fit its field, anywhere in a notification, leaves the cache as it was |
| ProtobufAttributes.RejectedIffSomeEntryIs | src/thingsboard_messages_protobuf.c:121-163 | a notification is rejected if and only if one of its entries is |
| ProtobufAttributes.CopiedAll | src/thingsboard_messages_protobuf.c:42-58 | copying member by member overrides the map as a whole and counts its entries |
| ProtobufTimeseries.TimeseriesEncode | src/thingsboard_messages_protobuf.c:244-290 | all records or an error, and the records counted are the longest prefix that fits; after an error the bytes written may include the head of the next one |
| ProtobufTimeseries.Prepare | src/thingsboard.c:494-516 | with the Protobuf encoder all records go into one request, or the call fails for want of memory or with EINVAL |
| Firmware.FirmwareUpdate.SetFwState | src/tb_fota.c:55-73 | a state is reported exactly when it changes |
| Firmware.FirmwareUpdate.StartFwUpdate | src/tb_fota.c:268-341 | the image is requested exactly if all checks pass, and then the download stands at its start; DOWNLOADING is reported exactly if the first checks pass, and otherwise nothing changes |
| Firmware.FirmwareUpdate.ChunkProcess | src/tb_fota.c:93-118 | offset and slot move exactly with an identified and written block |
| Firmware.FirmwareUpdate.HandleFwChunk | src/tb_fota.c:120-170 | the state is FAILED exactly without an identified and written block, else DOWNLOADING while bytes are missing, else UPDATING with the image applied; exactly the states entered are reported |
| Firmware.CallbackOutcome | src/tb_fota.c:93-165 | state, offset, size, slot and applied images after any callback, in terms of the block |
| Firmware.FirmwareUpdate.RestartAfter | src/tb_fota.c:268-275 | after any failed callback a new attempt is granted exactly if its own checks pass |
| Firmware.BlockStanding | src/tb_fota.c:93-118 | each callback keeps offset plus lost bytes equal to the blocks passed, and nothing is lost exactly if the next block came and was written |
| Firmware.AppliedIffAllWritten | src/tb_fota.c:93-170 | from any standing the image is applied once if all blocks are written, and never otherwise |
| Firmware.AppliedSlot | src/tb_fota.c:120-165 | what is applied is the complete image exactly if no response without a block came in between |
| Firmware.OnlyCompleteImagesApplied | src/tb_fota.c:93-170 | both from a fresh start, for every image, chunking and stream |
| Firmware.AppliedOnLastBlock | src/tb_fota.c:112-117 | the image is applied in the callback of its last block only |
| Firmware.DisturbedDownloadAppliesPart | src/tb_fota.c:139-162 | an empty response in between makes the second half be applied alone |
| TimeSync.TimestampFromBuf | src/tb_time.c:32-48 | succeeds exactly on digits only, and then returns the number they denote |
| TimeSync.DecimalAppend | src/tb_time.c:43-43 | one more digit multiplies by ten and adds it |
| TimeSync.DecimalOfDigits | src/tb_time.c:38-44 | every number is read back from its decimal form |
| TimeSync.LeadingZero | src/tb_time.c:38-44 | leading zeros do not matter |
| TimeSync.Clock.HandleTimeResponse | src/tb_time.c:50-83 | a numeric response sets the clock, which runs on from it; any other response leaves it |

## Left out

- TimeseriesText.EncodeEntry: the JSON library's encoder of one record is taken by contract (no partial knowledge of what it scribbles); numbers, escaping and field order inside a record are not modelled, and a record that it rejects is rejected whatever the space.
- ArrayRoundTrip.ArrayRoundTrips: the reader tracks nesting, strings and escapes and cuts at top-level commas; it does not check the grammar inside the records.
- SendTimeseries.Sender.SendTelemetryRequest: the path buffer of a block is modelled as memory with unknown contents that is new for each request; the error number is always EIO where the source passes on the CoAP client's own.
- SendTimeseries.Sender.ReleaseRequests: freeing an empty slot is reported, not carried out; what the kernel does with such a free is not modelled.
- SendTimeseries.Sender.SendTimeseries: the local arrays of request pointers and lengths are fixed-length sequences. A build with assertions stops where `tripped` is reported, holding its blocks; that halt is not modelled.
- SendTimeseries.Sender.Segments: a token is taken to contain no NUL and to keep its text; whether it is known is part of the client's state.
- RequestPool.Pool.Alloc: clearing a fresh block is not modelled, since every field that is used later is written first.
- ClientObject.Client.SendRequest: one error number stands for a path or payload that cannot be built, where the source uses EFAULT, EINVAL or ENOMEM by request type, and EIO stands for the CoAP client's rejection.
- ClientObject.Client.HandleNotification: the application's callback is not re-entrant, and negative results are always the last block.
- ClientObject.Client.HandleProvisionResponse: a single-block response; the JSON body, the token text and its storage are reduced to whether a token was granted.
- ClientObject.Client.SocketSuspend: the variants without and with closing the socket; the variant that only sets a socket option behaves like the former, its failure is not modelled, and neither are replacements of the weak functions.
- AttributeCache.SharedAttributes.HandleAttributes: the callback has no result in the source; the status tells how it fared. The decoded struct with its pointers into the payload is taken as given.
- JsonCodegen.EncodeParseRoundTrip: the JSON library's object encoder and parser are taken by contract: described members in order, one result bit for each found member.
- ProtobufAttributes.Attributes.Decode: the wire format is nanopb's; the model starts from decoded entries. Boolean fields, for which the decoder has no macro, are not modelled.
- ProtobufTimeseries.TimeseriesEncode: a record is represented by the sizes of its tag, length and submessage.
- Firmware.FirmwareUpdate.StartFwUpdate: title and version are reduced to whether they are installed and whether the title fits; a version that is too long only draws a warning in the source. Whether the image request itself is accepted is a step of the client.
- Firmware.FirmwareUpdate.HandleFwChunk: errors of the final flush and the reboot after applying; nothing is said about runs that go on after a reboot.
- TimeSync.TimestampFromBuf: values beyond 64 bits, which the source's comment excludes as well.
- TimeSync.Clock.HandleTimeResponse: the decoding of the response is taken as given, and the refresh request is left out; the event for the application is the `timeUpdate` of `Lifecycle`.
- Resuming a firmware download from saved progress, and reconnecting while a download runs.
- Nested object schemas in the generator: the update path has no copy for them.
- The Protobuf decoding path that tries the plain attribute message first; the default build does not have it.
- Name resolution, DTLS options, logging, response code text, checks for NULL arguments and too small buffer arguments.
- When the time worker runs and when requests time out: their requests and responses are steps that may come at any time.
- Interleavings of threads finer than one call or one callback; the lock is modelled by its depth only.
- `thingsboard_send_telemetry` and `thingsboard_send_telemetry_buf` beyond their block accounting.
