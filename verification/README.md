# Verification of the Thinkite daemon and client

Dafny models of the stateful core of the daemon and its mobile client, and proofs about them.
`dafny verify dfyconfig.toml` checks everything.

## What is modelled

**Resumable transcripts.** The daemon logs events under increasing cursors, keeps the newest ones in a bounded ring
(any capacity) and folds them into a snapshot (`SessionRuntime`); the subscribe handler answers on one of three paths
(`Router`); the client keeps a resume hint (`Subscription`) and reduces deltas into a keyed, ordered collection
(`Collection`). `Lifecycle` says how creates and ends of the query loop change the answers. `Replication` puts them
together as a step relation with a FIFO link that can lose everything in flight, remounts, other subscribers, creates
and exits of the query loop, disk reads that return anything, and daemon restarts; `ReplicationProof` keeps its
invariant, `ResumeTheorems` says what a reconnecting client ends up showing, and `ResumeFlaws` has the runs in which that
is not the transcript. The state remembers the log of every epoch and where each snapshot came from, so what is shown
can be compared with what happened.

Stored items name assistant messages by their envelopes and streamed ones by message and block, so a disk read is hardly
ever the streamed transcript item by item. `Erasure` drops what the two name differently; `Follow` says when two lists
that read alike go on reading alike, and `QuietRead` at which moments of the query loop a read is safe.

**Live stream and stored conversation.** `LiveStream` turns SDK messages into deltas, `Normalize` turns a stored
conversation into a transcript, `Equivalence` proves that they agree for every script of prompts, text blocks, tools,
results and interrupts, and `Aliasing` that the shared detail object does no harm. What each path makes of any input at
all is said by scans of that input: `ReadBack` over stored envelopes, `LiveHistory`, `LiveFacts` and `LiveKeys` over live
inputs, `ToolCalls` over tool uses and results; `Names` is about lists without repetition.

**Wire.** `Utf8` is the hand-written codec on bit vectors, `Utf8Standard` compares it with RFC 3629 and RFC 2781,
`WireFrame` is the length framing and its read loop, `WriteChain` the overlapping senders.

**Bridge recovery.** `Bridge` and `BridgeService` are the reconnect machine; `BridgeProof` its invariant over every
interleaving, `BridgeRetry` coalescing and the retry budget, `BridgeSlot` whether a recovery leaves an open transport,
`BridgeVerdict` what each outcome leads to, `BridgeOrphan` the run that shows why a detach must not meet a recovery.

**Metadata.** `Metadata` has the manager's cache, the runtime's mirror and the file that two writers share;
`MetadataMirror` says what the mirror holds since it was made.

**Smaller machines.** `Connection`, `ConnectionProvider` and `ConnectionProof` (the epoch fence), `ConnectionRetry`
(how attempts end and count up), `Channel` (the async FIFO), `AddPatch` and `DiffReader` (untracked files in a diff),
`Base64Url` (pair offers).

Methods of classes mirror the program's methods and are proved equal to functions on values; the theorems are about
those functions and about runs of them. Where a method is straight-line its function has the method's own shape, so the
row of such a method (most of `BridgeService`, `ConnectionProvider` and `Metadata.SessionFile`) only ties the program to
the functions that the theorems are about. A run is an arbitrary list of steps: nothing bounds its length or order.

## Where the code and its documentation differ

- "The daemon replays exactly the events you missed" (the repository's README.md:36-37 and 73-74) holds, item contents
  aside, whenever no full answer is labelled past its snapshot (`ResumeTheorems.ResumeHintNeverSkips`); the runtime can
  tell which answers are (`ResumeTheorems.HonestIff`). What is then shown reads like the transcript exactly when no text
  block was open at the read it rests on (`ResumeTheorems.ResumedReadsAlikeIff`, `QuietRead.NeverReopensIff`). Three ways
  to miss the promise are runs in `ResumeFlaws`: a new-session subscribe answered without a snapshot carries the current
  cursor (packages/daemon/src/router.ts:327-367), which the client adopts before the replay arrives
  (packages/app/src/lib/daemon-client.ts:1250); a second create, when the first prompt was never stored
  (packages/daemon/src/router.ts:704-717), empties the snapshot but not the log
  (packages/daemon/src/runtime/run-query.ts:337-352); and a read while a block streams is kept as the snapshot at the
  current cursor (packages/daemon/src/router.ts:459-486).
- The reducer's comment says live and stored transcripts agree (packages/daemon/src/messages/fold.ts:20-25); they do
  exactly for prompts that storage gives back (`Equivalence.PathsAgreeIff`), and for one result per tool
  (`Equivalence.RepeatedResultIff`).
- `encodeWireFrame` takes the empty payload, whose frame the reader refuses (`WireFrame.FrameAcceptedIff`).
- A transport that closes while its session recovers is not recovered again: the close is coalesced
  (packages/daemon/src/bridge/bridge-service.ts:672-686), and until the refresh timer fires the runtime may forward to a
  dead transport, exactly then (`BridgeSlot.SlotOpenIff`).
- A failed pairing while a connection is up or being retried leaves the app waiting for nothing: exactly then
  (`ConnectionProof.StepStaysHonestIff`), and `ConnectionProof.FailedPairingDeafens` is such a run.

## Model

| member | source | states |
|---|---|---|
| ResumeTheorems.ResumeHintNeverSkips | packages/app/src/lib/daemon-client.ts:1202-1271 | In every state that any run of events, subscribes, drops, remounts, creates and daemon restarts can reach, whatever the store returned, as long as no full answer is labelled past its snapshot: the rows are the snapshot last ingested folded with exactly the events up to the stored resume cursor, so a resume neither skips nor repeats one; and they show the log's own transcript there when what was read was the transcript |
| ResumeTheorems.ResumedReadsAlikeIff | packages/daemon/src/router.ts:287-515 | When reads and creates find what reads like the transcript (up to uuid, stop reason, empty text and unfinished tools) and answers are labelled on time: through any drops, remounts, restarts and other subscribers, what a client shows reads like the transcript at its stored cursor exactly when no message the transcript already held at its snapshot's read was given more text since |
| ResumeTheorems.SnapshotReadsAlikeIff | packages/daemon/src/router.ts:459-486 | The same for the snapshot the daemon keeps in memory from a disk read |
| ResumeTheorems.CarefulDaemonResumes | packages/daemon/src/router.ts:287-515 | When reads and creates find the log's own items, for instance before anything was streamed: the rows stand for the stored cursor, the snapshot in memory is the log's, and a drained client shows all of it |
| ResumeTheorems.HonestIff | packages/daemon/src/router.ts:327-486 | Whether an answer is labelled past its snapshot is a test on the runtime alone, and every such answer is an empty snapshot under the cursor of a log that has events |
| ResumeTheorems.SeededSnapshotLacks | packages/daemon/src/runtime/run-query.ts:337-352 | A snapshot lacks in every later state exactly as many items as its source lacked when it was read or created; one created empty is the log's if and only if the transcript was empty then |
| ResumeTheorems.ShownIsLogPrefix | packages/app/src/lib/daemon-client.ts:1202-1271 | In every run at all, unless a resume has jumped, the rows are the snapshot last ingested folded with exactly the events up to the position really applied, which never passes the resume cursor, and that snapshot is what was read or created folded with the events before it |
| ResumeTheorems.DrainedShowsWholeLog | packages/app/src/lib/transcript-collection-factory.ts:122-237 | In every run, once the link is drained, a client that has not jumped shows, sorted by order and with orders 0 to n-1, what was read or created followed by every later event of the log; that is the whole transcript when what was read was the transcript of its time |
| ResumeTheorems.HonestDrainedShowsWholeLog | packages/daemon/src/router.ts:392-515 | The same without the proviso when no full answer is labelled past its snapshot, whatever drops, restarts, creates and reads came before |
| Follow.ReadsAlikeIff | packages/daemon/src/messages/fold.ts:20-78 | Two lists that read alike go on reading alike through any events, the first one holding none of the addressed messages under their streamed names, exactly when no event gives more text to a message the second already held |
| QuietRead.NeverReopensIff | packages/daemon/src/runtime/run-query.ts:936-1003 | At any moment of any run of the query loop: no transcript message will be given more text, whatever comes next under fresh message ids, exactly when no text block of the open message has begun |
| QuietRead.QuietReadStaysAlike | packages/daemon/src/router.ts:459-486 | A disk read at such a moment that reads like the transcript keeps reading like it through the rest of the run and the next one |
| ResumeFlaws.FlakyRunLosesMessage | packages/app/src/lib/daemon-client.ts:1250 | A concrete run: a new-session answer with cursor 1 and no snapshot, a drop before the replay arrives, a warm resume; the client ends live and drained without the message |
| ResumeFlaws.RetryLosesFirstPrompt | packages/daemon/src/router.ts:704-717 | A concrete run: the agent dies before storing the first prompt, the retry creates again, and a fresh client is answered with a caught-up snapshot that lacks that prompt for good |
| ResumeFlaws.MidTurnReadLosesMessage | packages/daemon/src/router.ts:459-486 | A concrete run on the failing side of ResumedReadsAlikeIff: a read while a text block is open reads like the transcript, is kept as the snapshot, and the next chunk reopens the block, so the message never appears |
| ReplicationProof.StepKeepsInv | packages/daemon/src/router.ts:287-515 | Each of the fifteen steps of daemon, link and client keeps the replication invariant: ring, snapshot and where it came from, in-flight frames, awaited answer, client position; creates may find any transcript and reads may return anything |
| ReplicationProof.ServeInv | packages/daemon/src/router.ts:287-530 | Serving the next request, subscribe or unsubscribe, awaited or left over, with any disk contents, keeps the invariant: an awaited one puts its answer, then exactly the events after it, on the wire |
| ResumeTheorems.HonestRunExact | packages/app/src/lib/daemon-client.ts:1239-1257 | Invariant over runs without late labels: every snapshot in flight and the client itself stand exactly where their cursors say |
| ResumeTheorems.LabelHonestIffNoAppend | packages/daemon/src/router.ts:327-367 | Whatever the answer holds: resuming from the label of a full answer gives what its replay would have given exactly when nothing was appended in the gap, and a true snapshot is then the transcript of its label |
| ReplicationProof.RunKeepsInv | packages/daemon/src/router.ts:287-515 | The invariant holds after every run |
| ReplicationProof.AddEventInv | packages/daemon/src/runtime/session-runtime.ts:350-374 | Logging, folding and fanning out one event keeps the invariant for a client in any phase |
| ReplicationProof.DeliverInv | packages/app/src/lib/daemon-client.ts:1224-1257 | Handling the next frame, response or event, current or stale, keeps the invariant |
| ReplicationProof.BreakWaiting | packages/app/src/lib/daemon-client.ts:931-944 | A link that dies mid-flight leaves a waiting client with a prefix of its answer and nothing else |
| ReplicationProof.RestartInv | packages/daemon/src/router.ts:378-390 | A daemon restart (new epoch, empty log and ring) keeps the invariant for clients of the old epoch |
| Router.WarmIffComplete | packages/daemon/src/router.ts:370-390 | For any capacity and history, the warm path is chosen exactly when the epoch matches and the ring still holds every event after the hint |
| Router.WarmReplaysMissedSlice | packages/daemon/src/router.ts:392-424 | On the warm path nothing else changes and the replay is exactly the missed slice of the log |
| Router.HandleSubscribe | packages/daemon/src/router.ts:287-515 | The handler, with its three paths and the drop of the previous callback, sends the specified response and then the specified replay, and leaves exactly one registration |
| Lifecycle.CreatedAnswers | packages/daemon/src/runtime/run-query.ts:337-352 | After a create, whatever has been logged, a full answer is empty, everything in the ring is replayed, and the store is not read |
| Lifecycle.EndedAnswers | packages/daemon/src/runtime/run-query.ts:395-420 | After the loop has ended every cold answer is what the store holds, at the current cursor, replays nothing and is not kept |
| Lifecycle.ReadIsKeptIff | packages/daemon/src/router.ts:459-486 | A disk read is kept as the snapshot exactly while a loop runs: from its start until it is disposed of or ends |
| SessionRuntime.LiveRuntime.AddEvent | packages/daemon/src/runtime/session-runtime.ts:350-374 | Cursor, ring, eviction and fold are those of the specification; every subscriber is sent the event once |
| SessionRuntime.LiveRuntime.Subscribe | packages/daemon/src/runtime/session-runtime.ts:386-403 | Replays exactly the ring entries past the cursor, then registers; the rest of the runtime is unchanged |
| SessionRuntime.LiveRuntime.Unsubscribe | packages/daemon/src/runtime/session-runtime.ts:404-429 | Removes that callback and no other; a second call changes nothing |
| SessionRuntime.PushKeepsRing | packages/daemon/src/runtime/session-runtime.ts:350-355 | The ring is always the newest events of the log, up to its capacity |
| SessionRuntime.ReplaySlice | packages/daemon/src/runtime/session-runtime.ts:386-393 | A replay is every logged event past the cursor that has not been evicted |
| Subscription.SubscriptionHandle.Attach | packages/app/src/lib/daemon-client.ts:1202-1221 | Sends both halves of the resume hint or neither, and the new-session flag only without a hint |
| Subscription.SubscriptionHandle.OnEvent | packages/app/src/lib/daemon-client.ts:1229-1232 | Stores the wire cursor and reduces the delta |
| Subscription.SubscriptionHandle.OnResponse | packages/app/src/lib/daemon-client.ts:1234-1256 | Takes the answer to its own request only; a warm one leaves cursor and rows alone, a cold one replaces both |
| Timeline.SettledList.FoldEventDelta | packages/daemon/src/messages/fold.ts:27-78 | The in-place backward scan equals the list reducer: push, or rewrite the last item hit, or leave alone |
| Timeline.FoldAllConcat | packages/daemon/src/messages/fold.ts:12-25 | Folding a log in two parts is folding it whole |
| Timeline.PatchesOne | packages/daemon/src/messages/fold.ts:27-78 | A patch changes the last item it addresses, in the patched fields only |
| Collection.TranscriptCollection.OnEvent | packages/app/src/lib/transcript-collection-factory.ts:122-209 | The collection write for each delta kind, with the order a re-inserted key keeps |
| Collection.TranscriptCollection.OnSubscribed | packages/app/src/lib/transcript-collection-factory.ts:210-232 | A cold response truncates and re-inserts at orders 0, 1, 2; a warm one leaves the rows alone |
| Collection.ReducersAgree | packages/app/src/lib/transcript-collection-factory.ts:122-209 | The keyed, ordered client reducer and the daemon's list reducer compute the same transcript for every key-unique log, with orders exactly 0 to n-1 |
| Collection.IngestFaithfulIff | packages/app/src/lib/transcript-collection-factory.ts:222-231 | A snapshot is stored faithfully exactly when its keys are distinct |
| Collection.RenderedOrder | packages/app/src/lib/transcript-collection-factory.ts:122-145 | Any listing of the rows by increasing order is the represented list and nothing else |
| Collection.AppendAgrees | packages/app/src/lib/transcript-collection-factory.ts:137-145 | The size of the collection is the right next order |
| Collection.ReappendKeepsPlace | packages/app/src/lib/transcript-collection-factory.ts:122-145 | An item appended again, as a prompt already shown, replaces its row at the order it had |
| Aliasing.CompletedAppendHarmless | packages/daemon/src/runtime/run-query.ts:1066-1080 | A buffered append whose shared detail object was completed in place replays to the same transcript once its patch has run |
| Equivalence.PathsAgreeIff | packages/daemon/src/messages/fold.ts:20-25 | For every well-formed conversation the streamed and the stored transcript are the same, up to uuid, stop reason, empty text and unfinished tools, exactly when every prompt is one storage gives back |
| Equivalence.PathsAgree | packages/daemon/src/runtime/run-query.ts:936-1086 | The if-direction, over every script and every tool formatter |
| Equivalence.StoredShows | packages/daemon/src/messages/normalize.ts:65-209 | Storage always shows what streaming would have shown without the prompts it does not give back |
| Equivalence.SimScript | packages/daemon/src/messages/normalize.ts:65-209 | The relation between stream state and batch pass: same erased items, same open tools and details, one call per id |
| Equivalence.SimSay | packages/daemon/src/runtime/run-query.ts:968-1000 | A block streamed as any number of chunks becomes the one item storage holds |
| Equivalence.SimToolReturns | packages/daemon/src/runtime/run-query.ts:1067-1084 | A tool result settles the same call the same way on both paths, failed or not, known or orphan |
| Equivalence.SimUseTool | packages/daemon/src/runtime/run-query.ts:1005-1033 | A tool use appears once on each path with the same detail and summary |
| Equivalence.SimPrompt | packages/daemon/src/runtime/run-query.ts:447-484 | A typed prompt appears with its uuid, text and images on both paths |
| Equivalence.RepeatedResultIff | packages/daemon/src/messages/normalize.ts:123-136 | A second result for a tool reaches only the stored copy; the paths still agree exactly when it says nothing new |
| Equivalence.LiveUsers | packages/daemon/src/runtime/run-query.ts:447-484 | Streaming shows every prompt and no other user message |
| Equivalence.PromptStored | packages/daemon/src/messages/normalize.ts:101-156 | A stored prompt is read back unless it is empty or an interrupt marker without images |
| LiveStream.QueryLoop.HandleStreamEvent | packages/daemon/src/runtime/run-query.ts:936-1003 | The stream-event handler, with its message id, block and chunk guards |
| LiveStream.QueryLoop.HandleAssistantEnvelope | packages/daemon/src/runtime/run-query.ts:1005-1033 | The loop over an assistant envelope: each unseen tool use is recorded and appended |
| LiveStream.QueryLoop.HandleUserEnvelope | packages/daemon/src/runtime/run-query.ts:1035-1086 | The compact-summary lift, else the loop over tool results with orphans skipped |
| LiveStream.QueryLoop.HandleMessage | packages/daemon/src/runtime/run-query.ts:723-768 | The deltas of one SDK message, interrupted turns included |
| LiveStream.QueryLoop.PushUserPrompt | packages/daemon/src/runtime/run-query.ts:447-479 | A prompt clears the interrupt flag and emits its append, then the turn start |
| Normalize.NormalizeMessages | packages/daemon/src/messages/normalize.ts:65-209 | The one-pass loop over stored messages equals the step-by-step specification the equivalence is proved about |
| Normalize.UserEnvelopeItems | packages/daemon/src/messages/normalize.ts:101-143 | The inner loop: texts, supported images, and results written into earlier items |
| Sdk.ExtractText | packages/daemon/src/messages/tool-detail.ts:634-643 | Text of a tool result, string or blocks |
| Sdk.TextOfMeans | packages/daemon/src/messages/tool-detail.ts:634-643 | The text of a string is that string, of nothing is empty, of a text block is its text, of any other block is empty, and of two lists run together is their texts run together |
| ReadBack.AssistantsReadBack | packages/daemon/src/messages/normalize.ts:159-185 | The assistant messages of any stored conversation are, in order, the non-empty text blocks of its assistant envelopes, each with its envelope's uuid and stop reason |
| ReadBack.ConversationReadsBack | packages/daemon/src/messages/normalize.ts:65-209 | Any stored conversation reads back as its envelopes' items in order: user envelopes with their prose as paragraphs and their jpeg and png pictures, unless empty or just one of the two interrupt texts; assistant texts; tool uses. Only tool results change anything afterwards |
| ReadBack.CallsReadBack | packages/daemon/src/messages/normalize.ts:123-136 | Each call reads back as its last use with every later result attached, the last one giving status and error; a result without a use changes nothing |
| ReadBack.StoredResultShowsText | packages/daemon/src/messages/normalize.ts:127-136 | After a stored result that says t, as a string or as a text block, the call has t as its error exactly if the result is a failure, and t attached to its detail |
| ReadBack.ReadBackKeysUnique | packages/daemon/src/messages/normalize.ts:101-205 | A conversation whose envelopes have distinct uuids and one shown text each and whose tool uses have distinct ids reads back with distinct keys, so the client stores it item by item |
| ReadBack.ReadBackFaithfulIff | packages/app/src/lib/transcript-collection-factory.ts:222-231 | A read back conversation is stored item by item exactly when the items its envelopes show have distinct keys |
| LiveHistory.LoopFollowsHistory | packages/daemon/src/runtime/run-query.ts:723-1086 | For every list of inputs: turn events, user messages, streamed text, compactions and tool events are each, in order, exactly those that a scan of the inputs calls for, and so is what the loop remembers |
| LiveFacts.TurnsAreTold | packages/daemon/src/runtime/run-query.ts:878-929 | For every list of inputs: completed turns are as many as success results, failed turns are in order the reasons of the failed results with no interrupt since the last prompt or result, started turns are as many as prompts, canceled ones as interrupts |
| LiveFacts.PromptsStartTurns | packages/daemon/src/runtime/run-query.ts:447-479 | The events directly before the turn starts are the appends of the prompts, in order |
| LiveFacts.CallsStream | packages/daemon/src/runtime/run-query.ts:1005-1086 | Each call streams as running from its first use, with the detail and summary of that use, and is settled by the first result after it; later uses and results change nothing |
| LiveFacts.ResultShowsText | packages/daemon/src/runtime/run-query.ts:1076-1084 | After a result that says t, as a string or as a text block, a running call has t as its error exactly if the result is a failure, and t attached to its detail |
| LiveFacts.SummaryOnce | packages/daemon/src/runtime/run-query.ts:1041-1074 | After a compaction the next user envelope is shown once, as its summary, and results in the one after that are handled as always |
| LiveKeys.LiveKeysUniqueIff | packages/daemon/src/runtime/run-query.ts:968-1033 | For every list of inputs the streamed transcript has distinct keys exactly when user messages, blocks and calls are named apart; a call id names one item however often it is used |
| LiveKeys.BlockNamesApart | packages/daemon/src/runtime/run-query.ts:972 | Blocks that differ in message or index have different names, whatever the message ids |
| Utf8.RoundTrip | packages/protocol/src/wire-frame.ts:42-115 | Decoding inverts encoding on every sequence of 16-bit units, lone surrogates included |
| Utf8.EncodeUtf8 | packages/protocol/src/wire-frame.ts:42-71 | The encoding loop equals the code-point specification |
| Utf8.DecodeUtf8 | packages/protocol/src/wire-frame.ts:74-115 | The decoding loop with its 4096-unit flush equals a specification without any flush |
| Utf8.DecodeEncoded | packages/protocol/src/wire-frame.ts:79-101 | Each of the four byte forms is decoded to the code point it was made from |
| Utf8Standard.EncodeStandardIff | packages/protocol/src/wire-frame.ts:42-71 | The bytes are UTF-8 in the sense of section 3 of RFC 3629 exactly when the input is well-formed UTF-16, and then they are its scalar values in shortest form |
| Utf8Standard.EncodeCodeIffShortest | packages/protocol/src/wire-frame.ts:53-69 | A byte group is the shortest form of a code point exactly when it is what the encoder writes |
| Utf8Standard.DecodeStandard | packages/protocol/src/wire-frame.ts:74-115 | Any standard UTF-8 is decoded to the UTF-16 of sections 2.1 and 2.2 of RFC 2781 |
| Utf8Standard.Utf8Unique | packages/protocol/src/wire-frame.ts:42-71 | Scalar values have only one UTF-8 form |
| WireFrame.ReadLoop | packages/daemon/src/iroh-peer-server.ts:294-305 | The loop over header, length check and body equals the stream parser |
| WireFrame.ParseFrames | packages/protocol/src/wire-frame.ts:132-142 | Any list of non-empty payloads within the cap is recovered from the concatenation of its frames, whatever follows |
| WireFrame.CutStream | packages/app/src/lib/iroh-wire.ts:105-121 | A stream cut at any byte gives exactly the payloads whose frames arrived whole, and no refusal |
| WireFrame.ParseMonotone | packages/daemon/src/iroh-peer-server.ts:294-305 | On any stream at all, more bytes only add payloads and a refusal is final |
| WireFrame.FrameAcceptedIff | packages/protocol/src/wire-frame.ts:132-171 | The encoder takes a payload exactly when it is at most 64 MiB and writes four octets and the payload; the decoder takes its header back except for the empty payload |
| WireFrame.EmptyPayloadStops | packages/protocol/src/wire-frame.ts:163-165 | A frame of the empty payload stops the reader after everything before it |
| WireFrame.HeaderRoundTrip | packages/protocol/src/wire-frame.ts:139-162 | The big-endian length survives its four bytes |
| WireFrame.HeaderIsBigEndian | packages/protocol/src/wire-frame.ts:139-162 | A header spells its length in four octets, the most significant first, and any four octets are read as what they spell |
| WriteChain.ReaderSeesWholeFrames | packages/daemon/src/iroh-peer-server.ts:414-439 | However sends overlap and writes are cut, on a stream that takes nothing after a failed write a reader of any prefix has exactly the whole frames in send order |
| WriteChain.DrainedReaderSeesAll | packages/app/src/lib/iroh-wire.ts:141-151 | Once the chain has drained everything accepted has been received |
| WriteChain.RunKeepsOrder | packages/daemon/src/iroh-peer-server.ts:414-439 | Bytes written and bytes pending are together the frames of everything accepted, in every reachable state |
| WriteChain.TextsArriveInOrder | packages/protocol/src/wire-frame.ts:132-176 | The k-th text read is the k-th text sent |
| WriteChain.FrameWriter.SendFrame | packages/daemon/src/iroh-peer-server.ts:414-439 | Encode, chain behind pending writes, drop over the cap |
| BridgeProof.ReachableOneAtATime | packages/daemon/src/bridge/bridge-service.ts:662-849 | In every interleaving of timers, closes, stage outcomes, attaches and shutdown that never detaches or cleanly closes a session in mid-recovery, an attached session has at most one recovery, at most one armed timer, never both, and its runtime forwards to its current transport |
| BridgeProof.StepKeepsInvIff | packages/daemon/src/bridge/bridge-service.ts:862-901 | The invariant survives a step exactly when the step does not detach, or cleanly close, a session that is recovering |
| BridgeProof.ReachableInv | packages/daemon/src/bridge/bridge-service.ts:233-257 | The whole invariant holds after every such sequence of events |
| BridgeProof.StepKeepsInv | packages/daemon/src/bridge/bridge-service.ts:662-1021 | Each step keeps the invariant |
| BridgeProof.RetryKeepsInv | packages/daemon/src/bridge/bridge-service.ts:993-1021 | A failed recovery ends with at most the next retry armed |
| BridgeProof.SuccessKeepsInv | packages/daemon/src/bridge/bridge-service.ts:786-849 | A successful recovery re-wires record and runtime slot together and arms one refresh timer |
| BridgeProof.DetachedIsSilent | packages/daemon/src/bridge/bridge-service.ts:1089-1132 | Of a session that is not attached no timer, no recovery and no runtime slot is left in any reachable state before shutdown |
| BridgeProof.ForgetLeavesOthers | packages/daemon/src/bridge/bridge-service.ts:1116-1132 | Dropping one session touches neither record, slot nor timers of another |
| BridgeOrphan.DetachMidRecoveryDiverts | packages/daemon/src/bridge/bridge-service.ts:1089-1132 | Detaching and re-attaching while a recovery waits lets it overwrite the runtime slot with a transport no record knows, whose closes are then ignored |
| BridgeRetry.ClosesCoalesce | packages/daemon/src/bridge/bridge-service.ts:672-686 | While a session recovers, any number of further close notifications change nothing at all |
| BridgeRetry.BurstStartsOne | packages/daemon/src/bridge/bridge-service.ts:862-901 | A burst of closes of one live transport starts exactly one recovery |
| BridgeRetry.ReplacedClosesIgnored | packages/daemon/src/bridge/bridge-service.ts:876-885 | Once a transport has been replaced its later closes, clean or not, leave the state unchanged |
| BridgeSlot.SlotOpenIff | packages/daemon/src/bridge/bridge-service.ts:672-849 | Over any succeeding recovery, its stages interleaved with closes of any transports: the transport left in the runtime slot is open exactly when it did not close during the recovery; a close in that time is absorbed, and only the refresh timer is left armed |
| BridgeVerdict.ReachableGoneIsFinal | packages/daemon/src/bridge/bridge-service.ts:743-763 | In every reachable running state, once a recovery's credentials are gone the session has no record, no slot, no timer and no recovery, and every other session has all of its own |
| BridgeVerdict.Verdicts | packages/daemon/src/bridge/bridge-service.ts:706-849 | A stage outcome drops the session if and only if its credentials are gone; every transient failure keeps record and transport and goes one step up the ladder; only a re-attach changes the transport |
| BridgeVerdict.ConnectedIsKept | packages/daemon/src/bridge/bridge-service.ts:766-849 | With credentials in hand the session's transport stays in the slot through the success if and only if it is connected; otherwise the new one takes it |
| BridgeVerdict.AttachedIsFresh | packages/daemon/src/bridge/bridge-service.ts:471-516 | A finished attach has the full ladder, its transport in the slot and one armed timer; a failed one leaves nothing |
| BridgeVerdict.StoppedIsSilent | packages/daemon/src/bridge/bridge-service.ts:1140-1155 | After shutdown no timer is armed and no close, call or attach starts anything |
| BridgeVerdict.ForgetClearsOwnSlotIff | packages/daemon/src/bridge/bridge-service.ts:1116-1132 | Dropping a session clears the runtime slot exactly when it holds the session's own transport |
| BridgeRetry.FailingRunUsesBudget | packages/daemon/src/bridge/bridge-service.ts:993-1021 | Under lasting transient failure the timer-driven attempts made are exactly the budget used up, and all events still to come are bounded |
| BridgeRetry.AtMostThreeRetries | packages/daemon/src/bridge/bridge-service.ts:316 | From a recovery on a full ladder at most three timer-driven attempts follow; after the third failure no timer is armed |
| BridgeRetry.SuccessRestoresLadder | packages/daemon/src/bridge/bridge-service.ts:786 | Any success resets the ladder and leaves the full budget |
| BridgeService.BridgeService.StartReconnect | packages/daemon/src/bridge/bridge-service.ts:662-706 | Reconnect up to its first wait: stopped, unknown and coalesced calls change nothing |
| BridgeService.BridgeService.Continue | packages/daemon/src/bridge/bridge-service.ts:708-849 | Each stage outcome and what it does to record, timers, slot and session map |
| BridgeService.BridgeService.OnClose | packages/daemon/src/bridge/bridge-service.ts:862-910 | Stale closes ignored, clean ones forget, others reconnect |
| BridgeService.BridgeService.ScheduleBackoffRetry | packages/daemon/src/bridge/bridge-service.ts:993-1021 | Cancel, bound check, bump, arm |
| BridgeService.BridgeService.ArmProactiveRefresh | packages/daemon/src/bridge/bridge-service.ts:927-950 | Replace the refresh timer of an attached session |
| BridgeService.BridgeService.ForgetSession | packages/daemon/src/bridge/bridge-service.ts:1116-1132 | Drop the record, clear the slot only if it is still this transport |
| BridgeService.BridgeService.AttachReturned | packages/daemon/src/bridge/bridge-service.ts:471-516 | A finished attach registers the record, wires the runtime and arms the refresh |
| Metadata.NoUpdateLost | packages/daemon/src/runtime/session-runtime-manager.ts:477-507 | Over any interleaving of manager and bridge writes the file is the manager's register and the bridge's register side by side, and the cache has the manager's |
| Metadata.PublishedIsPersisted | packages/daemon/src/runtime/session-runtime-manager.ts:510-530 | With one create per session the published model is the persisted one in every reachable state, also when the runtime came first |
| Metadata.SecondCreateIff | packages/daemon/src/runtime/session-runtime-manager.ts:188-203 | A second create breaks that exactly when a live mirror holds another pick, and it drops the bridge subtree |
| Metadata.SeqNeverDecreases | packages/daemon/src/sidecode-sessions.ts:358-377 | Between worker-state writes the stored sequence number never decreases and a backfilled flag stays, whatever else is written |
| Metadata.ActivityNeverDecreases | packages/daemon/src/runtime/session-runtime-manager.ts:414-463 | The stored activity time never decreases, whatever the clock does |
| Metadata.NotifiedCacheIsFile | packages/daemon/src/runtime/session-runtime-manager.ts:336-349 | After the bridge notification the cache is the file |
| MetadataMirror.MirrorFollows | packages/daemon/src/runtime/session-runtime-manager.ts:123-158 | Over every run with one create: a runtime made when the session existed mirrors the last pick in every later state; its activity time is the stored one until the first activity call and that of the last such call afterwards; one made before the create starts with no model and its own clock |
| MetadataMirror.ViewingChangesNothing | packages/daemon/src/runtime/session-runtime-manager.ts:144-155 | Making a runtime for a session that exists, as viewing it does, changes neither the activity time nor the model that clients are shown |
| Metadata.SessionFile.PersistMetadata | packages/daemon/src/runtime/session-runtime-manager.ts:477-507 | Cached profile under the bridge subtree found on disk, to both cache and file |
| Metadata.SessionFile.ChangeModel | packages/daemon/src/runtime/session-runtime-manager.ts:236-252 | Mirror, cache and file take the pick; an equal pick or unknown session changes nothing |
| Metadata.SessionFile.ChangeTitle | packages/daemon/src/runtime/session-runtime-manager.ts:265-277 | A derived title never overwrites a renamed one |
| Metadata.SessionFile.MarkActivity | packages/daemon/src/runtime/session-runtime.ts:515-539 | Every call stamps the runtime; only a change of activity is persisted, and only forward |
| Metadata.SessionFile.GetOrCreate | packages/daemon/src/runtime/session-runtime-manager.ts:123-158 | A new runtime takes model and activity time from the cache if there is one |
| Metadata.SessionFile.NotifyBridgeChanged | packages/daemon/src/runtime/session-runtime-manager.ts:336-349 | The cached bridge subtree becomes the one on disk |
| Metadata.SessionFile.UpdateBridgeSequenceNum | packages/daemon/src/sidecode-sessions.ts:358-377 | A sequence number that does not advance is dropped |
| ConnectionProof.OneConnection | packages/app/src/lib/daemon-client-context.tsx:281-388 | In every reachable state facade and provider hold the same transport, every other established one is closed unless a pairing is about to attach or close it, and at most one, current, reconnect timer is pending |
| ConnectionProof.StepStaysHonestIff | packages/app/src/lib/daemon-client-context.tsx:407-455 | A shown-as-live state stays driven by an attempt, a timer or a live close handler through every step except, exactly, a pairing that fails while connected or retrying |
| ConnectionProof.FailedPairingDeafens | packages/app/src/lib/daemon-client-context.tsx:407-455 | A concrete run: connected at mount, then a pairing that fails; the connection is shown as up with nothing driving it, and stays so when its transport drops |
| ConnectionProof.ReachableHonest | packages/app/src/lib/daemon-client-context.tsx:252-388 | Without such a pairing the app never sits on a dead connection |
| ConnectionProof.ReachableInv | packages/app/src/lib/daemon-client-context.tsx:252-491 | The connection invariant holds after any sequence of resets, pairings, unpairs, drops, timers and outcomes |
| ConnectionProof.StepKeepsInv | packages/app/src/lib/daemon-client-context.tsx:252-491 | Each step keeps it |
| ConnectionProof.UnpairIsFinal | packages/app/src/lib/daemon-client-context.tsx:458-491 | After unpairing or leaving, no late close, timer or attempt, in any number and order, brings a connection back or changes what is shown |
| ConnectionProof.SwapKeepsInv | packages/app/src/lib/daemon-client-context.tsx:437-446 | A finished pairing closes the transport it replaces |
| Connection.SupersededTryIsInert | packages/app/src/lib/daemon-client-context.tsx:302-362 | A superseded attempt changes neither status nor transport nor timer, whatever it comes back with |
| Connection.SupersededCloseIsInert | packages/app/src/lib/daemon-client-context.tsx:252-267 | A close handler of an earlier epoch changes nothing |
| ConnectionRetry.ConnectEnds | packages/app/src/lib/daemon-client-context.tsx:300-375 | A current connect attempt ends ready exactly when dialled, offline with a retry one attempt further exactly when the dial failed, unpaired exactly without a record, in error exactly when loading threw or the daemon is incompatible, and only the last switches reconnecting off |
| ConnectionRetry.IncompatibleIsFinal | packages/app/src/lib/daemon-client-context.tsx:318-331 | After an incompatible daemon no timer, close or attempt, in any number and order, connects, retries or changes what is shown until the user acts |
| ConnectionRetry.RetriesCountUp | packages/app/src/lib/daemon-client-context.tsx:274-279 | After k failures in a row the attempt shown is k further on, for every k |
| ConnectionRetry.LossRetriesFromOne | packages/app/src/lib/daemon-client-context.tsx:252-267 | A lost connection shows attempt 0 and is retried as attempt 1 |
| ConnectionProvider.ConnectionProvider.Connect | packages/app/src/lib/daemon-client-context.tsx:281-299 | New epoch, timer cleared, old transport detached then closed, attempt launched |
| ConnectionProvider.ConnectionProvider.OnTimer | packages/app/src/lib/daemon-client-context.tsx:263-279 | Forget the timer; reconnect unless superseded or switched off |
| ConnectionProvider.ConnectionProvider.OnUnexpectedClose | packages/app/src/lib/daemon-client-context.tsx:252-267 | Offline and one fresh timer, unless superseded or switched off |
| ConnectionProvider.ConnectionProvider.OnDialed | packages/app/src/lib/daemon-client-context.tsx:315-375 | Attach, close unused, schedule a retry or stop, by outcome and epoch |
| ConnectionProvider.ConnectionProvider.OnRecord | packages/app/src/lib/daemon-client-context.tsx:423-450 | Swap in the paired transport or close it |
| Channel.FifoFacts | packages/daemon/src/runtime/async-message-input.ts:37-79 | Queue and waiters are never both non-empty; the k-th call gets the k-th accepted push; done comes only after the end and after everything pushed |
| Channel.ChannelIsFifo | packages/daemon/src/runtime/async-message-input.ts:37-79 | For every sequence of pushes, ends and calls the whole state is a closed form of what was accepted and asked |
| Channel.AsyncMessageInput.PushMessage | packages/daemon/src/runtime/async-message-input.ts:43-51 | Hand to the oldest waiter, else enqueue, else nothing once closed |
| Channel.AsyncMessageInput.EndStream | packages/daemon/src/runtime/async-message-input.ts:52-59 | The loop releases every waiter once |
| Channel.AsyncMessageInput.NextMessage | packages/daemon/src/runtime/async-message-input.ts:63-74 | Take, finish or wait |
| AddPatch.ApplyRebuilds | packages/daemon/src/git-watch.ts:484-498 | Applying the synthesized patch to an empty file rebuilds the content exactly, final newline or none; its hunk count is parsed and its added lines consumed |
| AddPatch.HunkCountIsShare | packages/daemon/src/git-watch.ts:456-462 | The hunk count is the file's share of the added-lines number |
| AddPatch.FileCountIff | packages/daemon/src/git-watch.ts:395-399 | The headers counted in the diff are the files visited exactly when no content holds a header after a bare CR, U+2028 or U+2029 |
| AddPatch.DiffHeaders | packages/daemon/src/git-watch.ts:395-399 | The headers counted are the files visited plus the forged ones |
| AddPatch.CountUntrackedAdditions | packages/daemon/src/git-watch.ts:456-463 | The counting loop sums every file's share |
| AddPatch.BuildUntrackedDiff | packages/daemon/src/git-watch.ts:467-478 | The diff loop concatenates every file's patch |
| DiffReader.DiffReads | packages/daemon/src/git-watch.ts:456-498 | Read file by file, the diff gives back the visited names and contents in order, and the added lines of its hunks are together the count shown beside it |
| Base64Url.RoundTrip | packages/app/src/lib/base64.ts:9-26 | Decoding inverts unpadded encoding on every byte array (RFC 4648 sections 3.2, 4 and 5) |
| Base64Url.PaddedLength | packages/app/src/lib/base64.ts:18 | The re-added padding always completes the last group |
| Base64Url.EncodeIs | packages/app/src/lib/base64.ts:9-15 | Stripping the padding leaves exactly the letters of the sextets |
| Base64Url.EncodeAlphabet | packages/app/src/lib/base64.ts:9-15 | One letter for each sextet and no padding: upper case, lower case, digits, minus for 62 and underscore for 63 (RFC 4648 section 5) |
| Base64Url.SextetsAre | packages/app/src/lib/base64.ts:9-15 | Each group of three octets and its four sextets are the same number; one or two octets left over are followed by zero bits |
| Base64Url.DecodeAcceptsIff | packages/app/src/lib/base64.ts:17-26 | A text without white space and padding is decoded exactly when its length can be that of whole octets and every character is in one of the two alphabets |
| Base64Url.BytesToBase64Url | packages/app/src/lib/base64.ts:9-15 | The encoding loop |
| Base64Url.Base64UrlToBytes | packages/app/src/lib/base64.ts:17-26 | The decoding loop, a malformed text refused |
| Base64Url.PairOfferSurvives | packages/protocol/src/index.ts:164-205 | Every pair offer survives its wire form |

## Left out

- LiveStream.QueryLoop.HandleMessage: the activity edges, the usage figures and the forwarding to the bridge, which add
  no delta.
- LiveStream.QueryLoop.PushUserPrompt: the push into the agent's channel (see `Channel`), the bridge mirror and the
  activity edge.
- WriteChain.ReaderSeesWholeFrames: takes from the transport that a stream takes no bytes after a failed write, as a
  reset QUIC stream does; the chain of promises itself would go on writing.
- BridgeProof.ReachableOneAtATime: leaves out runs that detach or cleanly close a session in mid-recovery, in which it is
  false; `BridgeProof.StepKeepsInvIff` is the exact condition, `BridgeOrphan.DetachMidRecoveryDiverts` such a run.
- Reading a stored transcript is one atomic step, which may return anything: an event between the read and the cursor
  snapshot (packages/daemon/src/router.ts:459-486) is not modelled.
- Optimistic rows and their rollback: collections hold only what the daemon sent.
- Handling of a subscribe response is one step that ends before the next frame; promise scheduling is otherwise the
  order of steps. The gap between a recovery's last action and the release of its in-flight slot is closed the same way.
- Item keys are unique (a requirement on each appended event and each stored base); one envelope with several text
  blocks reuses its uuid and is excluded by it, and by the one-envelope-per-block scripts of `Equivalence`.
- One client subscription and one session are followed; other subscribers appear by their effect on the runtime.
- Usage figures, turn errors and the other per-session status writes beside the transcript.
- Compaction is in `LiveStream` but not in the scripts of `Equivalence`, since storage drops its boundary.
- Text of one block is streamed without a prompt in between; a prompt typed in mid-block is stored in another place.
- The scripts of `Equivalence` stream every block to its end: an interrupt in mid-block, whose streamed text is never
  stored, is outside them.
- Follow.ReadsAlikeIff: asks that no event addresses a message of the stored list under that list's own name for it, as
  envelope uuids and message-and-block names never meet; `ResumeTheorems.ResumedReadsAlikeIff` takes the same, and
  distinct keys, from `Named`.
- That an agent never gives two messages of one query loop the same id is taken by `QuietRead` as `FreshIds`.
- Tool formatters (input parsing, summaries, output attachment) are arbitrary functions given to both paths; a detail is
  a value, and its sharing is treated in `Aliasing` only.
- The native text codec is taken to be the standard one; the decoder's replacement of invalid bytes is not modelled.
- The hello gate, command dispatch and disconnect callbacks of the peer server, and the release of subscriptions
  registered after a peer has closed.
- `BridgeService.shutdown` is a state change (`Bridge.Shutdown`) and not a method; cloud deletes, backfill and the OAuth
  timer are not modelled, a session id has one runtime, and attaches of one session do not overlap.
- Metadata is followed for one session with a home directory; fields no operation changes are one opaque text.
- The `paired` record, the splash flag and the delay lengths of the connection provider; what `unpair` does after its wait.
- Repository watching, the tracked part of the diff and the caps on untracked files; file names hold no line
  terminators, since git quotes them, and `DiffReader.DiffReads` asks for that.
- JSON text is a given function with the properties `Base64Url.Faithful` lists.
- Base64Url.DecodeAcceptsIff: white space and padding inside a text, which the decoder skips, are modelled but not part of
  that statement.
- HTTP, QUIC, files, keychain, clocks and timers' delays are nondeterministic outcomes or parameters.
