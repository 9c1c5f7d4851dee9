# OLL-E: the replicated event core and the turn engine, in Dafny

OLL-E hosts stamp events with a hybrid logical clock, publish them on a local bus and mirror them to team peers in
HMAC-signed envelopes. Gaps are filled by a paged catchup exchange. Memory events are folded into a last-writer-wins
table with tombstones, and hosts arbitrate without a leader who runs a team's work. Around the model calls sit a turn
engine, per-thread input queues, stable truncation of tool results, an extension registry, a spend ledger and a line
framer. This project models those parts and proves what they promise.

Code that the system writes as stateful objects and callbacks is a class here, with the same fields; every method is
proved equal to a step function on values, and the promises are proved about all runs of those steps. Runs are
sequences of operations: messages may be lost, repeated, delayed and reordered, sockets and timers may fire whenever
the environment allows it, and models, tools, gates and mailboxes may answer anything. Pure code is functions and
lemmas.

- `Order`, `Radix`, `Basics`: string order, numerals of fixed and of shortest width, shared datatypes.
- `Hlc`, `Ulid`: stamps and identifiers. `Json`, `JsonLaws`, `Envelope`: canonical JSON and signed envelopes.
- `Events`, `Scope`, `EventTable`, `Bus`, `Mesh`: events, team filters, the event table, one bus, many wired buses.
- `Projector`, `Federation`: the memory table of one host, and of every host of a mesh.
- `Claims`, `ClaimRuns`, `ClaimTold`: one arbiter, many hosts arbitrating, and what a host that registers again is told.
- `Catchup`, `Recovery`: paged gap recovery, and its completeness over what the hosts of a mesh stored. `PeerLink`, `LinkRuns`, `LinkStatus`,
  `Listener`: both ends of a peer connection.
- `Truncate`, `Agent`, `AgentRuns`, `AgentResults`: tool results, the turn engine, and what its answers say. `Chat`,
  `ChatRuns`, `ChatOrder`: the input queues.
- `Registry`, `RegistryRuns`, `RegistryStory`, `Ledger`, `LedgerStory`, `Codec`: extension registries, budgets, line
  framing. A story tells the state from the calls of a run alone.

## What the proofs found

- The projector's UPDATE leaves out `hostId` as well as `createdAt` (`src/memory/projector.ts:122-135`), so both
  columns depend on the order of delivery: `Projector.ConvergesFullyIff`, `Projector.HostColumnDependsOnOrder`.
- Encoded stamps decode exactly below 48 bits of milliseconds and 16 bits of counter, and sort correctly exactly up to
  there, the first value past either bound sorting too early: `Hlc.CountersSortIff`, `Hlc.MillisSortIff`.
- The catchup query does not serve accepted memory events whose `scopeRef` is there but is empty or no string:
  `Scope.ServedIffAccepted`. With a chunk size of zero the exchange never ends: `Catchup.EndsIff`.
- A registration is told its outcome exactly if its host does not register for the same arbitration again while the
  window is open; the later one takes over the window (`src/scheduler/claims.ts:265-267`): `ClaimTold.ToldOnceIff`,
  `ClaimRuns.SecondRegistrationDropsFirst`.
- An input published from inside the synchronous start of a turn finds `thread.worker` unset and starts a second drain
  loop beside the first (`src/agent/chat.ts:308-309`), and nothing else does: `ChatRuns.QuietExactlyIfOneDrain`,
  `ChatRuns.ReentrantInputStartsSecondTurn`. With two turns at once, the one that succeeds last puts the copy of the
  list it started from in place of the other's (`src/agent/chat.ts:886`), and inputs vanish from the history although
  nothing failed: `ChatRuns.LostExactly`, `ChatRuns.OverwrittenThoughNothingFailed`.
- Queued inputs are left without a drain loop in two cases, and only until the next input: one arrives between the end
  of the loop and the cleanup, or `runTurn` rejects while some are queued: `ChatRuns.WaitingExactly`,
  `ChatRuns.InputMayWaitForAnother`, `ChatRuns.RejectedTurnLeavesInputs`.
- Envelopes that a peer link's status handlers send when a socket opens overtake those that wait in its queue, which is
  flushed afterwards (`src/mesh/peer.ts:219-226`): `LinkRuns.GreetingOvertakes`. Otherwise order is kept:
  `LinkRuns.SentInOrder`.
- A load that fails leaves a trace in the registries if another extension asked for one of its tool names meanwhile: the
  request was dropped first-wins (`src/extensions/runtime.ts:268-287`) and is not made again. Exactly when is
  `RegistryRuns.LoadLeavesNoTraceIff` and `RegistryRuns.FailedLoadLeavesNoTrace`; `RegistryRuns.RefusedNameStaysFree` is
  such a run.
- A reused tool-use id gets the first result's replacement and its own content is never saved
  (`src/agent/tool-truncate.ts:61-62`): `Truncate.RenderedIdentically`. A replacement is smaller exactly if the frame
  around the preview is smaller than what the preview leaves out, so short results grow: `Truncate.ShrinksIff`,
  `Truncate.ShortContentGrows`.
- The documentation in `src/mesh/catchup.ts:22-23` calls the watermark monotonic; that is true of the in-flight
  watermark, which is what the model states.

## Model

| member | source | states |
|---|---|---|
| Hlc.NowIsLeast | src/id/hlc.ts:24-33 | a local tick issues the least stamp that exceeds the last one and is not behind the wall clock, and no other |
| Hlc.RecvIsLeast | src/id/hlc.ts:34-43 | receiving moves the clock to the least stamp above the last one, the received one and the wall clock |
| Hlc.Clock.constructor | src/id/hlc.ts:18-20 | a clock starts at zero |
| Hlc.Clock.Now | src/id/hlc.ts:24-33 | the in-place tick returns and keeps exactly that least stamp |
| Hlc.Clock.Recv | src/id/hlc.ts:34-43 | the in-place merge returns and keeps exactly that least stamp |
| Hlc.DecodeInvertsEncode | src/id/hlc.ts:47-57 | decoding inverts encoding if and only if the stamp fits 48 and 16 bits; otherwise decoding refuses the text |
| Hlc.EncodeInvertsDecode | src/id/hlc.ts:53-57 | whatever decodes is the encoding of a stamp within the bounds |
| Hlc.EncodePreservesOrder | src/id/hlc.ts:47-61 | within the bounds string order is clock order, and encoding is injective |
| Hlc.OrderFailsBeyondCounter | src/id/hlc.ts:47-51 | in every millisecond the first counter past 16 bits sorts before an earlier stamp |
| Hlc.OrderFailsBeyondMillis | src/id/hlc.ts:47-51 | under every counter the first millisecond past 48 bits sorts before an earlier stamp |
| Hlc.CountersSortIff | src/id/hlc.ts:47-61 | the counters below a bound all sort in order within a millisecond if and only if the bound is no more than 2^16 |
| Hlc.MillisSortIff | src/id/hlc.ts:47-61 | the milliseconds below a bound all sort in order if and only if the bound is no more than 2^48 |
| Ulid.EncodeTime | src/id/ulid.ts:13-24 | the loop writes the ten lowest base-32 digits of a non-negative time and refuses a negative one |
| Ulid.EncodeRandom | src/id/ulid.ts:26-30 | the loop writes one letter per digit, in order |
| Ulid.IncrementRandom | src/id/ulid.ts:32-43 | the in-place carry adds one to the digit buffer, or reports that it overflowed |
| Radix.IncrementAddsOne | src/id/ulid.ts:32-43 | the carry adds exactly one to the number the digits denote, and so gives the next larger text |
| Radix.IncrementOverflows | src/id/ulid.ts:32-43 | the carry fails exactly when every digit is the largest |
| Ulid.Generator.constructor | src/id/ulid.ts:10-11 | the module state starts with no time and zero digits |
| Ulid.Generator.Ulid | src/id/ulid.ts:53-64 | one call reuses and increments the digits within a millisecond, draws new ones otherwise, and updates the module state also where the time is then refused |
| Ulid.ReadTimestamp | src/id/ulid.ts:66-77 | the loop reads the number denoted by the first ten letters and refuses other lengths and letters |
| Ulid.TimestampRoundTrip | src/id/ulid.ts:13-77 | the time of an identifier reads back if and only if it is below 32^10 |
| Ulid.SuccessiveAscend | src/id/ulid.ts:53-64 | two identifiers in a row ascend if and only if the time did not go back |
| Ulid.IssuedAscending | src/id/ulid.ts:53-64 | over any run of non-decreasing times every identifier is above all earlier ones until the overflow error |
| Ulid.IssueStopsAtOverflow | src/id/ulid.ts:32-43 | for a non-negative time the only error is the exhausted digits of one millisecond |
| Ulid.IssuedExactly | src/id/ulid.ts:53-64 | over any run every identifier spells its time and then the digits drawn for it, or one more than the identifier before if that was of the same millisecond |
| JsonLaws.ParseInvertsText | src/mesh/envelope.ts:67-95 | parsing the JSON text of a plain value gives back the value |
| JsonLaws.NormalIsCanonical | src/mesh/envelope.ts:83-93 | dropping undefined properties and sorting keys gives a canonical value |
| JsonLaws.SameIffNormal | src/mesh/envelope.ts:60-65 | two values agree up to key order and undefined properties if and only if their canonical forms are equal |
| JsonLaws.TextInjective | src/mesh/envelope.ts:60-65 | canonical texts are equal if and only if the values agree up to key order and undefined properties |
| JsonLaws.ParsedIsSound | src/mesh/envelope.ts:121-128 | whatever is parsed has each key once and can be canonicalized, so a received envelope always has a canonical text |
| Envelope.Stringify | src/mesh/envelope.ts:67-95 | the recursive serializer with its sorted loop produces the canonical text exactly of representable values and the right error otherwise |
| Envelope.CanonicalTextDetermines | src/mesh/envelope.ts:60-95 | key order and undefined properties are all that `canonicalize` forgets |
| Envelope.VerifyAcceptsExactly | src/mesh/envelope.ts:105-115 | an envelope is accepted if and only if its tag is, up to letter case, the MAC of everything else in it |
| Envelope.DecodeInvertsEncode | src/mesh/envelope.ts:117-159 | an encoded object is decoded to its canonical form exactly when it has an envelope's shape, else refused for the first flaw the checks look at |
| Envelope.SignedRoundTrip | src/mesh/envelope.ts:97-159 | every envelope that can be signed can be encoded, decodes, and verifies under the same secret |
| Envelope.VerifyIgnoresKeyOrder | src/mesh/envelope.ts:7-8 | reordering keys at any depth in transit does not change the verdict |
| Envelope.DecodesExactly | src/mesh/envelope.ts:117-159 | a text is taken for an envelope if and only if it parses to an object with an envelope's fields |
| Envelope.ReceivedVerifiesIff | src/mesh/envelope.ts:105-115 | of what can be received exactly the envelopes whose tag is the MAC of the canonical text of the rest verify |
| Scope.AcceptsIffRouted | src/mesh/scope.ts:28-74 | acceptance for a team is the same as being routed to it |
| Scope.AcceptsExactly | src/mesh/scope.ts:28-74 | an event is accepted for a team if and only if its payload names the team, in scopeRef or else teamId for a memory event of team scope and in teamId for any other |
| Scope.ServedIffAccepted | src/mesh/catchup.ts:137-158 | the SQL predicate serves exactly the accepted events, except memory events with an unusable scopeRef |
| Scope.BroadcastAccepted | src/mesh/bridge.ts:532-536 | whatever is broadcast to a team is accepted by the receiver, and only that |
| Scope.StoredAccepted | src/bus/persist.ts:26-41 | storing a payload as JSON and reading it back does not change acceptance |
| Scope.StoredIsSame | src/bus/persist.ts:26-41 | a payload that JSON can represent comes back from storage the same up to key order and undefined properties |
| EventTable.PutIsInsertOrIgnore | src/bus/persist.ts:22-41 | inserting adds the row if its id is new and never changes or removes one |
| EventTable.PutRows | src/bus/persist.ts:22-41 | the table stays in primary-key order and gains exactly the new row |
| Bus.EventBus.constructor | src/bus/bus.ts:56-66 | a bus starts with an empty memo and a fresh clock |
| Bus.EventBus.MarkDispatched | src/bus/bus.ts:94-102 | marking appends a new id and evicts the oldest beyond the cap |
| Bus.EventBus.PublishEvent | src/bus/bus.ts:125-146 | publishing stamps from the clock, stores durable events, marks and dispatches locally; a closed bus refuses |
| Bus.EventBus.InjectEvent | src/bus/bus.ts:148-166 | injecting stores first, is a no-op for a memoized id, else advances the clock if the stamp decodes, marks and dispatches remotely |
| Bus.MemoIsLastMarked | src/bus/bus.ts:94-102 | over any run the memo is exactly the last at most 10,000 dispatched ids |
| Bus.RedispatchNeedsEviction | src/bus/bus.ts:80-102 | handlers see one id twice only with more than 10,000 dispatches in between |
| Mesh.RunsKeepInv | src/mesh/wire.ts:32-41 | in every mesh run dispatches trace back to issued events, clocks are past every decoded stamp seen, and ids are unique |
| Mesh.IssuedWasPublished | src/bus/bus.ts:125-146 | every event of a mesh run was published by an operation of it, with exactly the kind, payload, host, actor and durability passed, the id drawn and a stamp and time of one tick |
| Mesh.PublishedIsIssued | src/bus/bus.ts:125-146 | and every publication of the run issued such an event |
| Mesh.DispatchWasPublished | src/bus/bus.ts:125-166 | whatever handlers on any host see was published in the run with these fields, the payload up to key order and undefined properties if it came from another host |
| Mesh.DeliveredIsDispatched | src/bus/bus.ts:148-166 | every event delivered to a host has been seen by its handlers |
| Mesh.BroadcastOnceByOrigin | src/mesh/wire.ts:32-37 | over a whole mesh run an event is handed to `broadcast` at most once and only by the host it names |
| Mesh.IssuedIsAnnounced | src/mesh/wire.ts:32-37 | every issued event was dispatched locally by the host it names, so every durable one is handed over |
| Mesh.EchoIsRemote | src/mesh/wire.ts:34 | an event that comes back is never mirrored again |
| Mesh.PrecedesIsLater | src/bus/bus.ts:125-166 | an event published after the host published or injected another carries a strictly larger encoded stamp |
| Mesh.ChainAscends | src/bus/bus.ts:148-166 | along any causal chain through any hosts encoded stamps strictly increase |
| Mesh.OwnStampIsUnique | src/bus/bus.ts:125-139 | one host never issues two events with one stamp within the encoding's bounds |
| Projector.Tables.constructor | src/memory/projector.ts:54-55 | both tables start empty |
| Projector.Tables.OnWrote | src/memory/projector.ts:57-141 | the write handler skips malformed and dominated writes, inserts, or updates all columns but the two it leaves out |
| Projector.Tables.OnForgotten | src/memory/projector.ts:179-216 | the forget handler keeps the later tombstone and deletes a strictly earlier row |
| Projector.ReplayReflects | src/memory/projector.ts:57-216 | after any deliveries the row is a latest write not below the tombstone, the tombstone a latest forget, and without a row every write is dominated |
| Projector.RowHoldsPayload | src/memory/projector.ts:57-141 | after any deliveries a row is filed under the id that a latest write's payload names and holds that payload's fields, defaults included, with the event's stamp and time and an insertion's host and creation time |
| Projector.TombHoldsEvent | src/memory/projector.ts:179-216 | a tombstone holds a latest forgetting's stamp, host, actor and time |
| Projector.NoRowMeansForgotten | src/memory/projector.ts:77-87 | a delivered write without a row, and no other, is no later than a tombstone |
| Projector.ConvergesIff | src/memory/projector.ts:57-216 | delivery order and repetition are invisible if and only if no two latest events about the memory tie and disagree |
| Projector.DistinctStampsConverge | src/memory/projector.ts:9-17 | with distinct stamps every schedule ends with the latest write if and only if it exceeds every forget |
| Projector.ConvergesFullyIff | src/memory/projector.ts:98-139 | the whole row is independent of the schedule if and only if moreover nothing survives or all writes share origin and time |
| Projector.HostColumnDependsOnOrder | src/memory/projector.ts:122-135 | two hosts' writes with different stamps leave a host column that depends on the order |
| Federation.CopyReadsSame | src/memory/projector.ts:57-76 | a copy with reordered keys is read the same |
| Federation.OneIdOneRead | src/bus/bus.ts:148-166 | whatever two hosts dispatched under one id is one event to their projectors |
| Federation.RowWasPublished | src/memory/projector.ts:57-141 | every row on every host comes from a publication of the mesh run, whose payload it holds field by field |
| Federation.CausallyLaterWins | src/memory/projector.ts:77-120 | on every host that has a causally later write or forget, the earlier event is superseded and stays so when redelivered |
| Federation.HostsAgree | src/memory/projector.ts:4-6 | hosts that dispatched the same memory events show the same memory unless two hosts' clocks drew one stamp |
| Claims.LowerIsStrict | src/scheduler/claims.ts:71-82 | the tuple order is asymmetric and total on different claim ids |
| Claims.LowerTransitive | src/scheduler/claims.ts:71-82 | the tuple order is transitive |
| Claims.LowerIsEarlier | src/scheduler/claims.ts:71-82 | a claim is lower if and only if its stamp is earlier, or the stamps are one and its host id is lower, or both are and its claim id is |
| Claims.Arbiter.constructor | src/scheduler/claims.ts:84-95 | an arbiter starts with nothing pending and nothing won |
| Claims.Arbiter.PersistIntent | src/scheduler/claims.ts:113-153 | an intent row is inserted unless its claim id is there |
| Claims.Arbiter.HandleClaimEvent | src/scheduler/claims.ts:270-345 | a received claim is stored, and flags the host's own won row if it is strictly lower, once |
| Claims.Arbiter.RegisterIntent | src/scheduler/claims.ts:210-268 | registering stores the own claim through the handler and arms its window; without a team the slot is released |
| Claims.Arbiter.DecideWindow | src/scheduler/claims.ts:155-208 | a closing window compares all stored tuples, sets the statuses and tells the scheduler |
| ClaimRuns.LowestIsLowest | src/scheduler/claims.ts:164 | the fold finds a row below or equal to every other |
| ClaimRuns.RunsKeepInv | src/scheduler/claims.ts:155-345 | every interleaving of first registrations, deliveries and window firings keeps tables, pending windows, statuses, calls and flags consistent: one flag per own split-brain row, naming that claim and a strictly lower one of the table |
| ClaimRuns.FirstClaimWins | src/scheduler/claims.ts:155-345 | the owner of the lowest tuple never loses, is never flagged nor announced as a split brain, and has won once its window closed |
| ClaimRuns.SplitBrainAnnouncedOnce | src/scheduler/claims.ts:289-344 | a host's row is split-brain if and only if that was announced, at most once per claim and with a lower claim that has arrived |
| ClaimRuns.SettledHasOneWinner | src/scheduler/claims.ts:155-345 | once all windows fired and all claims arrived everywhere, exactly the first claim's own row is won and every other own row is lost or split-brain |
| ClaimRuns.WonIffEarliest | src/scheduler/claims.ts:155-208 | once settled a claim has won if and only if every other claim on the event and task has a later stamp, or the same stamp and no lower host id |
| ClaimRuns.FirstExists | src/scheduler/claims.ts:164 | among the claims on an arbitration there is exactly one first |
| ClaimRuns.ToldWhenClosed | src/scheduler/claims.ts:155-208 | without repeated registrations each one whose window has closed got exactly one of onWin and onLose, by the table as it was then, and none before |
| ClaimRuns.ToldByStamp | src/scheduler/claims.ts:155-208 | a closed window told a win if and only if its table then held no claim that is earlier by stamp, then host id, then claim id |
| ClaimRuns.DoubleWinNeedsLateClaim | src/scheduler/claims.ts:289-322 | two hosts both win only if the lower claim was missing from the other's table when that window closed |
| ClaimRuns.SecondRegistrationDropsFirst | src/scheduler/claims.ts:265-267 | two registrations in a row on one key make one call at most, and none for the first |
| ClaimTold.ToldOnceIff | src/scheduler/claims.ts:265-267 | in every run a registration whose timer has fired was told exactly once if and only if its host did not register for the same arbitration while its window was open, and never otherwise |
| ClaimTold.NotToldBefore | src/scheduler/claims.ts:155-208 | in every run a registration whose timer has not fired was told nothing |
| Catchup.Client.constructor | src/mesh/catchup.ts:128-130 | nothing is in flight at first |
| Catchup.Client.Request | src/mesh/catchup.ts:195-216 | a request rejects a prior one for the same team and peer and asks from its watermark |
| Catchup.Client.Reaction | src/mesh/catchup.ts:234-256 | an event of another team is reported with the reason, one whose injection throws as failed, any other is injected |
| Catchup.Client.Feed | src/mesh/catchup.ts:228-256 | the loop injects accepted events, reports the others, and returns the highest id of all |
| Catchup.Client.HandleChunk | src/mesh/catchup.ts:218-269 | a chunk without a request is ignored; otherwise its events are fed, the watermark moves, and the request continues or resolves |
| Catchup.Client.Cancel | src/mesh/catchup.ts:302-308 | cancelling rejects and forgets exactly the request in flight |
| Catchup.HighestIsHighest | src/mesh/catchup.ts:227-233 | whatever a peer sends, the in-flight watermark becomes the highest id seen, rejected events included, and never moves back |
| Catchup.AsksFromHighest | src/mesh/catchup.ts:195-308 | over any calls a request is in flight if and only if one was made and neither cancelled nor finished since, and what was last asked for it starts at the highest of its start and all ids heard |
| Catchup.ChunkBringsAbout | src/mesh/catchup.ts:218-269 | a chunk for a waiting request brings about one injection or report per event, in order, then a moved watermark, then the next request or the end; one that nobody waits for does nothing |
| Catchup.InjectsExactly | src/mesh/catchup.ts:228-256 | over any calls exactly the accepted events that waited-for chunks brought are injected, in order, less those whose injection fails |
| Catchup.SettledOnce | src/mesh/catchup.ts:195-308 | every request is resolved or rejected exactly once, or is the one in flight |
| Catchup.EligibleRest | src/mesh/catchup.ts:152-157 | asking from the last id of a page selects exactly the rest |
| Catchup.HasMoreRaises | src/mesh/catchup.ts:258-269 | a reply that promises more strictly raises the in-flight watermark |
| Catchup.ExchangeCompletes | src/mesh/catchup.ts:195-300 | for a fixed log the exchange ends having injected exactly the eligible events above the initial watermark, ascending, once each, without a violation |
| Catchup.EligibleIsAcceptedLog | src/mesh/catchup.ts:137-158 | the eligible events are the accepted ones above the watermark, in ascending id order, less the unusable ones |
| Catchup.ZeroPagesNeverEnd | src/mesh/catchup.ts:282-284 | pages of size zero repeat one request for ever |
| Catchup.EndsIff | src/mesh/catchup.ts:258-300 | the exchange ends if and only if pages hold at least one event |
| Recovery.TableOfRun | src/bus/persist.ts:22-41 | over any bus run the table is in id order, holds only records of events that were put, and a row for every id that was |
| Recovery.DispatchedWasPut | src/bus/bus.ts:143-154 | whatever handlers saw that is durable or remote was stored first |
| Recovery.HostIsItsBus | src/mesh/wire.ts:32-41 | the state of a mesh host is that of a single bus after the host's own operations |
| Recovery.MeshIdentifies | src/bus/bus.ts:148-166 | in every mesh run whatever two events one bus put under one id are one event, up to the key order of the payload |
| Recovery.RecoveryIsComplete | src/mesh/catchup.ts:137-300 | catchup against any host of any mesh run injects, with id, stamp, host, actor, kind, time and payload, every event for the team that the host had dispatched above the watermark, except memory events the query cannot match |
| PeerLink.Link.constructor | src/mesh/peer.ts:71-80 | a link starts without a socket and with an empty queue |
| PeerLink.Link.TryRawSend | src/mesh/peer.ts:121-131 | sending succeeds exactly on an open socket with an encodable envelope |
| PeerLink.Link.FlushQueue | src/mesh/peer.ts:133-139 | the queue is sent in order up to the first envelope that cannot be |
| PeerLink.Link.SendEnvelope | src/mesh/peer.ts:295-306 | an envelope is sent, or queued with the oldest dropped beyond the cap, or refused by a dead link |
| PeerLink.Link.ScheduleAgain | src/mesh/peer.ts:110-119 | one reconnect is scheduled, and none for a dead link |
| PeerLink.Link.Dial | src/mesh/peer.ts:194-206 | dialing makes a socket or schedules another try |
| PeerLink.Link.OnOpen | src/mesh/peer.ts:208-228 | on open hello goes out, then the status changes, then the queue is flushed |
| PeerLink.Link.OnMessage | src/mesh/peer.ts:230-279 | a forged envelope kills the link, an unreadable or foreign one is ignored |
| PeerLink.Link.OnClose | src/mesh/peer.ts:281-287 | a closed socket is forgotten and a reconnect scheduled unless the link is dead |
| PeerLink.Link.OnStale | src/mesh/peer.ts:182-191 | a stale link closes its socket |
| PeerLink.Link.CloseLink | src/mesh/peer.ts:308-325 | closing is final and cancels the reconnect |
| LinkRuns.RunsKeepInv | src/mesh/peer.ts:194-306 | in every run there is one socket at a time, and queue, histories and wires are consistent |
| LinkRuns.HelloIsFirst | src/mesh/peer.ts:219-224 | on every socket hello is the first envelope and the only hello |
| LinkRuns.NothingIsLost | src/mesh/peer.ts:133-139 | every accepted envelope is in exactly one of sent, queued and dropped, and the queue never exceeds its cap |
| LinkRuns.OpenMeansDrained | src/mesh/peer.ts:133-139 | while the socket is open the queue is empty unless it holds an envelope that cannot be encoded |
| LinkRuns.SentInOrder | src/mesh/peer.ts:133-139 | as long as the status change sends nothing while others wait and all can be encoded, envelopes are sent in the order accepted, and what waits is what was accepted last |
| LinkRuns.GreetingOvertakes | src/mesh/peer.ts:219-226 | a run in which an envelope sent from inside the status change overtakes an older one |
| LinkRuns.DeadIsFinal | src/mesh/peer.ts:243-325 | a closed or rejected link dials no more, takes nothing on and sends nothing, whatever follows |
| LinkStatus.StatusIsTruthful | src/mesh/peer.ts:110-325 | a started link that is not dead always has a socket or a reconnect under way and its status says which and how far, and a dead one rests with all sockets closed or closing and no timer |
| LinkStatus.BackoffCountsRetries | src/mesh/peer.ts:110-119 | the back-off index is the number of reconnects scheduled since a socket last opened |
| LinkStatus.AcceptsWhatIsOffered | src/mesh/peer.ts:295-306 | a link that is not dead takes on everything it is given, in order, and a dead one nothing |
| Listener.InboundSocket.constructor | src/mesh/listener.ts:75-84 | an inbound socket awaits hello |
| Listener.InboundSocket.OnMessage | src/mesh/listener.ts:92-209 | messages are refused, taken as hello or delivered according to the socket's state |
| Listener.InboundSocket.OnHello | src/mesh/listener.ts:111-176 | a first envelope makes the socket live only as a verified and welcomed hello of a known team |
| Listener.InboundSocket.OnEnvelope | src/mesh/listener.ts:178-209 | a live socket drops other teams' envelopes, refuses forged ones and delivers the rest |
| Listener.OwnEnvelopesAreSigned | src/mesh/peer.ts:141-172 | the hello and the heartbeats that a link makes verify under its secret |
| Listener.SignedIsNotForged | src/mesh/peer.ts:243-271 | an envelope signed with the team's secret never makes a link reject the connection |
| Listener.OnlyMembersAreHeard | src/mesh/listener.ts:92-209 | whatever anybody sends, a socket is live only after a welcomed hello with the team's MAC as its first message, under the host it names, and has then delivered exactly the later envelopes for the team with that MAC, in order |
| Listener.RefusedExactly | src/mesh/listener.ts:92-209 | a socket is closed by exactly the first message that is no envelope, no welcomed hello with its team's MAC at the start, or later one for its team without that MAC, and delivers nothing more |
| Listener.JudgedExactly | src/mesh/peer.ts:243-271 | a link takes a message for forged if and only if it is an envelope for its team without the team's MAC, and for genuine if and only if with it |
| Listener.RejectedIffForged | src/mesh/peer.ts:259-271 | a link is rejected if and only if it received a forged message while it was alive |
| Listener.MembersUnderstandEachOther | src/mesh/peer.ts:194-325 | a link and a listener sharing the secret never reach rejected in any run, and the listener delivers every item after hello once and in order |
| Truncate.OrderIsSorted | src/agent/tool-truncate.ts:87-89 | the visiting order lists every block once, largest first and earlier first among equals |
| Truncate.Truncation.constructor | src/agent/tool-truncate.ts:36-38 | nothing has been replaced at first |
| Truncate.Truncation.SpillBlock | src/agent/tool-truncate.ts:104-124 | spilling saves the full content and remembers the rendering |
| Truncate.Truncation.MaybeTruncateOne | src/agent/tool-truncate.ts:53-71 | a replaced id renders as before, a fitting result is kept, any other is spilled |
| Truncate.Truncation.Replace | src/agent/tool-truncate.ts:91-99 | one block is replaced in place and the total changes by the byte difference |
| Truncate.Truncation.EnforceMessageBudget | src/agent/tool-truncate.ts:79-102 | the loop's running total is the true byte sum, and it stops at the first prefix of the order that fits |
| Truncate.ReplacedForever | src/agent/tool-truncate.ts:7-13 | over any calls a replaced id was saved exactly once and keeps one rendering, whatever the rendering function |
| Truncate.RenderedIdentically | src/agent/tool-truncate.ts:61-62 | however much later a replaced id comes back, with any content, it renders identically and nothing is saved |
| Truncate.RoundIsFaithful | src/agent/tool-truncate.ts:53-124 | with new ids every result is the original or its rendering with the original saved, and the message fits or every result was replaced |
| Truncate.OneExactly | src/agent/tool-truncate.ts:53-71 | a new result is replaced if and only if it is over its cap, then by its rendering with the whole of it saved; a known one renders as before |
| Truncate.PreviewExactly | src/agent/tool-truncate.ts:126-157 | the preview is the content if short, else what fits of it, cut back to the last line break if that leaves more than half |
| Truncate.LargestFirst | src/agent/tool-truncate.ts:73-78 | a block the budget changed was at least as large as any it left without a replacement |
| Truncate.NoneTooMany | src/agent/tool-truncate.ts:91-101 | one replacement fewer would have left the message too large |
| Truncate.WithinCapOrAllReplaced | src/agent/tool-truncate.ts:79-102 | the budget pass ends within the cap or with every block replaced, for any blocks |
| Truncate.ShrinksIff | src/agent/tool-truncate.ts:126-157 | a replacement is shorter than the content if and only if the text around the preview is shorter than what the preview leaves out |
| Truncate.ShortContentGrows | src/agent/tool-truncate.ts:126-157 | a content that fits the preview becomes longer by being replaced |
| Agent.Engine.constructor | src/agent/runtime.ts:175-176 | a turn starts from a copy of the list and zero usage |
| Agent.Engine.ExecuteOne | src/agent/runtime.ts:275-328 | a tool use yields exactly one result, from the first gate that stops it or from its execution |
| Agent.Engine.ExecuteAll | src/agent/runtime.ts:267-329 | the loop collects one result per tool use, in order |
| Agent.Engine.EnforceBudget | src/agent/runtime.ts:330-335 | the budget pass rewrites only the contents of successful results |
| Agent.Engine.OneRound | src/agent/runtime.ts:178-356 | one pass of the loop drains the mailbox, asks, records and answers |
| Agent.Engine.RunAgent | src/agent/runtime.ts:131-359 | the loop runs rounds until one stops or the turns are used up |
| AgentRuns.TranscriptsAreWellFormed | src/agent/runtime.ts:175-358 | every list handed to the model and the final one answer each tool use in the very next message, once and in order, and extend the initial list |
| AgentRuns.TranscriptIsComplete | src/agent/runtime.ts:175-358 | usage is the sum over the calls in each of its parts, each call was made while the run was not aborted and its answer follows its request, and users' words are the initial ones and every drained message once and in order |
| AgentRuns.RunIsExplained | src/agent/runtime.ts:178-358 | there are at most maxTurns calls, and each stop reason means what it says |
| AgentResults.UsesInOrder | src/agent/runtime.ts:267-274 | the tool uses of an answer are all taken, in order |
| AgentResults.EveryCallIsAnswered | src/agent/runtime.ts:267-343 | over whole runs every tool use is answered in the next message at its place: by an error with the words for an unknown tool, a denial, bad input or a throw, or without error by the tool's text or what stands in for it; never a stand-in without limits, always one if the text is over its cap |
| AgentResults.StandInIsOwn | src/agent/runtime.ts:312-335 | under an id that no other call of the run used, the answer is the tool's text or the rendering of exactly that text, which was saved |
| AgentResults.ModestRunReplacesNothing | src/agent/runtime.ts:312-335 | if no text is over its cap, sensitive ones aside, and no message over its own, every answer is the tool's text and nothing is saved |
| Chat.Thread.constructor | src/agent/chat.ts:256-262 | a thread starts with empty queues and no worker |
| Chat.Thread.OnInput | src/agent/chat.ts:290-309 | an input extends the running turn if asked to, else is queued with its origin and starts a worker if none is stored |
| Chat.Thread.OnAssign | src/agent/chat.ts:309 | the worker promise is stored after the drain has started |
| Chat.Thread.OnLoop | src/agent/chat.ts:430-447 | the drain loop takes the oldest input with its origin and opens a turn, or ends |
| Chat.Thread.OnEngineStart | src/agent/runtime.ts:175 | the turn engine starts on a copy of the thread's list |
| Chat.Thread.DrainMailbox | src/agent/chat.ts:742-770 | the in-flight inputs are handed over and taken out |
| Chat.Thread.FinishTurn | src/agent/chat.ts:886-964 | a succeeding turn puts its own list in place, and any closing turn releases the thread and promotes stranded inputs with its own origin |
| Chat.Thread.OnSettled | src/agent/chat.ts:324-325 | the cleanup clears the worker |
| ChatRuns.EveryInputOnce | src/agent/chat.ts:282-335 | in every run each accepted input is in exactly one place once, those no longer in the history counted as lost, and the pending queues stay of one length |
| ChatRuns.OneTurnAtATime | src/agent/chat.ts:308-335 | at most one turn is active, and it is the one the thread shows, as long as starting a turn publishes no input that starts another |
| ChatRuns.QuietExactlyIfOneDrain | src/agent/chat.ts:308-335 | at most one drain loop is alive at every moment if and only if no start of a turn publishes an input that starts another |
| ChatRuns.ReentrantInputStartsSecondTurn | src/agent/chat.ts:308-309 | a run with two turns at once |
| ChatRuns.StrandedArePromoted | src/agent/chat.ts:950-953 | stranded inputs are promoted in order, behind those waiting, with the closing turn's origin |
| ChatRuns.WaitingExactly | src/agent/chat.ts:308-335 | while drain loops do not overlap queued inputs have none if and only if one came after the loop's end and before its cleanup, or a rejected turn left some, and no loop was started since |
| ChatRuns.OnlyInputEndsWait | src/agent/chat.ts:308-334 | nothing but another input starts a drain loop for inputs left waiting |
| ChatRuns.LostOnlyWithFailedTurn | src/agent/chat.ts:742-964 | while drain loops do not overlap an input is lost if and only if it was folded into a turn that failed |
| ChatRuns.LostExactly | src/agent/chat.ts:742-964 | in every run an input is lost if and only if a failing turn had folded it in or a succeeding one put a list without it in place, and no later one put a list with it back |
| ChatRuns.OverwrittenThoughNothingFailed | src/agent/chat.ts:886 | a run in which an input is lost though every turn succeeds |
| ChatRuns.InputMayWaitForAnother | src/agent/chat.ts:309-334 | the first of the two cases: an input between loop exit and cleanup is left waiting |
| ChatRuns.RejectedTurnLeavesInputs | src/agent/chat.ts:309-334 | the second: an input queued during a turn that rejects is left waiting |
| ChatOrder.FirstQueuedFirstServed | src/agent/chat.ts:290-447 | in every run what is queued opens turns in that order, with the origin it was queued with, or still waits in that order |
| ChatOrder.TurnKeepsOrigin | src/agent/chat.ts:430-447 | turns are numbered as they open and keep the origin of the input that opened them |
| ChatOrder.MailInOrder | src/agent/chat.ts:742-770 | the mailbox hands over what extends a running turn in order, all of it once, to a turn or back to the queue |
| ChatOrder.AcceptedAreArrivals | src/agent/chat.ts:290-309 | every input is accepted, in order of arrival |
| ChatOrder.HistoryOnlyGrows | src/agent/chat.ts:886-964 | while drain loops do not overlap the history is the opening inputs and what succeeding turns folded in, in that order |
| Registry.Host.constructor | src/extensions/runtime.ts:152-164 | all registries start empty |
| Registry.Host.AddTool | src/extensions/runtime.ts:262-316 | a live api takes a free name for a valid tool in both indexes, drops a taken one and throws otherwise |
| Registry.Host.AddTrigger | src/extensions/runtime.ts:317-322 | a live api lists a trigger |
| Registry.Host.AddTask | src/extensions/runtime.ts:323-368 | a live api lists a task, under an id of its own extension, that the scheduler does not have |
| Registry.Host.StartLoad | src/extensions/runtime.ts:608-612 | a load mints a new revocation record |
| Registry.Host.RevokeApi | src/extensions/runtime.ts:552-559 | a purge revokes the current record first |
| Registry.Host.UnregisterTasks | src/extensions/runtime.ts:571-577 | the loop unregisters exactly the extension's tasks |
| Registry.Host.EvictTools | src/extensions/runtime.ts:578-584 | the loop evicts exactly the names that are still the extension's |
| Registry.Host.DropRegistrations | src/extensions/runtime.ts:571-587 | a purge drops tasks, names and lists of the extension |
| RegistryRuns.RunsKeepInv | src/extensions/runtime.ts:154-164 | in every run the two tool indexes are a bijection with unique names, the scheduler has exactly the listed tasks, and each extension has at most one live api |
| RegistryRuns.StaleApiIsInert | src/extensions/runtime.ts:221-230 | an api captured before a purge never changes anything again, even after a reload under the same id |
| RegistryRuns.DropLeavesOthers | src/extensions/runtime.ts:571-587 | dropping an extension removes exactly what is its own |
| RegistryRuns.LoadLeavesNoTraceIff | src/extensions/runtime.ts:262-316 | during a load, its failure and its purge the others' registrations are at every moment as without the load if and only if no other live api asks for a tool name that the load holds |
| RegistryRuns.FailedLoadLeavesNoTrace | src/extensions/runtime.ts:548-630 | after a failed load and its purge all registries are as the others' interleaved steps alone leave them if and only if none of the tool names the load held would then be anybody's |
| RegistryRuns.UnaskedLoadLeavesNoTrace | src/extensions/runtime.ts:619-630 | if nobody asked so, a failed load leaves tools, triggers and tasks as the others alone would |
| RegistryRuns.RefusedNameStaysFree | src/extensions/runtime.ts:268-287 | a run in which a failed load did leave a trace: a name asked for meanwhile stays nobody's |
| RegistryRuns.PurgeRemovesOwnOnly | src/extensions/runtime.ts:548-588 | whatever others do before, during and after the wait of a purge, it removes exactly the extension's own registrations |
| RegistryStory.ListsAreTold | src/extensions/runtime.ts:262-368 | in every run the lists of an extension are what its live api asked for since its load began, in order: valid tools under names nobody had, triggers, and tasks once each; and nothing after its purge |
| RegistryStory.IndexesAreTold | src/extensions/runtime.ts:262-368 | a tool can be looked up if and only if its extension lists it, and the scheduler has a task if and only if its extension lists that |
| Ledger.Book.constructor | src/ledger/ledger.ts:51-52 | a ledger starts empty |
| Ledger.Book.RecordSpend | src/ledger/ledger.ts:54-99 | a spend is always recorded and charged to its budget if it names an owner |
| Ledger.Book.ApplyToBudget | src/ledger/ledger.ts:104-172 | charging adds price and tokens, publishes the thresholds crossed and reports whether the cap is exceeded |
| Ledger.Book.SetCap | src/ledger/budget.ts:38-102 | setting a cap keeps accumulated spend and omitted caps, or creates an empty row |
| Ledger.SpendAccumulates | src/ledger/ledger.ts:132-145 | stored spend is the start plus all prices and tokens charged, whatever happens to the caps |
| Ledger.OncePerCrossing | src/ledger/ledger.ts:147-168 | under an unchanged positive cap each threshold is published at most once, and exactly if spend reached it |
| Ledger.OverIsAnnounced | src/ledger/ledger.ts:147-171 | a spend reported as over budget has had its exceeded event |
| LedgerStory.RowsAreTold | src/ledger/ledger.ts:104-145 | in every run a row exists from the first time its caps are set and holds the money and all four kinds of tokens charged since, and for each cap the last argument that was not left out |
| LedgerStory.OverIsPastCap | src/ledger/ledger.ts:170-171 | a spend is reported as over budget if and only if it leaves its row past the money cap |
| LedgerStory.EntriesAreSpends | src/ledger/ledger.ts:54-99 | every spend is entered, in order |
| LedgerStory.SpendAnnounces | src/ledger/ledger.ts:147-168 | a spend announces exactly the thresholds of a positive cap that it takes its row past, lower first, with cap and new total |
| LedgerStory.OthersAnnounceNothing | src/ledger/ledger.ts:104-118 | a cap change and a spend without an owner announce nothing |
| Codec.LineDecoder.constructor | src/ipc/codec.ts:20-21 | the buffer starts empty |
| Codec.LineDecoder.PushLines | src/ipc/codec.ts:24-35 | the loop returns the non-blank lines completed by the chunk and keeps the rest |
| Codec.LineDecoder.Push | src/ipc/codec.ts:38-48 | lines that do not parse are skipped |
| Codec.TextOneLine | src/ipc/codec.ts:6-9 | JSON text contains no line break |
| Codec.ChunkingDoesNotMatter | src/ipc/codec.ts:11-35 | any split into chunks yields the lines and the remainder of one whole push |
| Codec.FramingRoundTrip | src/ipc/codec.ts:6-48 | any chunking of encoded messages decodes to exactly those messages and leaves nothing |
| Codec.DecodesExactly | src/ipc/codec.ts:11-48 | however a stream of any lines is cut, exactly the lines that are not blank and parse are decoded, in order, and the unfinished one is kept |

## Left out

- Sockets, SQLite, the file system, git and process control: tables are maps and sequences, `INSERT OR IGNORE` is insert-if-absent, sockets are step events; failing inserts are not modelled.
- The MAC is a parameter that returns a lower-case hex digest; nothing is claimed about collisions. Random digits and new identifiers are parameters; that no two hosts draw one identifier is part of what a run is.
- Numbers in JSON are integers and the JSON parser reads no white space, fractions or exponents; strings are sequences of Unicode scalar values, so unpaired surrogates and integer-like keys that JavaScript reorders are outside the model. String order is by code point where the source compares UTF-16 units; identifiers and stamps are ASCII.
- Events carry no `parentEventId`, `toAgentId`, `threadId` or `parentThreadId`; the `hosts` placeholder rows are not modelled.
- A bus handler that publishes from inside a dispatch is a later operation of the run; subscription bookkeeping, `stream`, a bus restart (which resets clock and memo) and the optional type filter of the wire are not modelled.
- Mesh.OwnStampIsUnique: says nothing about stamps of two different hosts, which may tie.
- Federation.HostsAgree: excludes stamps drawn alike by two hosts and stamps beyond the encoding's bounds; `Projector.ConvergesIff` says exactly what a tie does.
- Mesh.Copy: what another host receives has the payload up to key order and undefined properties. A catchup copy of a payload that JSON cannot represent (a NaN or an undefined array item is stored as null) is no such copy, so the mesh and federation results do not cover it.
- The projector's `memory.read` rows and the display-name cache are left out; a payload field of an unexpected type counts as absent, and tags that are not all strings as empty.
- Claims: the payload of a `task.claim` event is well formed, `stop` is not part of a run, and a claims table without an ORDER BY is read in insertion order. Who wins and who is flagged is stated for runs in which no host registers for one arbitration again; what such a host is told is stated for all runs.
- Catchup.ExchangeCompletes: is about the in-flight watermark, a server log that does not change meanwhile and injections that do not throw; the bridge-level watermark and live traffic between pages are left out. `Catchup.Client.HandleChunk` does model throwing injections.
- The bridge's peer bookkeeping (`addPeer`, `removePeer`, `dropTeam`) and the broadcast of welcome and peer-left envelopes are left out; the envelopes the bridge sends are arbitrary inputs of a link.
- PeerLink: back-off delays, the length of the staleness window and status callbacks other than what they send are not modelled. A socket's messages arrive while it is open.
- Listener.MembersUnderstandEachOther: the bridge welcomes every hello (no invite is refused) and the secret is not empty, which the listener takes for an unknown team.
- Truncate: characters stand for UTF-16 units in the preview's length; `persist` does not throw. The budget pass writes rewritten contents back to the pending results instead of sharing objects with them.
- Agent: prompts, tool visibility, step events, retries and streaming are left out, and what a tool, gate or mailbox answers does not depend on anything but the round and the position. A message with string content is one text block.
- AgentRuns.TranscriptsAreWellFormed: the initial list is well formed and the mailbox delivers user messages without tool results, as the chat loop's does.
- Chat: the history holds users' inputs only; the CLI-brain turn (which copies no list), snapshots, mail wake and the retention of job threads are left out.
- Registry: loads and unloads of one extension take turns, and task ids of different extensions differ, as an extension's name has no colon; manifest gates, event subscriptions, secrets, `callTool`, the smoke gate and crash counting are left out.
- Ledger: prices are inputs, amounts are exact reals, and a budget key has one row. The token cap takes no part in `record`, as in the source.
- The permission lattice, inbox, cron, observability, IPC dispatch, MCP transport and the command line would add only easy members.
