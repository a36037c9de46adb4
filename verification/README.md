# messageloop: a verified model of the message node's core

messageloop is a realtime publish/subscribe node. Clients hold sessions, sessions
subscribe to channels and patterns, publications go through a broker with
replayable history, and several nodes form a cluster around a shared directory.
This project models the parts of that system whose correctness does not show in
any single function, and proves what they promise over all inputs, all runs and
all interleavings.

`dafny verify dfyconfig.toml` checks everything. Each module names the source
files it models; `Options.dfy`, `Decimals.dfy` and `RunLemmas.dfy` are shared
helpers.

| module | what it is about |
|---|---|
| Topics, Patterns, Authorization, ChannelPolicies | channel syntax, pattern intersection, and access decisions over whole pattern languages |
| BusGlobs, Interest | how the bus reads a pattern, and what it can route of what a key matches |
| SessionDirectories, LeaseFencing, LeaseOperations, Membership | fencing of session leases by any number of nodes, who may resume a session, departures of nodes |
| Subscriptions, InterleavedSagas, CloseRace | subscribe and unsubscribe sagas with rollback, many at a time, and their race with Close |
| BroadcastBatching | the accumulators between a channel's delivery worker and their flushers |
| MemoryHistory, HistoryReclaim, Recovery | the history ring, its creation and reclaim, and replay to recovering clients |
| SendQueue, Takeover | the outbound queue with its writer, and local resume of a session |
| CommandDedupe | cluster commands that run at most once |
| ApiKeyCache, ApiKeyAnswers | the cache, single flight and breaker in front of the key verifier, and what each request gets |
| FrameSplice, StreamOffsets, NodeEpochs | splicing payloads into a frame, and two encodings |

## How it is modelled

An object the source updates in place is a class whose methods are its lock
regions; each method's contract ties the new state to a function of the old one.
Where goroutines or nodes interleave, those same functions are the steps of a
state machine `Next(s, e)`, a run is any sequence of events, and the theorems
quantify over all runs. A step that is not enabled changes nothing, so every
sequence of events is a run. Where a field is called history in a comment, the
source has no such variable; it records what happened so that a theorem can
speak of it.

Where a promise turned out not to hold, the model keeps what the code does, a
lemma gives the failing input or run, and another states exactly when the promise
does hold:

- Routing a key over the bus loses the matching channels that are delimited
  differently from the key (`ForeignGrammarIsLost`), and also channels delimited
  alike when the bus reads "[" or "\" in the key as a class or an escape
  (`BracketedKeyIsLost`); `RoutingIff` says exactly when.
- A directory without the atomic write can store a snapshot over a session
  another node has claimed (`TwoStepRefreshCanOverwrite`), and a plain delete can
  drop another owner's lease (`PlainDeleteCanUnfence`); neither happens in any run
  exactly with the atomic write (`SnapshotsAreOwnedIff`) and with the
  owner-checked delete (`DropsAreOwnIff`).
- A delivery that bypasses batching overtakes what the channel still holds
  (`DroppingBelowThresholdReorders`), and a reap strands what was buffered after
  its check (`ReapRaceReachable`). A run is in order iff neither happened in it
  (`OrderKeptIff`) and loses nothing iff the second did not
  (`ReapStrandsIffBuffered`).
- A saga whose last step fails leaves the session's snapshot showing the
  abandoned change: the snapshot is written again before the local steps are
  undone (`FailedAddIsStaleIff`, `FailedRemoveIsStaleIff`).
- A removal that is rolled back after Close tracks its channel again and outlives
  the session (`ClosedLeavesForced`, `UndoneRemovalOutlivesClose`).
- A dying read loop decides and closes in two steps, so it can close a session
  that a newer connection has taken over in between
  (`StaleCheckClosesNewerService`); it closes what it still serves iff nothing
  displaced the session in between (`ServedAtCloseIff`).
- The comment on takeoverBy says that an attach failure after the detach is a
  real close. The code returns without closing when the taking connection was
  itself closed meanwhile, and the session stays detached in the hub
  (`DetachedIffAbandoned`, `AbandonedIffConnectionClosed`, `TakeoverCanAbandon`).
- The comment on the memory broker's Unsubscribe calls the reclaim safe for a
  publisher that has already looked the history up. That publisher's entry is
  lost and its offset is assigned again (`OvertakenPublisherRepeatsAnOffset`);
  offsets stay unique iff every write finds the object of the first
  (`UniqueIffSameObject`).
- A verifier call from before an outage that comes back accepted closes the
  breaker before its cooldown is over (`EarlierCallReopensTheWay`); a call starts
  in a cooldown iff that happened with no new streak since (`CallInCooldownIff`).
- A `max_age` beyond 292 years overflows and cuts the grant's lifetime short
  (`LongAgeIsCutShort`, `TTLIsSmallerLimitIff`).
- A caller that stops waiting for a Data frame can see its next Control frame go
  out first (`GivingUpCanReorder`), exactly when the Data frame is still in its
  lane as the Control frame is accepted (`CallersSeeTheirOrder`).
- A persisted command result does not always stand until its entry runs out: a run
  whose claim had run out persists its own over it (`OvertakenRunOverwrites`);
  `StoredResultIsAnswered` says what everybody is told while one stands.
- Stream IDs out of range share their offset with one in range
  (`OutOfRangeCollides`, `SameOffsetIff`).
- A recovery announced as pending does not stream when it counts on an empty
  channel name only (`AnnouncementComesTrueIff`), and the last 64-bit cursor
  starts over (`LastCursorStartsOver`).

## Model

| member | source | states |
|---|---|---|
| `Topics.SplitSegments` | pkg/topics/matcher.go:23-33 | the scan returns the segments of the name: the parts that, woven with its delimiters, give the name back |
| `Topics.WeaveOfSplit` | pkg/topics/matcher.go:23-33 | splitting loses nothing: segments and delimiters together determine the string |
| `Topics.SplitOfWeave` | pkg/topics/matcher.go:23-33 | splitting inverts weaving, so a string has one decomposition |
| `Topics.ValidateTopic` | pkg/topics/matcher.go:119-132 | accepts exactly names with non-empty segments and "**" only as the whole last segment |
| `Topics.MatchCriteria` | pkg/topics/matcher.go:157-191 | the reslicing comparison decides segment-wise matching, "*" for one segment and a final "**" for any rest, and no match for a topic with an empty segment |
| `Patterns.CompileAcceptsKeys` | internal/authz/authorizer.go:243-269 | a pattern compiles iff its segments are literal, but for a final "*" or "**" after at least one |
| `Patterns.CompileMeaning` | internal/authz/authorizer.go:243-269 | the compiled form accepts exactly the channels the raw key matches |
| `Patterns.IntersectComplete` | internal/authz/authorizer.go:466-527 | patterns that share a channel are reported as intersecting |
| `Patterns.IntersectExact` | internal/authz/authorizer.go:466-527 | two keys are reported as intersecting iff some concrete channel string matches both |
| `Authorization.CompileAllowList` | internal/authz/authorizer.go:227-238 | the list as it is, and whether it has a "*" entry |
| `Authorization.CompileRule` | internal/authz/authorizer.go:207-223 | a rule compiles iff its pattern does, into its own deny flag, its own three lists with their "*" flags, and its own policy |
| `Authorization.CompileTable` | internal/authz/authorizer.go:188-223 | a table compiles iff every pattern does, entry by entry |
| `Authorization.Authorizer.ReplaceRules` | internal/authz/authorizer.go:419-429 | the whole configuration is put in force, or nothing changes; the decisions below are stated on the configuration in force |
| `Authorization.Authorizer.Effects` | internal/authz/authorizer.go:404-416 | the effective policy is the configured default overlaid by the configured policies of the matching rules in order, with history and recovery off when transient-only |
| `Authorization.Authorizer.DecideSubscribe` | internal/authz/authorizer.go:279-295 | a key is granted iff it compiles and no channel it matches is matched by a configured rule that denies all or whose subscribe list shuts the user out |
| `Authorization.Authorizer.DecideSubscribeSkipAllowLists` | internal/authz/authorizer.go:435-449 | with lists skipped a key is granted iff it compiles and no channel it matches is denied to all |
| `Authorization.Authorizer.DecidePublish` | internal/authz/authorizer.go:296-308 | a publish is granted iff no matching configured rule denies all or shuts the user out by its publish list; the reason is that of the first that does |
| `Authorization.Authorizer.DecideSurvey` | internal/authz/authorizer.go:309-347 | a survey is granted iff the policy turns it on, some matching survey list names the user, none shuts the user out and no rule denies all, whatever the rule order; each reason iff its cause |
| `Authorization.Authorizer.DecideRead` | internal/authz/authorizer.go:348-373 | recover and presence need an ordinary channel, no deny-all and the policy on |
| `Authorization.Authorizer.PatternsToRevoke` | internal/authz/authorizer.go:454-462 | returns, in order, the subscribed keys the current table no longer grants |
| `Authorization.RevocationIsComplete` | internal/authz/authorizer.go:454-462 | a key is revoked iff it does not compile or some channel it matches is denied to the user |
| `Authorization.AddingARuleNeverGrants` | internal/authz/authorizer.go:279-308 | inserting a rule anywhere never turns a deny into an allow |
| `Authorization.SkippingListsOnlyOpensLists` | internal/authz/authorizer.go:435-449 | skipping lists grants more only where a list, not a deny-all, withheld the channel |
| `Authorization.LiteralChannelDecisionsAgree` | internal/authz/authorizer.go:282-308 | on literal channels the language decision for subscribe and the point decision for publish agree for equal lists |
| `Authorization.LaterRulesOverride` | internal/channel/channel_policy.go:119-160 | for any policy field the last matching rule that sets it decides |
| `Authorization.EffectsAreLastSays` | internal/channel/channel_policy.go:119-160 | field by field the last matching rule that sets it decides, else the configured default, else history, presence and recovery are on and surveys off; transient-only takes history and recovery away |
| `Interest.SameLanguage` | internal/channel/interest.go:54-82 | interest compilation, the authorizer's compilation and configuration validation accept the same strings |
| `BusGlobs.GlobOfPrefix` | pkg/redisbroker/pubsub.go:199-224 | read as the bus reads it, a prefix with a final "*" matches exactly the strings whose beginning fits the prefix token by token, classes and escapes included; a prefix with an open class or escape matches nothing longer than itself |
| `BusGlobs.RangeFits` | pkg/redisbroker/pubsub.go:199-224 | a class of one range takes exactly the characters between its ends, and with "^" exactly the others |
| `Interest.RoutingIff` | internal/channel/interest.go:54-110 | of the channels a key matches, one delimited as the compiled key is routed iff the key's stem fits its own text as a glob or the channel stops short of it; for a key without "[" and "\" a channel is routed iff it is delimited so |
| `Interest.OneGrammarRoutedIff` | internal/channel/interest.go:54-110 | if both have no ":" or both have one as first delimiter, everything matched is routed for a key without "[" and "\", and for any key iff its stem fits its own text or the channel stops short of it |
| `Interest.ForeignGrammarIsLost` | internal/channel/interest.go:91-101 | a dotted wildcard key matches a namespaced channel that the bus never routes to it, whatever its literals |
| `Interest.BracketedKeyIsLost` | pkg/redisbroker/pubsub.go:199-224 | keys with a class or an escape in their prefix match channels of their own grammar that the bus never routes to them |
| `NodeEpochs.ParseAcceptsPrintedEpochs` | internal/cluster/epoch.go:24-44 | parsing accepts exactly the printed forms of non-zero 64-bit epochs, and returns them |
| `NodeEpochs.MemoryNodeEpochAllocator.NextNodeEpoch` | internal/cluster/epoch.go:76-84 | the epoch returned is the count of allocations for that node so far, on 64 bits; no node name, no epoch |
| `NodeEpochs.NewerIsLater` | internal/cluster/epoch.go:49-59 | of two epochs of one node the later allocated is newer, and never the other way round |
| `NodeEpochs.NewerIff` | internal/cluster/epoch.go:49-59 | one incarnation is newer than another iff both are printed epochs and its epoch is the larger |
| `StreamOffsets.OffsetRoundTrip` | pkg/redisbroker/history.go:137-166 | every 64-bit offset survives the trip through its stream ID |
| `StreamOffsets.MalformedIsZero` | pkg/redisbroker/history.go:152-166 | what is not two 64-bit numbers around a "-" is offset 0 |
| `StreamOffsets.EncodingKeepsStreamOrder` | pkg/redisbroker/history.go:152-166 | for timestamps below 2^44 and sequences below 2^20 the encoding is injective and keeps stream order |
| `StreamOffsets.SameOffsetIff` | pkg/redisbroker/history.go:152-166 | any two IDs share an offset iff folding the high bits of the sequence into the time gives the same ID in range |
| `StreamOffsets.OutOfRangeCollides` | pkg/redisbroker/history.go:152-166 | every ID shares its offset with an ID in range, which is another one iff its sequence is 2^20 or more or its time 2^44 or more |
| `SessionDirectories.Directory.GetSessionLease` | pkg/redisbroker/cluster_directory.go:248-258 | the stored lease, and none for the empty session id |
| `SessionDirectories.Directory.CompareAndSwapSessionLease` | pkg/redisbroker/cluster_directory.go:108-151 | stores the lease iff the stored fence is the expected one, and otherwise changes nothing |
| `SessionDirectories.Directory.CompareAndSwapSessionState` | pkg/redisbroker/cluster_directory.go:173-239 | lease and snapshot are stored together or not at all |
| `SessionDirectories.Directory.DeleteSessionLeaseIfOwner` | pkg/redisbroker/cluster_directory.go:294-330 | deletes the lease iff it names the given incarnation |
| `SessionDirectories.Directory.DeleteSessionSnapshot` | pkg/redisbroker/cluster_directory.go:351-356 | drops the snapshot only |
| `LeaseFencing.RunKeepsInv` | internal/runtime/cluster_state.go:191-255 | in every interleaving of refreshes, resumes, closes and repairs each operation carries only leases once written, and claims bump the version they read |
| `LeaseFencing.FencingStep` | internal/runtime/cluster_state.go:191-255 | no step that does not drop or roll back the lease lowers its version; a new owner has a strictly larger one, and a refresh never changes the owner |
| `LeaseFencing.FencingRun` | internal/runtime/cluster_resume.go:32-164 | over any run in which no drop or rollback takes effect the version never falls and one version has one owner |
| `LeaseFencing.FencedRefreshWritesNothing` | internal/runtime/cluster_state.go:191-274 | a refresh whose lease another owner claimed meanwhile cannot write its lease back |
| `LeaseFencing.SnapshotWriterOwnsLease` | pkg/redisbroker/cluster_directory.go:173-239 | with the atomic directory every snapshot write leaves the lease naming its writer |
| `LeaseFencing.TwoStepRefreshCanOverwrite` | internal/runtime/cluster_state.go:191-255 | with two writes, a run from the empty store in which a claim between them is followed by a snapshot of the fenced node |
| `LeaseFencing.SnapshotsAreOwnedIff` | internal/runtime/cluster_state.go:191-255 | every snapshot write of every run leaves the lease naming its writer iff the directory writes both at once |
| `LeaseFencing.DeletesAreOwnerExact` | internal/runtime/cluster_state.go:276-317 | a lease disappears only by expiry, by a close of its own node or by repair of its own incarnation, however stale the scan |
| `LeaseFencing.PlainDeleteCanUnfence` | internal/runtime/cluster_state.go:276-317 | without the owner check, a run from the empty store in which a close drops a lease another node holds |
| `LeaseFencing.DropsAreOwnIff` | internal/runtime/cluster_state.go:276-317 | every lease dropped in every run is dropped by expiry or by its own iff deletes check the owner |
| `LeaseFencing.LeasesAreAuthored` | internal/runtime/cluster_resume.go:32-164 | every stored lease was written by a compare-and-swap of the node it names |
| `LeaseFencing.RollbackReturnsTheReadLease` | internal/runtime/cluster_resume.go:171-175 | a rollback restores the very lease the resume read, or changes nothing once the claim is superseded |
| `LeaseFencing.FailedResumeLeavesNoTrace` | internal/runtime/cluster_resume.go:32-175 | claim, failed takeover and rollback give back the directory exactly as found |
| `LeaseOperations.ResumesAreByOwners` | internal/runtime/cluster_resume.go:32-116 | in every run, when a resume changes a lease it is that of the session it asked for, the requester was entitled by user and namespace to the lease it had read, and what is stored is the claim on that lease or that lease itself |
| `LeaseOperations.ResumeClaimsIff` | internal/runtime/cluster_resume.go:32-116 | an undisturbed resume claims the session iff it has a lease and a snapshot and the requester is entitled; otherwise nothing changes |
| `LeaseOperations.ResumeEnds` | internal/runtime/cluster_resume.go:118-160 | the claim stands unless another incarnation may still serve the session and the takeover call fails while its node is alive or cannot be looked up; then the directory is as before |
| `LeaseOperations.CloseRemoves` | internal/runtime/cluster_state.go:276-317 | an undisturbed close removes snapshot and lease, the lease only if its own where deletes check the owner; a fenced close changes nothing |
| `LeaseOperations.RefreshStoresIff` | internal/runtime/cluster_state.go:191-255 | an undisturbed refresh stores lease and snapshot iff the session has no lease or one of the same node that is not newer |
| `LeaseOperations.RepairDrops` | internal/runtime/cluster_repair.go:355-412 | an undisturbed repair drops, of the sessions it got to, the leases of the departed incarnation where deletes check the owner, and nothing else |
| `Membership.ClusterRepairer.MembershipOnce` | internal/runtime/cluster_repair.go:296-342 | a beat reports each departed incarnation once: alive at the last successful scan, absent now, not this node |
| `Membership.DepartedMeaning` | internal/runtime/cluster_repair.go:296-342 | over all histories a departure is reported iff an earlier scan saw the incarnation, failed scans aside, and this one does not |
| `Membership.DeparturesAlternate` | internal/runtime/cluster_repair.go:296-342 | between two reported departures of one incarnation a scan saw it alive |
| `Membership.OnLeave` | internal/runtime/cluster_repair.go:355-412 | every lease of the departed incarnation goes and no other lease or snapshot changes |
| `BroadcastBatching.ChannelAccumulator.TryAppend` | internal/runtime/broadcast_batcher.go:242-271 | one pass of the append loop: waits when full, falls through when closed, else buffers within both caps and signals at the threshold |
| `BroadcastBatching.ChannelAccumulator.BeginFlush` | internal/runtime/broadcast_batcher.go:360-382 | takes the whole buffer as the batch in flight |
| `BroadcastBatching.ChannelAccumulator.Flush` | internal/runtime/broadcast_batcher.go:360-382 | left alone, a flush hands out the buffer as one batch and leaves nothing in flight |
| `BroadcastBatching.ChannelAccumulator.Drained` | internal/runtime/broadcast_batcher.go:278-288 | the bypass goes on iff buffer and flight are empty or the accumulator is closed |
| `BroadcastBatching.RunKeepsInv` | internal/runtime/broadcast_batcher.go:242-288 | in every run, fresh accumulators after reaps included, buffer and batch stay within both caps and the in-flight count is the flusher's |
| `BroadcastBatching.NothingLostOrRepeated` | internal/runtime/broadcast_batcher.go:78-143 | wire, batch, buffer, the worker's hand and closed accumulators hold every accepted logged publication exactly once, in every run and across any number of reaps |
| `BroadcastBatching.OrderKept` | internal/runtime/broadcast_batcher.go:78-104 | while batching stays on, broadcasts, batch and buffer in that order are the accepted publications in order, oversize ones included |
| `BroadcastBatching.BatchedRunsAreSteady` | internal/runtime/broadcast_batcher.go:78-104 | batching on for all deliveries and no reap is enough for that |
| `BroadcastBatching.OrderKeptIff` | internal/runtime/broadcast_batcher.go:78-104 | for increasing offsets a run ends in order iff no unbatched delivery found anything held and no accumulator was closed with a buffer |
| `BroadcastBatching.DroppingBelowThresholdReorders` | internal/runtime/broadcast_batcher.go:78-104 | a run in which a drop in subscribers reorders two publications |
| `BroadcastBatching.WaitsIff` | internal/runtime/broadcast_batcher.go:242-288 | in every run a producer waits iff its publication would take the open buffer past a cap, an oversize one iff the open accumulator holds or broadcasts anything |
| `BroadcastBatching.BackpressureEnds` | internal/runtime/broadcast_batcher.go:242-288 | a blocked producer always has an enabled flusher step, and every step that does anything brings it closer, within five |
| `BroadcastBatching.ReapStrandsIffBuffered` | internal/runtime/broadcast_batcher.go:294-347 | a run strands publications iff some reap closed an accumulator into which one was buffered since the idle check |
| `BroadcastBatching.ReapingSince` | internal/runtime/broadcast_batcher.go:294-347 | a reap under way began with a check that found the buffer empty, so what it strands was buffered since |
| `BroadcastBatching.StrandedForever` | internal/runtime/broadcast_batcher.go:386-398 | what a reap strands no continuation takes out again |
| `BroadcastBatching.ReapRaceReachable` | internal/runtime/broadcast_batcher.go:294-347 | a run from the start that accepts two publications, broadcasts the first and strands the second |
| `MemoryHistory.ChannelHistory.Publish` | internal/stream/broker_memory.go:312-338 | the circular buffer refines the log of accepted publications: it holds the last min(n, size) with dense offsets |
| `MemoryHistory.ChannelHistory.History` | internal/stream/broker_memory.go:423-476 | the scan returns the page of the log: the first limit retained publications from since on |
| `MemoryHistory.PageContents` | internal/stream/broker_memory.go:423-476 | a page is contiguous from since or the oldest retained, and a short page is everything retained |
| `MemoryHistory.GapReportsAreExact` | internal/stream/broker_memory.go:423-476 | no gap means everything accepted from since on is retained; a trimmed head is reported iff something of it was overwritten |
| `HistoryReclaim.UniqueIffOneObject` | internal/stream/broker_memory.go:212-243 | no offset of a channel is assigned twice iff one history object assigned all of them |
| `HistoryReclaim.UniqueIffSameObject` | internal/stream/broker_memory.go:212-243 | over a whole run that is so iff each write, as it is about to happen, goes to the object of the first write |
| `HistoryReclaim.OffsetsCountUp` | internal/stream/broker_memory.go:267-338 | offsets are 1, 2, 3, ... if no reclaim happens between a publisher's lookup and its write |
| `HistoryReclaim.OvertakenPublisherRepeatsAnOffset` | internal/stream/broker_memory.go:212-243 | a run in which a reclaim overtakes a publisher and offset 1 is assigned twice |
| `Recovery.FromTheStartIff` | internal/runtime/recover.go:340-373 | history is read from the start iff the client asked for it, both epochs are known and differ on a resume, or the recorded, sent or delivered offset to continue after is 2^64 - 1 |
| `Recovery.FramesReachTheEcho` | internal/runtime/recover.go:199-327 | in one round, even with a failed send, the frames sent are contiguous up to the echoed position |
| `Recovery.ReplayOutcome` | internal/runtime/recover.go:297-326 | a replay ends as epoch reset, as truncated on a full page or an empty one with a gap, or as caught up; its position is the last publication sent |
| `Recovery.ReplayChannel` | internal/runtime/recover.go:199-327 | gates, limit, read and replay end in the status, position, gap and count the request states, with a prefix of the page sent, at most one failure, and the quota down by what was sent |
| `Recovery.RecoverSubscription` | internal/runtime/recover.go:199-327 | one channel takes its turn: those sends, then one completion that carries the result |
| `Recovery.ReplayPage` | internal/runtime/recover.go:199-327 | frames go out in order until the first failed send |
| `Recovery.StreamRecoveries` | internal/runtime/recover.go:178-186 | the recover=true channels take their turns in request order; quota remaining plus frames replayed is always 1000 |
| `Recovery.RequestMeans` | internal/runtime/recover.go:178-420 | each requested channel is skipped iff it is empty, a wildcard, switched off by its policy's recover, history or transient-only, or without a fresh start and any known offset; else its status, position and gap, and the retained publications it replays, at most its policy's limit and what is left of 1000, follow from the log |
| `Recovery.ReplaysAreLicensed` | internal/runtime/recover.go:379-420 | every replay frame is for a requested ordinary channel whose policy has recovery and history on and transient-only off |
| `Recovery.OneCompletionEach` | internal/runtime/recover.go:178-186 | each requested channel is completed exactly once, in request order |
| `Recovery.AnnouncementComesTrueIff` | internal/runtime/recover.go:153-172 | the announced state is what the stream turns out to be, iff an ungated empty channel is not all it counted on |
| `Recovery.RoundIsRecoverSubscription` | internal/runtime/recover.go:199-327 | a round of the catch-up theorems is what recovering one channel with that cursor does |
| `Recovery.RoundsCatchUp` | internal/runtime/recover.go:199-327 | rounds that continue from the echo replay everything retained after the cursor once and in order, in len / limit + 1 rounds, and end caught up iff anything is retained |
| `Recovery.FailedSendsLoseNothing` | internal/runtime/recover.go:199-327 | with sends failing anywhere, what was sent and what is left after the last echo make up what was retained after the first cursor |
| `Recovery.LastCursorStartsOver` | internal/runtime/recover.go:340-373 | the cursor 2^64 - 1 wraps and replays what the client has |
| `Subscriptions.Node.AddSub` | internal/session/hub.go:98-126 | the hub gains the record in the registry of its kind and reports a channel new to it |
| `Subscriptions.Node.RemoveSub` | internal/session/hub.go:129-148 | the hub loses exactly that record, empty channels included, and reports the last one; nothing to remove changes nothing |
| `Subscriptions.Node.RemoveExact` | internal/session/hub.go:314-338 | a channel goes from its shard iff nobody but the session was left in it |
| `Subscriptions.Node.CountUp` | internal/stream/broker_memory.go:177-196 | the count of the key, exact or wildcard, goes up by one |
| `Subscriptions.Node.CountDown` | internal/stream/broker_memory.go:212-243 | a positive count goes down by one and leaves no zero entry |
| `Subscriptions.Node.AdjustProjection` | internal/runtime/cluster_state.go:319-324 | the channel's projection goes by the delta, every other channel's stays |
| `Subscriptions.Node.DoCommit` | internal/runtime/node.go:476-667 | a commit closure run on the registries has the effect of its step, or fails and changes nothing |
| `Subscriptions.Node.DoRollback` | internal/runtime/node.go:476-667 | a rollback closure likewise |
| `Subscriptions.Node.RunSubSaga` | internal/runtime/subscription_saga.go:18-30 | all steps committed, or the first k committed and undone in reverse |
| `Subscriptions.AddIsAtomic` | internal/runtime/node.go:476-570 | with a failure at any step, hub, tracked channels and broker counts are fully updated or exactly as before, and the projection of the channel is one more or the same, of every other channel the same |
| `Subscriptions.RemoveIsAtomic` | internal/runtime/node.go:573-667 | the same for unsubscribe, one less |
| `Subscriptions.AddSucceedsIff` | internal/runtime/node.go:476-570 | a subscribe goes through iff the topic is valid, the session open, the key routable where the broker is asked, and no step it takes fails |
| `Subscriptions.RemoveSucceedsIff` | internal/runtime/node.go:573-667 | an unsubscribe goes through iff the subscription exists and no step it takes fails |
| `Subscriptions.FailedAddIsStaleIff` | internal/runtime/node.go:476-570 | a failed subscribe leaves the session's snapshot out of date iff only the last step failed |
| `Subscriptions.FailedRemoveIsStaleIff` | internal/runtime/node.go:573-667 | the same for unsubscribe |
| `Subscriptions.UnsubscribeUndoesSubscribe` | internal/stream/broker_memory.go:177-243 | broker subscribe and unsubscribe are inverse to each other on positive counts |
| `Subscriptions.DropOfPut` | internal/session/hub.go:98-148 | removing a subscriber that was just added gives the hub back, empty channels included |
| `Subscriptions.PutOfDrop` | internal/session/hub.go:282-338 | adding back a removed subscriber gives the hub back |
| `Subscriptions.RegistriesAgree` | internal/runtime/node.go:476-667 | over all runs of whole sagas an exact channel has broker count 1 iff the hub has a subscriber, a wildcard's count is its number of sessions, sessions track exactly their subscriptions, and every channel's projection is its number of subscribed sessions |
| `Subscriptions.ClosedOnlyShrinks` | internal/session/runtime.go:214-236 | over all such runs a closed session never gains a subscription |
| `InterleavedSagas.IdleChannelsAgree` | internal/runtime/node.go:353-667 | over all interleavings of single steps of sagas on different channels, with failures and closes anywhere, the same holds of every channel no saga holds, the projection included, and of the node when none is under way |
| `InterleavedSagas.SagasAreAtomic` | internal/runtime/subscription_saga.go:18-30 | a saga that returns has made all of its change to its channel's part of the registries or none, whatever other sagas did between its steps |
| `CloseRace.RunKeepsInv` | internal/session/runtime.go:214-236 | hub and session disagree on a channel only as far as the saga holding its lock has got |
| `CloseRace.ClosedLeavesForced` | internal/session/session.go:443-517 | over every interleaving a closed session leaves exactly the channels a rolled back removal tracked again |
| `CloseRace.CloseRemovesEverything` | internal/runtime/node.go:476-570 | if no removal fails nothing is left, however subscribes race with Close and fail |
| `CloseRace.CloseGetsOn` | internal/session/session.go:443-517 | undisturbed, Close removes a channel of its list from hub, session and list, and touches no other |
| `CloseRace.UndoneRemovalOutlivesClose` | internal/runtime/node.go:573-667 | a run in which an unsubscribe rolled back after Close leaves the session in the hub |
| `SendQueue.OutQueue.TryEnqueue` | internal/session/session.go:208-226 | appends to its lane or refuses, when closed or full, without change |
| `SendQueue.OutQueue.TryDequeue` | internal/session/session.go:231-250 | one pass of the wait loop: Control first, then Data |
| `SendQueue.OutQueue.Close` | internal/session/session.go:255-269 | empties both lanes once and hands back their frames |
| `SendQueue.RunCounted` | internal/session/session.go:192-269 | in every run lanes stay within 32 and 256 and every accepted frame is queued, in hand, written or failed, once |
| `SendQueue.RefusedIff` | internal/session/session.go:208-226 | in every run a send is refused iff the queue is closed or its lane holds 32 Control or 256 Data frames |
| `SendQueue.EveryFrameIsAnsweredOnce` | internal/session/session.go:582-625 | once the queue is closed and the writer idle each accepted frame has been answered exactly once |
| `SendQueue.WrittenOnce` | internal/session/session.go:582-602 | no frame is written twice |
| `SendQueue.RunKeepsWaiters` | internal/session/session.go:714-756 | in every run the frame a caller waits for is queued or in the writer's hand |
| `SendQueue.NobodyWaitsForEver` | internal/session/session.go:255-269 | once the queue is closed and the writer idle no caller waits |
| `SendQueue.LanesAreFifo` | internal/session/session.go:582-595 | what is written of a lane is a prefix of what was accepted on it |
| `SendQueue.ControlGoesFirst` | internal/session/session.go:231-250 | a Data frame is written after every Control frame accepted before it was taken |
| `SendQueue.OvertakesIff` | internal/session/session.go:231-250 | of two written frames the later accepted goes out first iff it is Control and the other is Data and still in its lane at that moment |
| `SendQueue.CallersSeeTheirOrder` | internal/session/session.go:714-756 | for two frames of one caller likewise, and then the caller had stopped waiting for the Data frame |
| `SendQueue.GivingUpCanReorder` | internal/session/session.go:714-756 | a run in which that happens |
| `Takeover.SessionObject.TearOff` | internal/session/session.go:329-345 | an attached session becomes detached without attachment; others stay |
| `Takeover.SessionObject.Attach` | internal/session/session.go:278-312 | binds the attachment iff the probe succeeds and the session is neither closed nor attached |
| `Takeover.SessionObject.MarkClosed` | internal/session/session.go:443-465 | closes once and lets go of the attachment |
| `Takeover.SessionObject.Demote` | internal/session/takeover.go:80-92 | the connection keeps no attachment and delegates to the resumed session |
| `Takeover.RunKeepsInv` | internal/session/takeover.go:36-92 | in every run states fit attachments, and a transport serves its own connection's session or the one it was handed to |
| `Takeover.DecisionIsService` | internal/session/takeover.go:99-158 | the three identity rules come to one: a connection closes a session iff that session is served over its transport |
| `Takeover.LoopExitClosesServed` | internal/session/takeover.go:99-158 | a loop exit in one step closes that session and leaves every other as it was |
| `Takeover.DelegateNeverDelegates` | internal/session/takeover.go:36-43 | a delegate target delegates to nobody, so canonical is one hop |
| `Takeover.ServiceEndsIff` | internal/session/takeover.go:67-92 | a served session stays served over a transport exactly until something displaces it |
| `Takeover.ServiceBeginsIff` | internal/session/takeover.go:67-92 | and service begins exactly with a new connection, or when a takeover with a live transport binds a session still detached |
| `Takeover.JoinsIff` | internal/session/session.go:278-312 | a connection becomes a session of its own iff it connects, with a live transport, while authenticating |
| `Takeover.ConnectAttachesOrCloses` | internal/session/session.go:278-312 | such a connect attaches it over its own transport, or closes it when the transport is dead |
| `Takeover.TakeoverBindsOrCloses` | internal/session/takeover.go:67-92 | an undisturbed takeover leaves the session served over the taking transport and the connection its shell, or closes the session when the transport is dead, and touches no other |
| `Takeover.ServedAtCloseIff` | internal/session/takeover.go:147-158 | when a dying loop closes the session it checked, that session is still served over its transport iff nothing displaced it in between |
| `Takeover.StaleCheckClosesNewerService` | internal/session/takeover.go:147-158 | a run in which it is displaced and the newer service is closed |
| `Takeover.DetachedIffAbandoned` | internal/session/takeover.go:67-92 | with no takeover under way a session is detached iff a takeover abandoned it |
| `Takeover.AbandonedIffConnectionClosed` | internal/session/takeover.go:70-75 | a takeover abandons a session iff its connection was closed before its attachment was read |
| `Takeover.TakeoverCanAbandon` | internal/session/takeover.go:70-75 | a run that ends so |
| `CommandDedupe.CompleteResult` | pkg/redisbroker/cluster_command_bus.go:769-806 | the result is a success iff the handler returned one with an open, pending or succeeded status |
| `CommandDedupe.RunsAreBounded` | pkg/redisbroker/cluster_command_bus.go:846-885 | however deliveries of a command race, the handler runs at most once, and once more per expiry of its entry |
| `CommandDedupe.BoundIsTight` | pkg/redisbroker/cluster_command_bus.go:846-885 | for every number of expiries a run reaches the bound |
| `CommandDedupe.SuccessIsReal` | pkg/redisbroker/cluster_command_bus.go:695-819 | a sender told Succeeded, by reply, stored result or on timeout, can rely on a handler run that succeeded |
| `CommandDedupe.ResultsAgree` | pkg/redisbroker/cluster_command_bus.go:695-819 | while the entry lasts every result given out is that of the one run |
| `CommandDedupe.StoredResultIsAnswered` | pkg/redisbroker/cluster_command_bus.go:738-916 | while a persisted result stands, every lookup by a delivery that lost the claim, and every sender before and after waiting, is answered with the outcome of the very run that persisted it |
| `CommandDedupe.StillRunningIff` | pkg/redisbroker/cluster_command_bus.go:738-885 | a lookup is told the command still runs iff a claim stands, or it is that of a delivery that finds the entry gone for the second time |
| `CommandDedupe.TimeOutAnswers` | pkg/redisbroker/cluster_command_bus.go:1014-1040 | a sender that stops waiting is told the end is unknown iff no persisted result stands |
| `CommandDedupe.OwnRunIsAnswered` | pkg/redisbroker/cluster_command_bus.go:807-819 | the run's own sender is told its outcome, or that the end is unknown when it cannot be persisted |
| `CommandDedupe.ClaimsIff` | pkg/redisbroker/cluster_command_bus.go:846-885 | a delivery gets the claim iff no entry stands |
| `CommandDedupe.SentOnIff` | pkg/redisbroker/cluster_command_bus.go:828-844 | a sender sends the command on iff no entry stands |
| `CommandDedupe.StoreFailuresAreTold` | pkg/redisbroker/cluster_command_bus.go:730-737 | a store failure before the claim is told to the sender and runs nothing |
| `CommandDedupe.OvertakenRunOverwrites` | pkg/redisbroker/cluster_command_bus.go:807-916 | a run in which a persisted result is replaced by that of an overtaken run without any expiry in between |
| `ApiKeyCache.ClampIdentity` | internal/serverapi/auth.go:351-421 | the loops compute the clamped identity and lifetime |
| `ApiKeyCache.ClampOnlyNarrows` | internal/serverapi/auth.go:351-421 | capabilities are exactly the nine known ones in both grant and ceiling, namespaces the granted valid ones, and "*" iff granted without a valid one |
| `ApiKeyCache.ValidateNamespace` | pkg/topics/namespace.go:77-95 | the scan accepts 1 to 32 characters of a-z, 0-9 and inner "-" |
| `ApiKeyCache.TTLIsSmallerLimitIff` | internal/serverapi/auth.go:406-415 | for every 64-bit max_age the lifetime is the smaller of configuration and max_age, at least a second, iff the product fits, or wraps to no less than the configuration, or the configuration is a second or less |
| `ApiKeyCache.LongAgeIsCutShort` | internal/serverapi/auth.go:406-415 | max_age 9223372037 under the default configuration gives one second |
| `ApiKeyCache.TTLIsWithinConfig` | internal/serverapi/auth.go:406-415 | overflow or not, the lifetime is at least a second and never longer than configured |
| `ApiKeyCache.ApiAuthResolver.VerifyEnter` | internal/serverapi/auth.go:159-213 | the first critical section: cache, breaker, flight, in that order |
| `ApiKeyCache.ApiAuthResolver.VerifyViaProxy` | internal/serverapi/auth.go:307-344 | no proxy or no reply is an error, a refusal a denial, and an acceptance the clamped identity, named unknown without a key id |
| `ApiKeyCache.ApiAuthResolver.VerifyFinish` | internal/serverapi/auth.go:215-239 | the second one: verdict stored with its lifetime, streak and breaker updated |
| `ApiKeyCache.ApiAuthResolver.StoreLocked` | internal/serverapi/auth.go:282-291 | a full cache gives up one entry for the new one |
| `ApiKeyCache.ApiAuthResolver.RecordProxyErrorLocked` | internal/serverapi/auth.go:271-277 | the fifth error in a row opens the breaker and restarts the streak |
| `ApiKeyCache.RunKeepsBounds` | internal/serverapi/auth.go:159-291 | in every run flight and running calls match, the cache has at most 1024 entries and the streak stays below 5 |
| `ApiKeyCache.OneCallPerKey` | internal/serverapi/auth.go:159-239 | in every run at most one call per key is under way |
| `ApiKeyCache.GrantsAreBacked` | internal/serverapi/auth.go:159-239 | each identity handed out was accepted for the key that very request presented: in the call it started or attached to, or from the cache in a call whose lifetime is not over |
| `ApiKeyCache.CallsAreAcceptedOnce` | internal/serverapi/auth.go:215-239 | a call is accepted at most once, so the awaited call behind a grant is unique |
| `ApiKeyCache.GrantsStayInsideTheNode` | internal/serverapi/auth.go:159-421 | every capability handed out is inside the ceiling, and a cached grant is handed out within the configured lifetime, or a second, from the start of the very call that accepted its key |
| `ApiKeyCache.BreakerClosesIff` | internal/serverapi/auth.go:185-229 | in a cooldown the next step closes the breaker iff it is an accepting answer |
| `ApiKeyCache.CallInCooldownIff` | internal/serverapi/auth.go:185-229 | in a cooldown a step starts a call iff it asks for a key neither cached nor in flight, and an earlier call was accepted meanwhile with no new streak since |
| `ApiKeyCache.ReopenedMeans` | internal/serverapi/auth.go:185-229 | that last condition, kept up event by event, is what it says |
| `ApiKeyCache.BreakerHolds` | internal/serverapi/auth.go:185-194 | no call starts during a cooldown in which no earlier call comes back accepted |
| `ApiKeyCache.AcceptedReopens` | internal/serverapi/auth.go:224-229 | in every state an accepting answer lets the next request for a key neither cached nor in flight call at once |
| `ApiKeyCache.EarlierCallReopensTheWay` | internal/serverapi/auth.go:224-229 | a reachable state in which that lets a call through at once |
| `ApiKeyAnswers.RequestGets` | internal/serverapi/auth.go:159-213 | every request of every run gets the proxy's last word on its key while that stands and is not over, else is refused while the breaker is tripped, else joins the call for its key, and only else starts one |
| `ApiKeyAnswers.CacheIsWhatStands` | internal/serverapi/auth.go:215-302 | what was decided last about a key is in the cache for its lifetime, 5 seconds or 2, until replaced, evicted at 1024 keys or found over |
| `ApiKeyAnswers.WaiterGets` | internal/serverapi/auth.go:196-239 | a waiting request gets what the proxy answered to the very call it awaits |
| `ApiKeyAnswers.ProxyDecides` | internal/serverapi/auth.go:196-344 | an outage, a refusal and an acceptance of the proxy reach the waiting request as such, the acceptance clamped |
| `ApiKeyAnswers.OneAnswerEach` | internal/serverapi/auth.go:159-239 | in every run each request returns at most once |
| `ApiKeyAnswers.CancelledStaysSilent` | internal/serverapi/auth.go:196-209 | a request cancelled while waiting never returns an answer |
| `ApiKeyAnswers.BreakerFollowsStreak` | internal/serverapi/auth.go:185-277 | the breaker trips exactly on the fifth error of a streak; an acceptance or a request after 30 seconds closes it, a refusal ends the streak only |
| `FrameSplice.FindFirst` | internal/session/hub.go:653-672 | the search finds the first occurrence |
| `FrameSplice.SpliceRawJsonPayloads` | internal/session/hub.go:653-672 | the loop replaces the placeholders of the original frame from the left, whatever the payloads contain |
| `FrameSplice.SpliceRenders` | internal/session/hub.go:653-672 | if placeholders occur only at payload sites the result is the frame rendered with the real payloads |
| `FrameSplice.SpliceReplacesEmptyObjects` | internal/session/hub.go:653-672 | for every frame: fails iff it has fewer placeholders than payloads, else only their empty objects are replaced |

## Left out

- Transports, gRPC and HTTP proxies, command line, metrics, logging and health: input and output plumbing.
- HMAC, SHA-256, JSON and protobuf encodings: digests are names, frames are strings, and a stored record is a value.
- Presence, surveys beyond the decision, rate limits, heartbeats and most of configuration validation: mostly single-branch code.
- Clocks: time is a parameter or a free event; expiry and timers may happen at any moment.
- Redis scripts and transactions: each is one atomic step with its compare condition.
- The trie matcher and the Redis broker's publish and catch-up paths are not part of this model; Match is the meaning of matching.
- Strings are sequences of characters where the source works on bytes; the delimiters and wildcards are ASCII.
- Interest.RoutingIff: for a key with "[" or "\" it does not say which channels delimited otherwise are routed by accident, because the promise is about channels of the key's own grammar.
- The configured pub/sub prefix is taken to hold no glob characters; it is in front of pattern and channel alike.
- Shutdown of the batcher: its last flush and the sweep over the registered accumulators.
- The 16384 stripes of channel locks: a saga holds the lock of its channel only, which allows more interleavings.
- Hub wildcard records are keyed by the pair of session and pattern; the source joins the two with ":" in one string.
- The hub's per-user connection registry and its shards: identity fields change outside the hub's lock.
- History offsets are unbounded in the ring; the 64-bit successor is modelled where a client chooses the cursor.
- Fence, which can bring a closed session back when its removals fail, is not part of the takeover model.
- CommandDedupe.RunsAreBounded: a handler that returns a result under a foreign command id writes another command's entry; the model has one command.
- CommandDedupe.CompleteResult: does not model a handler that keeps running after its deadline, which counts as the run that failed.
- SendQueue: a frame sent before the session is attached is written by the caller directly and is not queued.
- Recovery.RoundsCatchUp: for a channel nobody publishes to or trims between rounds, as the promise says.
