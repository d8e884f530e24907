# Message delivery in the Keel MQTT gateway: a Dafny model

The gateway accepts MQTT publishes, finds the matching subscriptions, and hands each message to
connected clients, to one member of every shared subscription group, to other nodes of the cluster,
and to the Redis-backed queues of offline sessions. This project models that delivery path and proves
what it keeps over whole runs. `dafny verify dfyconfig.toml` checks everything.

| part | modules |
|---|---|
| shared-subscription planner, fast path, one publish | `SharedPlanner`, `SharedPlannerSafety`, `SharedPlannerTheorems`, `SharedAttempts`, `SharedFastPath`, `SharedDelivery` |
| one publish across the cluster | `ClusterRouting` |
| topic trie, flat matching, queries, retained messages | `TopicLevels`, `TopicIndex`, `TopicOperations`, `TopicMatching`, `TopicTrie`, `TopicQuery`, `RetainedMessages` |
| offline enqueue and inflight schema over Redis | `InflightStore`, `RedisProtocol`, `RedisProtocolProofs`, `RedisProtocolTheorems`, `RedisOutcomes`, `RedisMutations`, `RedisRaces`, `OfflineLock` |
| packet ids, session flows, topic aliases | `PacketIds`, `ClientSession`, `ClientSessionTheorems`, `ClientFlows`, `Client`, `TopicAliases` |
| outbound packet queue | `PacketQueue`, `OutboundRun` |
| placement and reconciler | `Words`, `Placement`, `Reconciler` |
| Redis primary failover | `NodeOrder`, `RedisFailover`, `RedisFailoverTheorems`, `Membership` |
| shared vocabulary | `DeliveryStatus`, `Subscriptions` |

Conventions. Everything the code cannot decide is an input: the outcome of a delivery attempt, a hook's
answer, a write's success, the iteration order of a Go map, the clock, leadership, pings, and the
interleaving of processes. A theorem therefore holds for all of them. State that the code updates in
place is a class whose methods are proved against a function on its value; the theorems are about that
function. Concurrent parts are step machines whose actions are the code's atomic sections. A connected
client's id is never the empty string, which the planner uses for "no client".

What the code does differently from its documentation, or from what one might expect, is kept as it is
and stated:

- A filter ending in `+/#` is not found by the trie at the level of the `+`, while the flat matcher
  accepts it (`TopicMatching.PlusHashMissed`); the walk theorem names exactly this exception.
- Shared filters are found without the `$` rule (`TopicMatching.SharedIgnoresDollarRule`).
- An inline subscription ending in `#` is never found at its parent level, because the second gather
  reads the wrong particle (`TopicMatching.InlineWalk`; `a/#` at `a` in `InlineHashMissed`).
- `Unsubscribe` reports true whenever the address exists, although its comment says it reports whether
  the subscription existed (`TopicTrie.Trie.Unsubscribe`; a client that never subscribed in
  `UnsubscribeStranger`).
- A persistence error raises the send quota before it was lowered. When the hook's error wraps a code
  that allows fallback, the attempt does not restore the quota; the exact condition is in
  `ClientSessionTheorems.SafeFailureRollsBack`, a run from a fresh session in
  `PersistenceErrorRaisesQuota`. It takes another persistence hook than the repository's own, whose
  `OnQosPublishResult` (internal/broker/redis_session.go:848-905) returns no such code.
- A repeated QoS 2 publish is fanned out again when the server's maximum QoS or the answer of a publish
  hook has lowered it, and on the inline client, whose publishes are not acknowledged. The one-fan-out
  rule holds of every run exactly when neither happens (`ClientSessionTheorems.PubrelRuleIff`).
- The HLEN shortcut of the offline id search is wrong exactly for a hash of 65535 or more rows with a
  free id (`InflightStore.ShortcutWrongIff`). No such hash arises before schema 2 is activated
  (`RedisProtocolTheorems.ShortcutSoundInEveryRun`), but an enqueue that read schema 1 just before the
  activation may still meet one: it is then refused with an id free. `RedisOutcomes.EndsIff` names this
  as the only such case, and `RedisRaces.RefusedWithFreeId` is a run of it.
- Dropping a stored PUBREL under schema 2 looks for it among the inbound rows, although the comment at
  internal/broker/redis_session.go:491-493 calls it outbound state; its row stays
  (`RedisMutations.DropRemovesOwnIff`).
- A failure window of the Redis primary outlives the leadership term it was opened in when no tick falls
  between losing and regaining leadership, although the comment at
  internal/cluster/membership/redis_failover.go:161 asks for a window of its own in every term
  (`RedisFailoverTheorems.WindowLivesUntil`, `WindowOutlivesTerm`).
- A failed enqueue also takes back an alias that existed before; the topic then gets a new number
  (`TopicAliases.AliasRoundTrip` covers these runs).
- A retained message with an empty topic would leave an address that stores nothing; tidiness is
  stated for operations that name a topic (`TopicOperations.ValidOp`).

## Model

| member | source | states |
|---|---|---|
| `SharedPlannerSafety.InitialGood` | thirdparty/mochi-mqtt-server/server.go:1142-1176 | the plan built before the first attempt satisfies the planner's invariants, whatever the groups and orders |
| `SharedPlannerSafety.StepGood` | thirdparty/mochi-mqtt-server/server.go:1178-1251 | every turn of the worklist keeps the invariants and lowers queue length plus never-queued clients, so the loop ends |
| `SharedPlannerTheorems.AtMostOneTaker` | thirdparty/mochi-mqtt-server/server.go:1130-1254 | for every set of overlapping groups, order and outcomes, at most one client planned for a group ends accepted or ambiguous |
| `SharedPlannerTheorems.OneTakerAt` | thirdparty/mochi-mqtt-server/server.go:1178-1251 | the same at every moment of the run |
| `SharedPlannerTheorems.TakerIsMember` | thirdparty/mochi-mqtt-server/server.go:1142-1251 | a client that ends as taker of a group is a member of it |
| `SharedPlannerTheorems.NoClientAttemptedTwice` | thirdparty/mochi-mqtt-server/server.go:1178-1208 | no client is attempted twice, every attempted client is logged once, and the initial client is never tried again |
| `SharedPlannerTheorems.AcceptancesBounded` | thirdparty/mochi-mqtt-server/server.go:1130-1254 | a whole publish has at most as many acceptances as groups |
| `SharedPlannerTheorems.EveryGroupSettled` | thirdparty/mochi-mqtt-server/server.go:1178-1253 | at the end every group has an accepting member, or stopped on an ambiguous failure of a member planned for it, or had every member attempted and none accepted |
| `DeliveryStatus.SafeFailureCodes` | thirdparty/mochi-mqtt-server/server.go:1256-1265 | however deeply wrapped, a failure is fallback-eligible exactly for four codes |
| `SharedPlannerTheorems.StepRecords` | thirdparty/mochi-mqtt-server/server.go:1203-1219 | one turn records exactly the head client's outcome, reusing the initial client's earlier result instead of a second attempt |
| `SharedAttempts.AttemptsCarryPlan` | thirdparty/mochi-mqtt-server/server.go:1187-1208 | in every run each attempt is made with the client's ordinary subscription and those of every group planned for it merged in; without an ordinary one, with a single group's own or the merge of several; its outcome is that of this call |
| `SharedAttempts.SelectedAttempted` | thirdparty/mochi-mqtt-server/server.go:1142-1251 | every selected client is attempted, with all groups it was selected for among its filters |
| `SharedAttempts.SelectedFirst` | thirdparty/mochi-mqtt-server/server.go:1171-1251 | clients are attempted in the order they are queued, the selected ones first |
| `SharedFastPath.FastPathRefines` | thirdparty/mochi-mqtt-server/server.go:1082-1116 | when one client covers every group, the fast path attempts the same clients with the same subscriptions, in the same order, as the general planner, although the two merge in map orders of their own |
| `SharedFastPath.MergeOrderFree` | thirdparty/mochi-mqtt-server/server.go:1099-1102 | merging a client's subscriptions over all filters gives the same result in every order |
| `SharedFastPath.RunForgetsInitial` | thirdparty/mochi-mqtt-server/server.go:1203-1208 | passing an already known first result leads to the same run as attempting that client |
| `SharedDelivery.SelectShared` | thirdparty/mochi-mqtt-server/topics.go:344-359 | one member of every non-empty group is selected and nobody else, and each selected client's subscription combines exactly the groups it was chosen for: highest QoS, no-local when any asks, every identifier |
| `SharedDelivery.MergeSharedSelected` | thirdparty/mochi-mqtt-server/topics.go:364-373 | the selected clients join the ordinary ones, each once; one present in both has the two merged, the others keep what they had |
| `SharedDelivery.BuildPlan` | thirdparty/mochi-mqtt-server/server.go:1142-1176 | the loops build exactly the initial planner state |
| `SharedDelivery.AdvanceCursor` | thirdparty/mochi-mqtt-server/server.go:1224-1246 | the cursor loop stops at the first member that is untried or has accepted |
| `SharedDelivery.PlannerStep` | thirdparty/mochi-mqtt-server/server.go:1178-1251 | one turn of the loop computes the specified step |
| `SharedDelivery.PublishSharedWithFallback` | thirdparty/mochi-mqtt-server/server.go:1130-1254 | the worklist loop ends in the final state the theorems speak of |
| `SharedDelivery.PublishSharedToSubscribers` | thirdparty/mochi-mqtt-server/server.go:1082-1116 | with or without the fast path, the attempts and the set of dealt-with clients are those of the general planner |
| `SharedDelivery.PublishToSubscribers` | thirdparty/mochi-mqtt-server/server.go:1029-1075 | every inline handler runs once with its subscription; shared calls come first and carry the client's ordinary subscription with those of its groups merged in; every other known ordinary subscriber is called with exactly its own; nobody is called twice; every group ends delivered, stopped or exhausted |
| `ClusterRouting.SharedFiltersForNode` | internal/broker/hooks.go:1330-1341 | the list holds, once each, exactly the filters whose chosen node this is; without a plan there is no list |
| `ClusterRouting.FanOutPlan` | internal/broker/hooks.go:1388-1416 | the targets are the union of live and offline nodes, each once, also when a list repeats a node |
| `ClusterRouting.ForwardTargets` | internal/broker/hooks.go:1346-1373 | every listed target but the publisher gets a message, in order, carrying exactly its own filters |
| `ClusterRouting.Selection.OnSelectSubscribers` | internal/broker/hooks.go:213-246 | in a cluster what remains is the allowed filters with a connected member, with exactly their connected members, and with an offline store only connected ordinary subscribers; outside a cluster nothing changes |
| `ClusterRouting.ForwardToClusterSubscribers` | internal/broker/hooks.go:1286-1328 | the publisher's routing query, plan, own list and messages on a routing trie: each target gets one message, every found shared filter is told to exactly one node, a member, the publisher whenever it is one, and every other node with a match gets a message |
| `ClusterRouting.PublishOnNode` | thirdparty/mochi-mqtt-server/server.go:1044-1074 | a node's query, hook and publish on its own trie: every known ordinary match is called (with an offline store, when connected), with all that matches combined; every inline match is handled once; its allowed filters are settled with their connected members; nobody else is called |
| `ClusterRouting.TakenOncePerFilter` | internal/broker/hooks.go:1286-1328 | of two takers of one shared filter in such a run, on whatever nodes and with whatever messages lost, node and client are the same |
| `ClusterRouting.PublishAcrossCluster` | internal/broker/hooks.go:1286-1328 | the publisher's method followed by every node's method, each with the guarantees above: the whole cluster takes a publish at most once on behalf of each shared filter |
| `TopicLevels.JoinSplit` | internal/cluster/acl/match.go:34-35 | splitting at '/' loses nothing |
| `TopicLevels.LevelsWhole` | internal/cluster/acl/match.go:34-35 | no level contains a '/' |
| `TopicLevels.IsolateParticle` | thirdparty/mochi-mqtt-server/topics.go:806-825 | the loop returns the d-th level, or the last, and whether another follows |
| `TopicLevels.MatchTopic` | internal/cluster/acl/match.go:30-63 | the flat matcher answers equality, or level matching outside the `$` rule |
| `TopicLevels.LevelsMatchIff` | internal/cluster/acl/match.go:45-63 | level matching is what sections 4.7.1.2 and 4.7.1.3 of MQTT 5.0 say of `+` and `#` |
| `TopicIndex.TrimKeeps` | thirdparty/mochi-mqtt-server/topics.go:542-548 | trimming loses no stored entry and keeps every address's parent |
| `TopicIndex.TrimTidies` | thirdparty/mochi-mqtt-server/topics.go:542-548 | trimming leaves no address that stores nothing and leads nowhere |
| `TopicIndex.GathersIff` | thirdparty/mochi-mqtt-server/topics.go:685-720 | from any address, for any wildcard-free topic, the recursive walk gathers exactly the addresses whose remaining levels match, except at the parent level |
| `TopicOperations.ApplyTouchesOne` | thirdparty/mochi-mqtt-server/topics.go:394-501 | each operation changes the entry of its own address and no other |
| `TopicOperations.ApplyTidy` | thirdparty/mochi-mqtt-server/topics.go:394-501 | each operation keeps the index free of dead addresses |
| `TopicMatching.RunAgrees` | thirdparty/mochi-mqtt-server/topics.go:394-474 | after any operations the index stores exactly the subscriptions of a plain list, ordinary, shared and inline |
| `TopicMatching.NoDeadAddresses` | thirdparty/mochi-mqtt-server/topics.go:505-548 | after any operations every address lies on the way to something stored |
| `TopicMatching.WalkAgreesWithFlatMatch` | thirdparty/mochi-mqtt-server/topics.go:685-752 | after any operations a query finds exactly the clients holding an ordinary filter the flat matcher accepts, except `+/#` at its parent level |
| `TopicMatching.PlusHashMissed` | thirdparty/mochi-mqtt-server/topics.go:704 | the exception is real |
| `TopicMatching.SharedWalk` | thirdparty/mochi-mqtt-server/topics.go:755-788 | a query finds exactly the shared members whose filter behind the group matches, without the `$` rule |
| `TopicMatching.SharedIgnoresDollarRule` | thirdparty/mochi-mqtt-server/topics.go:755-788 | for every topic starting with `$` a shared `#` is found and an ordinary one is not |
| `TopicMatching.DollarRule` | internal/cluster/acl/match.go:38-43 | a topic starting with `$` is matched only by a filter whose first level names its own; any other topic by every filter whose levels match |
| `TopicMatching.InlineWalk` | thirdparty/mochi-mqtt-server/topics.go:701-718 | inline subscriptions are found exactly when they match and are not a final `#` at its parent level |
| `TopicMatching.InlineHashMissed` | thirdparty/mochi-mqtt-server/topics.go:704-708 | an inline `a/#` matches `a` and is not found there |
| `TopicMatching.SharedFilterAgrees` | internal/cluster/acl/match.go:7-13 | the offline split of a shared filter and the trie see the same group and underlying filter; it is refused exactly for an empty group or filter |
| `TopicMatching.ShareFolds` | thirdparty/mochi-mqtt-server/topics.go:429-434 | the share prefix is recognised in any letter case, and nothing else is |
| `TopicTrie.Levels` | thirdparty/mochi-mqtt-server/topics.go:505-538 | the isolated levels are the filter's levels from the given depth |
| `TopicTrie.Trie.Set` | thirdparty/mochi-mqtt-server/topics.go:505-522 | the walk creates exactly the missing addresses and returns the last particle |
| `TopicTrie.Trie.Seek` | thirdparty/mochi-mqtt-server/topics.go:525-539 | the walk returns the particle at the address, or nil exactly when there is none |
| `TopicTrie.Trie.TrimFrom` | thirdparty/mochi-mqtt-server/topics.go:542-548 | the upward loop unlinks exactly the empty leaves |
| `TopicTrie.Trie.Subscribe` | thirdparty/mochi-mqtt-server/topics.go:427-445 | the pointer structure stands for the specified index, and the result says whether the client was new there |
| `TopicTrie.Trie.Unsubscribe` | thirdparty/mochi-mqtt-server/topics.go:449-474 | the same for removal; the result says whether the address existed |
| `TopicTrie.UnsubscribeStranger` | thirdparty/mochi-mqtt-server/topics.go:447-474 | for every filter, a client that never subscribed is told true, and the subscriber keeps its subscription |
| `TopicTrie.HoldersFollow` | thirdparty/mochi-mqtt-server/topics.go:427-474 | a subscription is there under its filter until its client takes it back, and the other holders keep theirs |
| `TopicTrie.InlineFollows` | thirdparty/mochi-mqtt-server/topics.go:394-423 | the same for inline subscriptions |
| `TopicTrie.Trie.InlineSubscribe` | thirdparty/mochi-mqtt-server/topics.go:394-404 | the same for an inline subscription |
| `TopicTrie.Trie.InlineUnsubscribe` | thirdparty/mochi-mqtt-server/topics.go:408-423 | the same for its removal, which trims only when no inline subscription is left |
| `TopicTrie.Trie.Retain` | thirdparty/mochi-mqtt-server/topics.go:483-501 | a retained message keeps its address, an empty payload releases it |
| `RetainedMessages.TopicsIndex.RetainMessage` | thirdparty/mochi-mqtt-server/topics.go:479-501 | the message is stored or released together with its address; 1 says stored, -1 that a retained packet was there, 0 that there was none |
| `RetainedMessages.MarkedIffStored` | thirdparty/mochi-mqtt-server/topics.go:394-501 | over every run of messages and subscriptions a topic's address is marked exactly when a packet is stored for it |
| `RetainedMessages.StoresLast` | thirdparty/mochi-mqtt-server/topics.go:487-498 | over every run the packet stored for a topic is the last one published to it, and none when that one was empty |
| `TopicTrie.Trie.Scan` | thirdparty/mochi-mqtt-server/topics.go:685-720 | the recursion over particles visits exactly the addresses the walk gathers from |
| `TopicQuery.GatherSubscriptions` | thirdparty/mochi-mqtt-server/topics.go:739-751 | the loop merges one entry's counting subscriptions into the result |
| `TopicQuery.GatherAllMeaning` | thirdparty/mochi-mqtt-server/topics.go:723-752 | over all visited entries a client is returned exactly when one counts, merging exactly those: highest QoS, no-local when any asks for it, all identifiers of the first and every other's own |
| `TopicQuery.GatherShared` | thirdparty/mochi-mqtt-server/topics.go:775-787 | members are collected under their own full filter with the subscription stored there, none lost |
| `TopicQuery.Subscribers` | thirdparty/mochi-mqtt-server/topics.go:617-624 | the query on the pointer structure returns exactly what the walk finds: shared and inline subscriptions as stored, and ordinary ones combining all that count for the client |
| `TopicQuery.SubscriberRoutingPlan` | thirdparty/mochi-mqtt-server/topics.go:665-682 | one member node per shared filter the full query finds, the local one whenever it is a member; targets are the ordinary matches and every chosen remote node |
| `PacketIds.NextPacketId` | thirdparty/mochi-mqtt-server/clients.go:282-307 | the loop returns the first free id counting up from the cursor and on from 1, and 0 exactly when all of 1..65535 are taken |
| `PacketIds.ExhaustedIffFull` | thirdparty/mochi-mqtt-server/clients.go:289-291 | the search fails exactly when all of 1..65535 are taken |
| `PacketIds.AllocatorsAgree` | internal/broker/redis_session.go:1384-1402 | the two searches agree position by position |
| `PacketIds.FullByCount` | internal/broker/offline_packet_id.go:16-18 | a set of 65535 valid ids is all of them |
| `InflightStore.NextOfflinePacketCounter` | internal/broker/offline_packet_id.go:13-27 | the script over the stored hash returns the first position after the counter, within one round, whose id no row blocks |
| `InflightStore.OfflineAgreesWithLive` | internal/broker/redis_session.go:1384-1402 | from matching cursors and the same blocked ids the script and the live client choose the same id, and the counters match again |
| `InflightStore.NextOfflineFree` | internal/broker/offline_packet_id.go:19-25 | a returned counter names an id free in every form the schema looks at |
| `InflightStore.LegacyExhaustedIff` | internal/broker/offline_packet_id.go:16-26 | under schema 1 the search fails exactly on 65535 rows of any kind or when every id has a numeric row |
| `InflightStore.LegacyExhaustedIffFull` | internal/broker/offline_packet_id.go:16-18 | with numeric rows only, exhaustion is reported exactly when no id is free |
| `InflightStore.ShortcutWrongIff` | internal/broker/offline_packet_id.go:16-18 | the shortcut answers wrongly exactly for a hash of 65535 or more rows with a free id |
| `InflightStore.ForeignRowsWitness` | internal/broker/offline_packet_id.go:16-18 | such a hash exists as a value: 65535 inbound rows |
| `InflightStore.DirectionalExhaustedIffFull` | internal/broker/offline_packet_id.go:19-26 | under schema 2 exhaustion means every id is held by a numeric or an outbound row |
| `InflightStore.MigrationPreservesView` | internal/broker/redis_session.go:515-528 | moving one field changes no logical (direction, id) row |
| `InflightStore.EnqueueExtendsView` | internal/broker/redis_session.go:1391-1414 | an enqueue into a partly migrated hash neither shadows a row nor is shadowed |
| `InflightStore.MigrateLegacyInflightFields` | internal/broker/redis_session.go:620-652 | a full pass leaves the same logical rows and no numeric field |
| `InflightStore.MigratedHashIsView` | internal/broker/redis_session.go:620-652 | afterwards the hash is literally its logical view |
| `RedisProtocolProofs.StepInv` | internal/broker/redis_session.go:1341-1445 | every step of every process, environment step and crash keeps the protocol invariants |
| `RedisProtocolTheorems.CommitAddsOneRow` | internal/broker/redis_session.go:1404-1421 | in every run a committing enqueue adds one previously absent row, changes no other row of any client, advances the counter and sets a marker that was absent |
| `RedisProtocolTheorems.AtMostOneCommitPerPublish` | internal/broker/redis_session.go:1341-1445 | over every interleaving at most one enqueue commits per publish and client while its dedup marker lives |
| `RedisProtocolTheorems.OnlyCommitsCount` | internal/broker/redis_session.go:1404-1442 | only such a commit raises that count, by one |
| `RedisProtocolTheorems.ActivationFences` | internal/broker/redis_session.go:530-618 | once the marker is 2 it stays 2 and no process, however stale its cached schema, adds or changes a numeric field |
| `RedisProtocolTheorems.LegacyHashesNumeric` | internal/broker/redis_session.go:304-324 | before activation every hash holds numeric fields only |
| `RedisProtocolTheorems.ShortcutSoundInEveryRun` | internal/broker/offline_packet_id.go:16-18 | in every run, while schema 1 is in force, the search reports exhaustion exactly when no id is free |
| `RedisProtocolTheorems.NeverChangedRepeatedly` | internal/broker/redis_session.go:848-905 | the two-attempt retry loops never end in "changed repeatedly" |
| `RedisProtocolTheorems.MigrationStepPreservesViews` | internal/broker/redis_session.go:620-652 | no migration step in any interleaving changes any client's logical rows |
| `RedisOutcomes.EndsIff` | internal/broker/redis_session.go:1358-1442 | in every run a turn ends a process with an outcome exactly on its grounds: duplicate for a marker that is set, exhaustion for no free id or the stale count, a mode conflict for a fixed mode other than the marker, contention for the last attempt used up, queued for an undisturbed EXEC |
| `RedisOutcomes.ContentionAfterAborts` | internal/broker/redis_session.go:1358-1445 | contention is reported only after exactly 32 aborted EXECs of that enqueue |
| `RedisOutcomes.QueuedIff` | internal/broker/redis_session.go:1358-1421 | in every run an enqueue left alone stores its message at the first free id exactly when the mode allows the schema, the publish is not marked for the client, and an id is free; otherwise nothing changes |
| `RedisRaces.RefusedWithFreeId` | internal/broker/offline_packet_id.go:16-18 | a run in which activation overtakes an enqueue, which is refused for lack of ids with one free |
| `RedisMutations.MutationApplies` | internal/broker/redis_session.go:848-905 | in every run a fenced write shows its message, an insert only where nothing was, a delete removes the row it is meant for; no other client or id is touched |
| `RedisMutations.MutationAlone` | internal/broker/redis_session.go:848-905 | left alone, such an operation is carried out within three commands, except on a node whose fixed mode is not the schema in force |
| `RedisMutations.CompletionRemoves` | internal/broker/redis_session.go:479-488 | PUBACK, PUBREC and PUBCOMP complete an outbound row, PUBREL an inbound one |
| `RedisMutations.DropRemovesOwnIff` | internal/broker/redis_session.go:490-499 | a drop removes the packet's own row except a PUBREL's under its directional field |
| `RedisMutations.MigrationMoves` | internal/broker/redis_session.go:620-652 | in every run a migration turn takes its numeric field out of the hash and leaves the message under its directional field |
| `RedisMutations.ActivationSets` | internal/broker/redis_session.go:530-618 | the activation sets the marker to 2 and touches no row |
| `OfflineLock.MutualExclusion` | internal/broker/redis_session.go:159-193 | in every interleaving with cancelled waiters at most one goroutine holds a client's lock |
| `OfflineLock.EntryExactlyWhileUsed` | internal/broker/redis_session.go:159-193 | the lock table holds a client's entry exactly while some goroutine waits for it or holds it |
| `OfflineLock.OnlyHoldersBlock` | internal/broker/redis_session.go:159-193 | a waiter can proceed unless another goroutine holds that client's lock |
| `PacketQueue.Queue.TryPush` | thirdparty/mochi-mqtt-server/packet_queue.go:40-87 | the ring buffer with growth and wrap-around appends to the bounded queue it stands for, or refuses exactly when closed or full; with limit 0 the packet is handed to a waiting consumer or refused |
| `PacketQueue.Queue.Grow` | thirdparty/mochi-mqtt-server/packet_queue.go:59-77 | growing keeps the packets in order and never exceeds the limit |
| `PacketQueue.Unroll` | thirdparty/mochi-mqtt-server/packet_queue.go:71-76 | the two copies lay the wrapped contents out in order |
| `PacketQueue.RingUnrolled` | thirdparty/mochi-mqtt-server/packet_queue.go:71-76 | a full ring laid out that way is the same queue from index 0 |
| `PacketQueue.Queue.PopLocked` | thirdparty/mochi-mqtt-server/packet_queue.go:106-129 | the locked pass of pop takes the oldest packet, and a drained queue takes back a stale token |
| `PacketQueue.Queue.Close` | thirdparty/mochi-mqtt-server/packet_queue.go:147-156 | closing empties the queue and returns how many packets it dropped |
| `PacketQueue.RingPush` | thirdparty/mochi-mqtt-server/packet_queue.go:78-79 | storing behind the window appends, and the slots outside stay empty |
| `PacketQueue.RingPop` | thirdparty/mochi-mqtt-server/packet_queue.go:112-115 | clearing the head slot removes the first packet, and no delivered packet is retained |
| `OutboundRun.StepInv` | thirdparty/mochi-mqtt-server/clients.go:198-213 | every step of publishers, write loop and Stop keeps order, bound, count and wakeup |
| `OutboundRun.FifoInEveryRun` | thirdparty/mochi-mqtt-server/packet_queue.go:40-156 | in every interleaving what was taken is a prefix of what was accepted, the rest is queued unless a close dropped it, and the limit holds |
| `OutboundRun.PendingCount` | thirdparty/mochi-mqtt-server/server.go:1373-1377 | the pending-write counter equals queued plus in-hand plus mid-publish packets, plus those a close is about to subtract; it ends at 0 |
| `OutboundRun.NoMissedWakeup` | thirdparty/mochi-mqtt-server/packet_queue.go:129-134 | the consumer is stuck exactly when it has left, or sleeps on an open, empty queue that nobody has asked to stop |
| `OutboundRun.AcceptedWhileRoom` | thirdparty/mochi-mqtt-server/packet_queue.go:40-58 | in every interleaving a push is accepted exactly while the queue is open and has room |
| `TopicAliases.OutboundTopicAliases.Set` | thirdparty/mochi-mqtt-server/topics.go:92-113 | an existing alias is reused, a new one takes the next number up to the maximum |
| `TopicAliases.OutboundTopicAliases.Delete` | thirdparty/mochi-mqtt-server/topics.go:117-123 | the alias goes only while the topic still has that number |
| `TopicAliases.InboundTopicAliases.Set` | thirdparty/mochi-mqtt-server/topics.go:58-72 | a topic registers, an empty topic asks, and an unknown number resolves to nothing |
| `TopicAliases.AliasRoundTrip` | thirdparty/mochi-mqtt-server/server.go:1359-1395 | for every run of publishes with failed enqueues, replaying the enqueued packets through the receiver's table recovers every topic |
| `TopicAliases.FreshConnectionRoundTrip` | thirdparty/mochi-mqtt-server/server.go:1359-1395 | the same from empty tables |
| `TopicAliases.NumbersNeverShared` | thirdparty/mochi-mqtt-server/topics.go:92-123 | over every run each number lies in 1..maximum and is never given to two topics |
| `TopicAliases.NumbersUsed` | thirdparty/mochi-mqtt-server/topics.go:92-113 | over every run a publish goes without a number only when all of them were issued before |
| `TopicAliases.AliasReplacesTopic` | thirdparty/mochi-mqtt-server/server.go:1359-1371 | once a topic was sent with a number, later packets carry the number alone until an enqueue of it fails |
| `Client.Client.NextId` | thirdparty/mochi-mqtt-server/clients.go:282-307 | the cursor moves to the first free id, and stays when none is free |
| `Client.Client.PublishSharedToClient` | thirdparty/mochi-mqtt-server/server.go:1119-1126 | an unknown client or one's own message is a fallback-eligible failure, anything else a shared delivery |
| `Client.Client.PublishToClientMode` | thirdparty/mochi-mqtt-server/server.go:1273-1396 | the method on the client's fields computes the delivery function, including every rollback path |
| `Client.Client.Enqueue` | thirdparty/mochi-mqtt-server/server.go:1343-1395 | connection check, alias reservation, counting and push, with what a refusal takes back |
| `Client.Client.ProcessPublish` | thirdparty/mochi-mqtt-server/server.go:873-1013 | quota, authorisation, duplicate check, alias, hook, retaining, acknowledgement and fan-out, in that order, with the inline client's shortcut |
| `Client.Client.ProcessPuback` | thirdparty/mochi-mqtt-server/server.go:1443-1455 | a known id is released and its quota returned |
| `Client.Client.ProcessPubrec` | thirdparty/mochi-mqtt-server/server.go:1458-1476 | the message is replaced by its PUBREL, or dropped on a failure code; a failed write of the PUBREL is reported |
| `Client.Client.ProcessPubrel` | thirdparty/mochi-mqtt-server/server.go:1479-1508 | the inbound flow ends; a failed write leaves the PUBCOMP state |
| `Client.Client.ProcessPubcomp` | thirdparty/mochi-mqtt-server/server.go:1511-1521 | the outbound flow ends and both quotas rise |
| `Client.Client.SendNextHeld` | thirdparty/mochi-mqtt-server/server.go:726-735 | one held message leaves when quota is free |
| `ClientSessionTheorems.FreshId` | thirdparty/mochi-mqtt-server/clients.go:282-307 | the allocated id is free, so storing under it and deleting it changes nothing |
| `ClientSessionTheorems.SafeFailureRollsBack` | thirdparty/mochi-mqtt-server/server.go:1260-1396 | a fallback-eligible failure of a shared attempt restores the outbound map and pending count; the send quota exactly when the error is not a persistence error below the maximum |
| `ClientSessionTheorems.SafeFailureLeaves` | thirdparty/mochi-mqtt-server/server.go:1256-1265 | when the persistence hook returns no fallback-eligible code, the whole state left behind: only the id cursor has moved, and a refused enqueue has taken the topic's alias back |
| `ClientSessionTheorems.AliasTakenBackMeans` | thirdparty/mochi-mqtt-server/server.go:1376-1381 | the topic has no alias afterwards, also when it had one before, and the number cursor never goes back |
| `ClientSessionTheorems.PersistenceErrorRaisesQuota` | thirdparty/mochi-mqtt-server/server.go:1327-1333 | a run from a fresh session: the quota is used up by an unacknowledged message, and a failing shared attempt gives it back |
| `ClientSessionTheorems.AcceptedAddsOneRow` | thirdparty/mochi-mqtt-server/server.go:1302-1341 | an accepted delivery adds at most one row, under a free id, and changes no other |
| `ClientSessionTheorems.QuotasInEveryRun` | thirdparty/mochi-mqtt-server/inflight.go:234-272 | over every run both quotas stay between 0 and their maximum |
| `ClientSessionTheorems.OneFanOutPerPubrel` | thirdparty/mochi-mqtt-server/server.go:908-1013 | on a session that is not inline, over every run in which a fanned-out QoS 2 publish stays at QoS 2, a PUBREL for an id lies between any two fan-outs of QoS 2 publishes carrying it, whatever flows the other way |
| `ClientSessionTheorems.PubrelRuleIff` | thirdparty/mochi-mqtt-server/server.go:908-1013 | for a server maximum and the answers its publish hooks may give, that rule holds of every run exactly when QoS 2 stays 2 through both and the client is not inline |
| `ClientSessionTheorems.LoweredRepeats` | thirdparty/mochi-mqtt-server/server.go:944-946 | lowered by the maximum or by the hook, or on the inline client, a repeated publish is fanned out twice |
| `ClientFlows.PublishEvents` | thirdparty/mochi-mqtt-server/server.go:873-1013 | a publish is fanned out, once, exactly when the checks and the hook admit it, it is not to be ignored, and any acknowledgement due was written; it is retained exactly when admitted, not ignored and asking for it |
| `ClientFlows.PublishState` | thirdparty/mochi-mqtt-server/server.go:873-1013 | it costs a unit of receive quota exactly while an answer is owed or PUBREL awaited, a QoS 2 publish leaves a PUBREC, and nothing else changes; an error is never fanned out |
| `ClientFlows.PublishErrors` | thirdparty/mochi-mqtt-server/server.go:873-1013 | when a received publish ends in an error |
| `ClientFlows.LeastQos` | thirdparty/mochi-mqtt-server/server.go:1292-1300 | a delivery's QoS is the least of packet, subscription and server maximum |
| `ClientFlows.DeliveredIff` | thirdparty/mochi-mqtt-server/server.go:1273-1396 | exactly when a delivery is accepted, and what an accepted one adds to queue and aliases |
| `ClientFlows.DeliveryErrors` | thirdparty/mochi-mqtt-server/server.go:1273-1396 | which error a failed delivery reports |
| `ClientFlows.DoubtComesFromHooks` | thirdparty/mochi-mqtt-server/server.go:1256-1265 | a shared attempt leaves doubt only through an error of the persistence hook |
| `ClientFlows.AcceptedStores` | thirdparty/mochi-mqtt-server/server.go:1302-1341 | an accepted delivery above QoS 0 is stored under the first free id with the least QoS, held back exactly when the quota is used up |
| `ClientFlows.PubackReturns` | thirdparty/mochi-mqtt-server/server.go:1443-1455 | delivery and PUBACK together change neither rows nor quota |
| `ClientFlows.PubcompReturns` | thirdparty/mochi-mqtt-server/server.go:1458-1521 | delivery, PUBREC and PUBCOMP together change neither rows nor quotas, with a PUBREL in between |
| `ClientFlows.AcksTouchOne` | thirdparty/mochi-mqtt-server/server.go:1443-1521 | each acknowledgement touches the row of its own id only, with its exact effect on the quotas |
| `Placement.MixBijective` | internal/session/placement.go:44-52 | the score finalizer is a bijection on 64-bit words |
| `Placement.TieIffCollision` | internal/session/placement.go:44-52 | two nodes tie for a client exactly when their hashes collide |
| `Placement.ScoreUndone` | internal/session/placement.go:44-52 | undoing the finalizer on a score gives back the exclusive-or of the two hashes |
| `Placement.ScoreSymmetric` | internal/session/placement.go:44-45 | client and node weigh alike |
| `Placement.Owner` | internal/session/placement.go:15-29 | the loop returns the first of the highest-ranked nodes, or nothing for an empty list |
| `Placement.OwnerHighest` | internal/session/placement.go:15-29 | the owner is listed, none ranks higher, and all listed before it rank lower |
| `Placement.MinimalDisruption` | internal/session/placement.go:5-14 | without collisions a membership change moves only sessions whose owner left or whose new owner joined, and reordering moves none |
| `Placement.OrderIrrelevantIff` | internal/session/placement.go:22-27 | the owner depends only on which nodes are listed exactly when no other node ties with it |
| `Words.ShiftUndone` | internal/session/placement.go:46-50 | a shift-xor by more than a third of the width is undone by shifting twice |
| `Reconciler.ReconcileOnce` | internal/session/reconciler.go:80-123 | every Place call names a listed filter that is not where it belongs, successful ones move it there, nothing else moves, and every listed filter is tried or there; a fully successful pass settles them all, and a settled inventory places nothing |
| `Reconciler.ReconcileSession` | internal/session/reconciler.go:108-118 | every filter of the session that has drifted is tried whatever became of the others, and a failed call changes nothing |
| `Reconciler.ReconcileTwice` | internal/session/reconciler.go:80-123 | after a pass in which every placement succeeds the next one places nothing |
| `Membership.Membership.ReconcileRedisPrimary` | internal/cluster/membership/redis_failover.go:159-247 | the tick method computes the step function |
| `Membership.Membership.BootstrapRedisPrimary` | internal/cluster/membership/redis_failover.go:253-286 | the first designation prefers this node, and a sole core is told to be primary |
| `Membership.Membership.EnsureReplicasConfigured` | internal/cluster/membership/redis_failover.go:296-338 | one command per other core, stopping when leadership is lost |
| `Membership.Membership.FailoverRedisPrimary` | internal/cluster/membership/redis_failover.go:344-398 | sort by name, ping, leadership check, one promotion, then the designation |
| `RedisFailoverTheorems.SearchFinds` | internal/cluster/membership/redis_failover.go:357-381 | a promote command goes exactly to the first other node that answers a ping while this node still leads |
| `RedisFailoverTheorems.LowestReachableAsked` | internal/cluster/membership/redis_failover.go:351-381 | the node asked has the lowest name among the reachable ones |
| `RedisFailoverTheorems.CandidateOrderFree` | internal/cluster/membership/redis_failover.go:351-354 | the failover is the same in whatever order the members are listed |
| `NodeOrder.OneOrder` | internal/cluster/membership/redis_failover.go:354 | members with distinct names can be sorted in one way only, so the library sort gives the modelled list |
| `RedisFailoverTheorems.OneAttemptPerTick` | internal/cluster/membership/redis_failover.go:344-398 | a tick sends at most one promote command and moves the designation at most once, away from the committed primary |
| `RedisFailoverTheorems.DesignationLeavesOnlyAfterFailure` | internal/cluster/membership/redis_failover.go:159-247 | in every run the designation leaves a primary only after a failure recorded more than the threshold before, with no success and no non-leader tick since, and only to the node that acknowledged its promotion |
| `RedisFailoverTheorems.WindowLivesUntil` | internal/cluster/membership/redis_failover.go:159-247 | a failure window keeps its date until a tick starts without leadership, finds the primary healthy, or moves the designation; losing leadership during a tick does not close it |
| `RedisFailoverTheorems.WindowOutlivesTerm` | internal/cluster/membership/redis_failover.go:160-166 | a run in which a failover rests on a failure seen in an earlier term |
| `RedisFailoverTheorems.WindowOpens` | internal/cluster/membership/redis_failover.go:199-230 | a window opens, dated now, exactly when a leader's tick finds its primary absent or silent and none is open |
| `RedisFailoverTheorems.FailoverActs` | internal/cluster/membership/redis_failover.go:344-398 | past the threshold the first reachable node is asked; its acknowledgement and a commit move the designation, close the window and tell the others; otherwise nothing more happens |
| `RedisFailoverTheorems.TickRests` | internal/cluster/membership/redis_failover.go:159-240 | a tick within the grace period, with one voter, without a voter count, or with leadership lost during the ping changes nothing |
| `RedisFailoverTheorems.ConfigureTellsAll` | internal/cluster/membership/redis_failover.go:296-338 | every other listed core up to the loss of leadership is told once to follow the primary, and nobody when its address is missing or malformed |
| `RedisFailoverTheorems.BootstrapDesignates` | internal/cluster/membership/redis_failover.go:253-286 | the first designation goes to a visible node, this one whenever visible, followed by the commands to the others or to a sole core |

## Left out

- Authentication, certificates, tenants, HTTP interfaces, telemetry, the command line, the simulator and the Kafka connectors: plumbing without a delivery property of its own.
- The raft state machine, the routing registry and the ownership store: the model takes the committed designation, the routing index and the owner map as given.
- migrateLegacySchema (internal/broker/redis_session.go:335-433): its inflight writes are not fenced by the schema and stay outside the fence invariant.
- Exact conservation of the send and receive quotas: the code does not keep it; bounds and the rollback of a shared attempt are proved instead.
- Server-wide counters such as the total of inflight messages: entries cloned on takeover are not recounted by the code.
- Equality of in-memory and persisted inflight rows across drop, expiry and resend: the two key rules differ in the code.
- Wills, session expiry, takeover, rate limits, rebalancing and access rules: none of them decides who receives a publish.
- Delivery of retained messages to new subscriptions: the walk over the stored topics is not modelled, only their storage.
- DeliverOffline's loop over a node's own offline sessions: the Redis protocol models each enqueue it makes.
- Races between packet-id allocation and storing the row, and inside one quota update: a session handler is one step; only the queue, the lock and the Redis protocol are split into their atomic sections.
- The in-place sharing of an identifier map between copies of a subscription is not modelled.
- FNV-1a is a function parameter of the placement; the message encoding and the transport are not modelled.
- isolateParticle for a negative depth: no caller passes one.
- Client.Client.ProcessPublish: takes the alias lookup and the topic check as inputs; the alias tables are `TopicAliases`.
