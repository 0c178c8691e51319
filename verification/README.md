# A model of the admin client

This project models the parts of the admin client that decide, over many requests, where each request goes and what
each caller gets: the retry and routing drivers, the recovery protocol of the connection, and the calls built on them.
It states what they promise for every sequence of broker answers and every outcome of the deadlines, and proves it.

Brokers, dials and clocks are functions of the round, attempt or event number, so that a statement for all such
functions is a statement for all runs. The loops of the client are methods over the same collections that the client
keeps; each is proved equal to a specification, and the laws are proved of the specification. The recovering
connection, the replica results and the set of classic groups are objects that change in place.

| module | what it holds |
|---|---|
| `Base`, `Order`, `HostPort` | errors, the retry deadline, ordered iteration of maps and sets, `host:port` addresses |
| `Rounds`, `Boards` | the loop that every batched call runs, and what each round may do with a key |
| `GroupLookup`, `GroupDriver`, `GroupEffects`, `GroupCall` | finding coordinators, the batched group call, and what each answer does in it |
| `ConsumerDescribe`, `ConsumerAnswers`, `ConsumerRuns`, `ConsumerRounds` | describing consumer groups, with calls that interleave over a shared set |
| `LeaderDriver`, `LeaderEffects`, `LeaderCall`, `ListOffsets` | the leader-routed call, what each answer does in it, and its client |
| `Recovery`, `RecoveryLaws`, `RecoveryEffects`, `RecoveryCauses` | the recovery protocol, what every part of it keeps, what each answer and dial does, and why it rebootstraps |
| `RecoveringConnection`, `SharedConnection` | the object that runs it, and requests that share it |
| `ReplicaLogDirs` | the completion of replica results |
| `ListGroups`, `GroupOffsets`, `ByTopic` | listing groups, committing and fetching offsets, requests grouped by topic |
| `Configs`, `AlterConfigs`, `Quotas` | config routing and the quota difference |

Where the client and its documentation differ, the model follows the client:

- `coordinator_lookups` is said to keep an omitted key in the lookup. For a lone key with an empty entry list the
  top-level fields decide (`GroupLookup.OmittedKeyIsLookedUpAgain`).
- The metadata request of the leader call drops only adjacent repeats of a topic, and only the first round is sorted
  (`LeaderDriver.DistinctExactlyWhenContiguous`, `LeaderDriver.LaterRequestCanRepeatATopic`).
- `list_groups_min_version` is said to be the lowest version that carries the filters. It is a version that keeps
  their meaning, but not always the lowest (`ListGroups.MinVersionIsLeastExactlyWhen`).
- A timestamp lookup of -1 to -6 has the wire value of a named offset spec, so the leader cannot tell them apart
  (`ListOffsets.SpecsCollide`, `ListOffsets.SpecReadsBack`).
- A timestamp lookup is said to need version 1. A time below -2 is a special value that leaders know only from a later
  version, or never (`ListOffsets.MinVersionIsLeastExactlyWhen`).

## Model

| member | source | states |
|---|---|---|
| `HostPort.AddressesAgree` | crates/client-admin/src/lib.rs:873-879 | two addresses are equal if and only if the ports are equal and the hosts are equal up to the brackets of an IPv6 host |
| `HostPort.DecimalInjective` | crates/client-admin/src/lib.rs:873-879 | different ports are written differently |
| `Base.VerdictsAreNoConnectionFailures` | crates/client-admin/src/retry.rs:185-197 | the failures that no connection failure is: every verdict of a peer or of the client itself |
| `Base.FailedCallsByCode` | crates/client-admin/src/groups.rs:1675-1717 | which code a failed call gets for each kind of failure, and that the failure is kept |
| `Rounds.RunIsLinked` | crates/client-admin/src/group_coordinators.rs:284-376 | every run of a retry loop is a list of rounds, each from the state that the one before it left, with the answers of its own round number |
| `Rounds.RoundsAreBounded` | crates/client-admin/src/retry.rs:125-176 | a call makes at most one round more than the retries that are left |
| `Rounds.IncompleteOnlyAtTheLimit` | crates/client-admin/src/group_coordinators.rs:363-376 | a call stops with something pending only at its deadline or after its last retry |
| `Rounds.RoundsGoOnOnlyInTime` | crates/client-admin/src/retry.rs:125-176 | no round follows one that ended at the deadline, whose backoff did, or that used up the retries |
| `Boards.KeysStay` | crates/client-admin/src/group_coordinators.rs:275-381 | no round of any run gains or loses a key |
| `Boards.SettledStays` | crates/client-admin/src/group_coordinators.rs:294-361 | a settled key keeps its result, is in no later lookup and is sent nowhere again |
| `Boards.SettledOnce` | crates/client-admin/src/group_coordinators.rs:294-361 | a key that is settled at the end was settled in a round of the run, with that result |
| `Boards.NoSecondSettling` | crates/client-admin/src/group_coordinators.rs:294-361 | no key is settled in two rounds |
| `Boards.CallsFollowTheLatestLookup` | crates/client-admin/src/group_coordinators.rs:286-361 | a key is sent to a target only if its latest lookup found that target and every round since kept it there |
| `GroupLookup.CollectEntries` | crates/client-admin/src/group_coordinators.rs:143-158 | the local map of a FindCoordinator answer, where the last entry of a key counts |
| `GroupLookup.LastEntryCounts` | crates/client-admin/src/group_coordinators.rs:143-158 | the last entry of a key is its lookup |
| `GroupLookup.TakeEntries` | crates/client-admin/src/group_coordinators.rs:159-168 | taking entries out of that map gives each key its entry once, and a key without one another lookup |
| `GroupLookup.CoordinatorLookups` | crates/client-admin/src/group_coordinators.rs:126-169 | the lookup of each key in one answer, for both shapes of the answer |
| `GroupLookup.OneLookupPerKey` | crates/client-admin/src/group_coordinators.rs:197-232 | whatever the broker answers, one lookup for each key in key order |
| `GroupLookup.LookupsAskFor` | crates/client-admin/src/group_coordinators.rs:197-232 | the batched request is made exactly when the peer offers v4 and still does when it answers; otherwise each key is asked alone |
| `GroupLookup.BatchedRefinesSingle` | crates/client-admin/src/group_coordinators.rs:197-232 | for one broker the batched v4 answer, with its entries in any order, and the answers to one request per key give the same list of lookups |
| `GroupLookup.OmittedKeyIsLookedUpAgain` | crates/client-admin/src/group_coordinators.rs:126-169 | a key that the answer omits is looked up again if and only if it is not alone, or the entry list is not empty, or the top-level code retries |
| `GroupDriver.RunIsAChain` | crates/client-admin/src/group_coordinators.rs:284-376 | every run of the group call is a chain of rounds that move each group only as a round may |
| `GroupDriver.OneResultPerGroup` | crates/client-admin/src/group_coordinators.rs:265-382 | for any answers and any deadline the result has exactly the requested groups |
| `GroupDriver.BatchesPartition` | crates/client-admin/src/group_coordinators.rs:310-317 | each mapped group is in one batch and no other, and two groups share a batch if and only if their coordinators agree on port and host up to IPv6 brackets |
| `GroupDriver.SettledGroupIsNotAskedAgain` | crates/client-admin/src/group_coordinators.rs:294-361 | a settled group keeps its value to the end and is in no later lookup or batch |
| `GroupDriver.BatchesFollowTheLatestLookup` | crates/client-admin/src/group_coordinators.rs:286-361 | every group of every batch was found at that address by its latest lookup, and kept there by each round since |
| `GroupDriver.EveryResultHasASource` | crates/client-admin/src/group_coordinators.rs:294-380 | each final value is a done outcome, a failed lookup or a call error that is no connection failure, from one round; the timeout is only for groups pending when the run stops at its limit |
| `GroupEffects.OutcomesByCode` | crates/client-admin/src/group_coordinators.rs:74-90 | codes 14 and the given ones retry on the coordinator, 15 and 16 look it up again, every other code is final, as an if and only if |
| `GroupEffects.LookupsByCode` | crates/client-admin/src/group_coordinators.rs:106-119 | code 0 is the coordinator, 14 and 15 look up again, every other code is final, as an if and only if |
| `GroupEffects.FailedRequestLookups` | crates/client-admin/src/group_coordinators.rs:175-184 | a failed lookup request looks every key up again after a connection failure, and fails it otherwise |
| `GroupEffects.AnswerTakesEffect` | crates/client-admin/src/group_coordinators.rs:323-376 | every answer has its effect on every group of its batch: a done outcome, or an error that is no connection failure, is the result of the group; a retried or omitted group, or an unanswered batch, keeps its coordinator with no new lookup; an unmapped group, or a failed connection, loses it |
| `GroupEffects.LookupTakesEffect` | crates/client-admin/src/group_coordinators.rs:286-308 | every lookup has its effect: a found coordinator gets the group in that round, a final error is its result, and otherwise it is looked up again |
| `GroupCall.PlaceLookups` | crates/client-admin/src/group_coordinators.rs:294-307 | placing the lookups moves each group to the collection of its lookup |
| `GroupCall.LookUp` | crates/client-admin/src/group_coordinators.rs:286-308 | the lookup part of a round over the collections, or nothing if and only if the deadline passes first |
| `GroupCall.GroupByCoordinator` | crates/client-admin/src/group_coordinators.rs:310-317 | one batch for each address, with all its mapped groups in order and the endpoint of the first |
| `GroupCall.ApplyAnswer` | crates/client-admin/src/group_coordinators.rs:323-361 | an answer moves each group of its batch as its outcome says, and no other group |
| `GroupCall.CallBatches` | crates/client-admin/src/group_coordinators.rs:318-361 | the call part of a round over the collections |
| `GroupCall.TimeOutPending` | crates/client-admin/src/group_coordinators.rs:377-380 | the groups left in `mapped` and `unmapped` get the timeout |
| `GroupCall.CallGroupCoordinators` | crates/client-admin/src/group_coordinators.rs:265-382 | the loop over `unmapped`, `mapped` and `out` gives the result of the specified run; at every loop head the three are pairwise disjoint and together the requested groups |
| `ConsumerAnswers.ClassicGroups.constructor` | crates/client-admin/src/group_descriptions.rs:601-601 | no group starts in the classic set |
| `ConsumerAnswers.ClassicGroups.MoveGroups` | crates/client-admin/src/group_descriptions.rs:633-639 | moves groups to the classic set in place and keeps the entries that are there |
| `ConsumerAnswers.ClassicGroups.ReadConsumer` | crates/client-admin/src/group_descriptions.rs:324-343 | reads the rows of ConsumerGroupDescribe, moving the groups that are not found or not supported |
| `ConsumerAnswers.ClassicGroups.GiveEach` | crates/client-admin/src/group_descriptions.rs:376-390 | gives every group of a failed request its outcome |
| `ConsumerAnswers.ClassicGroups.StartCall` | crates/client-admin/src/group_descriptions.rs:618-642 | the part of a call up to its first request: the groups that are not classic, and no others, are asked on ConsumerGroupDescribe, and all of them become classic when the coordinator does not advertise it |
| `ConsumerAnswers.ClassicGroups.ConsumerAnswered` | crates/client-admin/src/group_descriptions.rs:642-670 | from the rows alone: exactly the groups of a row with code 35 or 69 move, with the message of a 69; every other row gives its outcome by its code; a failed request moves, returns or fails its groups by its kind |
| `ConsumerAnswers.ClassicGroups.ClassicAnswered` | crates/client-admin/src/group_descriptions.rs:671-681 | from the rows alone: the last row of a group gives its outcome by its code, protocol type and decoding, with the message of its move for a 69; a failed request fails every asked group alike; no other outcome changes |
| `ConsumerAnswers.OnConsumerGives` | crates/client-admin/src/group_descriptions.rs:324-343 | the law behind the second segment: who moves, who gets which outcome, and who is asked next, for any rows, repeated ones too |
| `ConsumerAnswers.OnClassicGives` | crates/client-admin/src/group_descriptions.rs:345-361 | the law behind the third segment, for any rows, repeated ones too |
| `ConsumerAnswers.ConsumerAnswerSays` | crates/client-admin/src/group_descriptions.rs:491-513 | codes 35 and 69, and no others, move a group; every other code gives its outcome |
| `ConsumerAnswers.ClassicOutcomeSays` | crates/client-admin/src/group_descriptions.rs:520-567 | the outcome of a row by its code, and without an error by its protocol type and decoding |
| `ConsumerAnswers.StartAccounts` | crates/client-admin/src/group_descriptions.rs:618-642 | every group of a call is asked |
| `ConsumerAnswers.ConsumerAccounts` | crates/client-admin/src/group_descriptions.rs:642-670 | when the rows name every asked group, each has an outcome or is asked next |
| `ConsumerAnswers.ClassicAccounts` | crates/client-admin/src/group_descriptions.rs:671-682 | when the rows name every asked group, the returned map has every group of the call |
| `ConsumerDescribe.DroppedGivesNothing` | crates/client-admin/src/group_coordinators.rs:323-330 | a call that the deadline drops gives no outcome and loses no classic group |
| `ConsumerRuns.AnyStepKeepsClassic` | crates/client-admin/src/group_descriptions.rs:611-682 | whatever is answered, a step of any interleaving loses no classic group, and keeps the log orderly if and only if its answer is fine |
| `ConsumerRuns.AnyRunKeepsClassic` | crates/client-admin/src/group_descriptions.rs:596-682 | in every interleaved run, whatever the answers name: a group that moved to the classic API stays there and is in no later ConsumerGroupDescribe; DescribeGroups names only moved groups; a final GROUP_ID_NOT_FOUND comes from there with the message of the latest move |
| `ConsumerRuns.RunIsOrderlyExactlyWhen` | crates/client-admin/src/group_descriptions.rs:596-682 | the exact condition, row by row, on the answers of a run: each group moves at most once, gets at most one outcome from a call, and gets it from the API that it uses, if and only if every answer is fine |
| `ConsumerRuns.FineRunIsSafe` | crates/client-admin/src/group_descriptions.rs:596-682 | in every run with such answers a call gives a group at most one outcome, from the classic API once it moved, and a final GROUP_ID_NOT_FOUND carries the ConsumerGroupDescribe message when there was one |
| `ConsumerRuns.TwoOutcomesExactlyWhenTwoFinalRows` | crates/client-admin/src/group_descriptions.rs:311-361 | in every run, whatever the answers name, a call gives a group two outcomes if and only if its answers hold more than one final row for the group |
| `ConsumerRuns.NamingAGroupTwiceAsksBothApis` | crates/client-admin/src/group_descriptions.rs:324-343 | an answer that names a group twice gives it an outcome and sends it to the classic API too |
| `ConsumerRuns.NamingAnUnaskedGroupReplacesItsOutcome` | crates/client-admin/src/group_descriptions.rs:345-361 | a DescribeGroups answer that names an unasked group replaces the outcome that ConsumerGroupDescribe gave it |
| `ConsumerRounds.BatchesAreApart` | crates/client-admin/src/group_coordinators.rs:310-317 | the batches of a round have no group in common |
| `ConsumerRounds.DriverStartsApart` | crates/client-admin/src/group_coordinators.rs:310-322 | a call that the driver starts has distinct groups that are in no running call |
| `ConsumerRounds.DescribeRunIsSafe` | crates/client-admin/src/group_descriptions.rs:596-682 | every run of the driver whose answers name each asked group at most once and no other is safe in the same sense |
| `LeaderDriver.RunIsAChain` | crates/client-admin/src/partition_leaders.rs:236-332 | every run of the leader call is a chain of such rounds, and its queue is sound at every loop head |
| `LeaderDriver.KeysAreConserved` | crates/client-admin/src/partition_leaders.rs:229-337 | in every round `pending` has no repeats, holds no partition with a result, and together with the settled ones is the requested set; the result has one entry for each distinct key |
| `LeaderDriver.LookupLeaderMeans` | crates/client-admin/src/partition_leaders.rs:78-124 | on the rows of the metadata: the leader if and only if the first topic row and the first partition row have no error and a broker row has the id of the leader, with its address; another lookup if and only if a row is missing or has one of the listed codes; a final error if and only if it has another one |
| `LeaderDriver.BatchesFollowMetadata` | crates/client-admin/src/partition_leaders.rs:263-283 | a batch holds exactly the pending partitions whose topic and partition rows in the metadata of that round have no error and whose leader, by its own broker row, has the address of the batch |
| `LeaderDriver.LeadersAreFresh` | crates/client-admin/src/partition_leaders.rs:236-318 | every partition of a batch was looked up in the same round |
| `LeaderDriver.EveryResultHasASource` | crates/client-admin/src/partition_leaders.rs:251-337 | each final value comes from one round and never from a leader's code that retries; the timeout is only for partitions pending at the limit |
| `LeaderEffects.CallErrorsByKind` | crates/client-admin/src/partition_leaders.rs:148-166 | an error of a broker keeps its code and message, any other becomes -1 |
| `LeaderEffects.AnswerTakesEffect` | crates/client-admin/src/partition_leaders.rs:284-318 | every answer has its effect on every partition of its batch: a result whose code does not retry, or an error that is no connection failure, is the result; a code that retries, a failed connection or no answer in time sends the partition back to the lookup |
| `LeaderEffects.LeaderIsSent` | crates/client-admin/src/partition_leaders.rs:263-283 | a pending partition with a leader in the metadata is sent there in that round |
| `LeaderEffects.LeaderlessGoesBack` | crates/client-admin/src/partition_leaders.rs:263-283 | one without a leader goes back to the lookup |
| `LeaderEffects.FinalErrorIsGiven` | crates/client-admin/src/partition_leaders.rs:263-283 | one with a final error gets it |
| `LeaderEffects.FailedMetadataTakesEffect` | crates/client-admin/src/partition_leaders.rs:251-262 | a failed metadata request fails every pending partition, unless only the connection failed |
| `LeaderDriver.RequestNamesPendingTopics` | crates/client-admin/src/partition_leaders.rs:238-242 | the metadata request of every round names exactly the topics of the pending partitions |
| `LeaderDriver.DistinctExactlyWhenContiguous` | crates/client-admin/src/partition_leaders.rs:238-242 | the request names no topic twice if and only if the pending partitions of each topic stand together |
| `LeaderDriver.FirstRequestIsDistinct` | crates/client-admin/src/partition_leaders.rs:230-242 | the first request names no topic twice |
| `LeaderDriver.LaterRequestCanRepeatATopic` | crates/client-admin/src/partition_leaders.rs:238-318 | a run whose second request names a topic twice |
| `LeaderCall.CompleteResults` | crates/client-admin/src/partition_leaders.rs:172-202 | every asked key has a result, an omitted one an error, and no other key has one |
| `LeaderCall.SortByLeader` | crates/client-admin/src/partition_leaders.rs:264-278 | the batches by leader and the partitions without one, in the order of `pending`, and by the rows of the metadata |
| `LeaderCall.ApplyResults` | crates/client-admin/src/partition_leaders.rs:301-313 | a delivered answer settles or sends back each partition of its batch by its code, in key order |
| `LeaderCall.ApplyAnswer` | crates/client-admin/src/partition_leaders.rs:284-315 | the same for every kind of answer |
| `LeaderCall.CallLeaders` | crates/client-admin/src/partition_leaders.rs:279-315 | hearing the leaders one after the other gives what hearing each alone gives |
| `LeaderCall.AfterFailedMetadata` | crates/client-admin/src/partition_leaders.rs:251-262 | a failed metadata request sends every partition back or fails every one |
| `LeaderCall.RunRound` | crates/client-admin/src/partition_leaders.rs:236-318 | one round over `pending` and `out` is the specified round |
| `LeaderCall.CallPartitionLeaders` | crates/client-admin/src/partition_leaders.rs:218-338 | the loop gives the result of the specified run, with one entry for each distinct key |
| `ByTopic.GroupByTopic` | crates/client-admin/src/offsets.rs:124-146 | pushing each row onto the list of its topic gives one entry for each topic, in name order |
| `ByTopic.FlattenGrouped` | crates/client-admin/src/offsets.rs:118-150 | the grouped request is read back as a permutation of the rows, and names no topic twice |
| `ByTopic.FlattenHolds` | crates/client-admin/src/offsets.rs:118-150 | the reader of a grouped list sees exactly the rows that its topics hold, each with the name of its topic |
| `ListOffsets.BuildRequest` | crates/client-admin/src/offsets.rs:118-150 | the request for the supported keys |
| `ListOffsets.RequestFlattensBack` | crates/client-admin/src/offsets.rs:118-150 | the leader reads exactly the keys, each with its own timestamp |
| `ListOffsets.SpecsCollide` | crates/client-admin/src/offsets.rs:50-60 | two different specs have the same wire timestamp if and only if one is a timestamp lookup of the wire value of the other |
| `ListOffsets.SpecReadsBack` | crates/client-admin/src/offsets.rs:50-60 | the leader reads every spec back from its wire timestamp, except a time that is one of the special values |
| `ListOffsets.MinVersionIsLeastExactlyWhen` | crates/client-admin/src/offsets.rs:30-74 | the version of a spec is the least at which a leader knows its timestamp, if and only if the spec is not a time below -2 |
| `ListOffsets.RequiredVersionIsBoth` | crates/client-admin/src/offsets.rs:94-99 | a version suffices if and only if it suffices for the spec and for the isolation |
| `ListOffsets.RequestSaysTheAsk` | crates/client-admin/src/offsets.rs:118-150 | the leader reads the isolation that was asked, and for each partition the timestamp of the spec that was asked |
| `ListOffsets.SplitSupported` | crates/client-admin/src/offsets.rs:224-252 | the keys that the leader's version can answer, in order, and an error for each other one |
| `ListOffsets.ReadRows` | crates/client-admin/src/offsets.rs:153-177 | the results of an answer by partition |
| `ListOffsets.LastRowCounts` | crates/client-admin/src/offsets.rs:157-175 | the last row of a partition is its result, and there is none without a row |
| `ListOffsets.ListOffsetsOnLeader` | crates/client-admin/src/offsets.rs:255-276 | the call to one leader, with its results and the request that went out |
| `ListOffsets.OnlySupportedKeysGoOut` | crates/client-admin/src/offsets.rs:269-274 | a partition is on the wire if and only if the leader's version answers its spec, and then with its own timestamp |
| `ListOffsets.UnsupportedKeysFailAlone` | crates/client-admin/src/offsets.rs:224-276 | without the unsupported keys the same request goes out and every other key gets the same result |
| `ListOffsets.LookupIsRight` | crates/client-admin/src/offsets.rs:307-330 | every asked partition gets one result: from the metadata, the version gate or the leader of one round, never with a leader's code that retries; or the timeout, only for partitions pending when the lookup stops at its limit |
| `ListOffsets.RowTakesEffect` | crates/client-admin/src/offsets.rs:153-177 | the last row of a partition from a leader whose version suffices: without an error it is the listed offset, a code that retries sends the partition back to the lookup, any other code is its error |
| `ListOffsets.VersionGateTakesEffect` | crates/client-admin/src/offsets.rs:224-252 | a lookup that its leader cannot answer gets code 35 with the version that it needs |
| `ListOffsets.FailureTakesEffect` | crates/client-admin/src/offsets.rs:255-276 | a leader that refuses the dial or fails the request fails its batch, unless only the connection failed |
| `ListOffsets.ListOffsetsOf` | crates/client-admin/src/offsets.rs:307-330 | the client's call gives that result |
| `Recovery.NegotiatedAtLeast` | crates/client-admin/src/lib.rs:1276-1299 | the highest version that both sides know, and an error if and only if that is below the floor or there is none |
| `Recovery.Addresses` | crates/client-admin/src/lib.rs:1188-1196 | no address if and only if no node has a host and a positive port |
| `RecoveryLaws.DialControllerKeeps` | crates/client-admin/src/lib.rs:1632-1690 | a controller dial keeps what every part of a run keeps, and when it connects it discovered an address |
| `RecoveryLaws.DialEachKeeps` | crates/client-admin/src/lib.rs:1115-1175 | trying addresses in order stops at the first rejection and returns it |
| `RecoveryLaws.RebootstrappedKeeps` | crates/client-admin/src/lib.rs:1115-1143 | a rebootstrap keeps an address to dial and the timer that the run tells |
| `RecoveryLaws.ReconnectedKeeps` | crates/client-admin/src/lib.rs:1145-1175 | so does a reconnection |
| `RecoveryLaws.SendAfterRebootstrapKeeps` | crates/client-admin/src/lib.rs:1038-1059 | one send and one rebootstrap at most |
| `RecoveryLaws.SendAfterReconnectKeeps` | crates/client-admin/src/lib.rs:1061-1087 | two sends and one rebootstrap at most, and one send and none without a strategy |
| `RecoveryLaws.SendKeeps` | crates/client-admin/src/lib.rs:973-1087 | one request makes at most four sends and two rebootstraps, without a strategy two and none; a rejection on any dial, discovery or send is the last event and the result; an address to dial and the timer are kept |
| `RecoveryLaws.FourSendsAndTwoReboots` | crates/client-admin/src/lib.rs:973-1059 | a run that reaches the bound |
| `RecoveryLaws.SendSettles` | crates/client-admin/src/lib.rs:973-1087 | no Metadata answer with code 129 is returned; a returned one with brokers leaves the timer clear, and with usable nodes leaves exactly their addresses known |
| `RecoveryLaws.StalledMetadataRebootstraps` | crates/client-admin/src/lib.rs:1242-1257 | Metadata without brokers is returned only after a rebootstrap in the same request, or while the timer is below the trigger |
| `RecoveryLaws.OpenedIsSteady` | crates/client-admin/src/lib.rs:1502-1576 | the first connection has an address to dial and a clear timer, and a rejection ends it |
| `RecoveryLaws.RunIsSteady` | crates/client-admin/src/lib.rs:953-1274 | after any run of requests, reconnections and rebootstraps `known_addrs` is not empty and the timer is the one that the run tells |
| `RecoveryLaws.TimerIsTheFirstAttempt` | crates/client-admin/src/lib.rs:1224-1274 | the timer is never set without a strategy, and otherwise is the first Metadata attempt since the last cleared point, if there is one |
| `RecoveryEffects.GoodAnswerIsReturned` | crates/client-admin/src/lib.rs:982-1000 | a first answer that neither orders a rebootstrap nor has no brokers with the trigger reached is the result, over the same connection, with one send and nothing else on the network; the known addresses and the timer after it |
| `RecoveryEffects.BadAnswerRebootstraps` | crates/client-admin/src/lib.rs:984-995 | with the strategy, an order or stalled metadata is followed by a rebootstrap |
| `RecoveryEffects.OrderWithoutAStrategy` | crates/client-admin/src/lib.rs:984-990 | without it, an order is the error of the request |
| `RecoveryEffects.OtherFailureIsFinal` | crates/client-admin/src/lib.rs:1014-1014 | a failure other than a timeout, a disconnect and an input or output error is final after one send |
| `RecoveryEffects.UnofferedIsNotSent` | crates/client-admin/src/lib.rs:973-983 | a request that a controller does not advertise, or without a common version, does not go out |
| `RecoveryEffects.FirstThatConnects` | crates/client-admin/src/lib.rs:1152-1174 | dialling brokers gives the first that connects, after each address before it was dialled once, in order |
| `RecoveryEffects.FirstThatRejects` | crates/client-admin/src/lib.rs:1152-1174 | the first address that rejects the client ends the dialling with its error |
| `RecoveryEffects.NoneConnects` | crates/client-admin/src/lib.rs:1152-1174 | when none connects each was dialled once, in order, and the last failure is the cause |
| `RecoveryEffects.ControllerOfTheAnswer` | crates/client-admin/src/lib.rs:1649-1684 | the controller of an answer is its first row with the controller id, if and only if code, endpoint type and address allow it; the errors otherwise |
| `RecoveryEffects.ControllerIsReached` | crates/client-admin/src/lib.rs:1632-1690 | a controller is reached over the dialled node, by the highest version of the discovery request, and all usable nodes of its answer are learned |
| `RecoveryEffects.AddressesOfTheNodes` | crates/client-admin/src/lib.rs:1188-1193 | the addresses of an answer are exactly those of its nodes with a host and a port |
| `RecoveryEffects.AddressesInOrder` | crates/client-admin/src/lib.rs:1188-1193 | they are in the order of the nodes |
| `RecoveryEffects.ReconnectionRecovers` | crates/client-admin/src/lib.rs:1001-1013 | a lost request is sent once more over the first known address that connects, and a good answer there is the result |
| `RecoveryEffects.StrandedWithoutAStrategy` | crates/client-admin/src/lib.rs:1012-1012 | without a strategy, a lost request whose known addresses all fail ends with the error that lost it |
| `RecoveryEffects.RebootstrapRecovers` | crates/client-admin/src/lib.rs:1009-1011 | with it, the request is answered over the first bootstrap address that connects |
| `RecoveryEffects.ControllerRecovers` | crates/client-admin/src/lib.rs:1115-1175 | a reconnection and a rebootstrap to the controllers learn the controllers of the answer, and only the rebootstrap clears the timer |
| `RecoveryEffects.OpensOverTheFirst` | crates/client-admin/src/lib.rs:1502-1576 | a client of brokers opens over the first bootstrap address that connects |
| `RecoveryEffects.OpensOverNone` | crates/client-admin/src/lib.rs:1569-1575 | the error when none connects, for brokers and for controllers |
| `RecoveryEffects.GoToReplaces` | crates/client-admin/src/lib.rs:1694-1700 | a dial that connects replaces the connection, and nothing else changes |
| `RecoveryCauses.RebootstrapHasACause` | crates/client-admin/src/lib.rs:973-1087 | every rebootstrap of a request is under the strategy, after a send of the same request that was lost, ordered it, or stalled at the trigger, and after no good answer |
| `RecoveringConnection.Connection.constructor` | crates/client-admin/src/lib.rs:932-951 | a new connection with its known addresses and a clear timer |
| `RecoveringConnection.Connection.ConnectOne` | crates/client-admin/src/lib.rs:1592-1603 | one dial |
| `RecoveringConnection.Connection.Endpoints` | crates/client-admin/src/lib.rs:1188-1193 | the addresses of the usable nodes, in order |
| `RecoveringConnection.Connection.DescribeControllers` | crates/client-admin/src/lib.rs:1639-1648 | the discovery request, at v1 or later |
| `RecoveringConnection.Connection.ConnectController` | crates/client-admin/src/lib.rs:1632-1690 | the two dials and the discovery between them |
| `RecoveringConnection.Connection.ConnectTarget` | crates/client-admin/src/lib.rs:1616-1630 | the dial of a broker or of a controller |
| `RecoveringConnection.Connection.ConnectFirst` | crates/client-admin/src/lib.rs:1152-1174 | the loop over the addresses gives the first connection, the first rejection, or the last error |
| `RecoveringConnection.Connection.Rebootstrap` | crates/client-admin/src/lib.rs:1115-1143 | the new connection, known addresses and clear timer of a rebootstrap |
| `RecoveringConnection.Connection.ReconnectCurrentMetadata` | crates/client-admin/src/lib.rs:1145-1175 | the new connection and known addresses of a reconnection |
| `RecoveringConnection.Connection.BeginMetadataAttempt` | crates/client-admin/src/lib.rs:1224-1234 | a Metadata request starts the timer unless it runs or the strategy is off |
| `RecoveringConnection.Connection.SendCurrent` | crates/client-admin/src/lib.rs:1023-1036 | one send over the current connection |
| `RecoveringConnection.Connection.Observe` | crates/client-admin/src/lib.rs:1184-1212 | the addresses and the timer after a returned answer |
| `RecoveringConnection.Connection.SendAfterRebootstrap` | crates/client-admin/src/lib.rs:1038-1059 | the new fields and the result of the specified step |
| `RecoveringConnection.Connection.Decide` | crates/client-admin/src/lib.rs:1073-1086 | what an answer sets off |
| `RecoveringConnection.Connection.SendAfterCurrentMetadata` | crates/client-admin/src/lib.rs:1061-1087 | the new fields and the result of the specified step |
| `RecoveringConnection.Connection.SendWithMinVersion` | crates/client-admin/src/lib.rs:973-1017 | the new fields and the result of the specified request; the object stays valid, within the bounds on sends and rebootstraps, with a rejection last and returned, and no code 129 returned; a good first answer is returned at once, and every rebootstrap has a cause in the request |
| `RecoveringConnection.Open` | crates/client-admin/src/lib.rs:1502-1576 | the first connection is valid, and exists if and only if an address connects |
| `SharedConnection.AloneIsSend` | crates/client-admin/src/lib.rs:973-1087 | a request that no other interrupts is the request of the sequential protocol |
| `SharedConnection.EveryMoveKeeps` | crates/client-admin/src/lib.rs:973-1087 | every move of a request, from one wait to the next, keeps what a part of a run keeps, within what its phase has left |
| `SharedConnection.InterleavedRequestsAreSafe` | crates/client-admin/src/lib.rs:920-1274 | however requests that share the connection interleave: `known_addrs` is not empty and the timer is the one that the run tells; each request makes at most four sends and two rebootstraps, ends at a rejection with it as result, and never returns code 129 |
| `RecoveringConnection.Connection.Reconnect` | crates/client-admin/src/lib.rs:1694-1700 | a dial that succeeds replaces the connection and nothing else |
| `ReplicaLogDirs.ReadReplicaLogDirs` | crates/client-admin/src/log_dirs.rs:419-471 | the first illegal log dir error fails the answer; otherwise every asked partition has the places that the online dirs name last |
| `ReplicaLogDirs.PlaceIsHeld` | crates/client-admin/src/log_dirs.rs:419-471 | a reported place is a log dir without an error that holds the replica, with the lag and kind of its row, and one is reported if and only if there is such a dir |
| `ReplicaLogDirs.CurrentAndFuture` | crates/client-admin/src/log_dirs.rs:458-466 | the current and the future place are those of the last row of their kind |
| `ReplicaLogDirs.FailsByTheDirs` | crates/client-admin/src/log_dirs.rs:425-442 | a response fails if and only if its call failed or a dir has a code other than 0 and 56, and then with the first such dir |
| `ReplicaLogDirs.GroupByBroker` | crates/client-admin/src/log_dirs.rs:284-292 | the replicas by broker, each once |
| `ReplicaLogDirs.SettleBroker` | crates/client-admin/src/log_dirs.rs:363-379 | an answer moves exactly the pending replicas of its broker |
| `ReplicaLogDirs.AnswerStands` | crates/client-admin/src/log_dirs.rs:356-386 | what an answer does in place is what all the answers so far settle |
| `ReplicaLogDirs.SettledStays` | crates/client-admin/src/log_dirs.rs:356-386 | a completed replica never changes |
| `ReplicaLogDirs.EveryReplicaSettles` | crates/client-admin/src/log_dirs.rs:354-386 | with an answer from its broker a replica is settled |
| `ReplicaLogDirs.ReplicaResults.constructor` | crates/client-admin/src/log_dirs.rs:333-352 | every replica is pending |
| `ReplicaLogDirs.ReplicaResults.Complete` | crates/client-admin/src/log_dirs.rs:356-386 | `pending` and `done` stand as the answers so far settle them |
| `ReplicaLogDirs.StoppingChangesNothing` | crates/client-admin/src/log_dirs.rs:313-318 | stopping when nothing is pending gives the map that reading every answer gives |
| `ReplicaLogDirs.TakeAnswers` | crates/client-admin/src/log_dirs.rs:294-318 | the loop over the answers gives that map |
| `ReplicaLogDirs.ReadResponses` | crates/client-admin/src/log_dirs.rs:295-312 | each response is read as its failure, or as the places of the asked partitions |
| `ReplicaLogDirs.SettledFromResponses` | crates/client-admin/src/log_dirs.rs:295-318 | reading the responses and completing the replicas gives each its result from the responses |
| `ReplicaLogDirs.DescribeReplicaLogDirs` | crates/client-admin/src/log_dirs.rs:278-319 | for every order of responses: replicas of brokers that answered before the first failure get the places that the log dirs of their broker name last, none when unlisted, and all others the error of that failure |
| `ListGroups.AllowedVersionsKeepMeaning` | crates/client-admin/src/groups.rs:1524-1538 | at every version from the lowest allowed one a broker lists exactly the wanted groups, given that brokers below v5 hold only classic groups |
| `ListGroups.MeaningIsKeptExactlyWhen` | crates/client-admin/src/groups.rs:1524-1538 | the versions that keep the meaning, as an if and only if |
| `ListGroups.MinVersionIsLeastExactlyWhen` | crates/client-admin/src/groups.rs:1524-1538 | the lowest allowed version is the lowest that keeps the meaning, unless classic groups are asked for together with a type other than consumer groups and the client knows a version below v5 |
| `ListGroups.MinVersionIsNotTheLeast` | crates/client-admin/src/groups.rs:1524-1538 | for classic and share groups the client asks v5 although v4 keeps the meaning |
| `ListGroups.Attempt` | crates/client-admin/src/groups.rs:1623-1666 | one attempt, and whether the connection stays open |
| `ListGroups.BackoffDoubles` | crates/client-admin/src/groups.rs:1598-1598 | doubling in place up to the maximum gives the next wait |
| `ListGroups.ListOnBroker` | crates/client-admin/src/groups.rs:1553-1601 | at most `maxRetries + 1` attempts; each wait is the backoff cut at the deadline; every attempt but the last went on and the last gives the result |
| `ListGroups.GroupsComeFromAGoodReply` | crates/client-admin/src/groups.rs:1640-1642 | groups come only from an answer with code 0 |
| `ListGroups.OpenExactlyWhen` | crates/client-admin/src/groups.rs:1623-1666 | a connection is kept until a reply over it is lost, and dialled again only then |
| `ListGroups.FirstConclusionCounts` | crates/client-admin/src/groups.rs:1553-1666 | the first attempt that is not troubled, by a failed dial, a lost reply or code 14 or 15, gives the groups or the error; the timeout comes exactly at the deadline or after the last retry |
| `ListGroups.RetainDistinct` | crates/client-admin/src/groups.rs:730-732 | keeps the first row of each node id |
| `ListGroups.FirstRowsAreDistinct` | crates/client-admin/src/groups.rs:730-732 | the asked brokers have distinct ids, and every id of the metadata is asked |
| `ListGroups.FirstRowsAreFirst` | crates/client-admin/src/groups.rs:730-732 | of several rows of one id, the first is asked |
| `ListGroups.InsertListings` | crates/client-admin/src/groups.rs:688-697 | the listings after one answer, where the last one of an id counts |
| `ListGroups.MergeAnswers` | crates/client-admin/src/groups.rs:684-709 | one listing for each id, in id order, and the failures in the order of the brokers |
| `ListGroups.LastListingCounts` | crates/client-admin/src/groups.rs:684-697 | an id is listed if and only if an answer lists it, from the last one that does |
| `ListGroups.KeptGroupsCount` | crates/client-admin/src/groups.rs:689-692 | a group is kept if and only if an answer lists it with a wanted protocol type |
| `ListGroups.FailuresCount` | crates/client-admin/src/groups.rs:698-703 | each broker that failed stands in the errors once, and no other does |
| `ListGroups.FailuresAscend` | crates/client-admin/src/groups.rs:698-703 | the errors stand in the order of the metadata |
| `ListGroups.LastAnswerWins` | crates/client-admin/src/groups.rs:684-697 | the listing of an id is the last one of the last answer that keeps a group with it |
| `ListGroups.AnswerIsTheFiltering` | crates/client-admin/src/groups.rs:1640-1642 | whatever version the client negotiates, the answer of a broker is the full filtering of what it holds |
| `ListGroups.MergedListingIsTheFiltering` | crates/client-admin/src/groups.rs:656-709 | the merged listing is the one made from the full filtering, so an id is listed if and only if a broker that answered holds a wanted group with it |
| `ListGroups.ListAllGroups` | crates/client-admin/src/groups.rs:651-710 | every distinct broker is asked; the listings are those that the good answers contribute, one for each id in id order, where the last broker wins; a broker is in the errors, once and in metadata order, if and only if its calls failed |
| `ListGroups.EndsOnce` | crates/client-admin/src/groups.rs:1553-1601 | the calls to a broker end in one way only |
| `GroupOffsets.BuildCommitRequest` | crates/client-admin/src/groups.rs:1859-1881 | the commit request of a map |
| `GroupOffsets.CommitRequestIsTheMap` | crates/client-admin/src/groups.rs:1859-1881 | it flattens to exactly the rows of the map |
| `GroupOffsets.CollectGroup` | crates/client-admin/src/groups.rs:1766-1778 | the rows that the entries of the group hold, of no other group, and the code of its last entry |
| `GroupOffsets.CommittedOffsets` | crates/client-admin/src/groups.rs:1752-1806 | the offsets of an answer in either shape, and an error if and only if the answer gives the group one |
| `GroupOffsets.ReadsTheGroup` | crates/client-admin/src/groups.rs:1752-1780 | the rows and the code that the client reads are those that the answer gives the group, at the top level or in its entries |
| `GroupOffsets.FailsWithTheGroupsCode` | crates/client-admin/src/groups.rs:1781-1788 | a fetch fails if and only if the answer gives the group an error, and with that error |
| `GroupOffsets.OtherGroupsChangeNothing` | crates/client-admin/src/groups.rs:1766-1778 | answers with the same entries of the group give it the same, whatever other groups they list |
| `GroupOffsets.LastCommittedCounts` | crates/client-admin/src/groups.rs:1789-1806 | the last row of a partition without an error and with an offset is its offset |
| `GroupOffsets.CommitThenFetch` | crates/client-admin/src/groups.rs:1752-1881 | a broker that stored the commit, and whose answer holds exactly the stored rows for the group, at the top level or in the entries of that group, gives back the offsets that are not negative, so the same map if and only if none is negative |
| `Configs.BrokerIdReads` | crates/client-admin/src/configs.rs:470-485 | the decimal name of every 32-bit broker id reads back as that id |
| `Configs.NamesThatAreIds` | crates/client-admin/src/configs.rs:480-485 | a name is a broker id if and only if it is a sign or none and the digits of a 32-bit number |
| `Configs.KindsReadBack` | crates/client-admin/src/config_resources.rs:37-60 | every kind reads back from its wire id, and no other id is a kind |
| `Configs.NodesByKind` | crates/client-admin/src/configs.rs:471-486 | broker loggers and named brokers go to the broker of their name, every other resource to any broker, as an if and only if |
| `Configs.BrokersGoToThemselves` | crates/client-admin/src/configs.rs:471-486 | the resources of every broker go to that broker |
| `Configs.RouteDescribe` | crates/client-admin/src/configs.rs:733-739 | each distinct resource is in the request of its node and in no other; an error if and only if a name that must be an id is none |
| `Configs.ReadRows` | crates/client-admin/src/configs.rs:602-613 | the rows by resource, or nothing if and only if one is named twice |
| `Configs.ReadDescribe` | crates/client-admin/src/configs.rs:588-639 | the results of one request: all fail together, or each by its own row |
| `Configs.ConfigOfTheEntries` | crates/client-admin/src/configs.rs:540-577 | entries make a config if and only if no id of them is negative, and it holds the last entry of each name |
| `Configs.RowDecides` | crates/client-admin/src/configs.rs:615-631 | in a well-formed answer the row of a resource gives its error or its config |
| `Configs.MalformedFailsAll` | crates/client-admin/src/configs.rs:588-631 | a failed request, a repeated resource, or a negative id in an asked row fails every resource of the request |
| `Configs.DescribeNodes` | crates/client-admin/src/configs.rs:742-774 | the results of all requests, each from its own answer |
| `Configs.DescribeConfigs` | crates/client-admin/src/configs.rs:728-775 | every distinct resource gets one result, decided by the answer to the request of its own node alone |
| `AlterConfigs.Deliver` | crates/client-admin/src/configs.rs:856-878 | sending a request again while the answer names a node that is not the controller |
| `AlterConfigs.DeliveredByTheController` | crates/client-admin/src/configs.rs:809-878 | a delivered answer does not say so, follows only answers that did, and takes at most one send more than the retries |
| `AlterConfigs.FirstAnswerCounts` | crates/client-admin/src/configs.rs:805-878 | the first sending that is not made again gives the answer: its rows or error, the failure to find the controller, or the timeout |
| `AlterConfigs.AlterRowDecides` | crates/client-admin/src/configs.rs:683-724 | the last row that names a resource, by kind and name, is its result, and without one it gets an error |
| `AlterConfigs.TargetsByKind` | crates/client-admin/src/configs.rs:786-796 | which resources have a node of their own, as an if and only if |
| `AlterConfigs.ChannelsByTarget` | crates/client-admin/src/configs.rs:797-845 | such a resource is sent there alone and never looks for the controller, any other goes on the own connection |
| `AlterConfigs.NoResultNamesNotController` | crates/client-admin/src/configs.rs:672-724 | no result of a delivered answer carries NOT_CONTROLLER, nor NOT_LEADER_OR_FOLLOWER with a controller bootstrap |
| `AlterConfigs.ReadAlter` | crates/client-admin/src/configs.rs:683-724 | the result of each resource of one request |
| `AlterConfigs.RequestsPartition` | crates/client-admin/src/configs.rs:783-803 | each resource is in its own request with its operations and in no other |
| `AlterConfigs.AlterNodes` | crates/client-admin/src/configs.rs:797-845 | the results of the resources that go to a node of their own |
| `AlterConfigs.IncrementalAlterConfigs` | crates/client-admin/src/configs.rs:778-851 | every resource gets one result, from the answer to the one request that names it |
| `Quotas.DiffUserQuotas` | crates/client-admin/src/quotas.rs:410-427 | the sets of the desired keys and then the removes of the others |
| `Quotas.DiffHoldsTheNeeded` | crates/client-admin/src/quotas.rs:404-427 | the list holds exactly the needed operations, each key once |
| `Quotas.AnyOrderReachesDesired` | crates/client-admin/src/quotas.rs:389-427 | applied as wire operations in any order it gives the desired configuration bit for bit |
| `Quotas.DiffIsMinimal` | crates/client-admin/src/quotas.rs:404-427 | no shorter list of operations gives it |
| `Quotas.EmptyExactlyWhenEqual` | crates/client-admin/src/quotas.rs:404-427 | the list is empty if and only if the configurations agree |

## Left out

- Sockets, DNS, TLS and SASL, and the wire encoding: dials and answers are arbitrary values of the environment.
- Error names, the texts of messages and `last_error`: an error that the client makes up carries a note of its cause.
- The length and jitter of the waits of `retry.rs`: only the time after each wait matters to the drivers.
- `CoordinatorRetry` and the per-node retry loop of `call_node`: the answer of a node is one value of the environment.
- SharedConnection.InterleavedRequestsAreSafe: a dial with its discovery is one move, and so is an answer with what it
  does to the addresses and the timer.
- Recovery.NegotiatedAtLeast: the versions of each request kind are parameters, because the protocol crate that fixes
  them is not part of this model.
- ListOffsets.ListOffsetsOnLeader: takes the client's latest version of the request as a parameter, for the same reason.
- ListGroups.ListOnBroker: counts attempts in natural numbers and does not model the wrap-around of the 32-bit counter.
- ListGroups.MergeAnswers: keeps the listed group as it is and does not parse its type and state names.
- ConsumerRounds.DescribeRunIsSafe: assumes that an answer names each asked group at most once and no others, for what
  is false without it; `ConsumerRuns.AnyRunKeepsClassic` has the part that needs no assumption, and
  `ConsumerRuns.RunIsOrderlyExactlyWhen` the exact condition for the rest.
- GroupCall.CallBatches, LeaderCall.CallLeaders: apply the answers of a round in address order, as `join_all` returns
  them; the order in which they arrive is not modelled there.
- Configs.ReadDescribe: does not model which of several malformed rows is named in the message.
- The wait for metadata with brokers of `list_groups_brokers`, which ends by the clock alone.
- `alter_replica_log_dirs`, `describe_log_dirs`, deleting and altering offsets of share groups, the quota calls beyond
  the difference, and the other files of the client: single requests or simple resends that would add only easy members.
- Telemetry, the trait forwarding of `lib.rs`, and configuration checks beyond the order of the backoffs.
