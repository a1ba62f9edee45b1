# Correlating message handler and resequencer

A Dafny model of Spring Integration's correlating message handler. It is
used both as an aggregator (with the pass-through group processor) and as a
resequencer.

Every inbound message may carry four headers: a correlation id, a sequence
number, a sequence size and a reply channel. The handler:

- files each message under its correlation key, in a message store that maps
  keys to message groups;
- drops messages whose sequence headers contradict each other;
- sends a message whose sequence size conflicts with its group's to the
  discard channel;
- absorbs duplicates;
- asks a release strategy whether the group is ready;
- sends what the group processor makes of a ready group. A group goes to
  each message's reply channel, or to the output channel when the message
  names none.

`forceComplete(key)` finalises one group, whatever its state. The group's
messages are sent on as a partial result, or to the discard channel.

The handler is a pure step function:

- `CorrelatingHandler.Handle(cfg, store, m)` returns the new store and the
  list of sends, each a `(destination, message)` pair, in the order they
  happen.
- `CorrelatingHandler.ForceComplete(cfg, store, key)` does the same for
  forced completion.
- `Deliveries.HandleAll` threads the store through a list of arrivals.

Modules, in dependency order:

| file | module | contents |
|---|---|---|
| wrappers.dfy | `Wrappers` | `Option`, `Result` |
| messages.dfy | `Messages` | messages, routing (`RouteOf`, `Send`, `DiscardAll`), the malformed-header test |
| groups.dfy | `MessageGroups` | a group: its sequence size, its buffer, the resequencer's barrier (`nextExpected`) and the released-early flag; duplicates; the group invariant `Valid`; list facts about sequence numbers (`Range`, `NumbersSize`) |
| store.dfy | `MessageStore` | the store as `map<Key, Group>`; `List(store, key)` is the store's `list(key)` |
| release.dfy | `ReleaseStrategies` | the sequence-size strategy (the default) and the message-count strategy; the resequencer's completeness test |
| processors.dfy | `GroupProcessors` | sorting by sequence number, and the resequencer's contiguous run from the barrier |
| handler.dfy | `CorrelatingHandler` | `Classify`, `ReleaseGroup`, `Handle`, `ForceComplete`, and the store invariant `Inv` |
| deliveries.dfy | `Deliveries` | `HandleAll` over a list of arrivals |
| properties.dfy | `HandlerProperties` | general properties over arbitrary stores and messages |
| arrival.dfy | `ArrivalOrder` | the resequencer emits any complete sequence in order, whatever order it arrives in |
| scenarios.dfy | `ResequencerScenarios` | the resequencer test cases, replayed on concrete messages |
| scenarios_aggregator.dfy | `AggregatorScenarios` | the aggregator test cases, replayed on concrete messages |

How `Classify` treats an inbound message that carries a correlation key:

- **Malformed** (dropped, nothing sent): the number is below 1 or above the
  size the message itself announces. For the resequencer, a message without
  a number is dropped the same way.
- **Late** (sent to the discard channel): the group was released while its
  sequence was still incomplete.
- **SizeConflict** (sent to the discard channel): the sequence size differs
  from the one the group's first message fixed.
- **Duplicate** (absorbed): the message is already buffered, or its number
  is already buffered, or the resequencer's barrier has already passed it.
- **Accepted**: everything else. The message joins its group, and the group
  is offered for release.

A message without a correlation key is a `Failure(MissingCorrelationKey)`.

## Model

| member | source | states |
|---|---|---|
| ResequencerScenarios.BasicResequencing | org.springframework.integration/src/test/java/org/springframework/integration/aggregator/ResequencerTests.java:55-73 | messages built as the test helper builds them (lines 236-240); 3, 2, 1 of a sequence of three, without partial release, send 1, 2, 3 in that order to the reply channel, and no group is left |
| ResequencerScenarios.ResequencingWithDuplicateMessages | org.springframework.integration/src/test/java/org/springframework/integration/aggregator/ResequencerTests.java:76-95 | delivering 2 twice among 3, 2, 2, 1 still sends exactly 1, 2, 3 |
| ResequencerScenarios.ResequencingWithIncompleteSequenceRelease | org.springframework.integration/src/test/java/org/springframework/integration/aggregator/ResequencerTests.java:98-125 | with partial release, 2, 1, 4 send exactly 1, 2 and hold 4 behind a barrier at 3; 3 then sends 3, 4 and the group is gone |
| ResequencerScenarios.ResequencingWithDiscard | org.springframework.integration/src/test/java/org/springframework/integration/aggregator/ResequencerTests.java:128-156 | forced completion without partial result sends exactly the two buffered messages (2 and 1) to the discard channel and drops the group; a later 4 opens a new group and sends nothing |
| ResequencerScenarios.ResequencingWithDifferentSequenceSizes | org.springframework.integration/src/test/java/org/springframework/integration/aggregator/ResequencerTests.java:159-176 | the message announcing size 5 is the only one discarded; the group of size 4 keeps its message |
| ResequencerScenarios.ResequencingWithWrongSequenceSizeAndNumber | org.springframework.integration/src/test/java/org/springframework/integration/aggregator/ResequencerTests.java:179-191 | number 4 of a sequence of 2 reaches neither the store nor any channel |
| ResequencerScenarios.ResequencingWithCompleteSequenceRelease | org.springframework.integration/src/test/java/org/springframework/integration/aggregator/ResequencerTests.java:194-225 | without partial release, 2, 1, 4 send nothing; 3 then sends 1, 2, 3, 4 in order and the group is gone |
| ResequencerScenarios.RemovalOfBarrierWhenLastMessageOfSequenceArrives | org.springframework.integration/src/test/java/org/springframework/integration/aggregator/ResequencerTests.java:228-234 | in either release mode, a sequence of one is sent at once and the store lists nothing for its key |
| AggregatorScenarios.CompletesSingleMessage | org.springframework.integration/src/test/java/org/springframework/integration/aggregator/CorrelatingMessageHandlerIntegrationTest.java:49-53 | with the default strategy and the pass-through processor, a sequence of one is sent, unchanged, to the output channel |
| AggregatorScenarios.CompletesAfterThreshold | org.springframework.integration/src/test/java/org/springframework/integration/aggregator/CorrelatingMessageHandlerIntegrationTest.java:56-67 | with the message-count strategy, the first message of a sequence of two is sent to the output channel at once; the second goes to the discard channel and not to the output channel |
| AggregatorScenarios.RedeliveryAfterEarlyRelease | org.springframework.integration/src/test/java/org/springframework/integration/aggregator/CorrelatingMessageHandlerIntegrationTest.java:56-67 | in the threshold test's setup, delivering message1 again after its group was released early sends it to the discard channel and leaves the completed group as it was |
| AggregatorScenarios.CompletesIfNoSequence | org.springframework.integration/src/test/java/org/springframework/integration/aggregator/CorrelatingMessageHandlerIntegrationTest.java:70-81 | with a threshold of two and no sequence headers, the first message is held, the second sends both and clears the group, and the third starts a new group and is not sent |
| AggregatorScenarios.CompletesWithoutReleasingIncompleteCorrelations | org.springframework.integration/src/test/java/org/springframework/integration/aggregator/CorrelatingMessageHandlerIntegrationTest.java:84-101 | two interleaved sequences: completing key 1 sends exactly key 1's two messages and keeps key 2 held; completing key 2 then sends key 2's |
| AggregatorScenarios.CompletesAfterSequenceComplete | org.springframework.integration/src/test/java/org/springframework/integration/aggregator/CorrelatingMessageHandlerIntegrationTest.java:104-112 | the first of a sequence of two is held; the second sends both originals to the output channel |
| ArrivalOrder.ResequencingIgnoresArrivalOrder | org.springframework.integration/src/test/java/org/springframework/integration/aggregator/ResequencerTests.java:54-125 | n messages numbered 1..n of one sequence, in any arrival order and in either release mode: the resequencer sends exactly those messages (as a multiset), numbered 1..n in that order, each to its own route, and leaves an empty store |
| ArrivalOrder.DeliverRest | org.springframework.integration/src/test/java/org/springframework/integration/aggregator/ResequencerTests.java:98-125 | from any valid store, the rest of a sequence completes it: the sends continue from the barrier, number by number, up to n; they carry what the group held plus the new messages; the key leaves the store and no other key changes |
| HandlerProperties.ResequencedInOrder | org.springframework.integration/src/test/java/org/springframework/integration/aggregator/ResequencerTests.java:98-125 | every resequencer send continues the numbering exactly at the group's barrier, in ascending order and on the message's route; a kept group's barrier moves past everything sent; a group leaves the store only when its barrier passes the sequence size |
| HandlerProperties.ReleaseInOrder | org.springframework.integration/src/test/java/org/springframework/integration/aggregator/ResequencerTests.java:108-124 | the same property for one release of any group, before it is tied to an inbound message |
| HandlerProperties.CompleteSequenceRelease | org.springframework.integration/src/test/java/org/springframework/integration/aggregator/ResequencerTests.java:194-225 | without partial release, an arrival sends something if and only if the group then holds every number 1..s; it then sends exactly s messages numbered 1..s and removes the group; otherwise the group holds everything received |
| HandlerProperties.CompleteReleaseOfGroup | org.springframework.integration/src/test/java/org/springframework/integration/aggregator/ResequencerTests.java:207-224 | the same if-and-only-if for one valid group offered for complete release |
| HandlerProperties.CompleteRunReleasesAll | org.springframework.integration/src/test/java/org/springframework/integration/aggregator/ResequencerTests.java:211-224 | once every number 1..s is buffered, the run from 1 releases exactly s messages and leaves nothing buffered |
| HandlerProperties.DrainedGroupRemoved | org.springframework.integration/src/test/java/org/springframework/integration/aggregator/ResequencerTests.java:228-234 | with partial release, every group the store keeps after a step still expects a number within its sequence |
| HandlerProperties.SequenceSizeReleaseAll | org.springframework.integration/src/test/java/org/springframework/integration/aggregator/CorrelatingMessageHandlerIntegrationTest.java:104-112 | default strategy: an arrival sends something if and only if the group then holds as many messages as its sequence size; it then sends exactly the held messages in arrival order and removes the group; otherwise the group holds all of them |
| HandlerProperties.CountThresholdRelease | org.springframework.integration/src/test/java/org/springframework/integration/aggregator/CorrelatingMessageHandlerIntegrationTest.java:56-81 | message-count strategy: an arrival sends something if and only if the group reaches the threshold or its sequence size; it then sends the held messages in arrival order; an unsequenced group leaves the store, and a sequenced group released early stays behind as released |
| HandlerProperties.SizeConflictDiscarded | org.springframework.integration/src/test/java/org/springframework/integration/aggregator/ResequencerTests.java:159-176 | a well-formed message whose size differs from its group's is sent to the discard channel (or nowhere, without one), and the store is unchanged |
| HandlerProperties.LateArrivalDiscarded | org.springframework.integration/src/test/java/org/springframework/integration/aggregator/CorrelatingMessageHandlerIntegrationTest.java:64-66 | a well-formed message for a group released early goes to the discard channel and never to the output, and the store is unchanged |
| HandlerProperties.MalformedNeverSent | org.springframework.integration/src/test/java/org/springframework/integration/aggregator/ResequencerTests.java:179-191 | a message with self-contradicting sequence headers changes nothing and sends nothing |
| HandlerProperties.ResendIsNoOp | org.springframework.integration/src/test/java/org/springframework/integration/aggregator/ResequencerTests.java:82-85 | delivering a buffered message again changes nothing and sends nothing |
| HandlerProperties.SameNumberAbsorbed | org.springframework.integration/src/test/java/org/springframework/integration/aggregator/ResequencerTests.java:76-95 | a message whose number its group holds, or that the resequencer's barrier has already passed, changes nothing and sends nothing |
| HandlerProperties.HandleConserves | org.springframework.integration/src/test/java/org/springframework/integration/aggregator/CorrelatingMessageHandlerIntegrationTest.java:84-101 | nothing is lost or sent twice: for an accepted message, the group's old messages plus the new one are exactly the messages sent plus the messages still held; any other message leaves the store as it was and can at most be discarded itself |
| HandlerProperties.AcceptedConserves | org.springframework.integration/src/test/java/org/springframework/integration/aggregator/CorrelatingMessageHandlerIntegrationTest.java:93-100 | the accepted half of that conservation law |
| HandlerProperties.RefusedLeavesStore | org.springframework.integration/src/test/java/org/springframework/integration/aggregator/ResequencerTests.java:167-175 | the refused half: the store is unchanged and the only possible send is the message itself to the discard channel |
| HandlerProperties.ReleaseConserves | org.springframework.integration/src/test/java/org/springframework/integration/aggregator/ResequencerTests.java:105-124 | a release sends or keeps every message of the group, each exactly once |
| HandlerProperties.HandleFrame | org.springframework.integration/src/test/java/org/springframework/integration/aggregator/CorrelatingMessageHandlerIntegrationTest.java:93-97 | handling a message leaves every other key's group as it was |
| HandlerProperties.ForceCompleteKeepsInv | org.springframework.integration/src/test/java/org/springframework/integration/aggregator/ResequencerTests.java:140-155 | forced completion keeps the store invariant |
| HandlerProperties.ForceCompleteIdempotent | org.springframework.integration/src/test/java/org/springframework/integration/aggregator/ResequencerTests.java:140 | forcing completion a second time sends nothing and changes nothing |
| CorrelatingHandler.Handle | org.springframework.integration/src/test/java/org/springframework/integration/aggregator/ResequencerTests.java:54-234 | one inbound message is handled exactly when it carries a correlation key; without one the step fails with `MissingCorrelationKey` |
| CorrelatingHandler.Classify | org.springframework.integration/src/test/java/org/springframework/integration/aggregator/ResequencerTests.java:179-191 | a message whose sequence number is below 1 or above its own sequence size is judged malformed, whatever the store holds |
| CorrelatingHandler.ReleaseGroup | org.springframework.integration/src/test/java/org/springframework/integration/aggregator/ResequencerTests.java:98-125 | a group kept after a release keeps the sequence size its first message fixed, so the rest of the sequence is still judged against it |
| CorrelatingHandler.PartialResult | org.springframework.integration/src/test/java/org/springframework/integration/aggregator/ResequencerTests.java:128-156 | forced completion's partial result carries exactly the buffered messages: unchanged for the aggregator, in ascending sequence-number order for the resequencer |
| GroupProcessors.Sort | org.springframework.integration/src/test/java/org/springframework/integration/aggregator/ResequencerTests.java:64-72 | the result is in ascending sequence-number order and is a permutation of the input |
| CorrelatingHandler.ForceComplete | org.springframework.integration/src/test/java/org/springframework/integration/aggregator/ResequencerTests.java:128-156 | the key leaves the store and no other key changes; the sends carry exactly the group's buffered messages, to the discard channel, or as a partial result on each message's route (in arrival order for the aggregator, ascending for the resequencer); with neither a discard channel nor a partial result nothing is sent |
| CorrelatingHandler.HandleKeepsInv | org.springframework.integration/src/test/java/org/springframework/integration/aggregator/ResequencerTests.java:105-116 | after any step, every stored group is valid (clash-free, sized and keyed consistently, above its barrier) and not ready for release: this is why 4 stays held |
| CorrelatingHandler.ReleaseKeepsInv | org.springframework.integration/src/test/java/org/springframework/integration/aggregator/ResequencerTests.java:105-116 | a release keeps the invariant at its key and touches no other key |
| CorrelatingHandler.DrainedRestEmpty | org.springframework.integration/src/test/java/org/springframework/integration/aggregator/ResequencerTests.java:118-124 | when the barrier passes the sequence size, nothing is left buffered |
| CorrelatingHandler.CompleteRunDrains | org.springframework.integration/src/test/java/org/springframework/integration/aggregator/ResequencerTests.java:211-224 | when every number 1..s is buffered, the run from 1 passes s |
| ReleaseStrategies.SizeReachedIffAllPresent | org.springframework.integration/src/test/java/org/springframework/integration/aggregator/CorrelatingMessageHandlerIntegrationTest.java:104-112 | for clash-free numbered messages within 1..s, holding s messages is the same as holding every number 1..s: the default strategy and the complete resequencer agree |
| ReleaseStrategies.CanRelease | org.springframework.integration/src/test/java/org/springframework/integration/aggregator/CorrelatingMessageHandlerIntegrationTest.java:56-81 | a group that reached its sequence size is always ready; the default strategy only releases sized groups; the count strategy releases at its threshold, and for unsequenced groups exactly then |
| GroupProcessors.ContiguousRun | org.springframework.integration/src/test/java/org/springframework/integration/aggregator/ResequencerTests.java:108-124 | the run releases messages numbered next, next+1, … in that order, moves the barrier past them, stops at a number not buffered, and neither loses nor invents a message |
| GroupProcessors.RunStopsAtGap | org.springframework.integration/src/test/java/org/springframework/integration/aggregator/ResequencerTests.java:108-116 | the run stops at the first number missing from the whole buffer |
| GroupProcessors.RunRestAboveNext | org.springframework.integration/src/test/java/org/springframework/integration/aggregator/ResequencerTests.java:108-116 | nothing below the new barrier stays behind |
| Deliveries.HandleAll | org.springframework.integration/src/test/java/org/springframework/integration/aggregator/ResequencerTests.java:61-63 | a run of arrivals succeeds exactly when every message carries a correlation key |

## Left out

- The implementation classes are not part of this model: `CorrelatingMessageHandler`, `Resequencer`, `MessageCountReleaseStrategy`, `PassThroughMessageGroupProcessor` and `SimpleMessageStore`. Their behaviour is taken from the two test classes' assertions; where the tests say nothing, the `CorrelatingHandler.*` lines below state the choice made.
- Per-key locking and concurrent callers. Steps are taken one at a time, which is the serialisation the locks provide.
- The timeout reaper and its scheduling (`setTimeout`). Only the explicit `forceComplete` entry point is modelled. Its `sendPartialResultOnTimeout` switch is a configuration field.
- Channel mechanics: queue buffering, `receive(0)`, send timeouts and mock verification. A channel is what a send names: output, a reply channel by name, or discard. The test's "receive" is the list of sends.
- Store capacity (`SimpleMessageStore(100)`), message ids and every header other than the four sequence and correlation headers and the reply channel. Two messages are the same message when all their modelled fields are equal.
- `JsonToObjectTransformer`. It delegates to an unseen JSON mapper and to reflective class loading, and has no logic of its own to state.
- Release strategies other than the sequence-size and message-count ones. The message-count strategy's no-argument form is `MessageCountRelease(1)`, which is what the threshold test shows.
- Correlation strategies other than the correlation-id header. A message without a correlation id fails the step; it is not given a group of its own.
- HandlerProperties.ResendIsNoOp: holds only while the message's group is still stored. A group that has been released and removed, as ResequencerTests.java:228-234 requires, forgets its messages, so a resend after that starts a new group and can be sent again.
- HandlerProperties.SameNumberAbsorbed: the same limit; a number is remembered only while its group is stored. An aggregator group released early by the message-count strategy is still stored, but it keeps no record of what it released, and `Late` is decided before `Duplicate`. So a redelivered message of that group goes to the discard channel instead of being absorbed; `AggregatorScenarios.RedeliveryAfterEarlyRelease` shows this.
- CorrelatingHandler.Handle: its own contract states only when a step fails. What a successful step sends and keeps is stated by the `HandlerProperties` lemmas and replayed by the scenarios.
- CorrelatingHandler.ReleaseGroup: its own contract states only that a kept group keeps its size. Its frame, conservation and ordering are the lemmas `ReleaseFrame`, `ReleaseConserves` and `ReleaseInOrder`.
- Integers are unbounded. Sequence sizes near `Integer.MAX_VALUE`, where a counter one past the size would wrap, are not modelled.
- CorrelatingHandler.ForceComplete: with a partial result, each message goes to its reply channel if it names one and to the output channel otherwise, like an ordinary release. No test covers this case.
- CorrelatingHandler.Classify: the resequencer drops a message without a sequence number like a malformed one, because it has no place to put it. No test covers this case.
- CorrelatingHandler.Classify: a group's sequence size is fixed by its first message even when that message has none. A later sequenced message for a group opened by an unsequenced one is a size conflict and goes to the discard channel; the first sequenced message does not fix the size afterwards. `AggregatorScenarios.SequencedAfterUnsequenced` shows this. No test covers this case.
- CorrelatingHandler.ReleaseGroup: a sequenced aggregator group released before its sequence is complete (by the count strategy) stays in the store as released and empty, so later messages for it are discarded. Removing the group would let message2 open a new group and reach the output channel, which CorrelatingMessageHandlerIntegrationTest.java:64-66 forbids. A group released at its full size, or without a sequence size, is removed.
- Deliveries.HandleAll: a message without a correlation key raises an exception in the handler; here it is a `Failure`, and the rest of the run is not handled.
