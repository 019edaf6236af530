# ConsumePulsarRecord, modelled in Dafny

This project models the record-oriented Pulsar consumer of the NiFi Pulsar
bundle (`ConsumePulsarRecord`). It covers the following parts:

- **getMessages.** The bounded receive loop.
- **Group key.** The grouping key `RecordSchemaAttributesKey`, with its
  `equals` and `hashCode`.
- **consumeMessages.** One batch of messages is grouped by (schema text,
  mapped attributes) in an insertion-ordered map. Each group becomes one flow
  file. Failed decodes are queued, and the batch is acknowledged.
- **handleRecordWriterFailure.** What happens to a group when no record
  writer can be created.
- **acknowledge and acknowledgeCumulative.** Each is sync or async.
- **handleFailures.** Queued failures are joined with the demarcator into
  one parse-failure flow file.
- **handleAsync.** The loop that drains background fetches.

The model is written in the source's own form:

- **Value-level specification.** Functions on values describe the batch:
  - a `World` is the NiFi session state plus the consumer's acknowledgement
    log;
  - `Consume` is one batch;
  - `Drain` is the async loop.
- **Imperative code.** Methods work on `Session`, `Consumer` and
  `RecordWriter` objects. These are `ConsumeMessages`, `WriteGroup`,
  `WriteMessage`, `GetMessages`, `HandleFailures`, `HandleAsync`,
  `GroupMessages` and `RecordWriter.WriteAll`. Each is proved to end in
  exactly the state the specification function gives.
- **Lemmas.** Separate lemmas state what that specification means: the
  grouping invariants, acknowledgement policy, failure routing,
  record-count round trip, rollback behaviour, and the unit tests' expected
  outcomes.

The collaborators are modelled as capabilities, and every property holds
for every choice of them. The collaborators are:

- schema inference by the record reader;
- record decoding;
- whether a writer can be created;
- the writer's result.

Module layout:

| file | module | contents |
|---|---|---|
| `types.dfy` | `Types` | messages, schemas, records, capabilities, configuration defaults |
| `decimal.dfy` | `Decimal` | `Integer.toString` for counts and its inverse |
| `group_key.dfy` | `GroupKeys` | the grouping key, `equals`, `hashCode` (32-bit) |
| `grouping.dfy` | `Grouping` | the first pass of consumeMessages (the LinkedHashMap fill) |
| `session.dfy` | `Sessions` | the part of the NiFi process session that is used |
| `consumer.dfy` | `Consumers` | the Pulsar consumer, acknowledgement calls, getMessages |
| `failures.dfy` | `Failures` | handleFailures |
| `pipeline.dfy` | `Pipeline` | consumeMessages: specification and methods |
| `group_props.dfy` | `GroupProperties` | what one group does |
| `batch_props.dfy` | `BatchProperties` | what one batch does |
| `drain.dfy` | `AsyncDrain` | handleAsync |
| `scenarios.dfy` | `Scenarios` | the unit tests' batches |

Where this model follows the code rather than a plain reading of the
processor's documentation:

- **Rollback after EMPTY.** When a group's writer reports EMPTY, the code
  calls `session.rollback()` (line 383). That call discards everything the
  session holds, including the flow files that earlier groups of the same
  batch transferred to success. It does not discard only the current group.
  See `BatchProperties.RollbackDiscardsEarlierGroups`.
- **Rollback after grouping.** The rollback that follows grouping (line 303)
  also discards the output of earlier batches. In `handleAsync` these
  batches share the session, which is not committed between batches. See
  `BatchProperties.BatchForgetsEarlierOutput`.
- **Missing schema.** A message whose schema cannot be inferred is still
  grouped, under a null schema. When its group is reached, the batch aborts
  at the "avro.schema" dereference (line 309).
- **No writer.** A group for which no writer can be created aborts the batch
  at `finishRecordSet` (line 344).
- **Effects of an abort.** An aborted batch flushes no failures and issues no
  cumulative acknowledgement.
- **Acknowledgements come before output.** On a shared subscription, each
  message is acknowledged before it is decoded. The cumulative
  acknowledgement is issued before the session is committed.

## Model

All source paths are below `nifi-pulsar-processors/src/`. `P` stands for
`main/java/org/apache/nifi/processors/pulsar/pubsub/ConsumePulsarRecord.java`
and `T` for
`test/java/org/apache/nifi/processors/pulsar/pubsub/TestConsumePulsarRecord.java`.
The table cells give the paths in full.

| member | source | states |
|---|---|---|
| Decimal.ToDecimal | nifi-pulsar-processors/src/main/java/org/apache/nifi/processors/pulsar/pubsub/ConsumePulsarRecord.java:350 | the record count is rendered as a non-empty string of decimal digits with no leading zero |
| Decimal.ParseToDecimal | nifi-pulsar-processors/src/main/java/org/apache/nifi/processors/pulsar/pubsub/ConsumePulsarRecord.java:350 | reading the rendered count back gives the count (round trip) |
| Decimal.ToDecimalInjective | nifi-pulsar-processors/src/main/java/org/apache/nifi/processors/pulsar/pubsub/ConsumePulsarRecord.java:350 | distinct counts are rendered as distinct strings |
| GroupKeys.KeyEqualsIff | nifi-pulsar-processors/src/main/java/org/apache/nifi/processors/pulsar/pubsub/ConsumePulsarRecord.java:215-227 | two keys are equal iff both schemas are null or both have the same schema text, and the attribute maps are equal |
| GroupKeys.KeyEqualsIsEquivalence | nifi-pulsar-processors/src/main/java/org/apache/nifi/processors/pulsar/pubsub/ConsumePulsarRecord.java:215-227 | equals is reflexive, symmetric and transitive |
| GroupKeys.HashConsistentWithEquals | nifi-pulsar-processors/src/main/java/org/apache/nifi/processors/pulsar/pubsub/ConsumePulsarRecord.java:229-232 | equal keys have equal 32-bit hash codes (Objects.hash of schema text and attribute map) |
| Grouping.IndexOf | nifi-pulsar-processors/src/main/java/org/apache/nifi/processors/pulsar/pubsub/ConsumePulsarRecord.java:298 | the map lookup finds an entry with an equal key, and finds none exactly when no entry's key is equal |
| Grouping.GroupMessages | nifi-pulsar-processors/src/main/java/org/apache/nifi/processors/pulsar/pubsub/ConsumePulsarRecord.java:286-299 | the loop that fills the map yields the specification map `Grouped` of the batch |
| Grouping.InsertPreservesGrouping | nifi-pulsar-processors/src/main/java/org/apache/nifi/processors/pulsar/pubsub/ConsumePulsarRecord.java:298 | computeIfAbsent(key).add(message) keeps every grouping invariant when the batch grows by that message |
| Grouping.GroupedIsGrouping | nifi-pulsar-processors/src/main/java/org/apache/nifi/processors/pulsar/pubsub/ConsumePulsarRecord.java:286-299 | after grouping: keys are pairwise unequal; each entry holds exactly the messages with its key, in arrival order; every message's key has an entry; each entry keeps the key of its first message; entries are ordered by first occurrence |
| Grouping.EveryMessageInExactlyOneGroup | nifi-pulsar-processors/src/main/java/org/apache/nifi/processors/pulsar/pubsub/ConsumePulsarRecord.java:289-299 | every message of the batch lies in the one entry whose key equals its own |
| Grouping.GroupedIsPermutation | nifi-pulsar-processors/src/main/java/org/apache/nifi/processors/pulsar/pubsub/ConsumePulsarRecord.java:289-299 | the groups together hold exactly the batch's messages: none lost, none duplicated |
| Consumers.AckEventFor | nifi-pulsar-processors/src/main/java/org/apache/nifi/processors/pulsar/pubsub/ConsumePulsarRecord.java:571-596 | the acknowledgement call names the message; it is cumulative exactly for acknowledgeCumulative and async exactly when async is set |
| Consumers.Acknowledge | nifi-pulsar-processors/src/main/java/org/apache/nifi/processors/pulsar/pubsub/ConsumePulsarRecord.java:571-583 | exactly one individual acknowledgement of the message is appended: async via the ack service when async, sync otherwise |
| Consumers.AcknowledgeCumulative | nifi-pulsar-processors/src/main/java/org/apache/nifi/processors/pulsar/pubsub/ConsumePulsarRecord.java:585-596 | exactly one cumulative acknowledgement of the message is appended: async when async, sync otherwise |
| Consumers.GetMessages | nifi-pulsar-processors/src/main/java/org/apache/nifi/processors/pulsar/pubsub/ConsumePulsarRecord.java:191-202 | the loop returns `Fetch` of the receive results, calls receive `ReceiveCalls` times and consumes exactly those results |
| Consumers.FetchIsBoundedPrefix | nifi-pulsar-processors/src/main/java/org/apache/nifi/processors/pulsar/pubsub/ConsumePulsarRecord.java:196-199 | the fetched messages are the first receive results in order, at most maxMessages of them, and collection stopped at the bound, at the end of the results or at the first null |
| Consumers.FetchUnique | nifi-pulsar-processors/src/main/java/org/apache/nifi/processors/pulsar/pubsub/ConsumePulsarRecord.java:196-199 | conversely, any sequence with those properties is the fetched batch |
| Consumers.FullBatch | nifi-pulsar-processors/src/test/java/org/apache/nifi/processors/pulsar/pubsub/TestConsumePulsarRecord.java:164-170 | with at least maxMessages messages ready, maxMessages are returned after exactly maxMessages receive calls |
| Failures.JoinSnoc | nifi-pulsar-processors/src/main/java/org/apache/nifi/processors/pulsar/pubsub/ConsumePulsarRecord.java:611-621 | each payload after the first is written after one demarcator |
| Failures.JoinLength | nifi-pulsar-processors/src/main/java/org/apache/nifi/processors/pulsar/pubsub/ConsumePulsarRecord.java:611-621 | the output is as long as all payloads together plus one demarcator per gap between consecutive payloads |
| Failures.JoinPlaces | nifi-pulsar-processors/src/main/java/org/apache/nifi/processors/pulsar/pubsub/ConsumePulsarRecord.java:611-621 | payload k lies in the output starting after the earlier payloads and one demarcator for each of them, and exactly one demarcator separates it from the next payload; with JoinLength this fixes every byte of the output |
| Failures.JoinEnds | nifi-pulsar-processors/src/main/java/org/apache/nifi/processors/pulsar/pubsub/ConsumePulsarRecord.java:611-621 | the output starts with the first payload and ends with the last (no leading or trailing demarcator) |
| Failures.FlushOutcome | nifi-pulsar-processors/src/main/java/org/apache/nifi/processors/pulsar/pubsub/ConsumePulsarRecord.java:598-627 | an empty queue adds nothing; otherwise exactly one flow file with the joined payloads is added to parse-failure and nothing else changes |
| Failures.HandleFailures | nifi-pulsar-processors/src/main/java/org/apache/nifi/processors/pulsar/pubsub/ConsumePulsarRecord.java:598-627 | the write loop leaves the session in the state `Flush` gives |
| Failures.TwoFailuresJoined | nifi-pulsar-processors/src/test/java/org/apache/nifi/processors/pulsar/pubsub/TestConsumePulsarRecord.java:128 | two failures "msg" joined with "***" give "msg***msg" |
| Pipeline.RecordWriter.WriteAll | nifi-pulsar-processors/src/main/java/org/apache/nifi/processors/pulsar/pubsub/ConsumePulsarRecord.java:336-338 | the writer holds what it held followed by every record read, in order |
| Pipeline.WriteMessage | nifi-pulsar-processors/src/main/java/org/apache/nifi/processors/pulsar/pubsub/ConsumePulsarRecord.java:317-342 | one message of a group moves the session, acknowledgement log, failure queue, writer and removal flag exactly as `MessageStep` says; a writer is created only when none exists |
| Pipeline.WriteGroup | nifi-pulsar-processors/src/main/java/org/apache/nifi/processors/pulsar/pubsub/ConsumePulsarRecord.java:305-385 | one entry of the map moves the session, acknowledgement log and failure queue exactly as `ProcessEntry` says, and returns its status |
| Pipeline.ConsumeMessages | nifi-pulsar-processors/src/main/java/org/apache/nifi/processors/pulsar/pubsub/ConsumePulsarRecord.java:267-418 | a batch moves the session and acknowledgement log exactly as `Consume` says, and returns its status |
| GroupProperties.FailedDecodesMembers | nifi-pulsar-processors/src/main/java/org/apache/nifi/processors/pulsar/pubsub/ConsumePulsarRecord.java:334-341 | a message is among a group's failed decodes iff it is in the group and its decoding fails |
| GroupProperties.Individuals | nifi-pulsar-processors/src/main/java/org/apache/nifi/processors/pulsar/pubsub/ConsumePulsarRecord.java:330-332 | one individual acknowledgement per message, in message order, in the configured mode |
| GroupProperties.WritableKeepsSession | nifi-pulsar-processors/src/main/java/org/apache/nifi/processors/pulsar/pubsub/ConsumePulsarRecord.java:317-342 | with a writable schema the messages leave the session and the removal flag unchanged |
| GroupProperties.WritableAcks | nifi-pulsar-processors/src/main/java/org/apache/nifi/processors/pulsar/pubsub/ConsumePulsarRecord.java:330-332 | with a writable schema every message is acknowledged individually, in order, on a shared subscription, and none is acknowledged otherwise |
| GroupProperties.WritableFailures | nifi-pulsar-processors/src/main/java/org/apache/nifi/processors/pulsar/pubsub/ConsumePulsarRecord.java:334-341 | with a writable schema exactly the messages whose decoding fails are queued, in order |
| GroupProperties.WritableRecords | nifi-pulsar-processors/src/main/java/org/apache/nifi/processors/pulsar/pubsub/ConsumePulsarRecord.java:334-338 | with a writable schema the writer ends up with every decoded record in message order, including records read before a decoding error |
| GroupProperties.WritableMessages | nifi-pulsar-processors/src/main/java/org/apache/nifi/processors/pulsar/pubsub/ConsumePulsarRecord.java:317-342 | the four facts above together |
| GroupProperties.UnwritableMessages | nifi-pulsar-processors/src/main/java/org/apache/nifi/processors/pulsar/pubsub/ConsumePulsarRecord.java:244-250 | without a writer every message of the group is queued as a failure; none is acknowledged or decoded; the group's flow file is removed once |
| GroupProperties.GroupUnit | nifi-pulsar-processors/src/main/java/org/apache/nifi/processors/pulsar/pubsub/ConsumePulsarRecord.java:305-352 | the transferred flow file has "record.count" set to the rendered count, keeps the writer's attributes, has "avro.schema" set to the schema unless the writer overrides it, keeps the key's attributes unless overridden, holds the decoded records, and carries no attribute beyond the key's, the writer's, "avro.schema" and "record.count" |
| GroupProperties.KeyAttributesKept | nifi-pulsar-processors/src/main/java/org/apache/nifi/processors/pulsar/pubsub/ConsumePulsarRecord.java:305-352 | an attribute the writer does not report, other than "avro.schema" and "record.count", is on the group's flow file exactly when the group's key maps it, and with the key's value |
| GroupProperties.EntryOutcome | nifi-pulsar-processors/src/main/java/org/apache/nifi/processors/pulsar/pubsub/ConsumePulsarRecord.java:305-385 | a group with no schema aborts the batch with nothing acknowledged or queued. A group with no writer aborts it with every message queued and none acknowledged. Otherwise the group completes, acknowledging on shared subscriptions, queueing failed decodes, and either transferring its flow file or rolling back the whole session |
| GroupProperties.HonestOutcome | nifi-pulsar-processors/src/main/java/org/apache/nifi/processors/pulsar/pubsub/ConsumePulsarRecord.java:344-352 | with a writer that reports EMPTY exactly for no records, a group leaves a flow file iff it decoded at least one record; that flow file's "record.count" reads back as the number of records and it holds them |
| BatchProperties.GroupsAreNonEmpty | nifi-pulsar-processors/src/main/java/org/apache/nifi/processors/pulsar/pubsub/ConsumePulsarRecord.java:298 | every map entry holds at least one message, so the empty-entry `continue` (line 311) is never taken |
| BatchProperties.DeliveredAll | nifi-pulsar-processors/src/main/java/org/apache/nifi/processors/pulsar/pubsub/ConsumePulsarRecord.java:348-352 | when every group leaves a flow file, success gets one flow file per group, in map order, after those already there |
| BatchProperties.RollbackDiscardsEarlierGroups | nifi-pulsar-processors/src/main/java/org/apache/nifi/processors/pulsar/pubsub/ConsumePulsarRecord.java:378-384 | a group whose writer reports EMPTY wipes out the flow files of every earlier group; only later groups' flow files remain |
| BatchProperties.EntriesComplete | nifi-pulsar-processors/src/main/java/org/apache/nifi/processors/pulsar/pubsub/ConsumePulsarRecord.java:305-385 | the groups run to the end iff every group has a schema and a writer can be created for it |
| BatchProperties.EntriesFailures | nifi-pulsar-processors/src/main/java/org/apache/nifi/processors/pulsar/pubsub/ConsumePulsarRecord.java:305-385 | when they run to the end, the failure queue gets every failed decode, group by group |
| BatchProperties.EntriesAcks | nifi-pulsar-processors/src/main/java/org/apache/nifi/processors/pulsar/pubsub/ConsumePulsarRecord.java:305-385 | when they run to the end, every message is acknowledged individually in map order on a shared subscription, and none is acknowledged otherwise |
| BatchProperties.EntriesSession | nifi-pulsar-processors/src/main/java/org/apache/nifi/processors/pulsar/pubsub/ConsumePulsarRecord.java:305-385 | when they run to the end, the session holds the delivered flow files and nothing else |
| BatchProperties.EntriesOutcome | nifi-pulsar-processors/src/main/java/org/apache/nifi/processors/pulsar/pubsub/ConsumePulsarRecord.java:305-385 | the three facts above together |
| BatchProperties.MessagesAckPolicy | nifi-pulsar-processors/src/main/java/org/apache/nifi/processors/pulsar/pubsub/ConsumePulsarRecord.java:330-332 | a group's messages only append individual acknowledgements in the configured mode, and only on a shared subscription |
| BatchProperties.EntriesAckPolicy | nifi-pulsar-processors/src/main/java/org/apache/nifi/processors/pulsar/pubsub/ConsumePulsarRecord.java:305-342 | the same, for all groups, whether or not the batch aborts |
| BatchProperties.EmptyBatchChangesNothing | nifi-pulsar-processors/src/main/java/org/apache/nifi/processors/pulsar/pubsub/ConsumePulsarRecord.java:272-274 | an empty batch changes neither the session nor the acknowledgements |
| BatchProperties.BatchOutcome | nifi-pulsar-processors/src/main/java/org/apache/nifi/processors/pulsar/pubsub/ConsumePulsarRecord.java:267-418 | a non-empty batch completes iff every group is writable. A completed batch has queued exactly the failed decodes, holds no unfinished flow file, has the delivered flow files on success, and on parse-failure has nothing or the one joined flow file |
| BatchProperties.EveryGroupDelivered | nifi-pulsar-processors/src/main/java/org/apache/nifi/processors/pulsar/pubsub/ConsumePulsarRecord.java:344-352 | with an honest writer and every group writable and decoding to records, success holds one flow file per group in map order, with its records and a "record.count" that reads back as their number |
| BatchProperties.FailuresOfBatch | nifi-pulsar-processors/src/main/java/org/apache/nifi/processors/pulsar/pubsub/ConsumePulsarRecord.java:339-393 | in a completed batch a message is queued as a parse failure iff it is in the batch and its decoding fails |
| BatchProperties.BatchAckPolicy | nifi-pulsar-processors/src/main/java/org/apache/nifi/processors/pulsar/pubsub/ConsumePulsarRecord.java:282-417 | on a shared subscription only individual acknowledgements are issued, and a completed batch acknowledges each of its messages exactly once. Otherwise exactly one cumulative acknowledgement is issued, of the last message, and only when the batch is non-empty and completed |
| BatchProperties.BatchForgetsEarlierOutput | nifi-pulsar-processors/src/main/java/org/apache/nifi/processors/pulsar/pubsub/ConsumePulsarRecord.java:301-303 | the outcome of a non-empty batch does not depend on what the session held before it |
| AsyncDrain.HandleAsync | nifi-pulsar-processors/src/main/java/org/apache/nifi/processors/pulsar/pubsub/ConsumePulsarRecord.java:640-661 | the do-while loop ends in the world, status and poll count that `Drain` gives |
| AsyncDrain.DrainStopsAtTimeout | nifi-pulsar-processors/src/main/java/org/apache/nifi/processors/pulsar/pubsub/ConsumePulsarRecord.java:647-656 | draining stops at the first poll that times out; later fetches are never looked at |
| AsyncDrain.EmptyFetchesAreSkipped | nifi-pulsar-processors/src/main/java/org/apache/nifi/processors/pulsar/pubsub/ConsumePulsarRecord.java:650-655 | an empty fetch changes nothing but the poll count |
| AsyncDrain.DrainAcksAreAsync | nifi-pulsar-processors/src/main/java/org/apache/nifi/processors/pulsar/pubsub/ConsumePulsarRecord.java:653 | the drain issues only async acknowledgements: individual ones on a shared subscription, cumulative ones otherwise |
| AsyncDrain.BatchAckPolicyAsync | nifi-pulsar-processors/src/main/java/org/apache/nifi/processors/pulsar/pubsub/ConsumePulsarRecord.java:653 | one drained batch issues only async acknowledgements of the subscription's kind |
| Scenarios.MappedAttributesGrouping | nifi-pulsar-processors/src/test/java/org/apache/nifi/processors/pulsar/pubsub/TestConsumePulsarRecord.java:202-212 | the test's four messages A, B, C and D group as [A, B], [C], [D], in that order |
| Scenarios.MappedAttributesDelivery | nifi-pulsar-processors/src/test/java/org/apache/nifi/processors/pulsar/pubsub/TestConsumePulsarRecord.java:219-238 | three flow files reach success, in order, holding the records of A and B, of C, and of D; the first has "record.count" 2 |
| Scenarios.MappedSuccessUnits | nifi-pulsar-processors/src/test/java/org/apache/nifi/processors/pulsar/pubsub/TestConsumePulsarRecord.java:223-224 | the batch leaves exactly three flow files on success, which are the outcomes of its three groups in map order |
| Scenarios.MappedAttributesOnFlowFiles | nifi-pulsar-processors/src/test/java/org/apache/nifi/processors/pulsar/pubsub/TestConsumePulsarRecord.java:229-241 | the first flow file (A and B) has neither "prop" nor "key", the second (C) has prop=val and no key, and the third (D) has prop=val and key=K |
| Scenarios.MappedAttributesAcknowledged | nifi-pulsar-processors/src/main/java/org/apache/nifi/processors/pulsar/pubsub/ConsumePulsarRecord.java:415-417 | that batch completes, nothing reaches parse-failure, and D alone is acknowledged, cumulatively |
| Scenarios.FailedParseHandling | nifi-pulsar-processors/src/test/java/org/apache/nifi/processors/pulsar/pubsub/TestConsumePulsarRecord.java:94-129 | the same unparsable "msg" fetched twice leaves nothing on success and one "msg***msg" flow file on parse-failure, and is acknowledged cumulatively once |
| Scenarios.SharedAckCount | nifi-pulsar-processors/src/test/java/org/apache/nifi/processors/pulsar/pubsub/TestConsumePulsarRecord.java:174-180 | on a shared subscription a completed batch issues exactly as many acknowledgements as it has messages |

## Left out

- I/O failures are not modelled. These are the `IOException` paths of consumeMessages (line 386) and handleFailures (line 624), and `IOUtils.closeQuietly`. Writing to the session's output stream is modelled as total.
- Broker failures are not modelled: every `consumer.receive` (line 196) and every sync `acknowledge` or `acknowledgeCumulative` (lines 580 and 594) is assumed to succeed. In the source, a `PulsarClientException` from these calls leaves getMessages or consumeMessages, because the catch at line 339 does not cover it. It is handled only in `onTrigger` (lines 176-180), and by then part of the batch may already be acknowledged.
- Decimal.ToDecimal: renders the record count as a non-negative number. `WriteResult.getRecordCount()` is a Java `int` (line 350), and `Integer.toString` would render a negative count as "-n". No writer reports a negative count, so the model types the count as `nat`.
- Provenance reporting (line 351) and logging are not modelled. They change neither the session's flow files nor the acknowledgements.
- The reader and writer factories are capabilities of the model. These are `getSchema`, `extractSchemaAndSetAttribute`, `getRecordWriter` and `RecordReader`. The model does not contain their code, which is Avro, CSV or other serialisation. The "avro.schema" attribute that `extractSchemaAndSetAttribute` sets during grouping is also left out, because the rollback at line 303 discards it. `decode` and `canWrite` do not see the flow file whose attributes the source passes to `createRecordReader` and `getRecordWriter` (lines 319 and 335). A reader or writer whose behaviour depends on those attributes is not modelled.
- `getMappedFlowFileAttributes` is not modelled. Its result is part of the message (`Message.attributes`): an attribute mapped to null is absent from the map.
- `onTrigger`, the property descriptors and `consumeAsync` are not modelled. They supply the inputs: the messages, the subscription type, the async flag and the demarcator. `DemarcatorOf` and `MaxMessagesOf` give only the defaults of lines 88 and 156-160. `MAX_WAIT_TIME` is part of what a `Poll` result means: `NoFetch` is a poll that timed out.
- The async acknowledgement executor and the consumer service's futures are not modelled. An async acknowledgement is recorded as the task submitted to the executor. The task itself and whether it succeeds are not modelled.
- `consumeMessages__Old` and the commented-out `commitAsync` blocks are not modelled, because they are not called.
- handleFailures skips a message or payload that is null. The model has no null message or payload, so that check always passes.
- `StringHash` works on Dafny characters, whereas Java hashes UTF-16 code units. The two agree for characters of the Basic Multilingual Plane.
- Pipeline.WriteMessage: when no writer can be created, the source calls `session.remove` again for every further message of the group. The model removes the flow file only once. In NiFi a second remove throws, and the batch aborts either way, so the outcome is the same: the batch is aborted, nothing is flushed and nothing is acknowledged cumulatively.
- After an abort, the framework rolls back the session. The model does not include that rollback: an `Aborted` run keeps the world at the point of the fault.
- Scenarios.MappedAttributesOnFlowFiles: states the test's attribute checks (lines 229-241) only for a record writer that reports neither "prop" nor "key". The writer is an input of the model, and a writer that reports these names would override the key's values.
