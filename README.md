# Tez history and recovery events in Dafny

This project models the history event classes of the Tez DAG application master
(`org.apache.tez.dag.history.events`). The DAG application master emits an event
when an AM attempt launches and when a DAG, a vertex, a task or a task attempt
starts or finishes. Each event class does four things:

- writes its fields to a protobuf record for the recovery log (`toProto`);
- reads those fields back into an empty instance (`fromProto`);
- answers kind-level questions: its `HistoryEventType`, whether it is a recovery
  event, whether it is a history event and, for the two summary events, whether
  it is written to recovery immediately;
- projects itself into a YARN timeline entity (`convertToTimelineEntity`).

`DAGFinishedEvent` and `VertexFinishedEvent` also write and read a compact
`SummaryEventProto`.

Layout:

- `wrappers.dfy`: `Option`.
- `primitives.dfy`: Java `int`/`long`/byte widths. Also Java's wrapping `long`
  subtraction, which computes every `TIME_TAKEN`.
- `ints.dfy`: Guava `Ints.toByteArray` / `Ints.fromByteArray`, as four
  big-endian two's-complement bytes.
- `decimal.dfy`, `ids.dfy`: the YARN and Tez identifiers as nested datatypes.
  A task attempt lies inside a task, the task inside a vertex, the vertex inside
  a DAG and the DAG inside an application. The parent accessors mirror
  `getTaskID`/`getVertexID`/`getDAGId`. Every id except the node id has an
  underscore-separated decimal string form. The node id's form is `host:port`,
  split at the first colon. Each id has a parser and a proof that the parser
  inverts its string form.
- `states.dfy`: the state enums and `HistoryEventType`, with `ordinal()`,
  `name()` and a partial `values()[i]`.
- `records.dfy`: counters, stats, decode failures, and the summary record.
- `timeline.dfy`: the timeline entity and the builder calls the projections
  make.
- `kinds.dfy`: the eight event kinds and their kind-level flags.
- One file per event class. Each holds:
  - the proto record (an `Option` for each field the decoder checks with `has*`);
  - a value type `<Kind>State` for the Java fields (`Option` where Java allows
    `null`);
  - the pure `ToProto` and `Convert`;
  - `ApplyProto`, which gives the effect of `fromProto` on an instance's fields;
  - a class `<Kind>Event` with the Java fields, its constructors and a
    `FromProto` method. The method updates the fields in place and is proved
    equal to `ApplyProto`.

`fromProto` assigns fields one after another. Three things throw part-way:
- an out-of-range state ordinal;
- a summary payload shorter than four bytes;
- a malformed YARN id, parsed by `ConverterUtils`.

A failed decode keeps the assignments made before the throw. The model returns
them with the failure (`Step(state, Some(failure))`).

A malformed Tez id does not throw. `Tez*ID.fromString` returns `null`, and the
decode goes on with a `null` id.

The DAG-finished and task-attempt-finished projections always add a
`DIAGNOSTICS` entry, with a null value when there are no diagnostics. The
vertex-finished and task-finished projections add none. The model follows the
code here too.

## Model

Paths are relative to `tez-dag/src/main/java/org/apache/tez/dag/history/events/`
in the original repository. Each path below starts with that prefix, written
out in full.

| member | source | states |
|---|---|---|
| Primitives.LongSub | tez-dag/src/main/java/org/apache/tez/dag/history/events/VertexFinishedEvent.java:153 | `finishTime - startTime` on `long`: exact when the difference fits in 64 bits, congruent to it modulo 2^64 always |
| Primitives.LongSubOfOrderedTimes | tez-dag/src/main/java/org/apache/tez/dag/history/events/DAGFinishedEvent.java:148 | between non-negative times with start ≤ finish, the time taken is exactly finish − start and non-negative |
| Ints.ToByteArray | tez-dag/src/main/java/org/apache/tez/dag/history/events/DAGFinishedEvent.java:176 | four bytes whose big-endian value is the int read as unsigned |
| Ints.FromByteArray | tez-dag/src/main/java/org/apache/tez/dag/history/events/DAGFinishedEvent.java:184-185 | defined exactly when the array has at least four bytes |
| Ints.FromToByteArray | tez-dag/src/main/java/org/apache/tez/dag/history/events/DAGFinishedEvent.java:176-185 | reading back the four bytes of any int gives that int |
| Ints.FromByteArrayIgnoresTail | tez-dag/src/main/java/org/apache/tez/dag/history/events/DAGFinishedEvent.java:185 | only the first four payload bytes decide the state ordinal |
| Ids.AppIdRoundTrip | tez-dag/src/main/java/org/apache/tez/dag/history/events/AMLaunchedEvent.java:120-121 | an application id's string form parses back to it |
| Ids.AppAttemptIdRoundTrip | tez-dag/src/main/java/org/apache/tez/dag/history/events/AMLaunchedEvent.java:75-88 | `ConverterUtils.toApplicationAttemptId` inverts the attempt's string form |
| Ids.ContainerIdRoundTrip | tez-dag/src/main/java/org/apache/tez/dag/history/events/TaskAttemptStartedEvent.java:78-92 | `ConverterUtils.toContainerId` inverts the container's string form |
| Ids.NodeIdRoundTrip | tez-dag/src/main/java/org/apache/tez/dag/history/events/TaskAttemptStartedEvent.java:78-92 | `ConverterUtils.toNodeId` inverts `host:port` when the host has no colon |
| Ids.DagIdRoundTrip | tez-dag/src/main/java/org/apache/tez/dag/history/events/DAGStartedEvent.java:67-77 | `TezDAGID.fromString` inverts `toString` |
| Ids.VertexIdRoundTrip | tez-dag/src/main/java/org/apache/tez/dag/history/events/VertexStartedEvent.java:65-77 | `TezVertexID.fromString` inverts `toString` |
| Ids.TaskIdRoundTrip | tez-dag/src/main/java/org/apache/tez/dag/history/events/TaskFinishedEvent.java:84-110 | `TezTaskID.fromString` inverts `toString` |
| Ids.AttemptIdRoundTrip | tez-dag/src/main/java/org/apache/tez/dag/history/events/TaskAttemptFinishedEvent.java:86-112 | `TezTaskAttemptID.fromString` inverts `toString` |
| Ids.VertexIdToStringInjective | tez-dag/src/main/java/org/apache/tez/dag/history/events/VertexFinishedEvent.java:141 | distinct vertices get distinct entity ids |
| Ids.EmptyStringIsNoTezId | tez-dag/src/main/java/org/apache/tez/dag/history/events/VertexFinishedEvent.java:115 | no Tez id parser accepts the empty string, so `fromString("")` returns `null` |
| Ids.AppIdToString | tez-dag/src/main/java/org/apache/tez/dag/history/events/AMLaunchedEvent.java:120-121 | `ApplicationId.toString`; its meaning is given by Ids.AppIdRoundTrip |
| Ids.AppAttemptIdToString | tez-dag/src/main/java/org/apache/tez/dag/history/events/AMLaunchedEvent.java:77 | `ApplicationAttemptId.toString`; its meaning is given by Ids.AppAttemptIdRoundTrip |
| Ids.ContainerIdToString | tez-dag/src/main/java/org/apache/tez/dag/history/events/TaskAttemptStartedEvent.java:82 | `ContainerId.toString`; its meaning is given by Ids.ContainerIdRoundTrip |
| Ids.NodeIdToString | tez-dag/src/main/java/org/apache/tez/dag/history/events/TaskAttemptStartedEvent.java:83 | `NodeId.toString` as `host:port`; its meaning is given by Ids.NodeIdRoundTrip |
| Ids.DagIdToString | tez-dag/src/main/java/org/apache/tez/dag/history/events/DAGStartedEvent.java:69 | `TezDAGID.toString`; its meaning is given by Ids.DagIdRoundTrip |
| Ids.VertexIdToString | tez-dag/src/main/java/org/apache/tez/dag/history/events/VertexStartedEvent.java:67 | `TezVertexID.toString`; its meaning is given by Ids.VertexIdRoundTrip and Ids.VertexIdToStringInjective |
| Ids.TaskIdToString | tez-dag/src/main/java/org/apache/tez/dag/history/events/TaskFinishedEvent.java:86 | `TezTaskID.toString`; its meaning is given by Ids.TaskIdRoundTrip |
| Ids.AttemptIdToString | tez-dag/src/main/java/org/apache/tez/dag/history/events/TaskAttemptFinishedEvent.java:86-99 | `TezTaskAttemptID.toString`; its meaning is given by Ids.AttemptIdRoundTrip |
| Ids.AppIdFromString | tez-dag/src/main/java/org/apache/tez/dag/history/events/AMLaunchedEvent.java:120-121 | the application id parser; inverts `AppIdToString` (Ids.AppIdRoundTrip) |
| Ids.AppAttemptIdFromString | tez-dag/src/main/java/org/apache/tez/dag/history/events/AMLaunchedEvent.java:84-85 | `ConverterUtils.toApplicationAttemptId`; `None` is a throw; inverts the attempt string (Ids.AppAttemptIdRoundTrip) |
| Ids.ContainerIdFromString | tez-dag/src/main/java/org/apache/tez/dag/history/events/TaskAttemptStartedEvent.java:90 | `ConverterUtils.toContainerId`; `None` is a throw; inverts the container string (Ids.ContainerIdRoundTrip) |
| Ids.NodeIdFromString | tez-dag/src/main/java/org/apache/tez/dag/history/events/TaskAttemptStartedEvent.java:91 | `ConverterUtils.toNodeId`, split at the first colon; `None` is a throw; inverts `host:port` for a colon-free host (Ids.NodeIdRoundTrip) |
| Ids.DagIdFromString | tez-dag/src/main/java/org/apache/tez/dag/history/events/DAGStartedEvent.java:75 | `TezDAGID.fromString`; `None` is its `null`; inverts `DagIdToString` (Ids.DagIdRoundTrip) |
| Ids.VertexIdFromString | tez-dag/src/main/java/org/apache/tez/dag/history/events/VertexStartedEvent.java:74 | `TezVertexID.fromString`; `None` is its `null`; inverts `VertexIdToString` (Ids.VertexIdRoundTrip) |
| Ids.TaskIdFromString | tez-dag/src/main/java/org/apache/tez/dag/history/events/TaskFinishedEvent.java:99 | `TezTaskID.fromString`; `None` is its `null`; inverts `TaskIdToString` (Ids.TaskIdRoundTrip) |
| Ids.AttemptIdFromString | tez-dag/src/main/java/org/apache/tez/dag/history/events/TaskAttemptFinishedEvent.java:102 | `TezTaskAttemptID.fromString`; `None` is its `null`; inverts `AttemptIdToString` (Ids.AttemptIdRoundTrip) |
| VertexStates.Ordinal | tez-dag/src/main/java/org/apache/tez/dag/history/events/VertexFinishedEvent.java:102 | `state.ordinal()` is an index into `values()` that holds that state |
| VertexStates.FromOrdinal | tez-dag/src/main/java/org/apache/tez/dag/history/events/VertexFinishedEvent.java:117 | `values()[i]` is defined exactly for `0 <= i < 10`, and then inverts `ordinal()` |
| DAGStates.Ordinal | tez-dag/src/main/java/org/apache/tez/dag/history/events/DAGFinishedEvent.java:95 | `state.ordinal()` indexes that state in `values()` |
| DAGStates.FromOrdinal | tez-dag/src/main/java/org/apache/tez/dag/history/events/DAGFinishedEvent.java:111 | `values()[i]` is defined exactly for in-range `i`, and then inverts `ordinal()` |
| TaskStates.Ordinal | tez-dag/src/main/java/org/apache/tez/dag/history/events/TaskFinishedEvent.java:87 | `state.ordinal()` indexes that state in `values()` |
| TaskStates.FromOrdinal | tez-dag/src/main/java/org/apache/tez/dag/history/events/TaskFinishedEvent.java:101 | `values()[i]` is defined exactly for in-range `i`, and then inverts `ordinal()` |
| TaskAttemptStates.Ordinal | tez-dag/src/main/java/org/apache/tez/dag/history/events/TaskAttemptFinishedEvent.java:90 | `state.ordinal()` indexes that state in `values()` |
| TaskAttemptStates.FromOrdinal | tez-dag/src/main/java/org/apache/tez/dag/history/events/TaskAttemptFinishedEvent.java:104 | `values()[i]` is defined exactly for in-range `i`, and then inverts `ordinal()` |
| HistoryEventTypes.Ordinal | tez-dag/src/main/java/org/apache/tez/dag/history/events/VertexFinishedEvent.java:214 | `getEventType().ordinal()` lies below the number of event types |
| EventKinds.EventTypeInjective | tez-dag/src/main/java/org/apache/tez/dag/history/events/DAGFinishedEvent.java:175 | a summary record's type ordinal determines the event class |
| EventKinds.SummaryKindsAreRecoveryKinds | tez-dag/src/main/java/org/apache/tez/dag/history/events/DAGFinishedEvent.java:188-191 | summary kinds are recovery kinds; only DAG-finished is written immediately; every kind but AM-launched is a recovery kind |
| EventKinds.EventType | tez-dag/src/main/java/org/apache/tez/dag/history/events/VertexFinishedEvent.java:83-86 | `getEventType()` per class; meaning given by EventKinds.EventTypeInjective and each kind's KindFlags |
| EventKinds.IsRecoveryEvent | tez-dag/src/main/java/org/apache/tez/dag/history/events/AMLaunchedEvent.java:58-61 | `isRecoveryEvent()`; meaning given by EventKinds.SummaryKindsAreRecoveryKinds and each KindFlags |
| EventKinds.IsHistoryEvent | tez-dag/src/main/java/org/apache/tez/dag/history/events/DAGStartedEvent.java:62-65 | `isHistoryEvent()`, true for every class; stated by each KindFlags |
| EventKinds.IsSummaryEvent | tez-dag/src/main/java/org/apache/tez/dag/history/events/DAGFinishedEvent.java:46 | the classes implementing `SummaryEvent`; meaning given by EventKinds.SummaryKindsAreRecoveryKinds |
| EventKinds.WriteToRecoveryImmediately | tez-dag/src/main/java/org/apache/tez/dag/history/events/DAGFinishedEvent.java:188-191 | `writeToRecoveryImmediately()`; meaning given by EventKinds.SummaryKindsAreRecoveryKinds (true only for DAG-finished, false at VertexFinishedEvent.java:230-233) |
| Timeline.Nullable | tez-dag/src/main/java/org/apache/tez/dag/history/events/DAGFinishedEvent.java:150 | a Java string becomes the null value exactly when it is `null` |
| VertexFinished.ApplyProto | tez-dag/src/main/java/org/apache/tez/dag/history/events/VertexFinishedEvent.java:113-125 | decoding fails iff the state ordinal is out of range, and then leaves `state` untouched. A malformed id becomes `null` and does not stop the decode. The finish time is always read. `fromSummary` is never changed |
| VertexFinished.ToProto | tez-dag/src/main/java/org/apache/tez/dag/history/events/VertexFinishedEvent.java:98-111 | `toProto`; its meaning is given by VertexFinished.RoundTrip |
| VertexFinished.MalformedIdAccepted | tez-dag/src/main/java/org/apache/tez/dag/history/events/VertexFinishedEvent.java:113-125 | a record with a malformed vertex id and an in-range state decodes without failure into an event with a `null` id, which can be neither re-encoded nor projected |
| VertexFinished.MalformedIdExample | tez-dag/src/main/java/org/apache/tez/dag/history/events/VertexFinishedEvent.java:114-116 | a record with an empty vertex id decodes into an event with a `null` id and the record's finish time |
| VertexFinished.RoundTrip | tez-dag/src/main/java/org/apache/tez/dag/history/events/VertexFinishedEvent.java:98-125 | decoding the encoding into a fresh instance restores name, id, finish time and state. Diagnostics and counters are in the record iff non-null and come back iff they were. The four earlier times, the stats and `fromSummary` stay at their defaults |
| VertexFinished.ApplySummaryProto | tez-dag/src/main/java/org/apache/tez/dag/history/events/VertexFinishedEvent.java:220-228 | summary decoding fails iff the ordinal is out of range, after the id (`null` when malformed) and before the finish time. `fromSummary` ends true iff it succeeded or was already true |
| VertexFinished.ToSummaryProto | tez-dag/src/main/java/org/apache/tez/dag/history/events/VertexFinishedEvent.java:203-218 | `toSummaryProtoStream`'s record; its meaning is given by VertexFinished.SummaryRecordFields and VertexFinished.SummaryRoundTrip |
| VertexFinished.SummaryRecordFields | tez-dag/src/main/java/org/apache/tez/dag/history/events/VertexFinishedEvent.java:203-218 | the record names the parent DAG, is stamped with the finish time and tagged with the VERTEX_FINISHED ordinal; its payload decodes to the state and the vertex id |
| VertexFinished.SummaryRoundTrip | tez-dag/src/main/java/org/apache/tez/dag/history/events/VertexFinishedEvent.java:203-228 | summary decoding restores id, state and finish time, sets `fromSummary`, and leaves every other field (diagnostics, counters included) at its default |
| VertexFinished.SummaryAgreesWithFull | tez-dag/src/main/java/org/apache/tez/dag/history/events/VertexFinishedEvent.java:98-228 | the summary and the full record agree on id, state and finish time; only the summary-decoded instance is `fromSummary` |
| VertexFinished.OutOfRangeStateFails | tez-dag/src/main/java/org/apache/tez/dag/history/events/VertexFinishedEvent.java:117-225 | an out-of-range state ordinal makes both decodings fail and leaves `fromSummary` unset |
| VertexFinished.KindFlags | tez-dag/src/main/java/org/apache/tez/dag/history/events/VertexFinishedEvent.java:83-96 | type VERTEX_FINISHED, a recovery and history event with a summary that is not written immediately (lines 230-233) |
| VertexFinished.Convert | tez-dag/src/main/java/org/apache/tez/dag/history/events/VertexFinishedEvent.java:138-162 | `convertToTimelineEntity`; its meaning is given by VertexFinished.ConvertEntity and VertexFinished.ConvertInfo |
| VertexFinished.ConvertEntity | tez-dag/src/main/java/org/apache/tez/dag/history/events/VertexFinishedEvent.java:139-145 | entity id parses back to the vertex, type TEZ_VERTEX_ID, no start time, no related entities; the only filter is TEZ_DAG_ID = {the parent DAG's id} |
| VertexFinished.ConvertInfo | tez-dag/src/main/java/org/apache/tez/dag/history/events/VertexFinishedEvent.java:147-159 | one VERTEX_FINISHED event at the finish time. Other-info holds exactly finish time, time taken (finish − start, wrapping), state name, counters and stats, with no DIAGNOSTICS |
| VertexFinished.RecoveredTimeTaken | tez-dag/src/main/java/org/apache/tez/dag/history/events/VertexFinishedEvent.java:113-153 | the start time is not encoded, so an event recovered from its record projects a time taken equal to its finish time |
| VertexFinished.VertexFinishedEvent.constructor | tez-dag/src/main/java/org/apache/tez/dag/history/events/VertexFinishedEvent.java:62-78 | stores every argument; `fromSummary` is false |
| VertexFinished.VertexFinishedEvent.Empty | tez-dag/src/main/java/org/apache/tez/dag/history/events/VertexFinishedEvent.java:59-81 | nulls and zeros, `fromSummary` false |
| VertexFinished.VertexFinishedEvent.FromProto | tez-dag/src/main/java/org/apache/tez/dag/history/events/VertexFinishedEvent.java:113-125 | the in-place decode leaves exactly the fields and failure that `ApplyProto` gives |
| VertexFinished.VertexFinishedEvent.FromSummaryProto | tez-dag/src/main/java/org/apache/tez/dag/history/events/VertexFinishedEvent.java:220-228 | the in-place summary decode leaves exactly what `ApplySummaryProto` gives |
| VertexFinished.VertexFinishedEvent.IsFromSummary | tez-dag/src/main/java/org/apache/tez/dag/history/events/VertexFinishedEvent.java:235-237 | `isFromSummary`; its value is set by the decoders, as VertexFinished.ApplySummaryProto and VertexFinished.ApplyProto state |
| DAGFinished.ApplyProto | tez-dag/src/main/java/org/apache/tez/dag/history/events/DAGFinishedEvent.java:108-119 | decoding fails iff the ordinal is out of range, and then leaves `state` untouched. A malformed DAG id becomes `null`. The finish time is always read |
| DAGFinished.ToProto | tez-dag/src/main/java/org/apache/tez/dag/history/events/DAGFinishedEvent.java:91-106 | `toProto`; its meaning is given by DAGFinished.RoundTrip |
| DAGFinished.RoundTrip | tez-dag/src/main/java/org/apache/tez/dag/history/events/DAGFinishedEvent.java:91-119 | restores id, finish time and state. Diagnostics and counters are in the record iff non-null and come back iff they were. Start time, user and DAG name stay at their defaults |
| DAGFinished.ApplySummaryProto | tez-dag/src/main/java/org/apache/tez/dag/history/events/DAGFinishedEvent.java:180-186 | succeeds iff the payload has four bytes and their int is an in-range ordinal. It fails as too short exactly when the payload is under four bytes. Id (`null` when malformed) and time are assigned first; `state` changes only on success |
| DAGFinished.ToSummaryProto | tez-dag/src/main/java/org/apache/tez/dag/history/events/DAGFinishedEvent.java:170-178 | `toSummaryProtoStream`'s record; its meaning is given by DAGFinished.SummaryRecordFields and DAGFinished.SummaryRoundTrip |
| DAGFinished.SummaryRecordFields | tez-dag/src/main/java/org/apache/tez/dag/history/events/DAGFinishedEvent.java:170-178 | the record carries the DAG id, the finish time and the DAG_FINISHED ordinal; its four-byte payload reads back as the state ordinal |
| DAGFinished.SummaryRoundTrip | tez-dag/src/main/java/org/apache/tez/dag/history/events/DAGFinishedEvent.java:170-186 | summary decoding into a fresh instance restores id, finish time and state and nothing else |
| DAGFinished.SummaryAgreesWithFull | tez-dag/src/main/java/org/apache/tez/dag/history/events/DAGFinishedEvent.java:91-186 | summary and full decoding agree on id, state and finish time; the summary carries no diagnostics or counters |
| DAGFinished.KindFlags | tez-dag/src/main/java/org/apache/tez/dag/history/events/DAGFinishedEvent.java:76-89 | type DAG_FINISHED, a recovery and history event with a summary, written immediately (lines 188-191) |
| DAGFinished.Convert | tez-dag/src/main/java/org/apache/tez/dag/history/events/DAGFinishedEvent.java:132-155 | `convertToTimelineEntity`; its meaning is given by DAGFinished.ConvertEntity and DAGFinished.ConvertInfo |
| DAGFinished.ConvertEntity | tez-dag/src/main/java/org/apache/tez/dag/history/events/DAGFinishedEvent.java:133-144 | entity id parses back to the DAG, type TEZ_DAG_ID; the filters are exactly USER = {user} and DAG_NAME = {name}, null included |
| DAGFinished.ConvertInfo | tez-dag/src/main/java/org/apache/tez/dag/history/events/DAGFinishedEvent.java:138-152 | one DAG_FINISHED event at the finish time. Other-info holds exactly start and finish times, time taken, status and counters, and a DIAGNOSTICS entry that is null when there are no diagnostics |
| DAGFinished.ConvertExample | tez-dag/src/main/java/org/apache/tez/dag/history/events/DAGFinishedEvent.java:143-150 | a succeeded DAG run from 1000 to 5000 projects time taken 4000, status "SUCCEEDED" and null diagnostics |
| DAGFinished.DAGFinishedEvent.constructor | tez-dag/src/main/java/org/apache/tez/dag/history/events/DAGFinishedEvent.java:62-74 | stores every argument |
| DAGFinished.DAGFinishedEvent.Empty | tez-dag/src/main/java/org/apache/tez/dag/history/events/DAGFinishedEvent.java:59-60 | `new DAGFinishedEvent()`: every field null or zero |
| DAGFinished.DAGFinishedEvent.FromProto | tez-dag/src/main/java/org/apache/tez/dag/history/events/DAGFinishedEvent.java:108-119 | the in-place decode leaves exactly what `ApplyProto` gives |
| DAGFinished.DAGFinishedEvent.FromSummaryProto | tez-dag/src/main/java/org/apache/tez/dag/history/events/DAGFinishedEvent.java:180-186 | the in-place summary decode leaves exactly what `ApplySummaryProto` gives |
| TaskAttemptFinished.ApplyProto | tez-dag/src/main/java/org/apache/tez/dag/history/events/TaskAttemptFinishedEvent.java:101-112 | decoding fails iff the ordinal is out of range, and then leaves `state` untouched. A malformed attempt id becomes `null`. The finish time is always read |
| TaskAttemptFinished.ToProto | tez-dag/src/main/java/org/apache/tez/dag/history/events/TaskAttemptFinishedEvent.java:86-99 | `toProto`; its meaning is given by TaskAttemptFinished.RoundTrip |
| TaskAttemptFinished.RoundTrip | tez-dag/src/main/java/org/apache/tez/dag/history/events/TaskAttemptFinishedEvent.java:86-112 | restores attempt id, finish time and state. Diagnostics and counters are in the record iff non-null and come back iff they were. Vertex name and start time stay at their defaults |
| TaskAttemptFinished.KindFlags | tez-dag/src/main/java/org/apache/tez/dag/history/events/TaskAttemptFinishedEvent.java:71-84 | type TASK_ATTEMPT_FINISHED, a recovery and history event without a summary |
| TaskAttemptFinished.Convert | tez-dag/src/main/java/org/apache/tez/dag/history/events/TaskAttemptFinishedEvent.java:126-153 | `convertToTimelineEntity`; its meaning is given by TaskAttemptFinished.ConvertEntity and TaskAttemptFinished.ConvertInfo |
| TaskAttemptFinished.ConvertEntity | tez-dag/src/main/java/org/apache/tez/dag/history/events/TaskAttemptFinishedEvent.java:129-137 | entity id parses back to the attempt, type TEZ_TASK_ATTEMPT_ID. The filters are exactly the attempt's DAG, vertex and task, taken along the parent chain |
| TaskAttemptFinished.ConvertInfo | tez-dag/src/main/java/org/apache/tez/dag/history/events/TaskAttemptFinishedEvent.java:139-150 | one TASK_ATTEMPT_FINISHED event at the finish time. Other-info holds exactly finish time, time taken, status, counters and an always-present DIAGNOSTICS |
| TaskAttemptFinished.TaskAttemptFinishedEvent.constructor | tez-dag/src/main/java/org/apache/tez/dag/history/events/TaskAttemptFinishedEvent.java:52-66 | stores every argument |
| TaskAttemptFinished.TaskAttemptFinishedEvent.Empty | tez-dag/src/main/java/org/apache/tez/dag/history/events/TaskAttemptFinishedEvent.java:68-69 | `new TaskAttemptFinishedEvent()`: every field null or zero |
| TaskAttemptFinished.TaskAttemptFinishedEvent.FromProto | tez-dag/src/main/java/org/apache/tez/dag/history/events/TaskAttemptFinishedEvent.java:101-112 | the in-place decode leaves exactly what `ApplyProto` gives |
| TaskFinished.ApplyProto | tez-dag/src/main/java/org/apache/tez/dag/history/events/TaskFinishedEvent.java:98-110 | decoding fails iff the ordinal is out of range, and then leaves `state` untouched. A malformed task id becomes `null`. On success a present successful-attempt string sets that field (`null` when malformed), and an absent one keeps it |
| TaskFinished.ToProto | tez-dag/src/main/java/org/apache/tez/dag/history/events/TaskFinishedEvent.java:84-96 | `toProto`; its meaning is given by TaskFinished.RoundTrip |
| TaskFinished.CreatedAsWritten | tez-dag/src/main/java/org/apache/tez/dag/history/events/TaskFinishedEvent.java:54-64 | the fields the constructor as written leaves: every argument but the successful attempt, which stays `null`; meaning given by TaskFinished.CreatedAsWrittenLosesSuccessfulAttempt |
| TaskFinished.Created | tez-dag/src/main/java/org/apache/tez/dag/history/events/TaskFinishedEvent.java:54-64 | the fields the corrected constructor leaves: every argument stored; meaning given by TaskFinished.CreatedRoundTrip |
| TaskFinished.RoundTrip | tez-dag/src/main/java/org/apache/tez/dag/history/events/TaskFinishedEvent.java:84-110 | restores task id, finish time and state. Counters and the successful attempt are in the record iff non-null and come back iff they were. Vertex name and start time stay at their defaults |
| TaskFinished.CreatedAsWrittenLosesSuccessfulAttempt | tez-dag/src/main/java/org/apache/tez/dag/history/events/TaskFinishedEvent.java:54-64 | as written, the constructor drops the successful attempt, so the event's record never carries it and recovery never restores it |
| TaskFinished.CreatedRoundTrip | tez-dag/src/main/java/org/apache/tez/dag/history/events/TaskFinishedEvent.java:54-110 | with the constructor storing every argument, the successful attempt survives encoding and decoding |
| TaskFinished.KindFlags | tez-dag/src/main/java/org/apache/tez/dag/history/events/TaskFinishedEvent.java:69-82 | type TASK_FINISHED, a recovery and history event without a summary |
| TaskFinished.Convert | tez-dag/src/main/java/org/apache/tez/dag/history/events/TaskFinishedEvent.java:123-147 | `convertToTimelineEntity`; its meaning is given by TaskFinished.ConvertEntity and TaskFinished.ConvertInfo |
| TaskFinished.ConvertEntity | tez-dag/src/main/java/org/apache/tez/dag/history/events/TaskFinishedEvent.java:126-132 | entity id parses back to the task, type TEZ_TASK_ID; the filters are exactly its DAG and vertex along the parent chain |
| TaskFinished.ConvertInfo | tez-dag/src/main/java/org/apache/tez/dag/history/events/TaskFinishedEvent.java:134-144 | one TASK_FINISHED event at the finish time. Other-info holds exactly finish time, time taken, status and counters, with no DIAGNOSTICS |
| TaskFinished.TaskFinishedEvent.constructor | tez-dag/src/main/java/org/apache/tez/dag/history/events/TaskFinishedEvent.java:54-64 | stores every argument, the successful attempt included (the corrected constructor) |
| TaskFinished.TaskFinishedEvent.Empty | tez-dag/src/main/java/org/apache/tez/dag/history/events/TaskFinishedEvent.java:66-67 | `new TaskFinishedEvent()`: every field null or zero |
| TaskFinished.TaskFinishedEvent.FromProto | tez-dag/src/main/java/org/apache/tez/dag/history/events/TaskFinishedEvent.java:98-110 | the in-place decode leaves exactly what `ApplyProto` gives |
| TaskAttemptStarted.ApplyProto | tez-dag/src/main/java/org/apache/tez/dag/history/events/TaskAttemptStartedEvent.java:87-92 | attempt id (`null` when malformed) and start time are always assigned. Decoding fails iff the container or the node id does not parse, and a failure leaves the node untouched. On success container and node are set. Log URLs and vertex name are never touched |
| TaskAttemptStarted.ToProto | tez-dag/src/main/java/org/apache/tez/dag/history/events/TaskAttemptStartedEvent.java:78-85 | `toProto`; its meaning is given by TaskAttemptStarted.RoundTrip |
| TaskAttemptStarted.RoundTrip | tez-dag/src/main/java/org/apache/tez/dag/history/events/TaskAttemptStartedEvent.java:78-92 | restores attempt, start time, container and node (host without a colon); log URLs and vertex name stay null |
| TaskAttemptStarted.KindFlags | tez-dag/src/main/java/org/apache/tez/dag/history/events/TaskAttemptStartedEvent.java:63-76 | type TASK_ATTEMPT_STARTED, a recovery and history event without a summary |
| TaskAttemptStarted.Convert | tez-dag/src/main/java/org/apache/tez/dag/history/events/TaskAttemptStartedEvent.java:105-135 | `convertToTimelineEntity`; its meaning is given by TaskAttemptStarted.ConvertEntity, TaskAttemptStarted.ConvertedNodeParses and TaskAttemptStarted.ConvertInfo |
| TaskAttemptStarted.ConvertEntity | tez-dag/src/main/java/org/apache/tez/dag/history/events/TaskAttemptStartedEvent.java:108-123 | entity id parses back to the attempt; start time = start time. Related entities are exactly node, container and parent task. Filters are exactly DAG, vertex and task along the parent chain |
| TaskAttemptStarted.ConvertedNodeParses | tez-dag/src/main/java/org/apache/tez/dag/history/events/TaskAttemptStartedEvent.java:113 | the related NODE_ID value parses back to the attempt's node |
| TaskAttemptStarted.ConvertInfo | tez-dag/src/main/java/org/apache/tez/dag/history/events/TaskAttemptStartedEvent.java:125-132 | one TASK_ATTEMPT_STARTED event at the start time; other-info holds exactly the start time and both log URLs, null included |
| TaskAttemptStarted.TaskAttemptStartedEvent.constructor | tez-dag/src/main/java/org/apache/tez/dag/history/events/TaskAttemptStartedEvent.java:47-58 | stores every argument |
| TaskAttemptStarted.TaskAttemptStartedEvent.Empty | tez-dag/src/main/java/org/apache/tez/dag/history/events/TaskAttemptStartedEvent.java:60-61 | `new TaskAttemptStartedEvent()`: every field null or zero |
| TaskAttemptStarted.TaskAttemptStartedEvent.FromProto | tez-dag/src/main/java/org/apache/tez/dag/history/events/TaskAttemptStartedEvent.java:87-92 | the in-place decode leaves exactly what `ApplyProto` gives |
| AMLaunched.ApplyProto | tez-dag/src/main/java/org/apache/tez/dag/history/events/AMLaunchedEvent.java:83-88 | decoding succeeds iff the attempt id parses. On failure nothing changes; on success it sets attempt, launch and submit times and keeps the user |
| AMLaunched.ToProto | tez-dag/src/main/java/org/apache/tez/dag/history/events/AMLaunchedEvent.java:75-81 | `toProto`; its meaning is given by AMLaunched.RoundTrip |
| AMLaunched.RoundTrip | tez-dag/src/main/java/org/apache/tez/dag/history/events/AMLaunchedEvent.java:75-88 | restores attempt, launch and submit times; the user, which is not encoded, is null |
| AMLaunched.KindFlags | tez-dag/src/main/java/org/apache/tez/dag/history/events/AMLaunchedEvent.java:53-66 | type AM_LAUNCHED, a history event that is not a recovery event |
| AMLaunched.EntityId | tez-dag/src/main/java/org/apache/tez/dag/history/events/AMLaunchedEvent.java:116-117 | the entity id `tez_` + the attempt string; its meaning is given by AMLaunched.ConvertEntity |
| AMLaunched.Convert | tez-dag/src/main/java/org/apache/tez/dag/history/events/AMLaunchedEvent.java:113-138 | `convertToTimelineEntity`; its meaning is given by AMLaunched.ConvertEntity and AMLaunched.ConvertInfo |
| AMLaunched.ConvertEntity | tez-dag/src/main/java/org/apache/tez/dag/history/events/AMLaunchedEvent.java:116-128 | entity id is `tez_` + the attempt string, whose tail parses back, with type TEZ_APPLICATION_ATTEMPT. Related entities are exactly the parent application, the attempt and the user. The only filter is USER. The start time is the launch time |
| AMLaunched.ConvertInfo | tez-dag/src/main/java/org/apache/tez/dag/history/events/AMLaunchedEvent.java:130-135 | one AM_LAUNCHED event at the launch time; other-info holds exactly the submit time |
| AMLaunched.AMLaunchedEvent.constructor | tez-dag/src/main/java/org/apache/tez/dag/history/events/AMLaunchedEvent.java:45-51 | stores every argument |
| AMLaunched.AMLaunchedEvent.Empty | tez-dag/src/main/java/org/apache/tez/dag/history/events/AMLaunchedEvent.java:42-43 | `new AMLaunchedEvent()`: every field null or zero |
| AMLaunched.AMLaunchedEvent.FromProto | tez-dag/src/main/java/org/apache/tez/dag/history/events/AMLaunchedEvent.java:83-88 | the in-place decode leaves exactly what `ApplyProto` gives |
| VertexStarted.ApplyProto | tez-dag/src/main/java/org/apache/tez/dag/history/events/VertexStartedEvent.java:73-77 | decoding cannot fail. It sets every field: the id (`null` when malformed) and both times |
| VertexStarted.ToProto | tez-dag/src/main/java/org/apache/tez/dag/history/events/VertexStartedEvent.java:65-71 | `toProto`; its meaning is given by VertexStarted.RoundTrip and VertexStarted.ToProtoInjective |
| VertexStarted.RoundTrip | tez-dag/src/main/java/org/apache/tez/dag/history/events/VertexStartedEvent.java:65-77 | every field is encoded, so decoding the encoding restores the event exactly, whatever the instance held before |
| VertexStarted.ToProtoInjective | tez-dag/src/main/java/org/apache/tez/dag/history/events/VertexStartedEvent.java:65-71 | distinct events have distinct records |
| VertexStarted.KindFlags | tez-dag/src/main/java/org/apache/tez/dag/history/events/VertexStartedEvent.java:50-63 | type VERTEX_STARTED, a recovery and history event without a summary |
| VertexStarted.Convert | tez-dag/src/main/java/org/apache/tez/dag/history/events/VertexStartedEvent.java:90-108 | `convertToTimelineEntity`; its meaning is given by VertexStarted.ConvertEntity and VertexStarted.ConvertInfo |
| VertexStarted.ConvertEntity | tez-dag/src/main/java/org/apache/tez/dag/history/events/VertexStartedEvent.java:92-97 | entity id parses back to the vertex, type TEZ_VERTEX_ID; the only filter is TEZ_DAG_ID = {parent DAG} |
| VertexStarted.ConvertInfo | tez-dag/src/main/java/org/apache/tez/dag/history/events/VertexStartedEvent.java:99-105 | one VERTEX_STARTED event at the start time; other-info holds exactly both times |
| VertexStarted.VertexStartedEvent.constructor | tez-dag/src/main/java/org/apache/tez/dag/history/events/VertexStartedEvent.java:43-48 | stores every argument |
| VertexStarted.VertexStartedEvent.Empty | tez-dag/src/main/java/org/apache/tez/dag/history/events/VertexStartedEvent.java:40-41 | `new VertexStartedEvent()`: every field null or zero |
| VertexStarted.VertexStartedEvent.FromProto | tez-dag/src/main/java/org/apache/tez/dag/history/events/VertexStartedEvent.java:73-77 | the in-place decode leaves exactly the fields `ApplyProto` gives |
| DAGStarted.ApplyProto | tez-dag/src/main/java/org/apache/tez/dag/history/events/DAGStartedEvent.java:74-77 | decoding cannot fail. It sets the id (`null` when malformed) and the start time, and never touches user or DAG name |
| DAGStarted.ToProto | tez-dag/src/main/java/org/apache/tez/dag/history/events/DAGStartedEvent.java:67-72 | `toProto`; its meaning is given by DAGStarted.RoundTrip |
| DAGStarted.RoundTrip | tez-dag/src/main/java/org/apache/tez/dag/history/events/DAGStartedEvent.java:67-77 | restores id and start time; user and DAG name, which are not encoded, are null |
| DAGStarted.KindFlags | tez-dag/src/main/java/org/apache/tez/dag/history/events/DAGStartedEvent.java:52-65 | type DAG_STARTED, a recovery and history event without a summary |
| DAGStarted.Convert | tez-dag/src/main/java/org/apache/tez/dag/history/events/DAGStartedEvent.java:90-107 | `convertToTimelineEntity`; its meaning is given by DAGStarted.ConvertEntity |
| DAGStarted.ConvertEntity | tez-dag/src/main/java/org/apache/tez/dag/history/events/DAGStartedEvent.java:91-106 | the whole entity: id parses back to the DAG, type TEZ_DAG_ID, no start time or related entities; filters exactly USER and DAG_NAME (null included); one DAG_STARTED event at the start time; other-info holds exactly the start time |
| DAGStarted.DAGStartedEvent.constructor | tez-dag/src/main/java/org/apache/tez/dag/history/events/DAGStartedEvent.java:44-50 | stores every argument |
| DAGStarted.DAGStartedEvent.Empty | tez-dag/src/main/java/org/apache/tez/dag/history/events/DAGStartedEvent.java:41-42 | `new DAGStartedEvent()`: every field null or zero |
| DAGStarted.DAGStartedEvent.FromProto | tez-dag/src/main/java/org/apache/tez/dag/history/events/DAGStartedEvent.java:74-77 | the in-place decode leaves exactly the fields `ApplyProto` gives |

## Findings

| source | as written | input that shows it | evidently intended | confidence | as-written member | corrected member |
|---|---|---|---|---|---|---|
| tez-dag/src/main/java/org/apache/tez/dag/history/events/TaskFinishedEvent.java:54-64 | the constructor takes `successfulAttemptID` but never assigns it, so the field stays `null` | any task finished with a successful attempt `a`: `toProto` omits `successfulTaskAttemptId` and recovery restores no attempt | store the argument (`this.successfulAttemptID = successfulAttemptID`), so the record carries it and recovery restores it | not executed | TaskFinished.CreatedAsWrittenLosesSuccessfulAttempt | TaskFinished.CreatedRoundTrip |

## Left out

- The bodies of `TezDAGID`, `TezVertexID`, `TezTaskID` and `TezTaskAttemptID.fromString` are not part of this model. The model takes it that, as in Tez 0.5, they catch the parse exception and return `null`. The following members rely on this: VertexFinished.ApplyProto, VertexFinished.ApplySummaryProto, DAGFinished.ApplyProto, DAGFinished.ApplySummaryProto, TaskFinished.ApplyProto, TaskAttemptFinished.ApplyProto, TaskAttemptStarted.ApplyProto (its attempt id), VertexStarted.ApplyProto and DAGStarted.ApplyProto. A Tez build whose `fromString` throws would instead stop each of these decodes at the id.
- Protobuf wire framing is not modelled: `writeDelimitedTo`, `parseDelimitedFrom`, `toByteString`, `parseFrom` and their `IOException` paths. Proto messages are datatypes.
- VertexFinished.ApplySummaryProto and DAGFinished.ApplySummaryProto require the summary payload to be of their own kind. Parsing an arbitrary `ByteString` as a `VertexFinishStateProto` is protobuf decoding, which is not modelled.
- Counter and stats conversion is not modelled (`DagTypeConverters`, `DAGUtils.convertCountersToATSMap`, `convertVertexStatsToATSMap`). Counters and stats are passed through as uninterpreted values. Tez implements these conversions in `DagTypeConverters` and `DAGUtils`; they are outside this model.
- The bodies of `Tez*ID.toString`/`fromString` and `ConverterUtils.to*` are not part of this model. The ids use an underscore-separated decimal rendering of their own, without Tez's zero padding. Any injective rendering with a left inverse serves the proofs.
- The constant lists are not taken from the source: the enum constants of `VertexState`, `DAGState`, `TaskState`, `TaskAttemptState` and `HistoryEventType`, the `ATSConstants` key strings and the `EntityTypes` names. They follow Tez 0.5. The proofs use only the number of constants and that they are distinct.
- `TimelineEntity` internals are reduced to a record. The filter and related-entity maps hold sets; other-info is a map whose `put` replaces.
- The constructors take the id and the state as non-`null` arguments. `VertexFinishedEvent`'s constructor also takes its vertex name that way, and `TaskAttemptStartedEvent`'s its `containerId` and `nodeId`. A `null` in any of these makes `toProto` throw, which is not modelled.
- `toString` and logging are not modelled.
- The recovery-log writer and reader, and the summary stream that consumes these records, are not modelled. Tez implements them in its recovery service, which is outside this model.
- The UI controllers and `WebUIService` are not modelled: they are user interface and HTTP service plumbing.
- `isHistoryEvent` is modelled as the constant `true` that every class returns.
