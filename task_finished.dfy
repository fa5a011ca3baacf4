/**
 * TaskFinishedEvent: the terminal record of a task, optionally naming the
 * attempt that succeeded.
 */
module TaskFinished {
  import opened Wrappers
  import opened Primitives
  import opened Ids
  import opened HistoryRecords
  import opened Timeline
  import TaskStates
  import HistoryEventTypes
  import EventKinds

  /** `counters` and `successfulTaskAttemptId` are the fields with `has*` checks. */
  datatype TaskFinishedProto = TaskFinishedProto(
    taskId: string,
    state: i32,
    finishTime: i64,
    counters: Option<TezCounters>,
    successfulTaskAttemptId: Option<string>)

  datatype TaskFinishedState = TaskFinishedState(
    taskID: Option<TezTaskID>,
    vertexName: Option<string>,
    startTime: i64,
    finishTime: i64,
    state: Option<TaskStates.TaskState>,
    tezCounters: Option<TezCounters>,
    successfulAttemptID: Option<TezTaskAttemptID>)

  /** The fields of `new TaskFinishedEvent()`. */
  function DefaultState(): TaskFinishedState {
    TaskFinishedState(None, None, 0, 0, None, None, None)
  }

  const Kind := EventKinds.TaskFinished

  // ---- construction ----

  /** The fields the producer's constructor stores, as written: the successful attempt is dropped. */
  function CreatedAsWritten(taskID: TezTaskID, vertexName: Option<string>, startTime: i64, finishTime: i64,
                            successfulAttemptID: Option<TezTaskAttemptID>, state: TaskStates.TaskState,
                            counters: Option<TezCounters>): TaskFinishedState
  {
    TaskFinishedState(Some(taskID), vertexName, startTime, finishTime, Some(state), counters, None)
  }

  /** The fields the constructor evidently means to store: every argument, the successful attempt included. */
  function Created(taskID: TezTaskID, vertexName: Option<string>, startTime: i64, finishTime: i64,
                   successfulAttemptID: Option<TezTaskAttemptID>, state: TaskStates.TaskState,
                   counters: Option<TezCounters>): TaskFinishedState
  {
    TaskFinishedState(Some(taskID), vertexName, startTime, finishTime, Some(state), counters, successfulAttemptID)
  }

  // ---- full encoding ----

  predicate Encodable(s: TaskFinishedState) {
    s.taskID.Some? && s.state.Some?
  }

  /** `toProto`: counters and the successful attempt are set only when non-null. */
  function ToProto(s: TaskFinishedState): TaskFinishedProto
    requires Encodable(s)
  {
    TaskFinishedProto(
      TaskIdToString(s.taskID.value),
      TaskStates.Ordinal(s.state.value) as i32,
      s.finishTime,
      s.tezCounters,
      if s.successfulAttemptID.Some? then Some(AttemptIdToString(s.successfulAttemptID.value)) else None)
  }

  /**
   * `fromProto` on an instance holding `s`: task id (`null` when malformed),
   * finish time, state, counters when present, then the successful attempt
   * when present (`null` when malformed); only an out-of-range state stops it.
   */
  function ApplyProto(s: TaskFinishedState, p: TaskFinishedProto): (r: Step<TaskFinishedState>)
    ensures r.failure.None? <==> 0 <= p.state as int < |TaskStates.Values|
    ensures r.failure.Some? ==> r.failure == Some(OrdinalOutOfRange) && r.state.state == s.state
    ensures r.state.taskID == TaskIdFromString(p.taskId) && r.state.finishTime == p.finishTime
    ensures r.failure.None? ==>
      r.state.successfulAttemptID ==
        if p.successfulTaskAttemptId.Some? then AttemptIdFromString(p.successfulTaskAttemptId.value)
        else s.successfulAttemptID
  {
    var s1 := s.(taskID := TaskIdFromString(p.taskId), finishTime := p.finishTime);
    match TaskStates.FromOrdinal(p.state as int)
    case None => Step(s1, Some(OrdinalOutOfRange))
    case Some(st) =>
      var s2 := s1.(state := Some(st), tezCounters := if p.counters.Some? then p.counters else s1.tezCounters);
      if p.successfulTaskAttemptId.None? then Step(s2, None)
      else Step(s2.(successfulAttemptID := AttemptIdFromString(p.successfulTaskAttemptId.value)), None)
  }

  /**
   * Decoding the encoding into a fresh instance restores task id, finish time
   * and state, restores counters and the successful attempt exactly when they
   * were non-null, and leaves vertex name and start time at their defaults.
   */
  lemma RoundTrip(s: TaskFinishedState)
    requires Encodable(s)
    ensures ToProto(s).counters.Some? <==> s.tezCounters.Some?
    ensures ToProto(s).successfulTaskAttemptId.Some? <==> s.successfulAttemptID.Some?
    ensures ApplyProto(DefaultState(), ToProto(s)) ==
      Step(DefaultState().(taskID := s.taskID, finishTime := s.finishTime, state := s.state,
                           tezCounters := s.tezCounters, successfulAttemptID := s.successfulAttemptID),
           None)
  {
    TaskIdRoundTrip(s.taskID.value);
    if s.successfulAttemptID.Some? {
      AttemptIdRoundTrip(s.successfulAttemptID.value);
    }
  }

  /**
   * As written, a freshly constructed event never encodes the successful
   * attempt, so recovery loses it even when the producer supplied one.
   */
  lemma CreatedAsWrittenLosesSuccessfulAttempt(taskID: TezTaskID, vertexName: Option<string>, startTime: i64,
                                               finishTime: i64, attempt: TezTaskAttemptID,
                                               state: TaskStates.TaskState, counters: Option<TezCounters>)
    ensures var s := CreatedAsWritten(taskID, vertexName, startTime, finishTime, Some(attempt), state, counters);
            && ToProto(s).successfulTaskAttemptId.None?
            && ApplyProto(DefaultState(), ToProto(s)).state.successfulAttemptID.None?
  {
    TaskIdRoundTrip(taskID);
  }

  /** With the intended constructor the successful attempt survives recovery. */
  lemma CreatedRoundTrip(taskID: TezTaskID, vertexName: Option<string>, startTime: i64, finishTime: i64,
                         successfulAttemptID: Option<TezTaskAttemptID>, state: TaskStates.TaskState,
                         counters: Option<TezCounters>)
    ensures var s := Created(taskID, vertexName, startTime, finishTime, successfulAttemptID, state, counters);
            && ApplyProto(DefaultState(), ToProto(s)).failure.None?
            && ApplyProto(DefaultState(), ToProto(s)).state.successfulAttemptID == successfulAttemptID
            && ApplyProto(DefaultState(), ToProto(s)).state.taskID == Some(taskID)
  {
    RoundTrip(Created(taskID, vertexName, startTime, finishTime, successfulAttemptID, state, counters));
  }

  /** A recovery and history event without a summary. */
  lemma KindFlags()
    ensures EventKinds.EventType(Kind) == HistoryEventTypes.TASK_FINISHED
    ensures EventKinds.IsRecoveryEvent(Kind) && EventKinds.IsHistoryEvent(Kind) && !EventKinds.IsSummaryEvent(Kind)
  {
  }

  // ---- timeline projection ----

  predicate Projectable(s: TaskFinishedState) {
    s.taskID.Some? && s.state.Some?
  }

  /** `convertToTimelineEntity`. */
  function Convert(s: TaskFinishedState): TimelineEntity
    requires Projectable(s)
  {
    var id := s.taskID.value;
    var e := NewEntity(TaskIdToString(id), TEZ_TASK_ID);
    var e := AddPrimaryFilter(e, TEZ_DAG_ID, StringValue(DagIdToString(id.vertexId.dagId)));
    var e := AddPrimaryFilter(e, TEZ_VERTEX_ID, StringValue(VertexIdToString(id.vertexId)));
    var e := AddEvent(e, TimelineEvent(HistoryEventTypes.Name(HistoryEventTypes.TASK_FINISHED), s.finishTime));
    var e := AddOtherInfo(e, FINISH_TIME, LongValue(s.finishTime));
    var e := AddOtherInfo(e, TIME_TAKEN, LongValue(LongSub(s.finishTime, s.startTime)));
    var e := AddOtherInfo(e, STATUS, StringValue(TaskStates.Name(s.state.value)));
    AddOtherInfo(e, COUNTERS, CountersValue(s.tezCounters))
  }

  /** The task's entity (its id parses back), filtered by the string forms of its vertex and DAG. */
  lemma ConvertEntity(s: TaskFinishedState)
    requires Projectable(s)
    ensures var r := Convert(s); var t := s.taskID.value;
      && TaskIdFromString(r.entityId) == s.taskID && r.entityType == TEZ_TASK_ID
      && r.startTime.None? && r.relatedEntities == map[]
      && r.primaryFilters == map[TEZ_DAG_ID := {StringValue(DagIdToString(t.vertexId.dagId))},
                                 TEZ_VERTEX_ID := {StringValue(VertexIdToString(t.vertexId))}]
  {
    var t := s.taskID.value;
    TaskIdRoundTrip(t);
    TwoSingletons(TEZ_DAG_ID, StringValue(DagIdToString(t.vertexId.dagId)),
                  TEZ_VERTEX_ID, StringValue(VertexIdToString(t.vertexId)));
  }

  /** One TASK_FINISHED event at the finish time; finish time, time taken, status and counters: no diagnostics. */
  lemma ConvertInfo(s: TaskFinishedState)
    requires Projectable(s)
    ensures var r := Convert(s);
      && r.events == [TimelineEvent("TASK_FINISHED", s.finishTime)]
      && r.otherInfo == map[FINISH_TIME := LongValue(s.finishTime),
                            TIME_TAKEN := LongValue(LongSub(s.finishTime, s.startTime)),
                            STATUS := StringValue(TaskStates.Name(s.state.value)),
                            COUNTERS := CountersValue(s.tezCounters)]
  {
  }

  // ---- the event object ----

  class TaskFinishedEvent {
    var taskID: Option<TezTaskID>
    var vertexName: Option<string>
    var startTime: i64
    var finishTime: i64
    var state: Option<TaskStates.TaskState>
    var tezCounters: Option<TezCounters>
    var successfulAttemptID: Option<TezTaskAttemptID>

    function Fields(): TaskFinishedState
      reads this
    {
      TaskFinishedState(taskID, vertexName, startTime, finishTime, state, tezCounters, successfulAttemptID)
    }

    /** `new TaskFinishedEvent()`. */
    constructor Empty()
      ensures Fields() == DefaultState()
    {
      taskID, vertexName, startTime, finishTime := None, None, 0, 0;
      state, tezCounters, successfulAttemptID := None, None, None;
    }

    /**
     * The producer's constructor, storing every argument as intended; the
     * constructor as written drops `successfulAttemptID` (`CreatedAsWritten`).
     */
    constructor (taskID: TezTaskID, vertexName: Option<string>, startTime: i64, finishTime: i64,
                 successfulAttemptID: Option<TezTaskAttemptID>, state: TaskStates.TaskState,
                 counters: Option<TezCounters>)
      ensures Fields() == Created(taskID, vertexName, startTime, finishTime, successfulAttemptID, state, counters)
    {
      this.vertexName := vertexName;
      this.taskID := Some(taskID);
      this.startTime := startTime;
      this.finishTime := finishTime;
      this.state := Some(state);
      this.tezCounters := counters;
      this.successfulAttemptID := successfulAttemptID;
    }

    /** `fromProto`. */
    method FromProto(proto: TaskFinishedProto) returns (failure: Option<Failure>)
      modifies this
      ensures Step(Fields(), failure) == ApplyProto(old(Fields()), proto)
    {
      taskID := TaskIdFromString(proto.taskId);
      finishTime := proto.finishTime;
      var st := TaskStates.FromOrdinal(proto.state as int);
      if st.None? {
        return Some(OrdinalOutOfRange);
      }
      state := st;
      if proto.counters.Some? {
        tezCounters := proto.counters;
      }
      if proto.successfulTaskAttemptId.Some? {
        successfulAttemptID := AttemptIdFromString(proto.successfulTaskAttemptId.value);
      }
      return None;
    }
  }
}
