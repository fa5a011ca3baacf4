/** TaskAttemptFinishedEvent: the terminal record of one task attempt. */
module TaskAttemptFinished {
  import opened Wrappers
  import opened Primitives
  import opened Ids
  import opened HistoryRecords
  import opened Timeline
  import TaskAttemptStates
  import HistoryEventTypes
  import EventKinds

  datatype TaskAttemptFinishedProto = TaskAttemptFinishedProto(
    taskAttemptId: string,
    state: i32,
    finishTime: i64,
    diagnostics: Option<string>,
    counters: Option<TezCounters>)

  datatype TaskAttemptFinishedState = TaskAttemptFinishedState(
    taskAttemptId: Option<TezTaskAttemptID>,
    vertexName: Option<string>,
    startTime: i64,
    finishTime: i64,
    state: Option<TaskAttemptStates.TaskAttemptState>,
    diagnostics: Option<string>,
    tezCounters: Option<TezCounters>)

  /** The fields of `new TaskAttemptFinishedEvent()`. */
  function DefaultState(): TaskAttemptFinishedState {
    TaskAttemptFinishedState(None, None, 0, 0, None, None, None)
  }

  const Kind := EventKinds.TaskAttemptFinished

  predicate Encodable(s: TaskAttemptFinishedState) {
    s.taskAttemptId.Some? && s.state.Some?
  }

  /** `toProto`. */
  function ToProto(s: TaskAttemptFinishedState): TaskAttemptFinishedProto
    requires Encodable(s)
  {
    TaskAttemptFinishedProto(AttemptIdToString(s.taskAttemptId.value), TaskAttemptStates.Ordinal(s.state.value) as i32,
                             s.finishTime, s.diagnostics, s.tezCounters)
  }

  /**
   * `fromProto` on an instance holding `s`: attempt id (`null` when
   * malformed), finish time, state, then the present optional fields; only an
   * out-of-range state stops it.
   */
  function ApplyProto(s: TaskAttemptFinishedState, p: TaskAttemptFinishedProto): (r: Step<TaskAttemptFinishedState>)
    ensures r.failure.None? <==> 0 <= p.state as int < |TaskAttemptStates.Values|
    ensures r.failure.Some? ==> r.failure == Some(OrdinalOutOfRange) && r.state.state == s.state
    ensures r.state.taskAttemptId == AttemptIdFromString(p.taskAttemptId) && r.state.finishTime == p.finishTime
  {
    var s1 := s.(taskAttemptId := AttemptIdFromString(p.taskAttemptId), finishTime := p.finishTime);
    match TaskAttemptStates.FromOrdinal(p.state as int)
    case None => Step(s1, Some(OrdinalOutOfRange))
    case Some(st) =>
      Step(s1.(state := Some(st),
               diagnostics := if p.diagnostics.Some? then p.diagnostics else s1.diagnostics,
               tezCounters := if p.counters.Some? then p.counters else s1.tezCounters),
           None)
  }

  /**
   * Decoding the encoding into a fresh instance restores attempt id, finish
   * time and state, restores diagnostics and counters exactly when non-null,
   * and leaves vertex name and start time at their defaults.
   */
  lemma RoundTrip(s: TaskAttemptFinishedState)
    requires Encodable(s)
    ensures ToProto(s).diagnostics.Some? <==> s.diagnostics.Some?
    ensures ToProto(s).counters.Some? <==> s.tezCounters.Some?
    ensures ApplyProto(DefaultState(), ToProto(s)) ==
      Step(DefaultState().(taskAttemptId := s.taskAttemptId, finishTime := s.finishTime, state := s.state,
                           diagnostics := s.diagnostics, tezCounters := s.tezCounters),
           None)
  {
    AttemptIdRoundTrip(s.taskAttemptId.value);
  }

  /** A recovery and history event without a summary. */
  lemma KindFlags()
    ensures EventKinds.EventType(Kind) == HistoryEventTypes.TASK_ATTEMPT_FINISHED
    ensures EventKinds.IsRecoveryEvent(Kind) && EventKinds.IsHistoryEvent(Kind) && !EventKinds.IsSummaryEvent(Kind)
  {
  }

  predicate Projectable(s: TaskAttemptFinishedState) {
    s.taskAttemptId.Some? && s.state.Some?
  }

  /** `convertToTimelineEntity`: the ancestors come from the attempt id's parent chain. */
  function Convert(s: TaskAttemptFinishedState): TimelineEntity
    requires Projectable(s)
  {
    var id := s.taskAttemptId.value;
    var e := NewEntity(AttemptIdToString(id), TEZ_TASK_ATTEMPT_ID);
    var e := AddPrimaryFilter(e, TEZ_DAG_ID, StringValue(DagIdToString(id.taskId.vertexId.dagId)));
    var e := AddPrimaryFilter(e, TEZ_VERTEX_ID, StringValue(VertexIdToString(id.taskId.vertexId)));
    var e := AddPrimaryFilter(e, TEZ_TASK_ID, StringValue(TaskIdToString(id.taskId)));
    var e := AddEvent(e, TimelineEvent(HistoryEventTypes.Name(HistoryEventTypes.TASK_ATTEMPT_FINISHED), s.finishTime));
    var e := AddOtherInfo(e, FINISH_TIME, LongValue(s.finishTime));
    var e := AddOtherInfo(e, TIME_TAKEN, LongValue(LongSub(s.finishTime, s.startTime)));
    var e := AddOtherInfo(e, STATUS, StringValue(TaskAttemptStates.Name(s.state.value)));
    var e := AddOtherInfo(e, DIAGNOSTICS, Nullable(s.diagnostics));
    AddOtherInfo(e, COUNTERS, CountersValue(s.tezCounters))
  }

  /**
   * The attempt's entity (its id parses back), filtered by the string forms
   * of its DAG, vertex and task, taken along the attempt's parent chain.
   */
  lemma ConvertEntity(s: TaskAttemptFinishedState)
    requires Projectable(s)
    ensures var r := Convert(s); var t := s.taskAttemptId.value.taskId;
      && AttemptIdFromString(r.entityId) == s.taskAttemptId && r.entityType == TEZ_TASK_ATTEMPT_ID
      && r.startTime.None? && r.relatedEntities == map[]
      && r.primaryFilters == map[TEZ_DAG_ID := {StringValue(DagIdToString(t.vertexId.dagId))},
                                 TEZ_VERTEX_ID := {StringValue(VertexIdToString(t.vertexId))},
                                 TEZ_TASK_ID := {StringValue(TaskIdToString(t))}]
  {
    var t := s.taskAttemptId.value.taskId;
    AttemptIdRoundTrip(s.taskAttemptId.value);
    ThreeSingletons(TEZ_DAG_ID, StringValue(DagIdToString(t.vertexId.dagId)),
                    TEZ_VERTEX_ID, StringValue(VertexIdToString(t.vertexId)),
                    TEZ_TASK_ID, StringValue(TaskIdToString(t)));
  }

  /**
   * One TASK_ATTEMPT_FINISHED event at the finish time; finish time, time
   * taken, status, counters and a DIAGNOSTICS entry present (null) even when
   * there are no diagnostics.
   */
  lemma ConvertInfo(s: TaskAttemptFinishedState)
    requires Projectable(s)
    ensures var r := Convert(s);
      && r.events == [TimelineEvent("TASK_ATTEMPT_FINISHED", s.finishTime)]
      && r.otherInfo == map[FINISH_TIME := LongValue(s.finishTime),
                            TIME_TAKEN := LongValue(LongSub(s.finishTime, s.startTime)),
                            STATUS := StringValue(TaskAttemptStates.Name(s.state.value)),
                            DIAGNOSTICS := Nullable(s.diagnostics),
                            COUNTERS := CountersValue(s.tezCounters)]
  {
  }

  class TaskAttemptFinishedEvent {
    var taskAttemptId: Option<TezTaskAttemptID>
    var vertexName: Option<string>
    var startTime: i64
    var finishTime: i64
    var state: Option<TaskAttemptStates.TaskAttemptState>
    var diagnostics: Option<string>
    var tezCounters: Option<TezCounters>

    function Fields(): TaskAttemptFinishedState
      reads this
    {
      TaskAttemptFinishedState(taskAttemptId, vertexName, startTime, finishTime, state, diagnostics, tezCounters)
    }

    /** `new TaskAttemptFinishedEvent()`. */
    constructor Empty()
      ensures Fields() == DefaultState()
    {
      taskAttemptId, vertexName, startTime, finishTime := None, None, 0, 0;
      state, diagnostics, tezCounters := None, None, None;
    }

    constructor (taId: TezTaskAttemptID, vertexName: Option<string>, startTime: i64, finishTime: i64,
                 state: TaskAttemptStates.TaskAttemptState, diagnostics: Option<string>, counters: Option<TezCounters>)
      ensures Fields() == TaskAttemptFinishedState(Some(taId), vertexName, startTime, finishTime, Some(state),
                                                   diagnostics, counters)
      ensures Encodable(Fields()) && Projectable(Fields())
    {
      this.taskAttemptId := Some(taId);
      this.vertexName := vertexName;
      this.startTime := startTime;
      this.finishTime := finishTime;
      this.state := Some(state);
      this.diagnostics := diagnostics;
      this.tezCounters := counters;
    }

    /** `fromProto`. */
    method FromProto(proto: TaskAttemptFinishedProto) returns (failure: Option<Failure>)
      modifies this
      ensures Step(Fields(), failure) == ApplyProto(old(Fields()), proto)
    {
      taskAttemptId := AttemptIdFromString(proto.taskAttemptId);
      finishTime := proto.finishTime;
      var st := TaskAttemptStates.FromOrdinal(proto.state as int);
      if st.None? {
        return Some(OrdinalOutOfRange);
      }
      state := st;
      if proto.diagnostics.Some? {
        diagnostics := proto.diagnostics;
      }
      if proto.counters.Some? {
        tezCounters := proto.counters;
      }
      return None;
    }
  }
}
