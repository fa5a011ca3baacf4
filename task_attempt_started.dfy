/** TaskAttemptStartedEvent: the launch record of one task attempt, with its container and node. */
module TaskAttemptStarted {
  import opened Wrappers
  import opened Primitives
  import opened Ids
  import opened HistoryRecords
  import opened Timeline
  import HistoryEventTypes
  import EventKinds

  /** Every field is required; the log URLs and the vertex name are not encoded. */
  datatype TaskAttemptStartedProto = TaskAttemptStartedProto(
    taskAttemptId: string,
    startTime: i64,
    containerId: string,
    nodeId: string)

  datatype TaskAttemptStartedState = TaskAttemptStartedState(
    taskAttemptId: Option<TezTaskAttemptID>,
    inProgressLogsUrl: Option<string>,
    completedLogsUrl: Option<string>,
    vertexName: Option<string>,
    startTime: i64,
    containerId: Option<ContainerId>,
    nodeId: Option<NodeId>)

  /** The fields of `new TaskAttemptStartedEvent()`. */
  function DefaultState(): TaskAttemptStartedState {
    TaskAttemptStartedState(None, None, None, None, 0, None, None)
  }

  const Kind := EventKinds.TaskAttemptStarted

  predicate Encodable(s: TaskAttemptStartedState) {
    s.taskAttemptId.Some? && s.containerId.Some? && s.nodeId.Some?
  }

  /** `toProto`. */
  function ToProto(s: TaskAttemptStartedState): TaskAttemptStartedProto
    requires Encodable(s)
  {
    TaskAttemptStartedProto(AttemptIdToString(s.taskAttemptId.value), s.startTime,
                            ContainerIdToString(s.containerId.value), NodeIdToString(s.nodeId.value))
  }

  /**
   * `fromProto` on an instance holding `s`: attempt id (`null` when
   * malformed), start time, container id, node id, in that order.  The two
   * YARN ids are parsed by `ConverterUtils`, which throws on a malformed
   * string after the earlier assignments.
   */
  function ApplyProto(s: TaskAttemptStartedState, p: TaskAttemptStartedProto): (r: Step<TaskAttemptStartedState>)
    ensures r.failure.None? <==> ContainerIdFromString(p.containerId).Some? && NodeIdFromString(p.nodeId).Some?
    ensures r.failure.Some? ==> r.failure == Some(MalformedId) && r.state.nodeId == s.nodeId
    ensures r.state.taskAttemptId == AttemptIdFromString(p.taskAttemptId) && r.state.startTime == p.startTime
    ensures r.failure.None? ==>
      r.state == s.(taskAttemptId := AttemptIdFromString(p.taskAttemptId), startTime := p.startTime,
                    containerId := ContainerIdFromString(p.containerId), nodeId := NodeIdFromString(p.nodeId))
    ensures r.state.inProgressLogsUrl == s.inProgressLogsUrl && r.state.completedLogsUrl == s.completedLogsUrl
    ensures r.state.vertexName == s.vertexName
  {
    var s1 := s.(taskAttemptId := AttemptIdFromString(p.taskAttemptId), startTime := p.startTime);
    match ContainerIdFromString(p.containerId)
    case None => Step(s1, Some(MalformedId))
    case Some(c) =>
      var s2 := s1.(containerId := Some(c));
      match NodeIdFromString(p.nodeId)
      case None => Step(s2, Some(MalformedId))
      case Some(n) => Step(s2.(nodeId := Some(n)), None)
  }

  /**
   * Decoding the encoding restores attempt, start time, container and node
   * (a node whose host holds no colon); the log URLs and vertex name stay at
   * their defaults.
   */
  lemma RoundTrip(s: TaskAttemptStartedState)
    requires Encodable(s) && ValidNodeId(s.nodeId.value)
    ensures ApplyProto(DefaultState(), ToProto(s)) ==
      Step(DefaultState().(taskAttemptId := s.taskAttemptId, startTime := s.startTime,
                           containerId := s.containerId, nodeId := s.nodeId),
           None)
  {
    AttemptIdRoundTrip(s.taskAttemptId.value);
    ContainerIdRoundTrip(s.containerId.value);
    NodeIdRoundTrip(s.nodeId.value);
  }

  /** A recovery and history event without a summary. */
  lemma KindFlags()
    ensures EventKinds.EventType(Kind) == HistoryEventTypes.TASK_ATTEMPT_STARTED
    ensures EventKinds.IsRecoveryEvent(Kind) && EventKinds.IsHistoryEvent(Kind) && !EventKinds.IsSummaryEvent(Kind)
  {
  }

  // ---- timeline projection ----

  predicate Projectable(s: TaskAttemptStartedState) {
    Encodable(s)
  }

  /** `convertToTimelineEntity`. */
  function Convert(s: TaskAttemptStartedState): TimelineEntity
    requires Projectable(s)
  {
    var a := s.taskAttemptId.value;
    var e := NewEntity(AttemptIdToString(a), TEZ_TASK_ATTEMPT_ID);
    var e := SetStartTime(e, s.startTime);
    var e := AddRelatedEntity(e, NODE_ID, StringValue(NodeIdToString(s.nodeId.value)));
    var e := AddRelatedEntity(e, CONTAINER_ID, StringValue(ContainerIdToString(s.containerId.value)));
    var e := AddRelatedEntity(e, TEZ_TASK_ID, StringValue(TaskIdToString(a.taskId)));
    var e := AddPrimaryFilter(e, TEZ_DAG_ID, StringValue(DagIdToString(a.taskId.vertexId.dagId)));
    var e := AddPrimaryFilter(e, TEZ_VERTEX_ID, StringValue(VertexIdToString(a.taskId.vertexId)));
    var e := AddPrimaryFilter(e, TEZ_TASK_ID, StringValue(TaskIdToString(a.taskId)));
    var e := AddEvent(e, TimelineEvent(HistoryEventTypes.Name(HistoryEventTypes.TASK_ATTEMPT_STARTED), s.startTime));
    var e := AddOtherInfo(e, START_TIME, LongValue(s.startTime));
    var e := AddOtherInfo(e, IN_PROGRESS_LOGS_URL, Nullable(s.inProgressLogsUrl));
    AddOtherInfo(e, COMPLETED_LOGS_URL, Nullable(s.completedLogsUrl))
  }

  /**
   * The attempt's entity (its id parses back), started at its start time,
   * related to its node, container and task, and filtered by its DAG, vertex
   * and task along its parent chain.
   */
  lemma ConvertEntity(s: TaskAttemptStartedState)
    requires Projectable(s)
    ensures var r := Convert(s); var t := s.taskAttemptId.value.taskId;
      && AttemptIdFromString(r.entityId) == s.taskAttemptId && r.entityType == TEZ_TASK_ATTEMPT_ID
      && r.startTime == Some(s.startTime)
      && r.relatedEntities == map[NODE_ID := {StringValue(NodeIdToString(s.nodeId.value))},
                                  CONTAINER_ID := {StringValue(ContainerIdToString(s.containerId.value))},
                                  TEZ_TASK_ID := {StringValue(TaskIdToString(t))}]
      && r.primaryFilters == map[TEZ_DAG_ID := {StringValue(DagIdToString(t.vertexId.dagId))},
                                 TEZ_VERTEX_ID := {StringValue(VertexIdToString(t.vertexId))},
                                 TEZ_TASK_ID := {StringValue(TaskIdToString(t))}]
  {
    var t := s.taskAttemptId.value.taskId;
    AttemptIdRoundTrip(s.taskAttemptId.value);
    ThreeSingletons(NODE_ID, StringValue(NodeIdToString(s.nodeId.value)),
                    CONTAINER_ID, StringValue(ContainerIdToString(s.containerId.value)),
                    TEZ_TASK_ID, StringValue(TaskIdToString(t)));
    ThreeSingletons(TEZ_DAG_ID, StringValue(DagIdToString(t.vertexId.dagId)),
                    TEZ_VERTEX_ID, StringValue(VertexIdToString(t.vertexId)),
                    TEZ_TASK_ID, StringValue(TaskIdToString(t)));
  }

  /** The related node id parses back to the attempt's node, when its host holds no colon. */
  lemma ConvertedNodeParses(s: TaskAttemptStartedState)
    requires Projectable(s) && ValidNodeId(s.nodeId.value)
    ensures forall v :: v in Convert(s).relatedEntities[NODE_ID] ==> v.StringValue? && NodeIdFromString(v.str) == s.nodeId
  {
    ConvertEntity(s);
    NodeIdRoundTrip(s.nodeId.value);
  }

  /** One TASK_ATTEMPT_STARTED event at the start time; the start time and both log URLs, null included. */
  lemma ConvertInfo(s: TaskAttemptStartedState)
    requires Projectable(s)
    ensures var r := Convert(s);
      && r.events == [TimelineEvent("TASK_ATTEMPT_STARTED", s.startTime)]
      && r.otherInfo == map[START_TIME := LongValue(s.startTime),
                            IN_PROGRESS_LOGS_URL := Nullable(s.inProgressLogsUrl),
                            COMPLETED_LOGS_URL := Nullable(s.completedLogsUrl)]
  {
  }

  // ---- the event object ----

  class TaskAttemptStartedEvent {
    var taskAttemptId: Option<TezTaskAttemptID>
    var inProgressLogsUrl: Option<string>
    var completedLogsUrl: Option<string>
    var vertexName: Option<string>
    var startTime: i64
    var containerId: Option<ContainerId>
    var nodeId: Option<NodeId>

    function Fields(): TaskAttemptStartedState
      reads this
    {
      TaskAttemptStartedState(taskAttemptId, inProgressLogsUrl, completedLogsUrl, vertexName, startTime,
                              containerId, nodeId)
    }

    /** `new TaskAttemptStartedEvent()`. */
    constructor Empty()
      ensures Fields() == DefaultState()
    {
      taskAttemptId, inProgressLogsUrl, completedLogsUrl, vertexName := None, None, None, None;
      startTime, containerId, nodeId := 0, None, None;
    }

    /** The producer's constructor: every argument is stored. */
    constructor (taId: TezTaskAttemptID, vertexName: Option<string>, startTime: i64,
                 containerId: ContainerId, nodeId: NodeId,
                 inProgressLogsUrl: Option<string>, completedLogsUrl: Option<string>)
      ensures Fields() == TaskAttemptStartedState(Some(taId), inProgressLogsUrl, completedLogsUrl, vertexName,
                                                  startTime, Some(containerId), Some(nodeId))
    {
      this.taskAttemptId := Some(taId);
      this.vertexName := vertexName;
      this.startTime := startTime;
      this.containerId := Some(containerId);
      this.nodeId := Some(nodeId);
      this.inProgressLogsUrl := inProgressLogsUrl;
      this.completedLogsUrl := completedLogsUrl;
    }

    /** `fromProto`. */
    method FromProto(proto: TaskAttemptStartedProto) returns (failure: Option<Failure>)
      modifies this
      ensures Step(Fields(), failure) == ApplyProto(old(Fields()), proto)
    {
      taskAttemptId := AttemptIdFromString(proto.taskAttemptId);
      startTime := proto.startTime;
      var c := ContainerIdFromString(proto.containerId);
      if c.None? {
        return Some(MalformedId);
      }
      containerId := c;
      var n := NodeIdFromString(proto.nodeId);
      if n.None? {
        return Some(MalformedId);
      }
      nodeId := n;
      return None;
    }
  }
}
