/** DAGStartedEvent: a DAG began running. */
module DAGStarted {
  import opened Wrappers
  import opened Primitives
  import opened Ids
  import opened HistoryRecords
  import opened Timeline
  import HistoryEventTypes
  import EventKinds

  /** The user and the DAG name are not part of the encoding. */
  datatype DAGStartedProto = DAGStartedProto(dagId: string, startTime: i64)

  datatype DAGStartedState = DAGStartedState(
    dagID: Option<TezDAGID>,
    startTime: i64,
    user: Option<string>,
    dagName: Option<string>)

  /** The fields of `new DAGStartedEvent()`. */
  function DefaultState(): DAGStartedState {
    DAGStartedState(None, 0, None, None)
  }

  const Kind := EventKinds.DAGStarted

  predicate Encodable(s: DAGStartedState) {
    s.dagID.Some?
  }

  /** `toProto`. */
  function ToProto(s: DAGStartedState): DAGStartedProto
    requires Encodable(s)
  {
    DAGStartedProto(DagIdToString(s.dagID.value), s.startTime)
  }

  /**
   * `fromProto` on an instance holding `s`: it cannot fail, since a malformed
   * DAG id becomes `null`; user and DAG name are never touched.
   */
  function ApplyProto(s: DAGStartedState, p: DAGStartedProto): (r: DAGStartedState)
    ensures r.dagID == DagIdFromString(p.dagId) && r.startTime == p.startTime
    ensures r.user == s.user && r.dagName == s.dagName
  {
    s.(dagID := DagIdFromString(p.dagId), startTime := p.startTime)
  }

  /** Decoding the encoding into a fresh instance restores id and start time; user and DAG name stay null. */
  lemma RoundTrip(s: DAGStartedState)
    requires Encodable(s)
    ensures ApplyProto(DefaultState(), ToProto(s)) == s.(user := None, dagName := None)
  {
    DagIdRoundTrip(s.dagID.value);
  }

  /** A recovery and history event without a summary. */
  lemma KindFlags()
    ensures EventKinds.EventType(Kind) == HistoryEventTypes.DAG_STARTED
    ensures EventKinds.IsRecoveryEvent(Kind) && EventKinds.IsHistoryEvent(Kind) && !EventKinds.IsSummaryEvent(Kind)
  {
  }

  // ---- timeline projection ----

  predicate Projectable(s: DAGStartedState) {
    Encodable(s)
  }

  /** `convertToTimelineEntity`. */
  function Convert(s: DAGStartedState): TimelineEntity
    requires Projectable(s)
  {
    var e := NewEntity(DagIdToString(s.dagID.value), TEZ_DAG_ID);
    var e := AddEvent(e, TimelineEvent(HistoryEventTypes.Name(HistoryEventTypes.DAG_STARTED), s.startTime));
    var e := AddPrimaryFilter(e, USER, Nullable(s.user));
    var e := AddPrimaryFilter(e, DAG_NAME, Nullable(s.dagName));
    AddOtherInfo(e, START_TIME, LongValue(s.startTime))
  }

  /**
   * The whole entity: the DAG's id (it parses back), no start time and no
   * related entities, the user and DAG name as filters (null included), one
   * DAG_STARTED event at the start time, and only the start time in other-info.
   */
  lemma ConvertEntity(s: DAGStartedState)
    requires Projectable(s)
    ensures var r := Convert(s);
      && DagIdFromString(r.entityId) == s.dagID && r.entityType == TEZ_DAG_ID
      && r.startTime.None? && r.relatedEntities == map[]
      && r.primaryFilters == map[USER := {Nullable(s.user)}, DAG_NAME := {Nullable(s.dagName)}]
      && r.events == [TimelineEvent("DAG_STARTED", s.startTime)]
      && r.otherInfo == map[START_TIME := LongValue(s.startTime)]
  {
    DagIdRoundTrip(s.dagID.value);
    TwoSingletons(USER, Nullable(s.user), DAG_NAME, Nullable(s.dagName));
  }

  // ---- the event object ----

  class DAGStartedEvent {
    var dagID: Option<TezDAGID>
    var startTime: i64
    var user: Option<string>
    var dagName: Option<string>

    function Fields(): DAGStartedState
      reads this
    {
      DAGStartedState(dagID, startTime, user, dagName)
    }

    /** `new DAGStartedEvent()`. */
    constructor Empty()
      ensures Fields() == DefaultState()
    {
      dagID, startTime, user, dagName := None, 0, None, None;
    }

    /** The producer's constructor: every argument is stored. */
    constructor (dagID: TezDAGID, startTime: i64, user: Option<string>, dagName: Option<string>)
      ensures Fields() == DAGStartedState(Some(dagID), startTime, user, dagName)
    {
      this.dagID := Some(dagID);
      this.startTime := startTime;
      this.user := user;
      this.dagName := dagName;
    }

    /** `fromProto`. */
    method FromProto(proto: DAGStartedProto)
      modifies this
      ensures Fields() == ApplyProto(old(Fields()), proto)
    {
      dagID := DagIdFromString(proto.dagId);
      startTime := proto.startTime;
    }
  }
}
