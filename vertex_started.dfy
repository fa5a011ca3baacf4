/** VertexStartedEvent: a vertex began running. */
module VertexStarted {
  import opened Wrappers
  import opened Primitives
  import opened Ids
  import opened HistoryRecords
  import opened Timeline
  import HistoryEventTypes
  import EventKinds

  datatype VertexStartedProto = VertexStartedProto(vertexId: string, startRequestedTime: i64, startTime: i64)

  datatype VertexStartedState = VertexStartedState(
    vertexID: Option<TezVertexID>,
    startRequestedTime: i64,
    startTime: i64)

  /** The fields of `new VertexStartedEvent()`. */
  function DefaultState(): VertexStartedState {
    VertexStartedState(None, 0, 0)
  }

  const Kind := EventKinds.VertexStarted

  predicate Encodable(s: VertexStartedState) {
    s.vertexID.Some?
  }

  /** `toProto`. */
  function ToProto(s: VertexStartedState): VertexStartedProto
    requires Encodable(s)
  {
    VertexStartedProto(VertexIdToString(s.vertexID.value), s.startRequestedTime, s.startTime)
  }

  /**
   * `fromProto` on an instance holding `s`: it cannot fail, since a malformed
   * vertex id becomes `null`, and it overwrites every field.
   */
  function ApplyProto(s: VertexStartedState, p: VertexStartedProto): (r: VertexStartedState)
    ensures r.vertexID == VertexIdFromString(p.vertexId)
    ensures r.startRequestedTime == p.startRequestedTime && r.startTime == p.startTime
  {
    VertexStartedState(VertexIdFromString(p.vertexId), p.startRequestedTime, p.startTime)
  }

  /** Every field of the event is encoded, so decoding the encoding restores it exactly, whatever the instance held. */
  lemma RoundTrip(s: VertexStartedState, t: VertexStartedState)
    requires Encodable(s)
    ensures ApplyProto(t, ToProto(s)) == s
  {
    VertexIdRoundTrip(s.vertexID.value);
  }

  /** Encoding is injective on encodable states: distinct events give distinct messages. */
  lemma ToProtoInjective(s: VertexStartedState, t: VertexStartedState)
    requires Encodable(s) && Encodable(t) && ToProto(s) == ToProto(t)
    ensures s == t
  {
    RoundTrip(s, DefaultState());
    RoundTrip(t, DefaultState());
  }

  /** A recovery and history event without a summary. */
  lemma KindFlags()
    ensures EventKinds.EventType(Kind) == HistoryEventTypes.VERTEX_STARTED
    ensures EventKinds.IsRecoveryEvent(Kind) && EventKinds.IsHistoryEvent(Kind) && !EventKinds.IsSummaryEvent(Kind)
  {
  }

  // ---- timeline projection ----

  predicate Projectable(s: VertexStartedState) {
    Encodable(s)
  }

  /** `convertToTimelineEntity`. */
  function Convert(s: VertexStartedState): TimelineEntity
    requires Projectable(s)
  {
    var v := s.vertexID.value;
    var e := NewEntity(VertexIdToString(v), TEZ_VERTEX_ID);
    var e := AddPrimaryFilter(e, TEZ_DAG_ID, StringValue(DagIdToString(v.dagId)));
    var e := AddEvent(e, TimelineEvent(HistoryEventTypes.Name(HistoryEventTypes.VERTEX_STARTED), s.startTime));
    var e := AddOtherInfo(e, START_REQUESTED_TIME, LongValue(s.startRequestedTime));
    AddOtherInfo(e, START_TIME, LongValue(s.startTime))
  }

  /** The vertex's entity (its id parses back), filtered by the string form of its DAG. */
  lemma ConvertEntity(s: VertexStartedState)
    requires Projectable(s)
    ensures var r := Convert(s); var v := s.vertexID.value;
      && VertexIdFromString(r.entityId) == Some(v) && r.entityType == TEZ_VERTEX_ID
      && r.startTime.None? && r.relatedEntities == map[]
      && r.primaryFilters == map[TEZ_DAG_ID := {StringValue(DagIdToString(v.dagId))}]
  {
    VertexIdRoundTrip(s.vertexID.value);
    OneSingleton(TEZ_DAG_ID, StringValue(DagIdToString(s.vertexID.value.dagId)));
  }

  /** One VERTEX_STARTED event at the start time; both times in other-info. */
  lemma ConvertInfo(s: VertexStartedState)
    requires Projectable(s)
    ensures var r := Convert(s);
      && r.events == [TimelineEvent("VERTEX_STARTED", s.startTime)]
      && r.otherInfo == map[START_REQUESTED_TIME := LongValue(s.startRequestedTime), START_TIME := LongValue(s.startTime)]
  {
  }

  // ---- the event object ----

  class VertexStartedEvent {
    var vertexID: Option<TezVertexID>
    var startRequestedTime: i64
    var startTime: i64

    function Fields(): VertexStartedState
      reads this
    {
      VertexStartedState(vertexID, startRequestedTime, startTime)
    }

    /** `new VertexStartedEvent()`. */
    constructor Empty()
      ensures Fields() == DefaultState()
    {
      vertexID, startRequestedTime, startTime := None, 0, 0;
    }

    /** The producer's constructor: every argument is stored. */
    constructor (vertexId: TezVertexID, startRequestedTime: i64, startTime: i64)
      ensures Fields() == VertexStartedState(Some(vertexId), startRequestedTime, startTime)
    {
      this.vertexID := Some(vertexId);
      this.startRequestedTime := startRequestedTime;
      this.startTime := startTime;
    }

    /** `fromProto`. */
    method FromProto(proto: VertexStartedProto)
      modifies this
      ensures Fields() == ApplyProto(old(Fields()), proto)
    {
      vertexID := VertexIdFromString(proto.vertexId);
      startRequestedTime := proto.startRequestedTime;
      startTime := proto.startTime;
    }
  }
}
