/**
 * VertexFinishedEvent: the terminal record of a vertex.  It has a full proto
 * encoding and a summary encoding, and is a recovery event that is not
 * written to recovery immediately.
 */
module VertexFinished {
  import opened Wrappers
  import opened Primitives
  import opened Ids
  import opened HistoryRecords
  import opened Timeline
  import VertexStates
  import HistoryEventTypes
  import EventKinds

  /** `VertexFinishedProto`; `diagnostics` and `counters` are the fields with `has*` checks. */
  datatype VertexFinishedProto = VertexFinishedProto(
    vertexName: string,
    vertexId: string,
    state: i32,
    finishTime: i64,
    diagnostics: Option<string>,
    counters: Option<TezCounters>)

  /** The private fields of a `VertexFinishedEvent`; `None` is a Java `null`. */
  datatype VertexFinishedState = VertexFinishedState(
    vertexID: Option<TezVertexID>,
    vertexName: Option<string>,
    initRequestedTime: i64,
    initedTime: i64,
    startRequestedTime: i64,
    startTime: i64,
    finishTime: i64,
    state: Option<VertexStates.VertexState>,
    diagnostics: Option<string>,
    tezCounters: Option<TezCounters>,
    fromSummary: bool,
    vertexStats: Option<VertexStats>)

  /** The fields of `new VertexFinishedEvent()`: nulls, zeros, `fromSummary = false`. */
  function DefaultState(): VertexFinishedState {
    VertexFinishedState(None, None, 0, 0, 0, 0, 0, None, None, None, false, None)
  }

  const Kind := EventKinds.VertexFinished

  // ---- full encoding ----

  /** `toProto` dereferences the vertex name, id and state (a `null` there throws). */
  predicate Encodable(s: VertexFinishedState) {
    s.vertexName.Some? && s.vertexID.Some? && s.state.Some?
  }

  /** `toProto`: the optional fields are set only when non-null. */
  function ToProto(s: VertexFinishedState): VertexFinishedProto
    requires Encodable(s)
  {
    VertexFinishedProto(
      s.vertexName.value,
      VertexIdToString(s.vertexID.value),
      VertexStates.Ordinal(s.state.value) as i32,
      s.finishTime,
      s.diagnostics,
      s.tezCounters)
  }

  /**
   * `fromProto` applied to an instance holding `s`: the name, then the id,
   * the finish time and the state are assigned in that order, the optional
   * fields only when present.  A malformed id does not stop the decode: the
   * id becomes `null` and the later fields are still read.  An out-of-range
   * state stops it after the assignments already made.
   */
  function ApplyProto(s: VertexFinishedState, p: VertexFinishedProto): (r: Step<VertexFinishedState>)
    ensures r.failure.None? <==> 0 <= p.state as int < |VertexStates.Values|
    ensures r.failure.Some? ==> r.failure == Some(OrdinalOutOfRange) && r.state.state == s.state
    ensures r.state.vertexID == VertexIdFromString(p.vertexId) && r.state.finishTime == p.finishTime
    ensures r.state.fromSummary == s.fromSummary
  {
    var s1 := s.(vertexName := Some(p.vertexName), vertexID := VertexIdFromString(p.vertexId),
                 finishTime := p.finishTime);
    match VertexStates.FromOrdinal(p.state as int)
    case None => Step(s1, Some(OrdinalOutOfRange))
    case Some(st) =>
      Step(s1.(state := Some(st),
               diagnostics := if p.diagnostics.Some? then p.diagnostics else s1.diagnostics,
               tezCounters := if p.counters.Some? then p.counters else s1.tezCounters),
           None)
  }

  /**
   * Decoding the encoding into a fresh instance restores the name, id, finish
   * time and state, restores diagnostics and counters exactly when they were
   * non-null (absence stays absence), and leaves every field that is not
   * encoded (the four earlier times, the stats, `fromSummary`) at its default.
   */
  lemma RoundTrip(s: VertexFinishedState)
    requires Encodable(s)
    ensures ToProto(s).diagnostics.Some? <==> s.diagnostics.Some?
    ensures ToProto(s).counters.Some? <==> s.tezCounters.Some?
    ensures ApplyProto(DefaultState(), ToProto(s)) ==
      Step(DefaultState().(vertexName := s.vertexName, vertexID := s.vertexID, finishTime := s.finishTime,
                           state := s.state, diagnostics := s.diagnostics, tezCounters := s.tezCounters),
           None)
  {
    VertexIdRoundTrip(s.vertexID.value);
  }

  /**
   * A record whose vertex id does not parse is still accepted: the decode
   * reports no failure, and the recovered event holds a `null` id, so it can be
   * neither re-encoded nor projected.
   */
  lemma MalformedIdAccepted(p: VertexFinishedProto)
    requires VertexIdFromString(p.vertexId).None?
    requires 0 <= p.state as int < |VertexStates.Values|
    ensures var r := ApplyProto(DefaultState(), p);
            r.failure.None? && r.state.vertexID.None? && !Encodable(r.state) && !Projectable(r.state)
  {
  }

  /** For instance, a record with an empty vertex id decodes into an event with a `null` id. */
  lemma MalformedIdExample()
    ensures var r := ApplyProto(DefaultState(), VertexFinishedProto("map", "", 0, 7, None, None));
            r.failure.None? && r.state.vertexID.None? && r.state.finishTime == 7
  {
    EmptyStringIsNoTezId();
    MalformedIdAccepted(VertexFinishedProto("map", "", 0, 7, None, None));
  }

  // ---- summary encoding ----

  predicate Summarizable(s: VertexFinishedState) {
    s.vertexID.Some? && s.state.Some?
  }

  /** `toSummaryProtoStream`'s record: the parent DAG, the finish time, the type ordinal, (state, vertex id). */
  function ToSummaryProto(s: VertexFinishedState): SummaryEventProto
    requires Summarizable(s)
  {
    var id := s.vertexID.value;
    SummaryEventProto(
      DagIdToString(id.dagId),
      s.finishTime,
      HistoryEventTypes.Ordinal(EventKinds.EventType(Kind)) as i32,
      VertexFinishState(VertexFinishStateProto(VertexStates.Ordinal(s.state.value) as i32, VertexIdToString(id))))
  }

  /**
   * `fromSummaryProtoStream`: id (`null` when malformed), then state, then the
   * finish time from the record's timestamp, then `fromSummary = true`.
   */
  function ApplySummaryProto(s: VertexFinishedState, proto: SummaryEventProto): (r: Step<VertexFinishedState>)
    requires proto.eventPayload.VertexFinishState?
    ensures r.failure.None? <==> 0 <= proto.eventPayload.finishState.state as int < |VertexStates.Values|
    ensures r.failure.Some? ==> r.failure == Some(OrdinalOutOfRange) && r.state.finishTime == s.finishTime
    ensures r.state.vertexID == VertexIdFromString(proto.eventPayload.finishState.vertexId)
    ensures r.state.fromSummary <==> r.failure.None? || s.fromSummary
  {
    var fs := proto.eventPayload.finishState;
    var s1 := s.(vertexID := VertexIdFromString(fs.vertexId));
    match VertexStates.FromOrdinal(fs.state as int)
    case None => Step(s1, Some(OrdinalOutOfRange))
    case Some(st) => Step(s1.(state := Some(st), finishTime := proto.timestamp, fromSummary := true), None)
  }

  /** The summary record names the vertex's parent DAG, is stamped with the finish time and tagged VERTEX_FINISHED. */
  lemma SummaryRecordFields(s: VertexFinishedState)
    requires Summarizable(s)
    ensures DagIdFromString(ToSummaryProto(s).dagId) == Some(s.vertexID.value.dagId)
    ensures ToSummaryProto(s).timestamp == s.finishTime
    ensures ToSummaryProto(s).eventType as int == HistoryEventTypes.Ordinal(HistoryEventTypes.VERTEX_FINISHED)
    ensures ToSummaryProto(s).eventPayload.VertexFinishState?
    ensures VertexStates.FromOrdinal(ToSummaryProto(s).eventPayload.finishState.state as int) == s.state
    ensures VertexIdFromString(ToSummaryProto(s).eventPayload.finishState.vertexId) == s.vertexID
  {
    DagIdRoundTrip(s.vertexID.value.dagId);
    VertexIdRoundTrip(s.vertexID.value);
  }

  /**
   * Summary decoding into a fresh instance restores id, state and finish time,
   * sets `fromSummary`, and leaves diagnostics and counters absent.
   */
  lemma SummaryRoundTrip(s: VertexFinishedState)
    requires Summarizable(s)
    ensures ApplySummaryProto(DefaultState(), ToSummaryProto(s)) ==
      Step(DefaultState().(vertexID := s.vertexID, state := s.state, finishTime := s.finishTime, fromSummary := true), None)
  {
    VertexIdRoundTrip(s.vertexID.value);
  }

  /**
   * What the summary recovers is a subset of what the full record recovers
   * and agrees with it; nothing the summary does not carry is invented.
   */
  lemma SummaryAgreesWithFull(s: VertexFinishedState)
    requires Encodable(s)
    ensures var full := ApplyProto(DefaultState(), ToProto(s)).state;
            var summary := ApplySummaryProto(DefaultState(), ToSummaryProto(s)).state;
            && summary.vertexID == full.vertexID
            && summary.state == full.state
            && summary.finishTime == full.finishTime
            && summary.diagnostics.None? && summary.tezCounters.None? && summary.vertexName.None?
            && summary.fromSummary && !full.fromSummary
  {
    RoundTrip(s);
    SummaryRoundTrip(s);
  }

  /** A state ordinal outside VertexState's range makes both decodings fail. */
  lemma OutOfRangeStateFails(s: VertexFinishedState, p: VertexFinishedProto, proto: SummaryEventProto)
    requires !(0 <= p.state as int < |VertexStates.Values|)
    requires proto.eventPayload.VertexFinishState?
    requires !(0 <= proto.eventPayload.finishState.state as int < |VertexStates.Values|)
    ensures ApplyProto(s, p).failure.Some?
    ensures ApplySummaryProto(s, proto).failure.Some?
    ensures !ApplySummaryProto(s, proto).state.fromSummary || s.fromSummary
  {
  }

  /** Kind-level answers: a recovery and history event with a summary, not written immediately. */
  lemma KindFlags()
    ensures EventKinds.EventType(Kind) == HistoryEventTypes.VERTEX_FINISHED
    ensures EventKinds.IsRecoveryEvent(Kind) && EventKinds.IsHistoryEvent(Kind)
    ensures EventKinds.IsSummaryEvent(Kind) && !EventKinds.WriteToRecoveryImmediately(Kind)
  {
  }

  // ---- timeline projection ----

  /** `convertToTimelineEntity` dereferences the vertex id and the state. */
  predicate Projectable(s: VertexFinishedState) {
    s.vertexID.Some? && s.state.Some?
  }

  /** `convertToTimelineEntity`. */
  function Convert(s: VertexFinishedState): TimelineEntity
    requires Projectable(s)
  {
    var id := s.vertexID.value;
    var e := NewEntity(VertexIdToString(id), TEZ_VERTEX_ID);
    var e := AddPrimaryFilter(e, TEZ_DAG_ID, StringValue(DagIdToString(id.dagId)));
    var e := AddEvent(e, TimelineEvent(HistoryEventTypes.Name(HistoryEventTypes.VERTEX_FINISHED), s.finishTime));
    var e := AddOtherInfo(e, FINISH_TIME, LongValue(s.finishTime));
    var e := AddOtherInfo(e, TIME_TAKEN, LongValue(LongSub(s.finishTime, s.startTime)));
    var e := AddOtherInfo(e, STATUS, StringValue(VertexStates.Name(s.state.value)));
    var e := AddOtherInfo(e, COUNTERS, CountersValue(s.tezCounters));
    AddOtherInfo(e, STATS, StatsValue(s.vertexStats))
  }

  /** The vertex's entity (its id parses back), filtered by the string form of its parent DAG. */
  lemma ConvertEntity(s: VertexFinishedState)
    requires Projectable(s)
    ensures var r := Convert(s); var v := s.vertexID.value;
      && VertexIdFromString(r.entityId) == s.vertexID && r.entityType == TEZ_VERTEX_ID
      && r.startTime.None? && r.relatedEntities == map[]
      && r.primaryFilters == map[TEZ_DAG_ID := {StringValue(DagIdToString(v.dagId))}]
  {
    VertexIdRoundTrip(s.vertexID.value);
    OneSingleton(TEZ_DAG_ID, StringValue(DagIdToString(s.vertexID.value.dagId)));
  }

  /**
   * One VERTEX_FINISHED event at the finish time, and exactly the finish
   * time, time taken, status, counters and stats in other-info: no
   * diagnostics.
   */
  lemma ConvertInfo(s: VertexFinishedState)
    requires Projectable(s)
    ensures var r := Convert(s);
      && r.events == [TimelineEvent("VERTEX_FINISHED", s.finishTime)]
      && r.otherInfo == map[FINISH_TIME := LongValue(s.finishTime),
                            TIME_TAKEN := LongValue(LongSub(s.finishTime, s.startTime)),
                            STATUS := StringValue(VertexStates.Name(s.state.value)),
                            COUNTERS := CountersValue(s.tezCounters),
                            STATS := StatsValue(s.vertexStats)]
  {
  }

  /**
   * The start time is not encoded, so an event recovered from its full record
   * projects a time taken equal to its finish time.
   */
  lemma RecoveredTimeTaken(s: VertexFinishedState)
    requires Encodable(s)
    ensures var recovered := ApplyProto(DefaultState(), ToProto(s)).state;
            Projectable(recovered) && Convert(recovered).otherInfo[TIME_TAKEN] == LongValue(s.finishTime)
  {
    RoundTrip(s);
  }

  // ---- the event object ----

  class VertexFinishedEvent {
    var vertexID: Option<TezVertexID>
    var vertexName: Option<string>
    var initRequestedTime: i64
    var initedTime: i64
    var startRequestedTime: i64
    var startTime: i64
    var finishTime: i64
    var state: Option<VertexStates.VertexState>
    var diagnostics: Option<string>
    var tezCounters: Option<TezCounters>
    var fromSummary: bool
    var vertexStats: Option<VertexStats>

    function Fields(): VertexFinishedState
      reads this
    {
      VertexFinishedState(vertexID, vertexName, initRequestedTime, initedTime, startRequestedTime,
                          startTime, finishTime, state, diagnostics, tezCounters, fromSummary, vertexStats)
    }

    /** `new VertexFinishedEvent()`, the instance a reader decodes into. */
    constructor Empty()
      ensures Fields() == DefaultState()
    {
      vertexID, vertexName := None, None;
      initRequestedTime, initedTime, startRequestedTime, startTime, finishTime := 0, 0, 0, 0, 0;
      state, diagnostics, tezCounters := None, None, None;
      fromSummary, vertexStats := false, None;
    }

    /** The producer's constructor; `fromSummary` stays false. */
    constructor (vertexId: TezVertexID, vertexName: string, initRequestedTime: i64, initedTime: i64,
                 startRequestedTime: i64, startedTime: i64, finishTime: i64, state: VertexStates.VertexState,
                 diagnostics: Option<string>, counters: Option<TezCounters>, vertexStats: Option<VertexStats>)
      ensures Fields() == VertexFinishedState(Some(vertexId), Some(vertexName), initRequestedTime, initedTime,
                                              startRequestedTime, startedTime, finishTime, Some(state),
                                              diagnostics, counters, false, vertexStats)
      ensures Encodable(Fields()) && Projectable(Fields())
    {
      this.vertexName := Some(vertexName);
      this.vertexID := Some(vertexId);
      this.initRequestedTime := initRequestedTime;
      this.initedTime := initedTime;
      this.startRequestedTime := startRequestedTime;
      this.startTime := startedTime;
      this.finishTime := finishTime;
      this.state := Some(state);
      this.diagnostics := diagnostics;
      this.tezCounters := counters;
      this.vertexStats := vertexStats;
      this.fromSummary := false;
    }

    /** `fromProto`: assigns the decoded fields in place, stopping at an out-of-range state. */
    method FromProto(proto: VertexFinishedProto) returns (failure: Option<Failure>)
      modifies this
      ensures Step(Fields(), failure) == ApplyProto(old(Fields()), proto)
    {
      vertexName := Some(proto.vertexName);
      vertexID := VertexIdFromString(proto.vertexId);
      finishTime := proto.finishTime;
      var st := VertexStates.FromOrdinal(proto.state as int);
      if st.None? {
        return Some(OrdinalOutOfRange);
      }
      state := st;
      if proto.diagnostics.Some? {
        diagnostics := proto.diagnostics;
      }
      if proto.counters.Some? {
        tezCounters := proto.counters;
      }
      return None;
    }

    /** `fromSummaryProtoStream`: id, state and finish time from the summary, then `fromSummary`. */
    method FromSummaryProto(proto: SummaryEventProto) returns (failure: Option<Failure>)
      requires proto.eventPayload.VertexFinishState?
      modifies this
      ensures Step(Fields(), failure) == ApplySummaryProto(old(Fields()), proto)
    {
      var finishState := proto.eventPayload.finishState;
      vertexID := VertexIdFromString(finishState.vertexId);
      var st := VertexStates.FromOrdinal(finishState.state as int);
      if st.None? {
        return Some(OrdinalOutOfRange);
      }
      state := st;
      finishTime := proto.timestamp;
      fromSummary := true;
      return None;
    }

    /** `isFromSummary`. */
    function IsFromSummary(): bool
      reads this
    {
      fromSummary
    }
  }
}
