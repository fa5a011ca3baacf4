/**
 * DAGFinishedEvent: the terminal record of a DAG.  It has a full proto
 * encoding and a summary encoding whose payload is the state ordinal as four
 * big-endian bytes, and it is the one kind written to recovery immediately.
 */
module DAGFinished {
  import opened Wrappers
  import opened Primitives
  import opened Ids
  import opened HistoryRecords
  import opened Timeline
  import Ints
  import DAGStates
  import HistoryEventTypes
  import EventKinds

  datatype DAGFinishedProto = DAGFinishedProto(
    dagId: string,
    state: i32,
    finishTime: i64,
    diagnostics: Option<string>,
    counters: Option<TezCounters>)

  datatype DAGFinishedState = DAGFinishedState(
    dagID: Option<TezDAGID>,
    startTime: i64,
    finishTime: i64,
    state: Option<DAGStates.DAGState>,
    diagnostics: Option<string>,
    tezCounters: Option<TezCounters>,
    user: Option<string>,
    dagName: Option<string>)

  /** The fields of `new DAGFinishedEvent()`. */
  function DefaultState(): DAGFinishedState {
    DAGFinishedState(None, 0, 0, None, None, None, None, None)
  }

  const Kind := EventKinds.DAGFinished

  // ---- full encoding ----

  predicate Encodable(s: DAGFinishedState) {
    s.dagID.Some? && s.state.Some?
  }

  /** `toProto`. */
  function ToProto(s: DAGFinishedState): DAGFinishedProto
    requires Encodable(s)
  {
    DAGFinishedProto(DagIdToString(s.dagID.value), DAGStates.Ordinal(s.state.value) as i32, s.finishTime,
                     s.diagnostics, s.tezCounters)
  }

  /**
   * `fromProto` on an instance holding `s`: id (`null` when malformed), finish
   * time, state, then the present optional fields; only an out-of-range state
   * stops it.
   */
  function ApplyProto(s: DAGFinishedState, p: DAGFinishedProto): (r: Step<DAGFinishedState>)
    ensures r.failure.None? <==> 0 <= p.state as int < |DAGStates.Values|
    ensures r.failure.Some? ==> r.failure == Some(OrdinalOutOfRange) && r.state.state == s.state
    ensures r.state.dagID == DagIdFromString(p.dagId) && r.state.finishTime == p.finishTime
  {
    var s1 := s.(dagID := DagIdFromString(p.dagId), finishTime := p.finishTime);
    match DAGStates.FromOrdinal(p.state as int)
    case None => Step(s1, Some(OrdinalOutOfRange))
    case Some(st) =>
      Step(s1.(state := Some(st),
               diagnostics := if p.diagnostics.Some? then p.diagnostics else s1.diagnostics,
               tezCounters := if p.counters.Some? then p.counters else s1.tezCounters),
           None)
  }

  /**
   * Decoding the encoding into a fresh instance restores id, finish time and
   * state, restores diagnostics and counters exactly when they were non-null,
   * and leaves start time, user and DAG name at their defaults.
   */
  lemma RoundTrip(s: DAGFinishedState)
    requires Encodable(s)
    ensures ToProto(s).diagnostics.Some? <==> s.diagnostics.Some?
    ensures ToProto(s).counters.Some? <==> s.tezCounters.Some?
    ensures ApplyProto(DefaultState(), ToProto(s)) ==
      Step(DefaultState().(dagID := s.dagID, finishTime := s.finishTime, state := s.state,
                           diagnostics := s.diagnostics, tezCounters := s.tezCounters),
           None)
  {
    DagIdRoundTrip(s.dagID.value);
  }

  // ---- summary encoding ----

  /** `toSummaryProtoStream`'s record; the payload is `Ints.toByteArray(state.ordinal())`. */
  function ToSummaryProto(s: DAGFinishedState): SummaryEventProto
    requires Encodable(s)
  {
    SummaryEventProto(
      DagIdToString(s.dagID.value),
      s.finishTime,
      HistoryEventTypes.Ordinal(EventKinds.EventType(Kind)) as i32,
      RawBytes(Ints.ToByteArray(DAGStates.Ordinal(s.state.value) as i32)))
  }

  /**
   * `fromSummaryProtoStream`: id (`null` when malformed), finish time, then the
   * state from the payload; a payload under four bytes or an out-of-range
   * ordinal fails after the id and the time are assigned.
   */
  function ApplySummaryProto(s: DAGFinishedState, proto: SummaryEventProto): (r: Step<DAGFinishedState>)
    requires proto.eventPayload.RawBytes?
    ensures r.failure.None? <==>
      && Ints.FromByteArray(proto.eventPayload.bytes).Some?
      && 0 <= Ints.FromByteArray(proto.eventPayload.bytes).value as int < |DAGStates.Values|
    ensures |proto.eventPayload.bytes| < 4 <==> r.failure == Some(PayloadTooShort)
    ensures r.failure.Some? ==> r.state.state == s.state
    ensures r.state.dagID == DagIdFromString(proto.dagId) && r.state.finishTime == proto.timestamp
  {
    var s1 := s.(dagID := DagIdFromString(proto.dagId), finishTime := proto.timestamp);
    match Ints.FromByteArray(proto.eventPayload.bytes)
    case None => Step(s1, Some(PayloadTooShort))
    case Some(ordinal) =>
      match DAGStates.FromOrdinal(ordinal as int)
      case None => Step(s1, Some(OrdinalOutOfRange))
      case Some(st) => Step(s1.(state := Some(st)), None)
  }

  /**
   * The summary record carries the DAG id, the finish time, the DAG_FINISHED
   * type ordinal and a four-byte payload that reads back as the state ordinal.
   */
  lemma SummaryRecordFields(s: DAGFinishedState)
    requires Encodable(s)
    ensures DagIdFromString(ToSummaryProto(s).dagId) == s.dagID
    ensures ToSummaryProto(s).timestamp == s.finishTime
    ensures ToSummaryProto(s).eventType as int == HistoryEventTypes.Ordinal(HistoryEventTypes.DAG_FINISHED)
    ensures |ToSummaryProto(s).eventPayload.bytes| == 4
    ensures Ints.FromByteArray(ToSummaryProto(s).eventPayload.bytes) == Some(DAGStates.Ordinal(s.state.value) as i32)
  {
    DagIdRoundTrip(s.dagID.value);
    Ints.FromToByteArray(DAGStates.Ordinal(s.state.value) as i32);
  }

  /** Summary decoding into a fresh instance restores id, finish time and state and nothing else. */
  lemma SummaryRoundTrip(s: DAGFinishedState)
    requires Encodable(s)
    ensures ApplySummaryProto(DefaultState(), ToSummaryProto(s)) ==
      Step(DefaultState().(dagID := s.dagID, finishTime := s.finishTime, state := s.state), None)
  {
    DagIdRoundTrip(s.dagID.value);
    Ints.FromToByteArray(DAGStates.Ordinal(s.state.value) as i32);
  }

  /** The summary recovers a subset of the full record's fields, agreeing on each. */
  lemma SummaryAgreesWithFull(s: DAGFinishedState)
    requires Encodable(s)
    ensures var full := ApplyProto(DefaultState(), ToProto(s)).state;
            var summary := ApplySummaryProto(DefaultState(), ToSummaryProto(s)).state;
            && summary.dagID == full.dagID && summary.state == full.state && summary.finishTime == full.finishTime
            && summary.diagnostics.None? && summary.tezCounters.None?
  {
    RoundTrip(s);
    SummaryRoundTrip(s);
  }

  /** A recovery event with a summary, and written to recovery immediately. */
  lemma KindFlags()
    ensures EventKinds.EventType(Kind) == HistoryEventTypes.DAG_FINISHED
    ensures EventKinds.IsRecoveryEvent(Kind) && EventKinds.IsHistoryEvent(Kind)
    ensures EventKinds.IsSummaryEvent(Kind) && EventKinds.WriteToRecoveryImmediately(Kind)
  {
  }

  // ---- timeline projection ----

  predicate Projectable(s: DAGFinishedState) {
    s.dagID.Some? && s.state.Some?
  }

  /** `convertToTimelineEntity`; user, DAG name and diagnostics may be null. */
  function Convert(s: DAGFinishedState): TimelineEntity
    requires Projectable(s)
  {
    var e := NewEntity(DagIdToString(s.dagID.value), TEZ_DAG_ID);
    var e := AddEvent(e, TimelineEvent(HistoryEventTypes.Name(HistoryEventTypes.DAG_FINISHED), s.finishTime));
    var e := AddPrimaryFilter(e, USER, Nullable(s.user));
    var e := AddPrimaryFilter(e, DAG_NAME, Nullable(s.dagName));
    var e := AddOtherInfo(e, START_TIME, LongValue(s.startTime));
    var e := AddOtherInfo(e, FINISH_TIME, LongValue(s.finishTime));
    var e := AddOtherInfo(e, TIME_TAKEN, LongValue(LongSub(s.finishTime, s.startTime)));
    var e := AddOtherInfo(e, STATUS, StringValue(DAGStates.Name(s.state.value)));
    var e := AddOtherInfo(e, DIAGNOSTICS, Nullable(s.diagnostics));
    AddOtherInfo(e, COUNTERS, CountersValue(s.tezCounters))
  }

  /** The DAG's entity (its id parses back), filtered by user and DAG name, null included. */
  lemma ConvertEntity(s: DAGFinishedState)
    requires Projectable(s)
    ensures var r := Convert(s);
      && DagIdFromString(r.entityId) == s.dagID && r.entityType == TEZ_DAG_ID
      && r.startTime.None? && r.relatedEntities == map[]
      && r.primaryFilters == map[USER := {Nullable(s.user)}, DAG_NAME := {Nullable(s.dagName)}]
  {
    DagIdRoundTrip(s.dagID.value);
    TwoSingletons(USER, Nullable(s.user), DAG_NAME, Nullable(s.dagName));
  }

  /**
   * One DAG_FINISHED event at the finish time; start and finish times, time
   * taken, status, counters, and a DIAGNOSTICS entry that is present (null)
   * even when there are no diagnostics.
   */
  lemma ConvertInfo(s: DAGFinishedState)
    requires Projectable(s)
    ensures var r := Convert(s);
      && r.events == [TimelineEvent("DAG_FINISHED", s.finishTime)]
      && r.otherInfo == map[START_TIME := LongValue(s.startTime),
                            FINISH_TIME := LongValue(s.finishTime),
                            TIME_TAKEN := LongValue(LongSub(s.finishTime, s.startTime)),
                            STATUS := StringValue(DAGStates.Name(s.state.value)),
                            DIAGNOSTICS := Nullable(s.diagnostics),
                            COUNTERS := CountersValue(s.tezCounters)]
  {
  }

  /** A succeeded DAG by "alice" that ran from 1000 to 5000 with no diagnostics. */
  lemma ConvertExample(id: TezDAGID)
    ensures var r := Convert(DAGFinishedState(Some(id), 1000, 5000, Some(DAGStates.SUCCEEDED), None, None,
                                              Some("alice"), Some("wordcount")));
      && r.otherInfo[TIME_TAKEN] == LongValue(4000)
      && r.otherInfo[STATUS] == StringValue("SUCCEEDED")
      && r.otherInfo[DIAGNOSTICS] == NullValue
      && r.primaryFilters[USER] == {StringValue("alice")}
  {
  }

  // ---- the event object ----

  class DAGFinishedEvent {
    var dagID: Option<TezDAGID>
    var startTime: i64
    var finishTime: i64
    var state: Option<DAGStates.DAGState>
    var diagnostics: Option<string>
    var tezCounters: Option<TezCounters>
    var user: Option<string>
    var dagName: Option<string>

    function Fields(): DAGFinishedState
      reads this
    {
      DAGFinishedState(dagID, startTime, finishTime, state, diagnostics, tezCounters, user, dagName)
    }

    /** `new DAGFinishedEvent()`. */
    constructor Empty()
      ensures Fields() == DefaultState()
    {
      dagID, startTime, finishTime, state := None, 0, 0, None;
      diagnostics, tezCounters, user, dagName := None, None, None, None;
    }

    constructor (dagId: TezDAGID, startTime: i64, finishTime: i64, state: DAGStates.DAGState,
                 diagnostics: Option<string>, counters: Option<TezCounters>, user: Option<string>,
                 dagName: Option<string>)
      ensures Fields() == DAGFinishedState(Some(dagId), startTime, finishTime, Some(state), diagnostics,
                                           counters, user, dagName)
      ensures Encodable(Fields()) && Projectable(Fields())
    {
      this.dagID := Some(dagId);
      this.startTime := startTime;
      this.finishTime := finishTime;
      this.state := Some(state);
      this.diagnostics := diagnostics;
      this.tezCounters := counters;
      this.user := user;
      this.dagName := dagName;
    }

    /** `fromProto`. */
    method FromProto(proto: DAGFinishedProto) returns (failure: Option<Failure>)
      modifies this
      ensures Step(Fields(), failure) == ApplyProto(old(Fields()), proto)
    {
      dagID := DagIdFromString(proto.dagId);
      finishTime := proto.finishTime;
      var st := DAGStates.FromOrdinal(proto.state as int);
      if st.None? {
        return Some(OrdinalOutOfRange);
      }
      state := st;
      if proto.diagnostics.Some? {
        diagnostics := proto.diagnostics;
      }
      if proto.counters.Some? {
        tezCounters := proto.counters;
      }
      return None;
    }

    /** `fromSummaryProtoStream`. */
    method FromSummaryProto(proto: SummaryEventProto) returns (failure: Option<Failure>)
      requires proto.eventPayload.RawBytes?
      modifies this
      ensures Step(Fields(), failure) == ApplySummaryProto(old(Fields()), proto)
    {
      dagID := DagIdFromString(proto.dagId);
      finishTime := proto.timestamp;
      var ordinal := Ints.FromByteArray(proto.eventPayload.bytes);
      if ordinal.None? {
        return Some(PayloadTooShort);
      }
      var st := DAGStates.FromOrdinal(ordinal.value as int);
      if st.None? {
        return Some(OrdinalOutOfRange);
      }
      state := st;
      return None;
    }
  }
}
