/** AMLaunchedEvent: the launch of an application master attempt; a history event only. */
module AMLaunched {
  import opened Wrappers
  import opened Primitives
  import opened Ids
  import opened HistoryRecords
  import opened Timeline
  import HistoryEventTypes
  import EventKinds

  /** The user is not part of the encoding. */
  datatype AMLaunchedProto = AMLaunchedProto(
    applicationAttemptId: string,
    appSubmitTime: i64,
    launchTime: i64)

  datatype AMLaunchedState = AMLaunchedState(
    applicationAttemptId: Option<ApplicationAttemptId>,
    launchTime: i64,
    appSubmitTime: i64,
    user: Option<string>)

  /** The fields of `new AMLaunchedEvent()`. */
  function DefaultState(): AMLaunchedState {
    AMLaunchedState(None, 0, 0, None)
  }

  const Kind := EventKinds.AMLaunched

  predicate Encodable(s: AMLaunchedState) {
    s.applicationAttemptId.Some?
  }

  /** `toProto`. */
  function ToProto(s: AMLaunchedState): AMLaunchedProto
    requires Encodable(s)
  {
    AMLaunchedProto(AppAttemptIdToString(s.applicationAttemptId.value), s.appSubmitTime, s.launchTime)
  }

  /** `fromProto` on an instance holding `s`: attempt id, launch time, submit time. */
  function ApplyProto(s: AMLaunchedState, p: AMLaunchedProto): (r: Step<AMLaunchedState>)
    ensures r.failure.None? <==> AppAttemptIdFromString(p.applicationAttemptId).Some?
    ensures r.failure.Some? ==> r.state == s
    ensures r.failure.None? ==>
      r.state == AMLaunchedState(AppAttemptIdFromString(p.applicationAttemptId), p.launchTime, p.appSubmitTime, s.user)
  {
    match AppAttemptIdFromString(p.applicationAttemptId)
    case None => Step(s, Some(MalformedId))
    case Some(a) => Step(s.(applicationAttemptId := Some(a), launchTime := p.launchTime, appSubmitTime := p.appSubmitTime), None)
  }

  /** Decoding the encoding restores attempt, launch and submit times; the user is lost. */
  lemma RoundTrip(s: AMLaunchedState)
    requires Encodable(s)
    ensures ApplyProto(DefaultState(), ToProto(s)) == Step(s.(user := None), None)
  {
    AppAttemptIdRoundTrip(s.applicationAttemptId.value);
  }

  /** A history event that the recovery log does not record. */
  lemma KindFlags()
    ensures EventKinds.EventType(Kind) == HistoryEventTypes.AM_LAUNCHED
    ensures !EventKinds.IsRecoveryEvent(Kind) && EventKinds.IsHistoryEvent(Kind) && !EventKinds.IsSummaryEvent(Kind)
  {
  }

  // ---- timeline projection ----

  predicate Projectable(s: AMLaunchedState) {
    Encodable(s)
  }

  /** The entity id: the attempt's string form behind a `tez_` prefix. */
  function EntityId(a: ApplicationAttemptId): string {
    "tez_" + AppAttemptIdToString(a)
  }

  /** `convertToTimelineEntity`. */
  function Convert(s: AMLaunchedState): TimelineEntity
    requires Projectable(s)
  {
    var a := s.applicationAttemptId.value;
    var e := NewEntity(EntityId(a), TEZ_APPLICATION_ATTEMPT);
    var e := AddRelatedEntity(e, APPLICATION_ID, StringValue(AppIdToString(a.applicationId)));
    var e := AddRelatedEntity(e, APPLICATION_ATTEMPT_ID, StringValue(AppAttemptIdToString(a)));
    var e := AddRelatedEntity(e, USER, Nullable(s.user));
    var e := AddPrimaryFilter(e, USER, Nullable(s.user));
    var e := SetStartTime(e, s.launchTime);
    var e := AddEvent(e, TimelineEvent(HistoryEventTypes.Name(HistoryEventTypes.AM_LAUNCHED), s.launchTime));
    AddOtherInfo(e, APP_SUBMIT_TIME, LongValue(s.appSubmitTime))
  }

  /**
   * The entity id is the `tez_`-prefixed attempt, which parses back; the
   * entity is related to its application, its attempt and its user (null
   * included), filtered by the user and starts at the launch time.
   */
  lemma ConvertEntity(s: AMLaunchedState)
    requires Projectable(s)
    ensures var r := Convert(s); var a := s.applicationAttemptId.value;
      && |r.entityId| > 4 && r.entityId[..4] == "tez_"
      && AppAttemptIdFromString(r.entityId[4..]) == Some(a)
      && r.entityType == TEZ_APPLICATION_ATTEMPT
      && r.startTime == Some(s.launchTime)
      && r.relatedEntities == map[APPLICATION_ID := {StringValue(AppIdToString(a.applicationId))},
                                  APPLICATION_ATTEMPT_ID := {StringValue(AppAttemptIdToString(a))},
                                  USER := {Nullable(s.user)}]
      && r.primaryFilters == map[USER := {Nullable(s.user)}]
  {
    var a := s.applicationAttemptId.value;
    AppAttemptIdRoundTrip(a);
    assert Convert(s).entityId[4..] == AppAttemptIdToString(a);
    ThreeSingletons(APPLICATION_ID, StringValue(AppIdToString(a.applicationId)),
                    APPLICATION_ATTEMPT_ID, StringValue(AppAttemptIdToString(a)),
                    USER, Nullable(s.user));
    OneSingleton(USER, Nullable(s.user));
  }

  /** One AM_LAUNCHED event at the launch time; the submit time in other-info. */
  lemma ConvertInfo(s: AMLaunchedState)
    requires Projectable(s)
    ensures var r := Convert(s);
      && r.events == [TimelineEvent("AM_LAUNCHED", s.launchTime)]
      && r.otherInfo == map[APP_SUBMIT_TIME := LongValue(s.appSubmitTime)]
  {
  }

  // ---- the event object ----

  class AMLaunchedEvent {
    var applicationAttemptId: Option<ApplicationAttemptId>
    var launchTime: i64
    var appSubmitTime: i64
    var user: Option<string>

    function Fields(): AMLaunchedState
      reads this
    {
      AMLaunchedState(applicationAttemptId, launchTime, appSubmitTime, user)
    }

    /** `new AMLaunchedEvent()`. */
    constructor Empty()
      ensures Fields() == DefaultState()
    {
      applicationAttemptId, launchTime, appSubmitTime, user := None, 0, 0, None;
    }

    /** The producer's constructor: every argument is stored. */
    constructor (appAttemptId: ApplicationAttemptId, launchTime: i64, appSubmitTime: i64, user: Option<string>)
      ensures Fields() == AMLaunchedState(Some(appAttemptId), launchTime, appSubmitTime, user)
    {
      this.applicationAttemptId := Some(appAttemptId);
      this.launchTime := launchTime;
      this.appSubmitTime := appSubmitTime;
      this.user := user;
    }

    /** `fromProto`. */
    method FromProto(proto: AMLaunchedProto) returns (failure: Option<Failure>)
      modifies this
      ensures Step(Fields(), failure) == ApplyProto(old(Fields()), proto)
    {
      var a := AppAttemptIdFromString(proto.applicationAttemptId);
      if a.None? {
        return Some(MalformedId);
      }
      applicationAttemptId := a;
      launchTime := proto.launchTime;
      appSubmitTime := proto.appSubmitTime;
      return None;
    }
  }
}
