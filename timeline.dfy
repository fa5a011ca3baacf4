/**
 * The analytics-store entity an event projects into (`TimelineEntity`), with
 * the builder operations the projections call, the entity-type names and the
 * other-info / filter keys.
 */
module Timeline {
  import opened Wrappers
  import opened Primitives
  import opened HistoryRecords

  /** A value stored in a filter, a related-entity set or other-info; Java allows `null`. */
  datatype InfoValue =
    | NullValue
    | LongValue(long: i64)
    | StringValue(str: string)
    | CountersValue(counters: Option<TezCounters>)   // DAGUtils.convertCountersToATSMap, not modelled
    | StatsValue(stats: Option<VertexStats>)         // DAGUtils.convertVertexStatsToATSMap, not modelled

  /** A Java `String` that may be `null`. */
  function Nullable(s: Option<string>): (v: InfoValue)
    ensures v.NullValue? <==> s.None?
  {
    if s.Some? then StringValue(s.value) else NullValue
  }

  datatype TimelineEvent = TimelineEvent(eventType: string, timestamp: i64)

  datatype TimelineEntity = TimelineEntity(
    entityId: string,
    entityType: string,
    startTime: Option<i64>,
    relatedEntities: map<string, set<InfoValue>>,
    primaryFilters: map<string, set<InfoValue>>,
    events: seq<TimelineEvent>,
    otherInfo: map<string, InfoValue>)

  /** `new TimelineEntity()` followed by `setEntityId` and `setEntityType`. */
  function NewEntity(id: string, entityType: string): TimelineEntity {
    TimelineEntity(id, entityType, None, map[], map[], [], map[])
  }

  function SetStartTime(e: TimelineEntity, t: i64): TimelineEntity {
    e.(startTime := Some(t))
  }

  /** Adds `value` to the set under `key`. */
  function AddToSet(m: map<string, set<InfoValue>>, key: string, value: InfoValue): (r: map<string, set<InfoValue>>)
  {
    m[key := (if key in m then m[key] else {}) + {value}]
  }

  function AddRelatedEntity(e: TimelineEntity, entityType: string, id: InfoValue): TimelineEntity {
    e.(relatedEntities := AddToSet(e.relatedEntities, entityType, id))
  }

  function AddPrimaryFilter(e: TimelineEntity, key: string, value: InfoValue): TimelineEntity {
    e.(primaryFilters := AddToSet(e.primaryFilters, key, value))
  }

  function AddEvent(e: TimelineEntity, ev: TimelineEvent): TimelineEntity {
    e.(events := e.events + [ev])
  }

  /** `addOtherInfo` is a map `put`: a later value replaces an earlier one. */
  function AddOtherInfo(e: TimelineEntity, key: string, value: InfoValue): TimelineEntity {
    e.(otherInfo := e.otherInfo[key := value])
  }

  /** Filling an empty set-valued map under one key gives a singleton. */
  lemma OneSingleton(k: string, v: InfoValue)
    ensures AddToSet(map[], k, v) == map[k := {v}]
  {
    var none: set<InfoValue> := {};
    assert none + {v} == {v};
  }

  /** Filling an empty set-valued map under two distinct keys gives one singleton per key. */
  lemma TwoSingletons(k1: string, v1: InfoValue, k2: string, v2: InfoValue)
    requires k1 != k2
    ensures AddToSet(AddToSet(map[], k1, v1), k2, v2) == map[k1 := {v1}, k2 := {v2}]
  {
    OneSingleton(k1, v1);
    OneSingleton(k2, v2);
  }

  /** Filling an empty set-valued map under three distinct keys gives one singleton per key. */
  lemma ThreeSingletons(k1: string, v1: InfoValue, k2: string, v2: InfoValue, k3: string, v3: InfoValue)
    requires k1 != k2 && k1 != k3 && k2 != k3
    ensures AddToSet(AddToSet(AddToSet(map[], k1, v1), k2, v2), k3, v3) == map[k1 := {v1}, k2 := {v2}, k3 := {v3}]
  {
    TwoSingletons(k1, v1, k2, v2);
    OneSingleton(k3, v3);
  }

  // ---- EntityTypes names ----
  const TEZ_APPLICATION_ATTEMPT := "TEZ_APPLICATION_ATTEMPT"
  const TEZ_DAG_ID := "TEZ_DAG_ID"
  const TEZ_VERTEX_ID := "TEZ_VERTEX_ID"
  const TEZ_TASK_ID := "TEZ_TASK_ID"
  const TEZ_TASK_ATTEMPT_ID := "TEZ_TASK_ATTEMPT_ID"

  // ---- ATSConstants keys ----
  const APPLICATION_ID := "applicationId"
  const APPLICATION_ATTEMPT_ID := "applicationAttemptId"
  const USER := "user"
  const DAG_NAME := "dagName"
  const NODE_ID := "nodeId"
  const CONTAINER_ID := "containerId"
  const START_REQUESTED_TIME := "startRequestedTime"
  const START_TIME := "startTime"
  const FINISH_TIME := "endTime"
  const TIME_TAKEN := "timeTaken"
  const STATUS := "status"
  const DIAGNOSTICS := "diagnostics"
  const COUNTERS := "counters"
  const STATS := "stats"
  const APP_SUBMIT_TIME := "appSubmitTime"
  const IN_PROGRESS_LOGS_URL := "inProgressLogsURL"
  const COMPLETED_LOGS_URL := "completedLogsURL"
}
