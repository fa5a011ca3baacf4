/**
 * The closed enumerations whose ordinals the recovery protos carry.  Java's
 * `values()[ordinal]` is partial: an ordinal outside the range throws
 * ArrayIndexOutOfBoundsException, which `FromOrdinal` reports as `None`.
 */
module VertexStates {
  import opened Wrappers

  datatype VertexState =
    NEW | INITIALIZING | INITED | RUNNING | SUCCEEDED | FAILED | KILLED | ERROR | TERMINATING | RECOVERING

  const Values: seq<VertexState> :=
    [NEW, INITIALIZING, INITED, RUNNING, SUCCEEDED, FAILED, KILLED, ERROR, TERMINATING, RECOVERING]

  function Ordinal(s: VertexState): (o: nat)
    ensures o < |Values| && Values[o] == s
  {
    match s
    case NEW => 0 case INITIALIZING => 1 case INITED => 2 case RUNNING => 3 case SUCCEEDED => 4
    case FAILED => 5 case KILLED => 6 case ERROR => 7 case TERMINATING => 8 case RECOVERING => 9
  }

  function FromOrdinal(o: int): (r: Option<VertexState>)
    ensures r.Some? <==> 0 <= o < |Values|
    ensures r.Some? ==> Ordinal(r.value) == o
  {
    if 0 <= o < |Values| then
      assert o == 0 || o == 1 || o == 2 || o == 3 || o == 4 || o == 5 || o == 6 || o == 7 || o == 8 || o == 9;
      Some(Values[o])
    else None
  }

  /** `name()`. */
  function Name(s: VertexState): string {
    match s
    case NEW => "NEW" case INITIALIZING => "INITIALIZING" case INITED => "INITED"
    case RUNNING => "RUNNING" case SUCCEEDED => "SUCCEEDED" case FAILED => "FAILED"
    case KILLED => "KILLED" case ERROR => "ERROR" case TERMINATING => "TERMINATING"
    case RECOVERING => "RECOVERING"
  }
}

module DAGStates {
  import opened Wrappers

  datatype DAGState = NEW | INITED | RUNNING | SUCCEEDED | FAILED | KILLED | ERROR | TERMINATING

  const Values: seq<DAGState> := [NEW, INITED, RUNNING, SUCCEEDED, FAILED, KILLED, ERROR, TERMINATING]

  function Ordinal(s: DAGState): (o: nat)
    ensures o < |Values| && Values[o] == s
  {
    match s
    case NEW => 0 case INITED => 1 case RUNNING => 2 case SUCCEEDED => 3
    case FAILED => 4 case KILLED => 5 case ERROR => 6 case TERMINATING => 7
  }

  function FromOrdinal(o: int): (r: Option<DAGState>)
    ensures r.Some? <==> 0 <= o < |Values|
    ensures r.Some? ==> Ordinal(r.value) == o
  {
    if 0 <= o < |Values| then
      assert o == 0 || o == 1 || o == 2 || o == 3 || o == 4 || o == 5 || o == 6 || o == 7;
      Some(Values[o])
    else None
  }

  function Name(s: DAGState): string {
    match s
    case NEW => "NEW" case INITED => "INITED" case RUNNING => "RUNNING" case SUCCEEDED => "SUCCEEDED"
    case FAILED => "FAILED" case KILLED => "KILLED" case ERROR => "ERROR" case TERMINATING => "TERMINATING"
  }
}

module TaskStates {
  import opened Wrappers

  datatype TaskState = NEW | SCHEDULED | RUNNING | SUCCEEDED | FAILED | KILLED

  const Values: seq<TaskState> := [NEW, SCHEDULED, RUNNING, SUCCEEDED, FAILED, KILLED]

  function Ordinal(s: TaskState): (o: nat)
    ensures o < |Values| && Values[o] == s
  {
    match s
    case NEW => 0 case SCHEDULED => 1 case RUNNING => 2 case SUCCEEDED => 3 case FAILED => 4 case KILLED => 5
  }

  function FromOrdinal(o: int): (r: Option<TaskState>)
    ensures r.Some? <==> 0 <= o < |Values|
    ensures r.Some? ==> Ordinal(r.value) == o
  {
    if 0 <= o < |Values| then
      assert o == 0 || o == 1 || o == 2 || o == 3 || o == 4 || o == 5;
      Some(Values[o])
    else None
  }

  function Name(s: TaskState): string {
    match s
    case NEW => "NEW" case SCHEDULED => "SCHEDULED" case RUNNING => "RUNNING"
    case SUCCEEDED => "SUCCEEDED" case FAILED => "FAILED" case KILLED => "KILLED"
  }
}

module TaskAttemptStates {
  import opened Wrappers

  datatype TaskAttemptState = NEW | STARTING | RUNNING | COMMIT_PENDING | SUCCEEDED | FAILED | KILLED

  const Values: seq<TaskAttemptState> := [NEW, STARTING, RUNNING, COMMIT_PENDING, SUCCEEDED, FAILED, KILLED]

  function Ordinal(s: TaskAttemptState): (o: nat)
    ensures o < |Values| && Values[o] == s
  {
    match s
    case NEW => 0 case STARTING => 1 case RUNNING => 2 case COMMIT_PENDING => 3
    case SUCCEEDED => 4 case FAILED => 5 case KILLED => 6
  }

  function FromOrdinal(o: int): (r: Option<TaskAttemptState>)
    ensures r.Some? <==> 0 <= o < |Values|
    ensures r.Some? ==> Ordinal(r.value) == o
  {
    if 0 <= o < |Values| then
      assert o == 0 || o == 1 || o == 2 || o == 3 || o == 4 || o == 5 || o == 6;
      Some(Values[o])
    else None
  }

  function Name(s: TaskAttemptState): string {
    match s
    case NEW => "NEW" case STARTING => "STARTING" case RUNNING => "RUNNING"
    case COMMIT_PENDING => "COMMIT_PENDING" case SUCCEEDED => "SUCCEEDED" case FAILED => "FAILED"
    case KILLED => "KILLED"
  }
}

/** The event-type tags: their `name()` labels timeline events, their ordinal tags summary records. */
module HistoryEventTypes {
  datatype HistoryEventType =
    | AM_LAUNCHED | AM_STARTED | DAG_SUBMITTED | DAG_INITIALIZED | DAG_STARTED | DAG_FINISHED
    | VERTEX_INITIALIZED | VERTEX_STARTED | VERTEX_PARALLELISM_UPDATED | VERTEX_FINISHED
    | TASK_STARTED | TASK_FINISHED | TASK_ATTEMPT_STARTED | TASK_ATTEMPT_FINISHED
    | CONTAINER_LAUNCHED | CONTAINER_STOPPED | DAG_COMMIT_STARTED | VERTEX_COMMIT_STARTED
    | VERTEX_GROUP_COMMIT_STARTED | VERTEX_GROUP_COMMIT_FINISHED | VERTEX_DATA_MOVEMENT_EVENTS_GENERATED

  function Ordinal(t: HistoryEventType): (o: nat)
    ensures o < 21
  {
    match t
    case AM_LAUNCHED => 0 case AM_STARTED => 1 case DAG_SUBMITTED => 2 case DAG_INITIALIZED => 3
    case DAG_STARTED => 4 case DAG_FINISHED => 5 case VERTEX_INITIALIZED => 6 case VERTEX_STARTED => 7
    case VERTEX_PARALLELISM_UPDATED => 8 case VERTEX_FINISHED => 9 case TASK_STARTED => 10
    case TASK_FINISHED => 11 case TASK_ATTEMPT_STARTED => 12 case TASK_ATTEMPT_FINISHED => 13
    case CONTAINER_LAUNCHED => 14 case CONTAINER_STOPPED => 15 case DAG_COMMIT_STARTED => 16
    case VERTEX_COMMIT_STARTED => 17 case VERTEX_GROUP_COMMIT_STARTED => 18
    case VERTEX_GROUP_COMMIT_FINISHED => 19 case VERTEX_DATA_MOVEMENT_EVENTS_GENERATED => 20
  }

  function Name(t: HistoryEventType): string {
    match t
    case AM_LAUNCHED => "AM_LAUNCHED" case AM_STARTED => "AM_STARTED"
    case DAG_SUBMITTED => "DAG_SUBMITTED" case DAG_INITIALIZED => "DAG_INITIALIZED"
    case DAG_STARTED => "DAG_STARTED" case DAG_FINISHED => "DAG_FINISHED"
    case VERTEX_INITIALIZED => "VERTEX_INITIALIZED" case VERTEX_STARTED => "VERTEX_STARTED"
    case VERTEX_PARALLELISM_UPDATED => "VERTEX_PARALLELISM_UPDATED" case VERTEX_FINISHED => "VERTEX_FINISHED"
    case TASK_STARTED => "TASK_STARTED" case TASK_FINISHED => "TASK_FINISHED"
    case TASK_ATTEMPT_STARTED => "TASK_ATTEMPT_STARTED" case TASK_ATTEMPT_FINISHED => "TASK_ATTEMPT_FINISHED"
    case CONTAINER_LAUNCHED => "CONTAINER_LAUNCHED" case CONTAINER_STOPPED => "CONTAINER_STOPPED"
    case DAG_COMMIT_STARTED => "DAG_COMMIT_STARTED" case VERTEX_COMMIT_STARTED => "VERTEX_COMMIT_STARTED"
    case VERTEX_GROUP_COMMIT_STARTED => "VERTEX_GROUP_COMMIT_STARTED"
    case VERTEX_GROUP_COMMIT_FINISHED => "VERTEX_GROUP_COMMIT_FINISHED"
    case VERTEX_DATA_MOVEMENT_EVENTS_GENERATED => "VERTEX_DATA_MOVEMENT_EVENTS_GENERATED"
  }
}
