/**
 * The eight event classes as a closed set of kinds, with the kind-level
 * answers each class gives: its event type, whether it goes to the recovery
 * log, whether it is a history event, whether it has a summary encoding and,
 * for those that do, whether it is written to recovery immediately.
 */
module EventKinds {
  import opened HistoryEventTypes

  datatype Kind =
    AMLaunched | DAGStarted | DAGFinished | VertexStarted | VertexFinished
    | TaskFinished | TaskAttemptStarted | TaskAttemptFinished

  /** `getEventType()`. */
  function EventType(k: Kind): HistoryEventType {
    match k
    case AMLaunched => AM_LAUNCHED
    case DAGStarted => DAG_STARTED
    case DAGFinished => DAG_FINISHED
    case VertexStarted => VERTEX_STARTED
    case VertexFinished => VERTEX_FINISHED
    case TaskFinished => TASK_FINISHED
    case TaskAttemptStarted => TASK_ATTEMPT_STARTED
    case TaskAttemptFinished => TASK_ATTEMPT_FINISHED
  }

  /** `isRecoveryEvent()`. */
  function IsRecoveryEvent(k: Kind): bool {
    match k
    case AMLaunched => false
    case DAGStarted => true
    case DAGFinished => true
    case VertexStarted => true
    case VertexFinished => true
    case TaskFinished => true
    case TaskAttemptStarted => true
    case TaskAttemptFinished => true
  }

  /** `isHistoryEvent()`: every class answers true. */
  function IsHistoryEvent(k: Kind): bool {
    true
  }

  /** The classes that implement `SummaryEvent`. */
  function IsSummaryEvent(k: Kind): bool {
    k == DAGFinished || k == VertexFinished
  }

  /** `SummaryEvent.writeToRecoveryImmediately()`, only defined on summary events. */
  function WriteToRecoveryImmediately(k: Kind): bool
    requires IsSummaryEvent(k)
  {
    match k
    case DAGFinished => true
    case VertexFinished => false
  }

  /** Distinct kinds have distinct event types, so a summary record's type ordinal names its kind. */
  lemma EventTypeInjective(k: Kind, l: Kind)
    requires Ordinal(EventType(k)) == Ordinal(EventType(l))
    ensures k == l
  {
  }

  /** Every summary-capable kind is a recovery kind; only the terminal DAG record forces an immediate write. */
  lemma SummaryKindsAreRecoveryKinds(k: Kind)
    ensures IsSummaryEvent(k) ==> IsRecoveryEvent(k)
    ensures IsSummaryEvent(k) ==> (WriteToRecoveryImmediately(k) <==> k == DAGFinished)
    ensures IsRecoveryEvent(k) <==> k != AMLaunched
  {
  }
}
