/**
 * The identifier model: YARN application, attempt, container and node ids, and
 * Tez's strictly nested DAG / vertex / task / task-attempt ids, each of which
 * embeds its parent.  Every id has a string form and a parser for it.  All but
 * the node id render as `<tag>_<n1>_<n2>...`, decimal and without
 * zero-padding; a node id renders as `host:port` and is split at its first
 * colon.
 *
 * A parser's `None` means two different things.  For the Tez ids it is the
 * `null` that `fromString` returns after catching the parse exception, and
 * the caller carries on.  For the YARN ids (`ConverterUtils.to...`) it means
 * the call throws.
 */
module Ids {
  import opened Wrappers
  import opened Decimal

  datatype ApplicationId = ApplicationId(clusterTimestamp: nat, id: nat)
  datatype ApplicationAttemptId = ApplicationAttemptId(applicationId: ApplicationId, attemptId: nat)
  datatype ContainerId = ContainerId(applicationAttemptId: ApplicationAttemptId, id: nat)
  datatype NodeId = NodeId(host: string, port: nat)

  datatype TezDAGID = TezDAGID(applicationId: ApplicationId, id: nat)
  /** `getDAGId()` is the field `dagId`. */
  datatype TezVertexID = TezVertexID(dagId: TezDAGID, id: nat)
  /** `getVertexID()` is the field `vertexId`. */
  datatype TezTaskID = TezTaskID(vertexId: TezVertexID, id: nat)
  /** `getTaskID()` is the field `taskId`. */
  datatype TezTaskAttemptID = TezTaskAttemptID(taskId: TezTaskID, id: nat)

  // ---- number lists behind each string form ----

  function AppNumbers(a: ApplicationId): seq<nat> {
    [a.clusterTimestamp, a.id]
  }

  function DagNumbers(d: TezDAGID): seq<nat> {
    AppNumbers(d.applicationId) + [d.id]
  }

  function VertexNumbers(v: TezVertexID): seq<nat> {
    DagNumbers(v.dagId) + [v.id]
  }

  function TaskNumbers(t: TezTaskID): seq<nat> {
    VertexNumbers(t.vertexId) + [t.id]
  }

  function AttemptNumbers(a: TezTaskAttemptID): seq<nat> {
    TaskNumbers(a.taskId) + [a.id]
  }

  function AppAttemptNumbers(a: ApplicationAttemptId): seq<nat> {
    AppNumbers(a.applicationId) + [a.attemptId]
  }

  function ContainerNumbers(c: ContainerId): seq<nat> {
    AppAttemptNumbers(c.applicationAttemptId) + [c.id]
  }

  // ---- string forms (`toString`) ----

  function AppIdToString(a: ApplicationId): string {
    Tagged("application", AppNumbers(a))
  }

  function AppAttemptIdToString(a: ApplicationAttemptId): string {
    Tagged("appattempt", AppAttemptNumbers(a))
  }

  function ContainerIdToString(c: ContainerId): string {
    Tagged("container", ContainerNumbers(c))
  }

  function DagIdToString(d: TezDAGID): string {
    Tagged("dag", DagNumbers(d))
  }

  function VertexIdToString(v: TezVertexID): string {
    Tagged("vertex", VertexNumbers(v))
  }

  function TaskIdToString(t: TezTaskID): string {
    Tagged("task", TaskNumbers(t))
  }

  function AttemptIdToString(a: TezTaskAttemptID): string {
    Tagged("attempt", AttemptNumbers(a))
  }

  function NodeIdToString(n: NodeId): string {
    n.host + ":" + NatToString(n.port)
  }

  // ---- parsers (`fromString`, `ConverterUtils.to...`) ----

  function AppIdFromString(s: string): (r: Option<ApplicationId>) {
    match ParseTagged("application", 2, s)
    case None => None
    case Some(ns) => Some(ApplicationId(ns[0], ns[1]))
  }

  function AppAttemptIdFromString(s: string): (r: Option<ApplicationAttemptId>) {
    match ParseTagged("appattempt", 3, s)
    case None => None
    case Some(ns) => Some(ApplicationAttemptId(ApplicationId(ns[0], ns[1]), ns[2]))
  }

  function ContainerIdFromString(s: string): (r: Option<ContainerId>) {
    match ParseTagged("container", 4, s)
    case None => None
    case Some(ns) => Some(ContainerId(ApplicationAttemptId(ApplicationId(ns[0], ns[1]), ns[2]), ns[3]))
  }

  function DagIdFromString(s: string): (r: Option<TezDAGID>) {
    match ParseTagged("dag", 3, s)
    case None => None
    case Some(ns) => Some(TezDAGID(ApplicationId(ns[0], ns[1]), ns[2]))
  }

  function VertexIdFromString(s: string): (r: Option<TezVertexID>) {
    match ParseTagged("vertex", 4, s)
    case None => None
    case Some(ns) => Some(TezVertexID(TezDAGID(ApplicationId(ns[0], ns[1]), ns[2]), ns[3]))
  }

  function TaskIdFromString(s: string): (r: Option<TezTaskID>) {
    match ParseTagged("task", 5, s)
    case None => None
    case Some(ns) =>
      Some(TezTaskID(TezVertexID(TezDAGID(ApplicationId(ns[0], ns[1]), ns[2]), ns[3]), ns[4]))
  }

  function AttemptIdFromString(s: string): (r: Option<TezTaskAttemptID>) {
    match ParseTagged("attempt", 6, s)
    case None => None
    case Some(ns) =>
      Some(TezTaskAttemptID(TezTaskID(TezVertexID(TezDAGID(ApplicationId(ns[0], ns[1]), ns[2]), ns[3]), ns[4]), ns[5]))
  }

  /** Position of the first `c` in `s`, or `|s|` when there is none. */
  function IndexOf(s: string, c: char): (k: nat)
    ensures k <= |s| && (k < |s| ==> s[k] == c)
    ensures forall i :: 0 <= i < k ==> s[i] != c
  {
    if s == [] || s[0] == c then 0 else 1 + IndexOf(s[1..], c)
  }

  /** `host:port`: the host is everything before the first colon, the port a non-empty digit string. */
  function NodeIdFromString(s: string): (r: Option<NodeId>) {
    var k := IndexOf(s, ':');
    if k == |s| then None
    else
      var port := s[k + 1..];
      if port == [] || !AllDigits(port) then None
      else Some(NodeId(s[..k], StringToNat(port)))
  }

  /** A node id whose string form can be split back at its colon. */
  predicate ValidNodeId(n: NodeId) {
    ':' !in n.host
  }

  /** The empty string is no Tez id: each Tez parser returns `null` for it. */
  lemma EmptyStringIsNoTezId()
    ensures DagIdFromString("") == None && VertexIdFromString("") == None
    ensures TaskIdFromString("") == None && AttemptIdFromString("") == None
  {
  }

  // ---- round trips: every parser inverts its string form ----

  lemma AppIdRoundTrip(a: ApplicationId)
    ensures AppIdFromString(AppIdToString(a)) == Some(a)
  {
    ParseTaggedOfTagged("application", AppNumbers(a));
  }

  lemma AppAttemptIdRoundTrip(a: ApplicationAttemptId)
    ensures AppAttemptIdFromString(AppAttemptIdToString(a)) == Some(a)
  {
    ParseTaggedOfTagged("appattempt", AppAttemptNumbers(a));
  }

  lemma ContainerIdRoundTrip(c: ContainerId)
    ensures ContainerIdFromString(ContainerIdToString(c)) == Some(c)
  {
    ParseTaggedOfTagged("container", ContainerNumbers(c));
  }

  lemma DagIdRoundTrip(d: TezDAGID)
    ensures DagIdFromString(DagIdToString(d)) == Some(d)
  {
    ParseTaggedOfTagged("dag", DagNumbers(d));
  }

  lemma VertexIdRoundTrip(v: TezVertexID)
    ensures VertexIdFromString(VertexIdToString(v)) == Some(v)
  {
    ParseTaggedOfTagged("vertex", VertexNumbers(v));
  }

  lemma TaskIdRoundTrip(t: TezTaskID)
    ensures TaskIdFromString(TaskIdToString(t)) == Some(t)
  {
    ParseTaggedOfTagged("task", TaskNumbers(t));
  }

  lemma AttemptIdRoundTrip(a: TezTaskAttemptID)
    ensures AttemptIdFromString(AttemptIdToString(a)) == Some(a)
  {
    ParseTaggedOfTagged("attempt", AttemptNumbers(a));
  }

  lemma NodeIdRoundTrip(n: NodeId)
    requires ValidNodeId(n)
    ensures NodeIdFromString(NodeIdToString(n)) == Some(n)
  {
    var s := NodeIdToString(n);
    var k := IndexOf(s, ':');
    assert s[|n.host|] == ':';
    assert forall i :: 0 <= i < |n.host| ==> s[i] == n.host[i];
    assert k == |n.host|;
    assert s[k + 1..] == NatToString(n.port);
    assert s[..k] == n.host;
    StringToNatOfNatToString(n.port);
  }

  /** Distinct vertices have distinct string forms (the same holds for every id kind). */
  lemma VertexIdToStringInjective(v: TezVertexID, w: TezVertexID)
    requires VertexIdToString(v) == VertexIdToString(w)
    ensures v == w
  {
    VertexIdRoundTrip(v);
    VertexIdRoundTrip(w);
  }
}
