/**
 * Values shared by the event kinds: the opaque metric blocks, the outcome of
 * decoding into an instance, and the summary record.
 */
module HistoryRecords {
  import opened Wrappers
  import opened Primitives

  /**
   * `TezCounters`: counter group -> counter name -> value.  Its conversion to
   * and from the counters proto is not modelled; a proto carries this value.
   */
  datatype TezCounters = TezCounters(groups: map<string, map<string, int>>)

  /** `VertexStats`, carried through unchanged. */
  datatype VertexStats = VertexStats(stats: map<string, int>)

  /** Why a `fromProto` stopped part-way (each is an exception in Java). */
  datatype Failure =
    | MalformedId          // a YARN ConverterUtils.to... rejected its string
    | OrdinalOutOfRange    // values()[ordinal] out of bounds
    | PayloadTooShort      // Ints.fromByteArray on fewer than four bytes

  /**
   * The instance after a decode: Java assigns fields one after the other, so a
   * decode that throws leaves the assignments made before the throw.
   */
  datatype Step<S> = Step(state: S, failure: Option<Failure>)

  /** `VertexFinishStateProto`, the payload of a vertex summary. */
  datatype VertexFinishStateProto = VertexFinishStateProto(state: i32, vertexId: string)

  /**
   * The payload bytes of a summary record.  A DAG summary carries four raw
   * bytes; a vertex summary carries a serialised `VertexFinishStateProto`,
   * kept here as the record itself because protobuf serialisation is not modelled.
   */
  datatype SummaryPayload =
    | RawBytes(bytes: seq<byte>)
    | VertexFinishState(finishState: VertexFinishStateProto)

  /** `SummaryEventProto`. */
  datatype SummaryEventProto = SummaryEventProto(dagId: string, timestamp: i64, eventType: i32, eventPayload: SummaryPayload)
}
