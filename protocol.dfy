/**
 * The protocol types the request uses but does not define: Java's fixed-width
 * integers, `TopicPartition`, the `Errors` code, and the shape of an
 * `OffsetFetchResponse` (its throttle time, top-level error and per-partition map).
 */
module Protocol {
  import opened Wrappers

  /** Java `short`: API versions and error codes. */
  newtype int16 = x: int | -0x8000 <= x < 0x8000
  /** Java `int`: partition indexes, throttle times, leader epochs. */
  newtype int32 = x: int | -0x8000_0000 <= x < 0x8000_0000
  /** Java `long`: offsets. */
  newtype int64 = x: int | -0x8000_0000_0000_0000 <= x < 0x8000_0000_0000_0000

  /** A partition of a named topic. */
  datatype TopicPartition = TopicPartition(topic: string, partition: int32)

  /** A protocol error; its code is threaded through unchanged. */
  datatype Error = Error(code: int16)

  /** The offset a response reports when there is none. */
  const INVALID_OFFSET: int64 := -1
  /** The metadata a response reports when there is none. */
  const NO_METADATA: string := ""
  /** The throttle time used when the caller gives none. */
  const DEFAULT_THROTTLE_TIME: int32 := 0

  /** One entry of the response's partition map. */
  datatype PartitionData = PartitionData(
    offset: int64,
    leaderEpoch: Option<int32>,
    metadata: string,
    error: Error)

  /**
   * An OffsetFetch response: the throttle time (absent for the constructor
   * without one), the top-level error, and the per-partition results.
   */
  datatype OffsetFetchResponse = OffsetFetchResponse(
    throttleTimeMs: Option<int32>,
    error: Error,
    responseData: map<TopicPartition, PartitionData>)
}
