/**
The data of lib/metrics-server: points, batches and the times in them.
A time is the number of nanoseconds since Go's zero time, so 0 is the zero time
and the Unix epoch is at EPOCH.
*/
module MetricsTypes {
  type Time = nat

  const SECOND: nat := 1_000_000_000
  const EPOCH: Time := 62_135_596_800 * SECOND

  const TWO_63: nat := 0x8000_0000_0000_0000
  const TWO_64: nat := 0x1_0000_0000_0000_0000

  /** The longest span a Go Duration can hold, about 292 years. */
  const MAX_DURATION: nat := 0x7fff_ffff_ffff_ffff

  /** Time.Sub, which saturates. */
  function Sub(a: Time, b: Time): nat
    requires b <= a
  {
    if a - b <= MAX_DURATION then a - b else MAX_DURATION
  }

  type uint64 = n: nat | n < TWO_64

  const INT64_MIN: int := -0x8000_0000_0000_0000

  type int64 = n: int | INT64_MIN <= n < TWO_63

  /** cpu is cumulative, in core nanoseconds since the start; memory is in bytes. */
  datatype MetricsPoint = MetricsPoint(startTime: Time, timestamp: Time, cpu: uint64, memory: uint64)

  /** The point a Go map lookup yields for a missing key. */
  const ZERO_POINT := MetricsPoint(0, 0, 0, 0)

  datatype PodRef = PodRef(namespace: string, name: string)

  type Containers = map<string, MetricsPoint>

  /** A Go map lookup: the zero point when the container is missing. */
  function PointOf(containers: Containers, name: string): MetricsPoint {
    if name in containers then containers[name] else ZERO_POINT
  }

  datatype Batch = Batch(nodes: map<string, MetricsPoint>, pods: map<PodRef, Containers>)
}
