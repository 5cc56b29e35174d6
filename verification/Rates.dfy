/** resourceUsage and uint64Quantity of pkg/storage/types.go, in exact arithmetic. */
module Rates {
  import opened Options
  import opened MetricsTypes

  datatype Format = DecimalSI | BinarySI

  /** mantissa * 10^scale.  Undefined stands for a rate outside uint64, whose conversion Go leaves open. */
  datatype Quantity = Quantity(mantissa: nat, scale: int, format: Format) | Undefined

  datatype Usage = Usage(cpu: Quantity, memory: Quantity, timestamp: Time, window: nat)

  function Uint64Quantity(val: uint64, format: Format, scale: int): Quantity
  {
    if val < TWO_63 then Quantity(val, scale, format) else Quantity(val / 10, scale + 1, format)
  }

  /** CPU nanoseconds per second of the window, rounded down. */
  function CpuRate(delta: nat, window: nat): nat
    requires window > 0
  {
    delta * SECOND / window
  }

  /** None is the source's error: the cumulative CPU value went down. */
  function ResourceUsage(last: MetricsPoint, prev: MetricsPoint): Option<Usage>
    requires prev.timestamp < last.timestamp
  {
    if last.cpu < prev.cpu then None
    else
      var window := Sub(last.timestamp, prev.timestamp);
      var rate := CpuRate(last.cpu - prev.cpu, window);
      Some(Usage(
             if rate < TWO_64 then Uint64Quantity(rate, DecimalSI, -9) else Undefined,
             Uint64Quantity(last.memory, BinarySI, 0), last.timestamp, window))
  }

  /** What a quantity is worth in units of 10^scale. */
  function Worth(q: Quantity, scale: int): nat
    requires q.Quantity? && (q.scale == scale || q.scale == scale + 1)
  {
    if q.scale == scale then q.mantissa else q.mantissa * 10
  }

  /** The mantissa always fits int64; the value is exact up to 2^63-1 and at most 9 units low above it. */
  lemma QuantityIsClose(val: uint64, format: Format, scale: int)
    ensures var q := Uint64Quantity(val, format, scale);
      && q.Quantity? && q.format == format && q.mantissa < TWO_63
      && (q.scale == scale || q.scale == scale + 1)
      && Worth(q, scale) <= val <= Worth(q, scale) + 9
      && (val < TWO_63 <==> q.scale == scale)
      && (val < TWO_63 ==> Worth(q, scale) == val)
  {
  }

  /** The rate is exact to the unit: it is the only number u with u*w <= d*10^9 < (u+1)*w. */
  lemma RateIsExact(delta: nat, window: nat, u: nat)
    requires window > 0
    ensures u == CpuRate(delta, window) <==> u * window <= delta * SECOND < (u + 1) * window
  {
    var total := delta * SECOND;
    var q := CpuRate(delta, window);
    assert q * window + total % window == total;
    assert q * window <= total < q * window + window;
    assert (q + 1) * window == q * window + window;
    if u < q {
      ScaleKeepsOrder(u + 1, q, window);
    } else if u > q {
      ScaleKeepsOrder(q + 1, u, window);
    }
  }

  lemma ScaleKeepsOrder(a: nat, b: nat, w: nat)
    requires a <= b
    ensures a * w <= b * w
  {
  }

  /** Full use of some cores over a whole window is reported as exactly that many cores. */
  lemma RateOfFullCore(window: nat, cores: nat)
    requires window > 0
    ensures CpuRate(cores * window, window) == cores * SECOND
  {
    RateIsExact(cores * window, window, cores * SECOND);
    assert cores * SECOND * window == cores * window * SECOND;
    assert (cores * SECOND + 1) * window == cores * SECOND * window + window;
  }

  lemma SubIsDifference(a: Time, b: Time)
    requires b <= a
    ensures Sub(a, b) == if a - b < TWO_63 then a - b else TWO_63 - 1
  {
  }

  /** The error is exactly a CPU value that went down.  Otherwise the window is the difference of the
      timestamps as far as a Duration goes, the memory and the timestamp are the last point's, and when the
      exact rate u fits uint64, the CPU quantity is u; quantities above 2^63-1 lose at most 9 units. */
  lemma UsageIsExact(last: MetricsPoint, prev: MetricsPoint, u: nat)
    requires prev.timestamp < last.timestamp
    ensures ResourceUsage(last, prev).None? <==> last.cpu < prev.cpu
    ensures prev.cpu <= last.cpu ==>
              var usage := ResourceUsage(last, prev).value;
              && usage.timestamp == last.timestamp
              && usage.window == (if last.timestamp - prev.timestamp < 0x8000_0000_0000_0000
                                  then last.timestamp - prev.timestamp else 0x7fff_ffff_ffff_ffff)
              && usage.memory.Quantity? && usage.memory.format == BinarySI
              && (usage.memory.scale == 0 || usage.memory.scale == 1) && usage.memory.mantissa < 0x8000_0000_0000_0000
              && Worth(usage.memory, 0) <= last.memory <= Worth(usage.memory, 0) + 9
              && (last.memory < 0x8000_0000_0000_0000 ==> usage.memory.scale == 0 && usage.memory.mantissa == last.memory)
              && (u * usage.window <= (last.cpu - prev.cpu) * 1_000_000_000 < (u + 1) * usage.window && u < TWO_64 ==>
                    && usage.cpu.Quantity? && usage.cpu.format == DecimalSI
                    && (usage.cpu.scale == -9 || usage.cpu.scale == -8) && usage.cpu.mantissa < 0x8000_0000_0000_0000
                    && Worth(usage.cpu, -9) <= u <= Worth(usage.cpu, -9) + 9
                    && (u < 0x8000_0000_0000_0000 ==> usage.cpu.scale == -9 && usage.cpu.mantissa == u))
  {
    if prev.cpu <= last.cpu {
      SubIsDifference(last.timestamp, prev.timestamp);
      QuantityIsClose(last.memory, BinarySI, 0);
      RateIsExact(last.cpu - prev.cpu, Sub(last.timestamp, prev.timestamp), u);
      if u < TWO_64 {
        QuantityIsClose(u, DecimalSI, -9);
      }
    }
  }
}
