/** The bottleneck buffer size: twice the bandwidth-delay product measured at
    the slower of the two command-line bandwidths, in bytes. Bandwidths are in
    bits per second, delays in nanoseconds (the resolution of ns-3's Time). */
module BufferSizing {

  const NsPerSecond: nat := 1_000_000_000
  const BitsPerByte: nat := 8

  /** std::min on two data rates: the first unless the second is smaller. */
  function MinRate(a: nat, b: nat): (m: nat)
    ensures m <= a && m <= b
    ensures m == a || m == b
  {
    if b < a then b else a
  }

  /** Bytes per second at the slower link; GetBitRate() / 8 divides integers. */
  function BytesPerSecond(accessBps: nat, bottleneckBps: nat): nat {
    MinRate(accessBps, bottleneckBps) / BitsPerByte
  }

  /** Twice the summed one-way delays, in nanoseconds. */
  function RoundTripNs(accessDelayNs: nat, bottleneckDelayNs: nat): nat {
    2 * (accessDelayNs + bottleneckDelayNs)
  }

  /** The queue size in bytes: the byte rate times the doubled delay in
      seconds, rounded down. */
  function BufferBytes(accessBps: nat, bottleneckBps: nat, accessDelayNs: nat, bottleneckDelayNs: nat): (size: nat)
    ensures size * NsPerSecond
            <= BytesPerSecond(accessBps, bottleneckBps) * RoundTripNs(accessDelayNs, bottleneckDelayNs)
            < (size + 1) * NsPerSecond
  {
    BytesPerSecond(accessBps, bottleneckBps) * RoundTripNs(accessDelayNs, bottleneckDelayNs) / NsPerSecond
  }

  /** Which link is called "access" and which "bottleneck" does not matter. */
  lemma BufferBytesSymmetric(accessBps: nat, bottleneckBps: nat, accessDelayNs: nat, bottleneckDelayNs: nat)
    ensures BufferBytes(accessBps, bottleneckBps, accessDelayNs, bottleneckDelayNs)
         == BufferBytes(bottleneckBps, accessBps, bottleneckDelayNs, accessDelayNs)
  {
  }

  /** The order of the two bandwidths does not matter: only the slower counts. */
  lemma BandwidthOrderIrrelevant(accessBps: nat, bottleneckBps: nat, accessDelayNs: nat, bottleneckDelayNs: nat)
    ensures BufferBytes(accessBps, bottleneckBps, accessDelayNs, bottleneckDelayNs)
         == BufferBytes(bottleneckBps, accessBps, accessDelayNs, bottleneckDelayNs)
  {
  }

  /** A slower link or a shorter delay never gives a larger buffer. */
  lemma {:induction false} BufferBytesMonotone(a1: nat, b1: nat, da1: nat, db1: nat, a2: nat, b2: nat, da2: nat, db2: nat)
    requires a1 <= a2 && b1 <= b2 && da1 <= da2 && db1 <= db2
    ensures BufferBytes(a1, b1, da1, db1) <= BufferBytes(a2, b2, da2, db2)
  {
    var r1, r2 := BytesPerSecond(a1, b1), BytesPerSecond(a2, b2);
    var t1, t2 := RoundTripNs(da1, db1), RoundTripNs(da2, db2);
    assert r1 <= r2 by { DivMonotone(MinRate(a1, b1), MinRate(a2, b2), BitsPerByte); }
    assert r1 * t1 <= r2 * t2 by { MulMonotone(r1, t1, r2, t2); }
    DivMonotone(r1 * t1, r2 * t2, NsPerSecond);
  }

  lemma {:induction false} DivMonotone(x: nat, y: nat, d: nat)
    requires x <= y && 0 < d
    ensures x / d <= y / d
  {
    var q, p := x / d, y / d;
    assert q * d <= x && y < (p + 1) * d;
    MulMonotoneWhen(p + 1, q, d);
  }

  lemma {:induction false} MulMonotoneWhen(a: nat, b: nat, d: nat)
    ensures a <= b ==> a * d <= b * d
  {
  }

  lemma {:induction false} MulMonotone(x1: nat, y1: nat, x2: nat, y2: nat)
    requires x1 <= x2 && y1 <= y2
    ensures x1 * y1 <= x2 * y2
  {
  }

  /** The default command line: 10Mbps/45ms access, 2Mbps/0.01ms bottleneck. */
  lemma DefaultBufferBytes()
    ensures BufferBytes(10_000_000, 2_000_000, 45_000_000, 10_000) == 22505
  {
  }

  /** 10Mbps/45ms access and 50Mbps/1ms bottleneck: the 10Mbps link decides. */
  lemma SlowAccessBufferBytes()
    ensures BufferBytes(10_000_000, 50_000_000, 45_000_000, 1_000_000) == 115000
  {
  }
}
