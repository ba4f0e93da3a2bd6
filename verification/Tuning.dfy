/** The runtime KCP tuning and the backpressure watermarks derived from it (config.hpp). */
module Tuning {
  import opened Bytes

  const KCP_SEGMENT_OVERHEAD: int := 24
  const KCP_SNDWND_MIN: int := 256
  const KCP_SNDWND_MAX: int := 4096
  const KCP_RCVWND_MIN: int := 256
  const KCP_RCVWND_MAX: int := 4096
  const KCP_MTU_MIN: int := 576
  const KCP_MTU_MAX: int := 9000
  const KCP_BACKPRESSURE_BURST_MSGS: int := 4

  datatype KcpTuning = KcpTuning(sndwnd: int, rcvwnd: int, mtu: int)

  predicate Legal(t: KcpTuning)
  {
    && KCP_SNDWND_MIN <= t.sndwnd <= KCP_SNDWND_MAX
    && KCP_RCVWND_MIN <= t.rcvwnd <= KCP_RCVWND_MAX
    && KCP_MTU_MIN <= t.mtu <= KCP_MTU_MAX
  }

  function Mss(t: KcpTuning): (mss: int)
  {
    t.mtu - KCP_SEGMENT_OVERHEAD
  }

  /** Segments of a message of `len` bytes: ceil(len / mss). */
  function Segments(t: KcpTuning, len: nat): int
    requires Legal(t)
  {
    (len + Mss(t) - 1) / Mss(t)
  }

  function MaxSegments(t: KcpTuning): int
    requires Legal(t)
  {
    Segments(t, FWD_BUF_SIZE)
  }

  function Threshold(t: KcpTuning): int
    requires Legal(t)
  {
    t.sndwnd - MaxSegments(t) - 8
  }

  function Resume(t: KcpTuning): int
    requires Legal(t)
  {
    Threshold(t) - KCP_BACKPRESSURE_BURST_MSGS * MaxSegments(t)
  }

  lemma SegmentsBound(t: KcpTuning, len: nat)
    requires Legal(t) && len <= FWD_BUF_SIZE
    ensures 0 <= Segments(t, len) <= MaxSegments(t) <= 30
    ensures len > 0 ==> 1 <= Segments(t, len)
    ensures len <= Segments(t, len) * Mss(t)
  {
    var mss := Mss(t);
    CeilDiv(len, mss);
    CeilDiv(FWD_BUF_SIZE, mss);
    CeilMonotone(len, FWD_BUF_SIZE, mss);
    if MaxSegments(t) > 30 {
      MulAtLeast(MaxSegments(t) - 1, 30, mss, 552);
      assert false;
    }
  }

  lemma CeilDiv(len: nat, mss: int)
    requires mss > 0
    ensures var q := (len + mss - 1) / mss; if len == 0 then q == 0 else q >= 1 && (q - 1) * mss < len <= q * mss
  {
  }

  lemma CeilMonotone(a: nat, b: nat, mss: int)
    requires mss > 0 && a <= b
    ensures (a + mss - 1) / mss <= (b + mss - 1) / mss
  {
    var p, q := (a + mss - 1) / mss, (b + mss - 1) / mss;
    if p > q {
      MulAtLeast(p, q + 1, mss, mss);
      assert false;
    }
  }

  lemma MulAtLeast(a: int, b: int, x: int, y: int)
    requires a >= b >= 0 && x >= y >= 0
    ensures a * x >= b * y
  {
  }

  /** For every legal tuning the hysteresis band is positive and one more message always fits. */
  lemma WatermarksOrdered(t: KcpTuning)
    requires Legal(t)
    ensures 0 < Resume(t) < Threshold(t)
    ensures Threshold(t) + MaxSegments(t) == t.sndwnd - 8
  {
    SegmentsBound(t, FWD_BUF_SIZE);
  }

  function Clamp(v: int, lo: int, hi: int): int
  {
    if v < lo then lo else if v > hi then hi else v
  }

  /** The process-global tuning. */
  class TuningStore {
    var tuning: KcpTuning

    constructor ()
      ensures tuning == KcpTuning(1024, 1024, 1400) && Legal(tuning)
    {
      tuning := KcpTuning(1024, 1024, 1400);
    }

    /** Any integers at all leave the three watermark relations true, and legal values are kept as given. */
    method SetKcpTuning(sndwnd: int, rcvwnd: int, mtu: int)
      modifies this
      ensures Legal(tuning)
      ensures 0 < Resume(tuning) < Threshold(tuning)
      ensures Threshold(tuning) + MaxSegments(tuning) == tuning.sndwnd - 8
      ensures Legal(KcpTuning(sndwnd, rcvwnd, mtu)) ==> tuning == KcpTuning(sndwnd, rcvwnd, mtu)
      ensures tuning == KcpTuning(Clamp(sndwnd, KCP_SNDWND_MIN, KCP_SNDWND_MAX),
                                  Clamp(rcvwnd, KCP_RCVWND_MIN, KCP_RCVWND_MAX),
                                  Clamp(mtu, KCP_MTU_MIN, KCP_MTU_MAX))
    {
      tuning := tuning.(sndwnd := Clamp(sndwnd, KCP_SNDWND_MIN, KCP_SNDWND_MAX));
      tuning := tuning.(rcvwnd := Clamp(rcvwnd, KCP_RCVWND_MIN, KCP_RCVWND_MAX));
      tuning := tuning.(mtu := Clamp(mtu, KCP_MTU_MIN, KCP_MTU_MAX));
      WatermarksOrdered(tuning);
    }
  }
}
