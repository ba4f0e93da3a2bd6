/**
 * The hysteresis machine shared by the adaptive FEC parity and the adaptive RTO
 * floor (clean_path.hpp). `Step` is the specification of one sample; the class
 * below carries the source's fields. The double comparison of the segment rate
 * is an exact comparison over reals.
 */
module CleanPath {
  import opened Bytes

  datatype CleanTuning = CleanTuning(cleanSec: int, holdSec: int, minSegRate: real)

  /** Cumulative counters and the microsecond clock. */
  datatype Sample = Sample(outSegs: nat, fastRetrans: nat, now: int)

  datatype Transition = NoChange | ToClean | ToLossy

  datatype Tracker = Tracker(
    initialized: bool, clean: bool, lastOut: nat, lastFast: nat, lastSample: int, cleanUs: int, holdUntil: int)

  const INITIAL: Tracker := Tracker(false, false, 0, 0, 0, 0, 0)

  /** What a sample tells a tracker. */
  datatype Evidence = Unusable | Loss | Held | Quiet | Traffic

  function Us(sec: int): int { sec * 1000000 }

  predicate Unsound(t: Tracker, s: Sample)
  {
    !t.initialized || s.outSegs < t.lastOut || s.fastRetrans < t.lastFast || s.now <= t.lastSample
  }

  function Judge(tuning: CleanTuning, t: Tracker, s: Sample): Evidence
  {
    if Unsound(t, s) then Unusable
    else Sort(tuning, t, s.now, s.now - t.lastSample, s.outSegs - t.lastOut, s.fastRetrans - t.lastFast)
  }

  /** The evidence in the differences to the previous sample. */
  function Sort(tuning: CleanTuning, t: Tracker, now: int, dt: int, dOut: nat, dFast: nat): Evidence
  {
    if dFast > 0 then Loss
    else if now < t.holdUntil then Held
    else if dOut as real * 1000000.0 < tuning.minSegRate * dt as real then Quiet
    else Traffic
  }

  function Rebase(t: Tracker, s: Sample): Tracker
  {
    t.(initialized := true, lastOut := s.outSegs, lastFast := s.fastRetrans, lastSample := s.now)
  }

  function Step(tuning: CleanTuning, t: Tracker, s: Sample): Tracker
  {
    Weighed(tuning, Rebase(t, s), Judge(tuning, t, s), s.now, s.now - t.lastSample)
  }

  function Weighed(tuning: CleanTuning, b: Tracker, e: Evidence, now: int, dt: int): Tracker
  {
    match e
    case Unusable => b
    case Loss => b.(clean := false, cleanUs := 0, holdUntil := now + Us(tuning.holdSec))
    case Held => b.(cleanUs := 0)
    case Quiet => b
    case Traffic =>
      var total := b.cleanUs + dt;
      if !b.clean && total >= Us(tuning.cleanSec) then b.(clean := true, cleanUs := 0) else b.(cleanUs := total)
  }

  function Change(before: Tracker, after: Tracker): Transition
  {
    if before.clean == after.clean then NoChange else if after.clean then ToClean else ToLossy
  }

  function After(tuning: CleanTuning, samples: seq<Sample>): Tracker
  {
    if samples == [] then INITIAL
    else Step(tuning, After(tuning, samples[..|samples| - 1]), samples[|samples| - 1])
  }

  class CleanPathTracker {
    const tuning: CleanTuning
    var initialized: bool
    var clean: bool
    var lastOut: nat
    var lastFast: nat
    var lastSample: int
    var cleanUs: int
    var holdUntil: int
    /** Every sample so far. */
    ghost var history: seq<Sample>

    ghost function View(): Tracker
      reads this
    {
      Tracker(initialized, clean, lastOut, lastFast, lastSample, cleanUs, holdUntil)
    }

    ghost predicate Valid()
      reads this
    {
      View() == After(tuning, history)
    }

    constructor (tuning: CleanTuning)
      ensures Valid() && this.tuning == tuning && history == [] && !clean
    {
      this.tuning := tuning;
      initialized, clean, lastOut, lastFast, lastSample, cleanUs, holdUntil := false, false, 0, 0, 0, 0, 0;
      history := [];
    }

    method OnSample(s: Sample) returns (tr: Transition)
      requires Valid()
      modifies this
      ensures Valid() && history == old(history) + [s]
      ensures tr == Change(old(View()), View())
    {
      history := history + [s];
      assert history[..|history| - 1] == old(history);
      var first := !initialized;
      var rebased := !first && (s.outSegs < lastOut || s.fastRetrans < lastFast);
      var dOut := if first || rebased then 0 else s.outSegs - lastOut;
      var dFast := if first || rebased then 0 else s.fastRetrans - lastFast;
      var dt := s.now - lastSample;
      lastOut, lastFast, lastSample, initialized := s.outSegs, s.fastRetrans, s.now, true;
      if first || rebased || dt <= 0 {
        return NoChange;
      }
      tr := Weigh(s.now, dt, dOut, dFast);
    }

    /** The part of on_sample that runs on a usable pair of samples. */
    method Weigh(now: int, dt: int, dOut: nat, dFast: nat) returns (tr: Transition)
      requires dt > 0
      modifies `clean, `cleanUs, `holdUntil
      ensures View() == Weighed(tuning, old(View()), Sort(tuning, old(View()), now, dt, dOut, dFast), now, dt)
      ensures tr == Change(old(View()), View())
    {
      if dFast > 0 {
        cleanUs := 0;
        holdUntil := now + tuning.holdSec * 1000000;
        if clean {
          clean := false;
          return ToLossy;
        }
        return NoChange;
      }
      if now < holdUntil {
        cleanUs := 0;
        return NoChange;
      }
      if dOut as real * 1000000.0 < tuning.minSegRate * dt as real {
        return NoChange;
      }
      cleanUs := cleanUs + dt;
      if !clean && cleanUs >= tuning.cleanSec * 1000000 {
        cleanUs, clean := 0, true;
        return ToClean;
      }
      return NoChange;
    }
  }

  // ---- monotone in the tuning ----

  predicate NoLarger(a: CleanTuning, b: CleanTuning)
  {
    a.cleanSec <= b.cleanSec && a.holdSec <= b.holdSec && a.minSegRate <= b.minSegRate
  }

  predicate Ahead(x: Tracker, y: Tracker)
  {
    && x.initialized == y.initialized && x.lastOut == y.lastOut
    && x.lastFast == y.lastFast && x.lastSample == y.lastSample
    && x.holdUntil <= y.holdUntil
    && x.cleanUs >= 0 && y.cleanUs >= 0
    && (y.clean ==> x.clean)
    && (!x.clean ==> x.cleanUs >= y.cleanUs)
  }

  lemma StepStaysAhead(a: CleanTuning, b: CleanTuning, x: Tracker, y: Tracker, s: Sample)
    requires NoLarger(a, b) && Ahead(x, y)
    ensures Ahead(Step(a, x, s), Step(b, y, s))
  {
    if s.now >= x.lastSample {
      RateMonotone(a.minSegRate, b.minSegRate, (s.now - x.lastSample) as real);
    }
  }

  lemma RateMonotone(a: real, b: real, dt: real)
    requires a <= b && dt >= 0.0
    ensures a * dt <= b * dt
  {
    assert (b - a) * dt >= 0.0;
  }

  /** On the same samples, the tracker with the easier tuning is clean whenever the other is. */
  lemma {:induction false} MonotoneInTuning(a: CleanTuning, b: CleanTuning, samples: seq<Sample>)
    requires NoLarger(a, b)
    ensures Ahead(After(a, samples), After(b, samples))
    ensures After(b, samples).clean ==> After(a, samples).clean
  {
    if samples != [] {
      var n := |samples| - 1;
      MonotoneInTuning(a, b, samples[..n]);
      StepStaysAhead(a, b, After(a, samples[..n]), After(b, samples[..n]), samples[n]);
    }
  }

  // ---- how late the cheap state is entered ----

  predicate Chronological(samples: seq<Sample>)
  {
    forall i, j :: 0 <= i < j < |samples| ==> samples[i].now <= samples[j].now
  }

  predicate GapsAtMost(samples: seq<Sample>, p: int)
  {
    forall i :: 0 < i < |samples| ==> samples[i].now - samples[i - 1].now <= p
  }

  /** The sample reports a fast retransmit, and is later than the sample before it. */
  predicate LossAt(samples: seq<Sample>, i: int)
  {
    && 0 < i < |samples|
    && samples[i].fastRetrans > samples[i - 1].fastRetrans
    && samples[i].outSegs >= samples[i - 1].outSegs
    && samples[i].now > samples[i - 1].now
  }

  function LastLoss(samples: seq<Sample>): (i: int)
    ensures i == -1 || LossAt(samples, i)
    ensures forall k :: LossAt(samples, k) ==> k <= i
  {
    if samples == [] then -1
    else if LossAt(samples, |samples| - 1) then |samples| - 1
    else
      var i := LastLoss(samples[..|samples| - 1]);
      assert i != -1 ==> LossAt(samples, i);
      assert forall k :: LossAt(samples, k) ==> LossAt(samples[..|samples| - 1], k);
      i
  }

  /**
   * Clean time only ever accumulates after the hold of the last loss, seen at
   * `lossAt`, has run out; `first` is the time of the first sample.
   */
  predicate Paced(tuning: CleanTuning, t: Tracker, first: int, lossAt: Option<int>, p: int)
  {
    && t.cleanUs >= 0
    && t.holdUntil == (if lossAt.None? then 0 else lossAt.value + Us(tuning.holdSec))
    && (t.cleanUs == 0 || t.cleanUs <= t.lastSample - Base(tuning, first, lossAt, p))
  }

  function Base(tuning: CleanTuning, first: int, lossAt: Option<int>, p: int): int
  {
    if lossAt.None? then first
    else
      var late := lossAt.value + Us(tuning.holdSec) - p;
      if lossAt.value >= late then lossAt.value else late
  }

  function LossTime(samples: seq<Sample>): Option<int>
  {
    var l := LastLoss(samples);
    if l == -1 then None else Some(samples[l].now)
  }

  lemma PacedStep(tuning: CleanTuning, t: Tracker, s: Sample, first: int, lossAt: Option<int>, p: int)
    requires t.initialized && Paced(tuning, t, first, lossAt, p) && first <= t.lastSample <= s.now <= t.lastSample + p
    requires lossAt.Some? ==> lossAt.value <= t.lastSample
    ensures Paced(tuning, Step(tuning, t, s), first, if Judge(tuning, t, s) == Loss then Some(s.now) else lossAt, p)
  {
  }

  /** The tracker remembers the last sample. */
  predicate Recalls(t: Tracker, s: Sample)
  {
    t.initialized && t.lastSample == s.now && t.lastOut == s.outSegs && t.lastFast == s.fastRetrans
  }

  lemma LossTimeStep(tuning: CleanTuning, t: Tracker, samples: seq<Sample>)
    requires |samples| > 1 && Recalls(t, samples[|samples| - 2])
    ensures var n := |samples| - 1;
            LossTime(samples)
            == if Judge(tuning, t, samples[n]) == Loss then Some(samples[n].now) else LossTime(samples[..n])
  {
    var n := |samples| - 1;
    assert LossAt(samples, n) <==> Judge(tuning, t, samples[n]) == Loss;
  }

  lemma LossIsPast(samples: seq<Sample>)
    requires samples != [] && Chronological(samples)
    ensures samples[0].now <= samples[|samples| - 1].now
    ensures LossTime(samples).Some? ==> LossTime(samples).value <= samples[|samples| - 1].now
  {
  }

  lemma {:induction false} RunIsPaced(tuning: CleanTuning, samples: seq<Sample>, p: int)
    requires samples != [] && Chronological(samples) && GapsAtMost(samples, p)
    ensures Recalls(After(tuning, samples), samples[|samples| - 1])
    ensures Paced(tuning, After(tuning, samples), samples[0].now, LossTime(samples), p)
  {
    var n := |samples| - 1;
    var front := samples[..n];
    if n == 0 {
      assert After(tuning, front) == INITIAL;
    } else {
      RunIsPaced(tuning, front, p);
      LossIsPast(front);
      assert front[n - 1] == samples[n - 1] && front[0] == samples[0];
      LossTimeStep(tuning, After(tuning, front), samples);
      PacedStep(tuning, After(tuning, front), samples[n], samples[0].now, LossTime(front), p);
    }
  }

  /**
   * Entering the cheap state comes at least max(hold, clean) and at least
   * hold + clean - p after every sample that reported a loss, where p bounds
   * the gap between samples; with no loss at all, at least `clean` after the start.
   */
  lemma CheapStateIsLate(tuning: CleanTuning, samples: seq<Sample>, p: int, l: int)
    requires |samples| > 1 && Chronological(samples) && GapsAtMost(samples, p)
    requires Change(After(tuning, samples[..|samples| - 1]), After(tuning, samples)) == ToClean
    ensures LossAt(samples, l) ==>
              var gap := samples[|samples| - 1].now - samples[l].now;
              && gap >= Us(tuning.holdSec) && gap >= Us(tuning.cleanSec)
              && gap >= Us(tuning.holdSec) + Us(tuning.cleanSec) - p
    ensures samples[|samples| - 1].now - samples[0].now >= Us(tuning.cleanSec)
  {
    var n := |samples| - 1;
    LateAfterLast(tuning, samples, p);
    var last := LastLoss(samples);
    if LossAt(samples, l) {
      assert samples[l].now <= samples[last].now;
    }
    assert last != -1 ==> samples[0].now <= samples[last].now;
  }

  /** From a paced state, a step into the cheap state is late. */
  lemma LateStep(tuning: CleanTuning, t: Tracker, s: Sample, first: int, lossAt: Option<int>, p: int)
    requires t.initialized && Paced(tuning, t, first, lossAt, p) && first <= t.lastSample <= s.now <= t.lastSample + p
    requires lossAt.Some? ==> lossAt.value <= t.lastSample
    requires Change(t, Step(tuning, t, s)) == ToClean
    ensures s.now >= Base(tuning, first, lossAt, p) + Us(tuning.cleanSec)
    ensures lossAt.Some? ==> s.now >= lossAt.value + Us(tuning.holdSec)
    ensures Judge(tuning, t, s) != Loss
  {
  }

  lemma LateAfterLast(tuning: CleanTuning, samples: seq<Sample>, p: int)
    requires |samples| > 1 && Chronological(samples) && GapsAtMost(samples, p)
    requires Change(After(tuning, samples[..|samples| - 1]), After(tuning, samples)) == ToClean
    ensures var lossAt, now := LossTime(samples), samples[|samples| - 1].now;
            && now >= Base(tuning, samples[0].now, lossAt, p) + Us(tuning.cleanSec)
            && (lossAt.Some? ==> now >= lossAt.value + Us(tuning.holdSec))
  {
    var n := |samples| - 1;
    var front := samples[..n];
    RunIsPaced(tuning, front, p);
    LossIsPast(front);
    assert front[n - 1] == samples[n - 1] && front[0] == samples[0];
    LossTimeStep(tuning, After(tuning, front), samples);
    LateStep(tuning, After(tuning, front), samples[n], samples[0].now, LossTime(front), p);
  }

  // ---- a retransmit reported at an unchanged clock reading ----

  /** The tracker is protected for the full hold from this sample on. */
  predicate Heeded(tuning: CleanTuning, t: Tracker, s: Sample)
  {
    !t.clean && t.holdUntil >= s.now + Us(tuning.holdSec)
  }

  /**
   * A risen retransmit counter protects the path exactly when the clock moved
   * since the previous sample (or the path was already that protected).
   */
  lemma LossHeededExactly(tuning: CleanTuning, t: Tracker, s: Sample)
    requires t.initialized && s.outSegs >= t.lastOut && s.fastRetrans > t.lastFast
    ensures Heeded(tuning, Step(tuning, t, s), s) <==> s.now > t.lastSample || Heeded(tuning, t, s)
  {
  }

  /** A loss first reported at an unchanged clock reading is passed over, and its hold with it. */
  lemma SwallowedLoss() returns (tuning: CleanTuning, samples: seq<Sample>)
    ensures |samples| == 4 && Chronological(samples)
    ensures samples[2].fastRetrans > samples[1].fastRetrans && samples[2].outSegs >= samples[1].outSegs
    ensures Change(After(tuning, samples[..3]), After(tuning, samples)) == ToClean
    ensures samples[3].now - samples[2].now < Us(tuning.holdSec)
  {
    tuning := CleanTuning(1, 5, 0.0);
    samples := [Sample(0, 0, 0), Sample(10, 0, 900000), Sample(20, 1, 900000), Sample(30, 1, 1900000)];
    InOrder(samples);
    assert samples[..3][..2] == samples[..2] && samples[..2][..1] == samples[..1] && samples[..1][..0] == [];
    assert After(tuning, samples[..1]) == Tracker(true, false, 0, 0, 0, 0, 0);
    TrafficStep(tuning, After(tuning, samples[..1]), samples[1]);
    assert After(tuning, samples[..2]) == Tracker(true, false, 10, 0, 900000, 900000, 0);
    assert After(tuning, samples[..3]) == Tracker(true, false, 20, 1, 900000, 900000, 0);
    TrafficStep(tuning, After(tuning, samples[..3]), samples[3]);
    assert After(tuning, samples) == Step(tuning, After(tuning, samples[..3]), samples[3]);
  }

  lemma InOrder(samples: seq<Sample>)
    requires |samples| == 4 && samples[0].now <= samples[1].now <= samples[2].now <= samples[3].now
    ensures Chronological(samples)
  {
  }

  /** Without a minimum rate every usable sample outside a hold is traffic. */
  lemma TrafficStep(tuning: CleanTuning, t: Tracker, s: Sample)
    requires tuning.minSegRate == 0.0 && !Unsound(t, s) && s.fastRetrans == t.lastFast && s.now >= t.holdUntil
    ensures Judge(tuning, t, s) == Traffic
  {
  }

  // ---- how often it is entered ----

  function Downgrades(tuning: CleanTuning, samples: seq<Sample>): nat
  {
    if samples == [] then 0
    else
      var front := samples[..|samples| - 1];
      Downgrades(tuning, front) + if Change(After(tuning, front), After(tuning, samples)) == ToClean then 1 else 0
  }

  function Upgrades(tuning: CleanTuning, samples: seq<Sample>): nat
  {
    if samples == [] then 0
    else
      var front := samples[..|samples| - 1];
      Upgrades(tuning, front) + if Change(After(tuning, front), After(tuning, samples)) == ToLossy then 1 else 0
  }

  /** Transitions alternate, starting with a downgrade, whatever the counters and the clock do. */
  lemma {:induction false} TransitionsAlternate(tuning: CleanTuning, samples: seq<Sample>)
    ensures Downgrades(tuning, samples) == Upgrades(tuning, samples) + if After(tuning, samples).clean then 1 else 0
  {
    if samples != [] {
      TransitionsAlternate(tuning, samples[..|samples| - 1]);
    }
  }

  /** `d` is when the latest downgrade happened. */
  ghost predicate Spaced(tuning: CleanTuning, samples: seq<Sample>, d: int)
    requires samples != []
  {
    var t, k := After(tuning, samples), Downgrades(tuning, samples);
    && t.initialized && t.lastSample == samples[|samples| - 1].now
    && (k > 0 ==> d <= t.lastSample && Times(k - 1, Us(tuning.holdSec)) <= d - samples[0].now)
    && (k > 0 && !t.clean ==> t.holdUntil >= d + Us(tuning.holdSec))
    && (k == 0 ==> !t.clean)
  }

  lemma {:induction false} DowngradesAreSpaced(tuning: CleanTuning, samples: seq<Sample>) returns (d: int)
    requires samples != [] && Chronological(samples) && tuning.holdSec > 0
    ensures Spaced(tuning, samples, d)
  {
    var n := |samples| - 1;
    var front := samples[..n];
    if n == 0 {
      assert After(tuning, front) == INITIAL;
      d := 0;
    } else {
      d := DowngradesAreSpaced(tuning, front);
      assert samples[n - 1] == front[n - 1] && samples[0] == front[0];
      assert samples[n - 1].now <= samples[n].now;
      var t, k := After(tuning, front), Downgrades(tuning, front);
      if Change(t, After(tuning, samples)) == ToClean {
        assert Judge(tuning, t, samples[n]) == Traffic;
        assert k > 0 ==> samples[n].now >= d + Us(tuning.holdSec);
        d := samples[n].now;
        assert samples[0].now <= d;
      }
    }
  }

  /** A run of length L has at most 1 + L / hold downgrades: all but one cost a whole hold each. */
  lemma DowngradeRate(tuning: CleanTuning, samples: seq<Sample>)
    requires samples != [] && Chronological(samples) && tuning.holdSec > 0
    ensures var d := Downgrades(tuning, samples);
            d > 0 ==> (d - 1) * Us(tuning.holdSec) <= samples[|samples| - 1].now - samples[0].now
  {
    var _ := DowngradesAreSpaced(tuning, samples);
    var k := Downgrades(tuning, samples);
    TimesIsProduct(if k > 0 then k - 1 else 0, Us(tuning.holdSec));
  }

  function Times(k: nat, h: int): int
  {
    if k == 0 then 0 else Times(k - 1, h) + h
  }

  lemma {:induction false} TimesIsProduct(k: nat, h: int)
    ensures Times(k, h) == k * h
  {
    if k != 0 {
      TimesIsProduct(k - 1, h);
    }
  }
}
