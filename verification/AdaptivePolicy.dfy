/** The two controllers driving their gates from a clean-path tracker (fec_parity.hpp, rto_floor.hpp). */
module AdaptivePolicy {
  import opened CleanPath

  const FEC_TUNING: CleanTuning := CleanTuning(60, 300, 50.0)
  const RTO_TUNING: CleanTuning := CleanTuning(15, 60, 50.0)

  class FecParityGate {
    var enabled: bool
    constructor ()
      ensures enabled
    {
      enabled := true;
    }
  }

  class RtoFloorGate {
    var lowLatency: bool
    constructor ()
      ensures lowLatency
    {
      lowLatency := true;
    }
  }

  datatype ParityTransition = ParityNone | ToEconomy | ToProtected

  class FecParityController {
    const gate: FecParityGate
    const tracker: CleanPathTracker

    /** The gate every tunnel reads is always the negation of the tracker's state. */
    ghost predicate Valid()
      reads this, gate, tracker
    {
      tracker.Valid() && gate.enabled == !After(tracker.tuning, tracker.history).clean
    }

    constructor (gate: FecParityGate, tuning: CleanTuning)
      requires gate.enabled
      ensures Valid() && this.gate == gate && fresh(tracker) && tracker.tuning == tuning && tracker.history == []
    {
      this.gate := gate;
      tracker := new CleanPathTracker(tuning);
    }

    method OnSample(s: Sample) returns (tr: ParityTransition)
      requires Valid()
      modifies gate, tracker
      ensures Valid() && tracker.history == old(tracker.history) + [s]
      ensures tr == if gate.enabled == old(gate.enabled) then ParityNone
                    else if gate.enabled then ToProtected else ToEconomy
    {
      var change := tracker.OnSample(s);
      match change
      case ToClean =>
        gate.enabled := false;
        tr := ToEconomy;
      case ToLossy =>
        gate.enabled := true;
        tr := ToProtected;
      case NoChange =>
        tr := ParityNone;
    }
  }

  datatype FloorTransition = FloorNone | ToRelaxed | ToLowLatency

  class RtoFloorController {
    const gate: RtoFloorGate
    const tracker: CleanPathTracker

    ghost predicate Valid()
      reads this, gate, tracker
    {
      tracker.Valid() && gate.lowLatency == !After(tracker.tuning, tracker.history).clean
    }

    constructor (gate: RtoFloorGate, tuning: CleanTuning)
      requires gate.lowLatency
      ensures Valid() && this.gate == gate && fresh(tracker) && tracker.tuning == tuning && tracker.history == []
    {
      this.gate := gate;
      tracker := new CleanPathTracker(tuning);
    }

    method OnSample(s: Sample) returns (tr: FloorTransition)
      requires Valid()
      modifies gate, tracker
      ensures Valid() && tracker.history == old(tracker.history) + [s]
      ensures tr == if gate.lowLatency == old(gate.lowLatency) then FloorNone
                    else if gate.lowLatency then ToLowLatency else ToRelaxed
    {
      var change := tracker.OnSample(s);
      match change
      case ToClean =>
        gate.lowLatency := false;
        tr := ToRelaxed;
      case ToLossy =>
        gate.lowLatency := true;
        tr := ToLowLatency;
      case NoChange =>
        tr := FloorNone;
    }
  }

  /**
   * Both policies over one run of samples, with the default tunings: whenever
   * parity is off, the RTO floor is relaxed.
   */
  method SampleBoth(parity: FecParityController, floor: RtoFloorController, samples: seq<Sample>)
    requires parity.Valid() && floor.Valid() && parity.tracker != floor.tracker
    requires parity.tracker.tuning == FEC_TUNING && floor.tracker.tuning == RTO_TUNING
    requires parity.tracker.history == floor.tracker.history
    modifies parity.gate, parity.tracker, floor.gate, floor.tracker
    ensures parity.Valid() && floor.Valid()
    ensures parity.tracker.history == floor.tracker.history == old(parity.tracker.history) + samples
    ensures !parity.gate.enabled ==> !floor.gate.lowLatency
  {
    for i := 0 to |samples|
      invariant parity.Valid() && floor.Valid()
      invariant parity.tracker.history == floor.tracker.history == old(parity.tracker.history) + samples[..i]
    {
      var _ := parity.OnSample(samples[i]);
      var _ := floor.OnSample(samples[i]);
      assert samples[..i + 1] == samples[..i] + [samples[i]];
    }
    assert samples[..|samples|] == samples;
    MonotoneInTuning(RTO_TUNING, FEC_TUNING, parity.tracker.history);
  }
}
