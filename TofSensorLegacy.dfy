/**
 * The earlier time-of-flight sensor of src/TofSensor.cpp: one sample per
 * zone and a single baseline per zone. A zone is occupied when its signal
 * reaches its baseline plus PERSON_THRESHOLD; the baselines are averages
 * built by `performCalibration`. PERSON_THRESHOLD and NUM_CALIBRATION_LOOPS
 * are defined in a header that is not part of this model, so they are
 * fixed per sensor object.
 */
module TofSensorLegacy {
  import opened SensorDriver

  /** One value per zone: the contents of an `int[2]` global. */
  datatype Pair = Pair(zone1: int, zone2: int)
  {
    function Get(zone: int): int
      requires 0 <= zone < 2
    {
      if zone == 0 then zone1 else zone2
    }

    function Set(zone: int, v: int): Pair
      requires 0 <= zone < 2
    {
      if zone == 0 then this.(zone1 := v) else this.(zone2 := v)
    }
  }

  /** The globals `zoneSignalPerSpad`, `zoneBaselines` and `occupancyState`, and the sensor's remaining outcomes. */
  datatype Globals = Globals(signals: Pair, baselines: Pair, occupancyState: int, rest: seq<Ranging>)

  /** What `loop()` returns together with the globals it leaves. */
  datatype Stepped = Stepped(result: int, globals: Globals)

  /** Line 120: a zone is occupied when its signal reaches baseline + PERSON_THRESHOLD. */
  predicate Occupied(signal: int, baseline: int, threshold: int)
  {
    signal >= baseline + threshold
  }

  /** `occupancyState` as line 121 sums it: `occupied * (zone + 1)` over both zones. */
  function OccupancyOf(signals: Pair, baselines: Pair, threshold: int): (r: int)
    ensures 0 <= r <= 3
    ensures r % 2 == 1 <==> Occupied(signals.zone1, baselines.zone1, threshold)
    ensures r >= 2 <==> Occupied(signals.zone2, baselines.zone2, threshold)
  {
    (if Occupied(signals.zone1, baselines.zone1, threshold) then 1 else 0)
    + (if Occupied(signals.zone2, baselines.zone2, threshold) then 2 else 0)
  }

  /**
   * The zone loop of `loop()` from `zone` on, with `occ` accumulated so far
   * and `previous` the state before the call. A timeout returns at once.
   */
  function ScanFrom(zone: int, g: Globals, occ: int, previous: int, threshold: int): (s: Stepped)
    requires 0 <= zone <= 2
    ensures s.globals.baselines == g.baselines
    decreases 2 - zone
  {
    if zone == 2 then Stepped(if occ != previous then 1 else 0, g.(occupancyState := occ))
    else if g.rest == [] || g.rest[0].TimedOut? then
      Stepped(SENSOR_TIMEOUT_ERROR, g.(occupancyState := occ, rest := Consume(g.rest)))
    else
      var v := g.rest[0].signalPerSpad;
      ScanFrom(zone + 1, g.(signals := g.signals.Set(zone, v), rest := g.rest[1..]),
               occ + (if Occupied(v, g.baselines.Get(zone), threshold) then zone + 1 else 0), previous, threshold)
  }

  /** `ScanFrom` overwrites the occupancy state it is given. */
  lemma {:induction false} ScanIgnoresState(zone: int, g: Globals, x: int, occ: int, previous: int, threshold: int)
    requires 0 <= zone <= 2
    ensures ScanFrom(zone, g.(occupancyState := x), occ, previous, threshold) == ScanFrom(zone, g, occ, previous, threshold)
    decreases 2 - zone
  {
    if zone < 2 && g.rest != [] && g.rest[0].DataReady? {
      var v := g.rest[0].signalPerSpad;
      ScanIgnoresState(zone + 1, g.(signals := g.signals.Set(zone, v), rest := g.rest[1..]), x,
                       occ + (if Occupied(v, g.baselines.Get(zone), threshold) then zone + 1 else 0), previous, threshold);
    }
  }

  /** One sampled zone: store the signal, consume the outcome and add the zone's weight when it is occupied. */
  lemma ScanStep(zone: int, g: Globals, occ: int, previous: int, threshold: int)
    requires 0 <= zone < 2 && g.rest != [] && g.rest[0].DataReady?
    ensures var v := g.rest[0].signalPerSpad;
            var occ' := occ + (if Occupied(v, g.baselines.Get(zone), threshold) then zone + 1 else 0);
            ScanFrom(zone, g, occ, previous, threshold)
            == ScanFrom(zone + 1, g.(signals := g.signals.Set(zone, v), rest := g.rest[1..], occupancyState := occ'), occ', previous, threshold)
  {
    var v := g.rest[0].signalPerSpad;
    var occ' := occ + (if Occupied(v, g.baselines.Get(zone), threshold) then zone + 1 else 0);
    ScanIgnoresState(zone + 1, g.(signals := g.signals.Set(zone, v), rest := g.rest[1..]), occ', occ', previous, threshold);
  }

  /** One call of `loop()`. */
  function LoopStep(g: Globals, threshold: int): (s: Stepped)
    ensures s.globals.baselines == g.baselines
  {
    ScanFrom(0, g, 0, g.occupancyState, threshold)
  }

  /**
   * `loop()` either times out, or reads one sample per zone, classifies
   * both against the unchanged baselines and returns 1 exactly when the
   * occupancy state changed (0 otherwise).
   */
  lemma LoopOutcome(g: Globals, threshold: int)
    ensures var s := LoopStep(g, threshold);
            s.globals.baselines == g.baselines && Suffix(s.globals.rest, g.rest)
            && (s.result == SENSOR_TIMEOUT_ERROR
                || (|g.rest| >= 2 && g.rest[0].DataReady? && g.rest[1].DataReady?
                    && s.globals.signals == Pair(g.rest[0].signalPerSpad, g.rest[1].signalPerSpad)
                    && s.globals.rest == g.rest[2..]
                    && s.globals.occupancyState == OccupancyOf(s.globals.signals, g.baselines, threshold)
                    && s.result == (if s.globals.occupancyState != g.occupancyState then 1 else 0)))
            && (s.result == SENSOR_TIMEOUT_ERROR <==> !(|g.rest| >= 2 && g.rest[0].DataReady? && g.rest[1].DataReady?))
  {
    var s := LoopStep(g, threshold);
    if g.rest == [] || g.rest[0].TimedOut? {
      assert s == Stepped(SENSOR_TIMEOUT_ERROR, g.(occupancyState := 0, rest := Consume(g.rest)));
    } else {
      var v0 := g.rest[0].signalPerSpad;
      var occ0 := if Occupied(v0, g.baselines.zone1, threshold) then 1 else 0;
      var g1 := g.(signals := g.signals.Set(0, v0), rest := g.rest[1..]);
      assert s == ScanFrom(1, g1, occ0, g.occupancyState, threshold);
      if g1.rest == [] || g1.rest[0].TimedOut? {
        assert s == Stepped(SENSOR_TIMEOUT_ERROR, g1.(occupancyState := occ0, rest := Consume(g1.rest)));
        SuffixTransitive(g.rest, g1.rest, Consume(g1.rest));
      } else {
        var v1 := g1.rest[0].signalPerSpad;
        var occ1 := occ0 + (if Occupied(v1, g.baselines.zone2, threshold) then 2 else 0);
        var g2 := g1.(signals := g1.signals.Set(1, v1), rest := g1.rest[1..]);
        assert s == ScanFrom(2, g2, occ1, g.occupancyState, threshold);
        assert g2.signals == Pair(v0, v1) && g2.rest == g.rest[2..];
        assert occ1 == OccupancyOf(Pair(v0, v1), g.baselines, threshold);
      }
    }
  }

  /** One round of lines 72-74: `loop()` (its result ignored), then each baseline gains its zone's signal. */
  function Round(g: Globals, threshold: int): Globals
  {
    var s := LoopStep(g, threshold).globals;
    s.(baselines := Pair(s.baselines.zone1 + s.signals.zone1, s.baselines.zone2 + s.signals.zone2))
  }

  /** The first `rounds` rounds of the accumulation loop. */
  function Accumulate(rounds: nat, g: Globals, threshold: int): Globals
  {
    if rounds == 0 then g else Round(Accumulate(rounds - 1, g, threshold), threshold)
  }

  /** The first `rounds` pairs of outcomes in `rs` all delivered data. */
  predicate ReadyPairs(rs: seq<Ranging>, rounds: nat)
    requires |rs| >= 2 * rounds
  {
    rounds == 0
    || (rs[2 * rounds - 2].DataReady? && rs[2 * rounds - 1].DataReady? && ReadyPairs(rs, rounds - 1))
  }

  /** The signals of the first `rounds` sample pairs of `rs` for `zone`, summed (a timeout adds nothing). */
  function SumZone(rs: seq<Ranging>, zone: int, rounds: nat): int
    requires 0 <= zone < 2 && |rs| >= 2 * rounds
  {
    if rounds == 0 then 0
    else
      var r := rs[2 * (rounds - 1) + zone];
      SumZone(rs, zone, rounds - 1) + (if r.DataReady? then r.signalPerSpad else 0)
  }

  /**
   * Without timeouts, the accumulation adds the first N-1 samples of each
   * zone onto whatever the baselines held, with no reset beforehand.
   */
  lemma {:induction false} AccumulateSums(rounds: nat, g: Globals, threshold: int)
    requires |g.rest| >= 2 * rounds && ReadyPairs(g.rest, rounds)
    ensures var r := Accumulate(rounds, g, threshold);
            r.baselines.zone1 == g.baselines.zone1 + SumZone(g.rest, 0, rounds)
            && r.baselines.zone2 == g.baselines.zone2 + SumZone(g.rest, 1, rounds)
            && r.rest == g.rest[2 * rounds..]
  {
    if rounds > 0 {
      var k := rounds - 1;
      AccumulateSums(k, g, threshold);
      var a := Accumulate(k, g, threshold);
      assert a.rest[0] == g.rest[2 * k] && a.rest[1] == g.rest[2 * k + 1];
      AccumulateStep(rounds, g, threshold);
      SumZoneStep(g.rest, rounds);
      assert a.rest[2..] == g.rest[2 * rounds..];
    }
  }

  /** The `rounds`-th round of the accumulation, when both of its samples arrive, adds them on top of the rounds before it. */
  lemma AccumulateStep(rounds: nat, g: Globals, threshold: int)
    requires rounds > 0
    requires var a := Accumulate(rounds - 1, g, threshold);
             |a.rest| >= 2 && a.rest[0].DataReady? && a.rest[1].DataReady?
    ensures var a, r := Accumulate(rounds - 1, g, threshold), Accumulate(rounds, g, threshold);
            r.baselines.zone1 == a.baselines.zone1 + a.rest[0].signalPerSpad
            && r.baselines.zone2 == a.baselines.zone2 + a.rest[1].signalPerSpad
            && r.rest == a.rest[2..]
  {
    RoundReady(Accumulate(rounds - 1, g, threshold), threshold);
  }

  // proof step for AccumulateSums: unfolds SumZone and ReadyPairs once
  lemma SumZoneStep(rs: seq<Ranging>, rounds: nat)
    requires rounds > 0 && |rs| >= 2 * rounds && ReadyPairs(rs, rounds)
    ensures SumZone(rs, 0, rounds) == SumZone(rs, 0, rounds - 1) + rs[2 * rounds - 2].signalPerSpad
    ensures SumZone(rs, 1, rounds) == SumZone(rs, 1, rounds - 1) + rs[2 * rounds - 1].signalPerSpad
    ensures ReadyPairs(rs, rounds - 1)
  {
  }

  /** A single round from any globals whose next two outcomes are data adds those two signals and consumes exactly them. */
  lemma RoundReady(a: Globals, threshold: int)
    requires |a.rest| >= 2 && a.rest[0].DataReady? && a.rest[1].DataReady?
    ensures Round(a, threshold).baselines.zone1 == a.baselines.zone1 + a.rest[0].signalPerSpad
    ensures Round(a, threshold).baselines.zone2 == a.baselines.zone2 + a.rest[1].signalPerSpad
    ensures Round(a, threshold).rest == a.rest[2..]
  {
    LoopOutcome(a, threshold);
  }

  /** The result of `performCalibration` and the globals it leaves. */
  datatype Calibrated = Calibrated(ok: bool, globals: Globals)

  /**
   * `performCalibration`: accumulate, divide by NUM_CALIBRATION_LOOPS, and
   * if the last state seen is not clear, measure once more and fail unless
   * that one is clear.
   */
  function Calibrate(g: Globals, loops: int, threshold: int): Calibrated
    requires loops >= 1
  {
    var a := Accumulate(loops - 1, g, threshold);
    var d := a.(baselines := Pair(CDiv(a.baselines.zone1, loops), CDiv(a.baselines.zone2, loops)));
    if d.occupancyState != 0 then
      var s := LoopStep(d, threshold).globals;
      Calibrated(s.occupancyState == 0, s)
    else Calibrated(true, d)
  }

  /** Calibration succeeds exactly when it leaves the occupancy state clear. */
  lemma CalibrateOkMeansClear(g: Globals, loops: int, threshold: int)
    requires loops >= 1
    ensures var c := Calibrate(g, loops, threshold);
            c.ok <==> c.globals.occupancyState == 0
  {
    var a := Accumulate(loops - 1, g, threshold);
    var d := a.(baselines := Pair(CDiv(a.baselines.zone1, loops), CDiv(a.baselines.zone2, loops)));
    if d.occupancyState != 0 {
      LoopOutcome(d, threshold);
    }
  }

  /**
   * C++ `int` division, which truncates toward zero (Dafny's `/` is
   * Euclidean): the quotient never overshoots the dividend's magnitude.
   */
  function CDiv(a: int, b: int): (q: int)
    requires b > 0
  {
    if a >= 0 then a / b else -((-a) / b)
  }

  /**
   * C++ division truncates toward zero: for a non-negative dividend the
   * quotient's multiple lies within one divisor below it ...
   */
  lemma {:induction false} CDivTruncatesNonNegative(a: int, b: int)
    requires a >= 0 && b > 0
    ensures 0 <= CDiv(a, b) * b <= a < CDiv(a, b) * b + b
  {
    assert a == (a / b) * b + a % b && 0 <= a % b < b;
    assert 0 <= a / b;
  }

  /** ... and a negative dividend gives the opposite of its magnitude's quotient. */
  lemma {:induction false} CDivOdd(a: int, b: int)
    requires b > 0
    ensures CDiv(-a, b) == -CDiv(a, b)
  {
  }

  /** The sensor singleton of src/TofSensor.cpp. */
  class LegacyTofSensor {
    const zoneSignalPerSpad: array<int>
    const zoneBaselines: array<int>
    var occupancyState: int
    var sensor: seq<Ranging>
    /** PERSON_THRESHOLD. */
    const personThreshold: int
    /** NUM_CALIBRATION_LOOPS. */
    const calibrationLoops: int

    predicate Valid()
    {
      zoneSignalPerSpad.Length == 2 && zoneBaselines.Length == 2 && zoneSignalPerSpad != zoneBaselines
      && calibrationLoops >= 1
    }

    /** The globals start at zero. */
    constructor (hardware: seq<Ranging>, threshold: int, loops: int)
      requires loops >= 1
      ensures Valid() && personThreshold == threshold && calibrationLoops == loops
      ensures State() == Globals(Pair(0, 0), Pair(0, 0), 0, hardware)
    {
      zoneSignalPerSpad := new int[2](i => 0);
      zoneBaselines := new int[2](i => 0);
      occupancyState := 0;
      sensor := hardware;
      personThreshold := threshold;
      calibrationLoops := loops;
    }

    function State(): Globals
      requires Valid()
      reads this, zoneSignalPerSpad, zoneBaselines
    {
      Globals(Pair(zoneSignalPerSpad[0], zoneSignalPerSpad[1]), Pair(zoneBaselines[0], zoneBaselines[1]), occupancyState, sensor)
    }

    /**
     * `loop()`: sample both zones and report whether the occupancy state
     * changed. On a timeout the driver is power-cycled and `setup()` re-entered
     * before SENSOR_TIMEOUT_ERROR is returned; that re-entry is not modelled.
     */
    method Loop() returns (result: int)
      requires Valid()
      modifies this`occupancyState, this`sensor, zoneSignalPerSpad
      ensures Stepped(result, State()) == LoopStep(old(State()), personThreshold)
    {
      ghost var g0 := State();
      var oldOccupancyState := occupancyState;
      occupancyState := 0;
      var zone := 0;
      while zone < 2
        invariant 0 <= zone <= 2
        invariant ScanFrom(zone, State(), occupancyState, oldOccupancyState, personThreshold)
                  == ScanFrom(0, g0.(occupancyState := 0), 0, oldOccupancyState, personThreshold)
      {
        if sensor == [] || sensor[0].TimedOut? {
          sensor := Consume(sensor);
          return SENSOR_TIMEOUT_ERROR;
        }
        ghost var before := State();
        ghost var occ := occupancyState;
        zoneSignalPerSpad[zone] := sensor[0].signalPerSpad;
        sensor := sensor[1..];
        var occupied := zoneSignalPerSpad[zone] >= zoneBaselines[zone] + personThreshold;
        occupancyState := occupancyState + (if occupied then zone + 1 else 0);
        ScanStep(zone, before, occ, oldOccupancyState, personThreshold);
        assert State() == before.(signals := before.signals.Set(zone, before.rest[0].signalPerSpad), rest := before.rest[1..], occupancyState := occupancyState);
        zone := zone + 1;
      }
      result := if occupancyState != oldOccupancyState then 1 else 0;
      assert Stepped(result, State()) == ScanFrom(2, State(), occupancyState, oldOccupancyState, personThreshold);
    }

    /** Lines 71-75: NUM_CALIBRATION_LOOPS - 1 rounds of `loop()` whose signals are added onto the baselines. */
    method AccumulateBaselines()
      requires Valid()
      modifies this`occupancyState, this`sensor, zoneSignalPerSpad, zoneBaselines
      ensures State() == Accumulate(calibrationLoops - 1, old(State()), personThreshold)
    {
      ghost var g0 := State();
      for i := 1 to calibrationLoops
        invariant State() == Accumulate(i - 1, g0, personThreshold)
      {
        ghost var before := State();
        var _ := Loop();
        ghost var looped := State();
        zoneBaselines[0] := zoneBaselines[0] + zoneSignalPerSpad[0];
        zoneBaselines[1] := zoneBaselines[1] + zoneSignalPerSpad[1];
        assert State() == looped.(baselines := Pair(looped.baselines.zone1 + looped.signals.zone1, looped.baselines.zone2 + looped.signals.zone2));
        assert State() == Round(before, personThreshold);
      }
    }

    /** `performCalibration()`. */
    method PerformCalibration() returns (ok: bool)
      requires Valid()
      modifies this`occupancyState, this`sensor, zoneSignalPerSpad, zoneBaselines
      ensures Calibrated(ok, State()) == Calibrate(old(State()), calibrationLoops, personThreshold)
      ensures ok <==> occupancyState == 0
    {
      ghost var g0 := State();
      AccumulateBaselines();
      ghost var a := State();
      zoneBaselines[0] := CDiv(zoneBaselines[0], calibrationLoops);
      zoneBaselines[1] := CDiv(zoneBaselines[1], calibrationLoops);
      ghost var d := State();
      assert d == a.(baselines := Pair(CDiv(a.baselines.zone1, calibrationLoops), CDiv(a.baselines.zone2, calibrationLoops)));
      ok := true;
      if occupancyState != 0 {
        var _ := Loop();
        assert State() == LoopStep(d, personThreshold).globals;
        if occupancyState != 0 {
          ok := false;
        }
      }
      CalibrateOkMeansClear(g0, calibrationLoops, personThreshold);
    }

    /**
     * `setup()`: `beginStatus` is what the driver's `begin()` returned. The
     * buffer-fill wait runs `loop()` once, since that never returns
     * SENSOR_BUFFRER_NOT_FULL; calibration is then tried at most twice.
     */
    method Setup(beginStatus: int) returns (ok: bool)
      requires Valid()
      modifies this`occupancyState, this`sensor, zoneSignalPerSpad, zoneBaselines
      ensures beginStatus != 0 ==> !ok && State() == old(State())
      ensures beginStatus == 0 ==>
                var first := LoopStep(old(State()), personThreshold).globals;
                var c1 := Calibrate(first, calibrationLoops, personThreshold);
                if c1.ok then ok && State() == c1.globals
                else Calibrated(ok, State()) == Calibrate(c1.globals, calibrationLoops, personThreshold)
      ensures ok ==> occupancyState == 0
    {
      if beginStatus != 0 {
        return false;
      }
      var filled := Loop();
      ok := PerformCalibration();
      if !ok {
        ok := PerformCalibration();
      }
    }
  }
}
