/**
 * The VL53L1X time-of-flight sensor of src/TOF-Sensor/TofSensor.cpp. Two
 * occupancy zones are each sampled twice per `measure()`; a zone is occupied
 * when both samples leave the calibrated "nothing there" range on the same
 * side, and the zones combine into the 2-bit occupancy state (zone 1 the
 * ones bit, zone 2 the twos bit) that the people counter consumes. A third,
 * wide detection zone has its own range. The ranges are learned by the two
 * calibration routines.
 */
module TofSensor {
  import opened Bytes
  import opened MyData
  import opened SensorDriver

  /** Calibration settings (the values of src/Config.h). */
  const NUM_OCCUPANCY_CALIBRATION_LOOPS: nat := 25
  const NUM_DETECTION_CALIBRATION_LOOPS: nat := 50
  const CALIBRATION_SIGNAL_RETRY_THRESHOLD: int := 35

  /** The floor left "for black hair" under every minimum baseline. */
  const MIN_BASELINE: int := 5
  /** Zone 2 is seeded this far above its first reading. */
  const ZONE2_SEED_OFFSET: int := 5
  /** The detection zone is seeded this far above its first reading ... */
  const DETECTION_SEED_OFFSET: int := 8
  /** ... and its range is finally widened by this much on each side. */
  const DETECTION_MARGIN: int := 3
  /** A signal of 65535 signals a transfer problem; the sample is taken again. */
  const INVALID_SIGNAL: int := 65535
  /** `alertCodeNode` value asking for a reset after a sensor failure. */
  const SENSOR_ALERT: u8 := 3
  /** After this many failed `begin()` calls `setup` gives up at once. */
  const MAX_INIT_RETRIES: int := 3

  /** A baseline range: what a zone reads when nothing is there. */
  datatype Range = Range(min: int, max: int)

  /** The shape of `int zoneSignalPerSpad[2][2]` and `occupancyBaselines[2][2]`. */
  predicate Is2x2(g: seq<seq<int>>)
  {
    |g| == 2 && |g[0]| == 2 && |g[1]| == 2
  }

  /** Sample number `p` (0..3) of a `measure()` lands in zone p % 2, column 0 for the first pair and 1 for the second. */
  function Cell(g: seq<seq<int>>, p: int): int
    requires Is2x2(g) && 0 <= p < 4
  {
    g[p % 2][if p < 2 then 0 else 1]
  }

  /** The outcome of `measure()`: its return value, the two arrays it writes and the unread sensor outcomes. */
  datatype Measured = Measured(result: int, signals: seq<seq<int>>, last: seq<int>, rest: seq<Ranging>)

  /**
   * The sampling loop of `measure()` from sample number `samples` on. A
   * timeout returns at once (leaving what was written so far); a reading of
   * 65535 is stored and then taken again under the same sample number.
   */
  function MeasureFrom(samples: int, rs: seq<Ranging>, g: seq<seq<int>>, last: seq<int>): Measured
    requires 0 <= samples <= 4 && Is2x2(g) && |last| == 2
    decreases |rs|
  {
    if samples == 4 then Measured(READY, g, last, rs)
    else if rs == [] || rs[0].TimedOut? then Measured(SENSOR_TIMEOUT_ERROR, g, last, Consume(rs))
    else
      var v := rs[0].signalPerSpad;
      var zone := samples % 2;
      var col := if samples < 2 then 0 else 1;
      var g' := g[zone := g[zone][col := v]];
      MeasureFrom(if v == INVALID_SIGNAL then samples else samples + 1, rs[1..], g', last[zone := v])
  }

  /**
   * `measure()` returns 1 or SENSOR_TIMEOUT_ERROR. On success every sample
   * still to be taken holds a reading other than 65535, at least one outcome
   * per sample was consumed, and when both pairs were taken `lastSignal`
   * holds each zone's second sample. A timeout is the last outcome consumed.
   */
  lemma MeasureOutcome(samples: int, rs: seq<Ranging>, g: seq<seq<int>>, last: seq<int>)
    requires 0 <= samples <= 4 && Is2x2(g) && |last| == 2
    ensures var m := MeasureFrom(samples, rs, g, last);
            Is2x2(m.signals) && |m.last| == 2 && Suffix(m.rest, rs)
            && (forall p | 0 <= p < samples :: Cell(m.signals, p) == Cell(g, p))
            && (m.result == READY || m.result == SENSOR_TIMEOUT_ERROR)
            && (m.result == READY ==>
                  |m.rest| <= |rs| - (4 - samples)
                  && (forall p | samples <= p < 4 :: Cell(m.signals, p) != INVALID_SIGNAL)
                  && (samples == 3 ==> m.signals[0] == g[0] && m.last[0] == last[0])
                  && (samples <= 3 ==> m.last[1] == m.signals[1][1])
                  && (samples <= 2 ==> m.last[0] == m.signals[0][1]))
            && (m.result == SENSOR_TIMEOUT_ERROR ==> EndedInTimeout(rs, m.rest))
  {
    MeasureShape(samples, rs, g, last);
    MeasureReady(samples, rs, g, last);
  }

  /** The shape of what `measure()` leaves, the samples it keeps, and how it can end. */
  lemma {:induction false} MeasureShape(samples: int, rs: seq<Ranging>, g: seq<seq<int>>, last: seq<int>)
    requires 0 <= samples <= 4 && Is2x2(g) && |last| == 2
    ensures var m := MeasureFrom(samples, rs, g, last);
            Is2x2(m.signals) && |m.last| == 2 && Suffix(m.rest, rs)
            && (forall p | 0 <= p < samples :: Cell(m.signals, p) == Cell(g, p))
            && (m.result == READY || m.result == SENSOR_TIMEOUT_ERROR)
            && (m.result == SENSOR_TIMEOUT_ERROR ==> EndedInTimeout(rs, m.rest))
    decreases |rs|
  {
    if samples == 4 {
    } else if rs == [] || rs[0].TimedOut? {
    } else {
      var v := rs[0].signalPerSpad;
      var zone := samples % 2;
      var col := if samples < 2 then 0 else 1;
      var g' := g[zone := g[zone][col := v]];
      var next := if v == INVALID_SIGNAL then samples else samples + 1;
      MeasureShape(next, rs[1..], g', last[zone := v]);
      var m := MeasureFrom(next, rs[1..], g', last[zone := v]);
      assert MeasureFrom(samples, rs, g, last) == m;
      assert forall p | 0 <= p < 4 && p != samples :: Cell(g', p) == Cell(g, p);
      SuffixTransitive(rs, rs[1..], m.rest);
      if m.result == SENSOR_TIMEOUT_ERROR {
        EndedInTimeoutExtends(rs, rs[1..], m.rest);
      }
    }
  }

  /** A successful `measure()` consumed an outcome per remaining sample and filled both pairs with valid readings, and `lastSignal` holds each zone's second sample. */
  lemma MeasureReady(samples: int, rs: seq<Ranging>, g: seq<seq<int>>, last: seq<int>)
    requires 0 <= samples <= 4 && Is2x2(g) && |last| == 2
    ensures var m := MeasureFrom(samples, rs, g, last);
            Is2x2(m.signals) && |m.last| == 2
            && (m.result == READY ==>
                  |m.rest| <= |rs| - (4 - samples)
                  && (forall p | samples <= p < 4 :: Cell(m.signals, p) != INVALID_SIGNAL)
                  && (samples == 3 ==> m.signals[0] == g[0] && m.last[0] == last[0])
                  && (samples <= 3 ==> m.last[1] == m.signals[1][1])
                  && (samples <= 2 ==> m.last[0] == m.signals[0][1]))
  {
    MeasureShape(samples, rs, g, last);
    MeasureValid(samples, rs, g, last);
    MeasureLast(samples, rs, g, last);
  }

  /** A successful `measure()` consumed an outcome per remaining sample and filled them with valid readings. */
  lemma {:induction false} MeasureValid(samples: int, rs: seq<Ranging>, g: seq<seq<int>>, last: seq<int>)
    requires 0 <= samples <= 4 && Is2x2(g) && |last| == 2
    ensures var m := MeasureFrom(samples, rs, g, last);
            Is2x2(m.signals) && (m.result == READY ==>
              |m.rest| <= |rs| - (4 - samples)
              && (forall p | samples <= p < 4 :: Cell(m.signals, p) != INVALID_SIGNAL))
    decreases |rs|
  {
    MeasureShape(samples, rs, g, last);
    if samples < 4 && !(rs == [] || rs[0].TimedOut?) {
      var v := rs[0].signalPerSpad;
      var zone := samples % 2;
      var col := if samples < 2 then 0 else 1;
      var g' := g[zone := g[zone][col := v]];
      var next := if v == INVALID_SIGNAL then samples else samples + 1;
      var last' := last[zone := v];
      MeasureShape(next, rs[1..], g', last');
      MeasureValid(next, rs[1..], g', last');
      var m := MeasureFrom(next, rs[1..], g', last');
      assert MeasureFrom(samples, rs, g, last) == m;
      if m.result == READY && v != INVALID_SIGNAL {
        assert Cell(m.signals, samples) == Cell(g', samples) == v;
      }
    }
  }

  /** After a successful `measure()`, `lastSignal` holds each zone's second sample. */
  lemma {:induction false} MeasureLast(samples: int, rs: seq<Ranging>, g: seq<seq<int>>, last: seq<int>)
    requires 0 <= samples <= 4 && Is2x2(g) && |last| == 2
    ensures var m := MeasureFrom(samples, rs, g, last);
            m.result == READY ==>
              |m.signals| == 2 && |m.signals[0]| == 2 && |m.signals[1]| == 2 && |m.last| == 2
              && (samples == 3 ==> m.signals[0] == g[0] && m.last[0] == last[0])
              && (samples <= 3 ==> m.last[1] == m.signals[1][1])
              && (samples <= 2 ==> m.last[0] == m.signals[0][1])
    decreases |rs|
  {
    if samples < 4 && !(rs == [] || rs[0].TimedOut?) {
      var v := rs[0].signalPerSpad;
      var zone := samples % 2;
      var col := if samples < 2 then 0 else 1;
      var g' := g[zone := g[zone][col := v]];
      var next := if v == INVALID_SIGNAL then samples else samples + 1;
      var last' := last[zone := v];
      MeasureLast(next, rs[1..], g', last');
      var m := MeasureFrom(next, rs[1..], g', last');
      assert MeasureFrom(samples, rs, g, last) == m;
      if m.result == READY && v != INVALID_SIGNAL {
        if samples == 3 {
          assert m.signals == g' && m.last == last';
        } else if samples == 2 {
          assert m.signals[0] == g'[0] && m.last[0] == last'[0];
        }
      }
    }
  }

  /** Both samples beyond the maximum, or both at or below the minimum. */
  predicate ZoneOccupied(s0: int, s1: int, b: Range)
  {
    (s0 > b.max && s1 > b.max) || (s0 <= b.min && s1 <= b.min)
  }

  /**
   * The occupancy state `loop()` accumulates: 1 for an occupied zone 1
   * plus 2 for an occupied zone 2.
   */
  function OccupancyState(g: seq<seq<int>>, b1: Range, b2: Range): (r: int)
    requires Is2x2(g)
    ensures 0 <= r <= 3
    ensures r % 2 == 1 <==> ZoneOccupied(g[0][0], g[0][1], b1)
    ensures r >= 2 <==> ZoneOccupied(g[1][0], g[1][1], b2)
  {
    (if ZoneOccupied(g[0][0], g[0][1], b1) then 1 else 0)
    + (if ZoneOccupied(g[1][0], g[1][1], b2) then 2 else 0)
  }

  /** `detectionState`: 1 when the detection signal lies outside its baseline range. */
  function DetectionState(signal: int, b: Range): u8
  {
    if signal > b.max || signal < b.min then 1 else 0
  }

  /**
   * One calibration sample pair applied to a zone's range, as the two
   * `<` tests and the two `>` tests do it: the smallest range holding the old
   * range and both samples, so the minimum only falls and the maximum only rises.
   */
  function Widen(b: Range, s0: int, s1: int): (r: Range)
    ensures r.min <= b.min && r.min <= s0 && r.min <= s1
    ensures r.min == b.min || r.min == s0 || r.min == s1
    ensures r.max >= b.max && r.max >= s0 && r.max >= s1
    ensures r.max == b.max || r.max == s0 || r.max == s1
  {
    var lo := if s0 < b.min then s0 else b.min;
    var hi := if s0 > b.max then s0 else b.max;
    Range(if s1 < lo then s1 else lo, if s1 > hi then s1 else hi)
  }

  /** A sample the finished range accounts for: below the maximum, and above the minimum unless that was floored. */
  predicate Covers(b: Range, s: int)
  {
    s <= b.max && (b.min == MIN_BASELINE || b.min <= s)
  }

  /** The calibration fold: a range widened by each sample in turn. */
  function WidenAll(b: Range, ss: seq<int>): Range
    decreases |ss|
  {
    if ss == [] then b else Widen(WidenAll(b, ss[..|ss| - 1]), ss[|ss| - 1], ss[|ss| - 1])
  }

  /**
   * The fold yields the smallest range holding the seed range and every
   * sample: each sample lies within it, and each end is the seed's end or
   * one of the samples.
   */
  lemma {:induction false} WidenAllBounds(b: Range, ss: seq<int>)
    ensures var r := WidenAll(b, ss);
            r.min <= b.min && b.max <= r.max && (forall i | 0 <= i < |ss| :: r.min <= ss[i] <= r.max)
    ensures var r := WidenAll(b, ss);
            (r.min == b.min || exists i | 0 <= i < |ss| :: r.min == ss[i])
            && (r.max == b.max || exists i | 0 <= i < |ss| :: r.max == ss[i])
    decreases |ss|
  {
    if ss != [] {
      var front, s := ss[..|ss| - 1], ss[|ss| - 1];
      WidenAllBounds(b, front);
      var w := WidenAll(b, front);
      var r := Widen(w, s, s);
      forall i | 0 <= i < |ss|
        ensures r.min <= ss[i] <= r.max
      {
        if i < |front| {
          assert ss[i] == front[i];
        }
      }
      if r.min != b.min && r.min != s {
        assert r.min == w.min;
        var j :| 0 <= j < |front| && w.min == front[j];
        assert r.min == ss[j];
      }
      if r.max != b.max && r.max != s {
        assert r.max == w.max;
        var j :| 0 <= j < |front| && w.max == front[j];
        assert r.max == ss[j];
      }
    }
  }

  /** Folding in a pair of samples is one step of `Widen`. */
  lemma WidenAllPair(b: Range, ss: seq<int>, s0: int, s1: int)
    ensures WidenAll(b, ss + [s0, s1]) == Widen(WidenAll(b, ss), s0, s1)
  {
    var t := ss + [s0, s1];
    assert t[..|t| - 1] == ss + [s0];
    assert (ss + [s0])[..|ss|] == ss;
  }

  /** Folding in one sample is one step of `Widen` with that sample twice. */
  lemma WidenAllOne(b: Range, ss: seq<int>, s: int)
    ensures WidenAll(b, ss + [s]) == Widen(WidenAll(b, ss), s, s)
  {
    assert (ss + [s])[..|ss|] == ss;
  }

  /** What holds of a sample before the floor: below the maximum, and above the minimum unless that is at most 5. */
  predicate LooselyCovers(b: Range, s: int)
  {
    s <= b.max && (b.min <= s || b.min <= MIN_BASELINE)
  }

  predicate AllLooselyCovered(b: Range, ss: seq<int>)
  {
    forall i | 0 <= i < |ss| :: LooselyCovers(b, ss[i])
  }

  predicate AllCovered(b: Range, ss: seq<int>)
  {
    forall i | 0 <= i < |ss| :: Covers(b, ss[i])
  }

  /** Lines 119-120: a minimum below 5 is raised to 5, leaving room for dark hair. */
  function FloorMin(b: Range): (r: Range)
    ensures r.min >= MIN_BASELINE && r.max == b.max
    ensures b.min >= MIN_BASELINE ==> r == b
  {
    if b.min < MIN_BASELINE then b.(min := MIN_BASELINE) else b
  }

  /** Widening by a pair keeps every earlier sample loosely covered and adds the pair. */
  lemma WidenKeepsLoose(b: Range, ss: seq<int>, s0: int, s1: int)
    requires AllLooselyCovered(b, ss)
    ensures AllLooselyCovered(Widen(b, s0, s1), ss + [s0, s1])
  {
    var r, t := Widen(b, s0, s1), ss + [s0, s1];
    forall i | 0 <= i < |t|
      ensures LooselyCovers(r, t[i])
    {
      if i < |ss| {
        assert t[i] == ss[i] && LooselyCovers(b, ss[i]);
      }
    }
  }

  /** The floor turns loose coverage into the coverage a finished calibration promises. */
  lemma FloorCovers(b: Range, ss: seq<int>)
    requires AllLooselyCovered(b, ss)
    ensures AllCovered(FloorMin(b), ss)
  {
    forall i | 0 <= i < |ss|
      ensures Covers(FloorMin(b), ss[i])
    {
      assert LooselyCovers(b, ss[i]);
    }
  }

  /** Coverage after a finished calibration still counts as loose coverage. */
  lemma CoveredIsLoose(b: Range, ss: seq<int>)
    requires AllCovered(b, ss)
    ensures AllLooselyCovered(b, ss)
  {
    forall i | 0 <= i < |ss|
      ensures LooselyCovers(b, ss[i])
    {
      assert Covers(b, ss[i]);
    }
  }

  /** Lines 142-144: 3 off the minimum and onto the maximum, then the floor of 5. */
  function DetectionFinish(b: Range): (r: Range)
    ensures r.max == b.max + DETECTION_MARGIN && r.min >= MIN_BASELINE
    ensures b.min - DETECTION_MARGIN >= MIN_BASELINE ==> r.min == b.min - DETECTION_MARGIN
  {
    FloorMin(Range(b.min - DETECTION_MARGIN, b.max + DETECTION_MARGIN))
  }

  /** A detection sample before the margins: below the maximum, and above the minimum unless that is under 8. */
  predicate DetectionLoose(b: Range, s: int)
  {
    s <= b.max && (b.min <= s || b.min < MIN_BASELINE + DETECTION_MARGIN)
  }

  /** A detection sample a finished calibration accounts for: 3 inside the maximum, and 3 inside the minimum unless that was floored. */
  predicate DetectionCovers(b: Range, s: int)
  {
    s + DETECTION_MARGIN <= b.max && (b.min == MIN_BASELINE || b.min + DETECTION_MARGIN <= s)
  }

  predicate AllDetectionLoose(b: Range, ss: seq<int>)
  {
    forall i | 0 <= i < |ss| :: DetectionLoose(b, ss[i])
  }

  predicate AllDetectionCovered(b: Range, ss: seq<int>)
  {
    forall i | 0 <= i < |ss| :: DetectionCovers(b, ss[i])
  }

  /** Widening by one sample keeps every earlier detection sample loosely covered and adds the new one. */
  lemma WidenKeepsDetectionLoose(b: Range, ss: seq<int>, s: int)
    requires AllDetectionLoose(b, ss)
    ensures AllDetectionLoose(Widen(b, s, s), ss + [s])
  {
    var r, t := Widen(b, s, s), ss + [s];
    forall i | 0 <= i < |t|
      ensures DetectionLoose(r, t[i])
    {
      if i < |ss| {
        assert t[i] == ss[i] && DetectionLoose(b, ss[i]);
      }
    }
  }

  /** The margins and the floor turn loose coverage into the coverage a finished detection calibration promises. */
  lemma DetectionFinishCovers(b: Range, ss: seq<int>)
    requires AllDetectionLoose(b, ss)
    ensures AllDetectionCovered(DetectionFinish(b), ss)
  {
    forall i | 0 <= i < |ss|
      ensures DetectionCovers(DetectionFinish(b), ss[i])
    {
      assert DetectionLoose(b, ss[i]);
    }
  }

  /** A finished detection range still loosely covers its samples. */
  lemma DetectionCoveredIsLoose(b: Range, ss: seq<int>)
    requires AllDetectionCovered(b, ss)
    ensures AllDetectionLoose(b, ss)
  {
    forall i | 0 <= i < |ss|
      ensures DetectionLoose(b, ss[i])
    {
      assert DetectionCovers(b, ss[i]);
    }
  }

  /** The reading the detection range is seeded from: the first outcome's signal, or the previous one after a timeout. */
  function FirstDetection(rs: seq<Ranging>, previous: int): int
  {
    if rs == [] || rs[0].TimedOut? then previous else rs[0].signalPerSpad
  }

  /**
   * What an occupancy calibration took in since its latest seeding: nothing
   * if its first measurement timed out; otherwise the seeding reading, each
   * zone's samples in the order they widened its range, and whether a
   * nested calibration re-seeded the ranges.
   */
  datatype OccupancyLog = Unseeded | Seeded(first: seq<int>, zone1: seq<int>, zone2: seq<int>, reseeded: bool)

  /** Lines 92-95: the range a zone is seeded with, from the first reading; zone 2's is raised by 5. */
  function OccupancySeed(first: seq<int>, zone: int): (b: Range)
    requires |first| == 2 && 0 <= zone < 2
    ensures b.min == b.max == first[zone] + (if zone == 1 then ZONE2_SEED_OFFSET else 0)
  {
    var s := if zone == 1 then first[1] + ZONE2_SEED_OFFSET else first[0];
    Range(s, s)
  }

  /** Lines 128-129: the detection range is seeded 8 above the first reading. */
  function DetectionSeed(first: int): (b: Range)
    ensures b.min == b.max == first + DETECTION_SEED_OFFSET
  {
    Range(first + DETECTION_SEED_OFFSET, first + DETECTION_SEED_OFFSET)
  }

  /** The same for a detection calibration, which always seeds. */
  datatype DetectionLog = DetectionLog(first: int, samples: seq<int>, reseeded: bool)

  /** The corrected zone test: a sample equal to the calibrated minimum is part of the clear range. */
  predicate ZoneOccupiedIntended(s0: int, s1: int, b: Range)
  {
    (s0 > b.max && s1 > b.max) || (s0 < b.min && s1 < b.min)
  }

  /**
   * With the corrected test, a zone is occupied exactly when both samples
   * leave the clear range [min, max] on the same side, so samples inside
   * the range never count.
   */
  lemma ZoneOccupiedIntendedMeansOutside(s0: int, s1: int, b: Range)
    ensures ZoneOccupiedIntended(s0, s1, b) ==> !(b.min <= s0 <= b.max) && !(b.min <= s1 <= b.max)
    ensures b.min <= s0 <= b.max ==> !ZoneOccupiedIntended(s0, s1, b)
  {
  }

  /**
   * As written, a zone whose clear range is [20, 30] and whose two samples
   * are both 20 (a value seen while calibrating an empty doorway) is
   * reported occupied; the detection test at line 154 treats its minimum as clear.
   */
  lemma ZoneOccupiedAtMinimum()
    ensures ZoneOccupied(20, 20, Range(20, 30)) && !ZoneOccupiedIntended(20, 20, Range(20, 30))
    ensures DetectionState(20, Range(20, 30)) == 0
  {
  }

  /** The sensor singleton with the globals of src/TOF-Sensor/TofSensor.cpp. */
  class TofSensor {
    /** `occupancyBaselines[zone][0]` is the minimum, `[zone][1]` the maximum. */
    const occupancyBaselines: array2<int>
    const zoneSignalPerSpad: array2<int>
    const lastSignal: array<int>
    /** `detectionBaselines[0]` is the minimum, `[1]` the maximum. */
    const detectionBaselines: array<int>
    var lastDetectionSignal: int
    var occupancyState: int
    var numberOfRetries: int
    /** The outcomes the hardware will deliver, in order. */
    var sensor: seq<Ranging>

    predicate Valid()
    {
      occupancyBaselines.Length0 == 2 && occupancyBaselines.Length1 == 2
      && zoneSignalPerSpad.Length0 == 2 && zoneSignalPerSpad.Length1 == 2
      && occupancyBaselines != zoneSignalPerSpad
      && lastSignal.Length == 2 && detectionBaselines.Length == 2
      && lastSignal != detectionBaselines
    }

    /** All globals start at zero. */
    constructor (hardware: seq<Ranging>)
      ensures Valid() && sensor == hardware
      ensures Signals() == [[0, 0], [0, 0]] && LastSignals() == [0, 0]
      ensures ZoneRange(0) == Range(0, 0) && ZoneRange(1) == Range(0, 0) && DetectionRange() == Range(0, 0)
      ensures lastDetectionSignal == 0 && occupancyState == 0 && numberOfRetries == 0
    {
      occupancyBaselines := new int[2, 2]((i, j) => 0);
      zoneSignalPerSpad := new int[2, 2]((i, j) => 0);
      lastSignal := new int[2](i => 0);
      detectionBaselines := new int[2](i => 0);
      lastDetectionSignal := 0;
      occupancyState := 0;
      numberOfRetries := 0;
      sensor := hardware;
    }

    function Signals(): (g: seq<seq<int>>)
      requires Valid()
      reads zoneSignalPerSpad
      ensures Is2x2(g)
    {
      [[zoneSignalPerSpad[0, 0], zoneSignalPerSpad[0, 1]], [zoneSignalPerSpad[1, 0], zoneSignalPerSpad[1, 1]]]
    }

    function LastSignals(): (s: seq<int>)
      requires Valid()
      reads lastSignal
      ensures |s| == 2
    {
      [lastSignal[0], lastSignal[1]]
    }

    function ZoneRange(zone: int): Range
      requires Valid() && 0 <= zone < 2
      reads occupancyBaselines
    {
      Range(occupancyBaselines[zone, 0], occupancyBaselines[zone, 1])
    }

    function DetectionRange(): Range
      requires Valid()
      reads detectionBaselines
    {
      Range(detectionBaselines[0], detectionBaselines[1])
    }

    /** Both samples of both zones lie in their zone's range. */
    predicate SamplesInRange()
      requires Valid()
      reads zoneSignalPerSpad, occupancyBaselines
    {
      var g := Signals();
      ZoneRange(0).min <= g[0][0] <= ZoneRange(0).max && ZoneRange(0).min <= g[0][1] <= ZoneRange(0).max
      && ZoneRange(1).min <= g[1][0] <= ZoneRange(1).max && ZoneRange(1).min <= g[1][1] <= ZoneRange(1).max
    }

    /** What a successful occupancy calibration leaves: floored minimums and ranges covering the last samples. */
    predicate OccupancyCalibrated()
      requires Valid()
      reads zoneSignalPerSpad, occupancyBaselines
    {
      var g := Signals();
      ZoneRange(0).min >= MIN_BASELINE && ZoneRange(1).min >= MIN_BASELINE
      && Covers(ZoneRange(0), g[0][0]) && Covers(ZoneRange(0), g[0][1])
      && Covers(ZoneRange(1), g[1][0]) && Covers(ZoneRange(1), g[1][1])
    }

    /** What a successful detection calibration leaves: a floored minimum and the last signal at least 3 inside the range. */
    predicate DetectionCalibrated()
      requires Valid()
      reads this, detectionBaselines
    {
      var b := DetectionRange();
      b.min >= MIN_BASELINE && lastDetectionSignal + DETECTION_MARGIN <= b.max
      && (b.min == MIN_BASELINE || b.min + DETECTION_MARGIN <= lastDetectionSignal)
    }

    /** `measure()`: four samples, two per occupancy zone. */
    method Measure() returns (result: int)
      requires Valid()
      modifies this`sensor, zoneSignalPerSpad, lastSignal
      ensures var m := MeasureFrom(0, old(sensor), old(Signals()), old(LastSignals()));
              result == m.result && Signals() == m.signals && LastSignals() == m.last && sensor == m.rest
      ensures result == READY || result == SENSOR_TIMEOUT_ERROR
      ensures Suffix(sensor, old(sensor))
      ensures result == READY ==> |sensor| <= |old(sensor)| - 4
      ensures result == SENSOR_TIMEOUT_ERROR ==> EndedInTimeout(old(sensor), sensor)
    {
      ghost var m0 := MeasureFrom(0, sensor, Signals(), LastSignals());
      MeasureOutcome(0, sensor, Signals(), LastSignals());
      var samples := 0;
      while samples < 4
        invariant 0 <= samples <= 4
        invariant MeasureFrom(samples, sensor, Signals(), LastSignals()) == m0
        decreases |sensor|
      {
        if sensor == [] || sensor[0].TimedOut? {
          sensor := Consume(sensor);
          return SENSOR_TIMEOUT_ERROR;
        }
        ghost var g0, l0 := Signals(), LastSignals();
        var v := sensor[0].signalPerSpad;
        sensor := sensor[1..];
        var zone := samples % 2;
        var col := if samples < 2 then 0 else 1;
        lastSignal[zone] := v;
        zoneSignalPerSpad[zone, col] := lastSignal[zone];
        assert LastSignals() == l0[zone := v] by {
          assert lastSignal[zone] == v && lastSignal[1 - zone] == l0[1 - zone];
        }
        assert Signals() == g0[zone := g0[zone][col := v]] by {
          var g1 := g0[zone := g0[zone][col := v]];
          assert zoneSignalPerSpad[zone, col] == v && zoneSignalPerSpad[zone, 1 - col] == g0[zone][1 - col];
          assert zoneSignalPerSpad[1 - zone, 0] == g0[1 - zone][0] && zoneSignalPerSpad[1 - zone, 1] == g0[1 - zone][1];
          assert Signals()[zone] == g1[zone];
          assert Signals()[1 - zone] == g1[1 - zone];
        }
        if zoneSignalPerSpad[zone, col] == INVALID_SIGNAL {
          // `samples--; continue;`: the for loop's increment brings it back
          continue;
        }
        samples := samples + 1;
      }
      return READY;
    }

    /** `detect()`: one sample of the detection zone. */
    method Detect() returns (result: int)
      modifies this`sensor, this`lastDetectionSignal
      ensures sensor == Consume(old(sensor))
      ensures if old(sensor) == [] || old(sensor)[0].TimedOut?
              then result == SENSOR_TIMEOUT_ERROR && lastDetectionSignal == old(lastDetectionSignal)
              else result == READY && lastDetectionSignal == old(sensor)[0].signalPerSpad
    {
      if sensor == [] || sensor[0].TimedOut? {
        sensor := Consume(sensor);
        return SENSOR_TIMEOUT_ERROR;
      }
      lastDetectionSignal := sensor[0].signalPerSpad;
      sensor := sensor[1..];
      return READY;
    }

    /**
     * `loop()`: in detection mode sample the detection zone and set
     * `detectionState`; otherwise measure both occupancy zones and rebuild
     * `occupancyState`. The classification uses whatever the arrays hold,
     * also after a timeout.
     */
    method Loop(cur: CurrentStatusData) returns (result: int)
      requires Valid()
      modifies this`sensor, this`occupancyState, this`lastDetectionSignal, zoneSignalPerSpad, lastSignal, cur`current
      ensures result == READY || result == SENSOR_TIMEOUT_ERROR
      ensures old(cur.current.detectionMode) ==>
                sensor == Consume(old(sensor)) && occupancyState == old(occupancyState)
                && Signals() == old(Signals()) && LastSignals() == old(LastSignals())
                && (result == READY <==> old(sensor) != [] && old(sensor)[0].DataReady?)
                && (result == READY ==> lastDetectionSignal == old(sensor)[0].signalPerSpad)
                && (result != READY ==> lastDetectionSignal == old(lastDetectionSignal))
                && cur.current == old(cur.current).(detectionState := DetectionState(lastDetectionSignal, DetectionRange()))
                && (cur.current.detectionState == 1 <==> !(DetectionRange().min <= lastDetectionSignal <= DetectionRange().max))
      ensures !old(cur.current.detectionMode) ==>
                var m := MeasureFrom(0, old(sensor), old(Signals()), old(LastSignals()));
                result == m.result && Signals() == m.signals && LastSignals() == m.last && sensor == m.rest
                && lastDetectionSignal == old(lastDetectionSignal) && cur.current == old(cur.current)
                && occupancyState == OccupancyState(Signals(), ZoneRange(0), ZoneRange(1))
    {
      if cur.current.detectionMode {
        result := Detect();
        cur.current := cur.current.(detectionState := DetectionState(lastDetectionSignal, DetectionRange()));
      } else {
        occupancyState := 0;
        result := Measure();
        occupancyState := occupancyState + (if ZoneOccupied(zoneSignalPerSpad[0, 0], zoneSignalPerSpad[0, 1], ZoneRange(0)) then 1 else 0);
        occupancyState := occupancyState + (if ZoneOccupied(zoneSignalPerSpad[1, 0], zoneSignalPerSpad[1, 1], ZoneRange(1)) then 2 else 0);
      }
    }

    /** Lines 92-95: the first reading becomes both ends of each zone's range, zone 2 raised by 5. */
    method SeedOccupancyBaselines()
      requires Valid()
      modifies occupancyBaselines
      ensures ZoneRange(0) == Range(lastSignal[0], lastSignal[0])
      ensures ZoneRange(1) == Range(lastSignal[1] + ZONE2_SEED_OFFSET, lastSignal[1] + ZONE2_SEED_OFFSET)
    {
      occupancyBaselines[0, 0] := lastSignal[0];
      occupancyBaselines[0, 1] := lastSignal[0];
      occupancyBaselines[1, 0] := lastSignal[1] + ZONE2_SEED_OFFSET;
      occupancyBaselines[1, 1] := lastSignal[1] + ZONE2_SEED_OFFSET;
    }

    /**
     * Lines 108-116: both zones' ranges take in the four samples just
     * measured. The source lowers both minimums before raising both
     * maximums; the zones are independent, so zone by zone is the same.
     */
    method WidenOccupancyBaselines()
      requires Valid()
      modifies occupancyBaselines
      ensures ZoneRange(0) == Widen(old(ZoneRange(0)), Signals()[0][0], Signals()[0][1])
      ensures ZoneRange(1) == Widen(old(ZoneRange(1)), Signals()[1][0], Signals()[1][1])
      ensures SamplesInRange()
    {
      WidenZone(0);
      WidenZone(1);
    }

    /** One zone's two `<` tests and two `>` tests. */
    method WidenZone(zone: int)
      requires Valid() && 0 <= zone < 2
      modifies occupancyBaselines
      ensures ZoneRange(zone) == Widen(old(ZoneRange(zone)), Signals()[zone][0], Signals()[zone][1])
      ensures ZoneRange(1 - zone) == old(ZoneRange(1 - zone))
    {
      if zoneSignalPerSpad[zone, 0] < occupancyBaselines[zone, 0] { occupancyBaselines[zone, 0] := zoneSignalPerSpad[zone, 0]; }
      if zoneSignalPerSpad[zone, 1] < occupancyBaselines[zone, 0] { occupancyBaselines[zone, 0] := zoneSignalPerSpad[zone, 1]; }
      if zoneSignalPerSpad[zone, 0] > occupancyBaselines[zone, 1] { occupancyBaselines[zone, 1] := zoneSignalPerSpad[zone, 0]; }
      if zoneSignalPerSpad[zone, 1] > occupancyBaselines[zone, 1] { occupancyBaselines[zone, 1] := zoneSignalPerSpad[zone, 1]; }
    }

    /** True when any of the four samples reaches CALIBRATION_SIGNAL_RETRY_THRESHOLD (someone is in the doorway). */
    predicate ZoneNotClear()
      requires Valid()
      reads zoneSignalPerSpad
    {
      zoneSignalPerSpad[0, 0] >= CALIBRATION_SIGNAL_RETRY_THRESHOLD || zoneSignalPerSpad[1, 0] >= CALIBRATION_SIGNAL_RETRY_THRESHOLD
      || zoneSignalPerSpad[0, 1] >= CALIBRATION_SIGNAL_RETRY_THRESHOLD || zoneSignalPerSpad[1, 1] >= CALIBRATION_SIGNAL_RETRY_THRESHOLD
    }

    /**
     * `performOccupancyCalibration()`. A sample pair at or over the retry
     * threshold starts the whole calibration again from the inside, whose
     * result is ignored, and the outer loop then carries on widening the
     * ranges the inner run left. Without such a re-seed, a successful run
     * leaves each zone's range as the fold of its 50 samples over the seed
     * (zone 2's seed raised by 5), with the minimum floored at 5.
     */
    method PerformOccupancyCalibration() returns (ok: bool, ghost log: OccupancyLog)
      requires Valid()
      modifies this`sensor, zoneSignalPerSpad, lastSignal, occupancyBaselines
      ensures Suffix(sensor, old(sensor))
      ensures !ok ==> EndedInTimeout(old(sensor), sensor)
      ensures log.Unseeded? ==> !ok && ZoneRange(0) == old(ZoneRange(0)) && ZoneRange(1) == old(ZoneRange(1))
      ensures log.Seeded? ==> |log.first| == 2
      ensures log.Seeded? && !ok ==>
                AllLooselyCovered(ZoneRange(0), log.zone1) && AllLooselyCovered(ZoneRange(1), log.zone2)
      ensures ok ==> log.Seeded? && OccupancyCalibrated()
                     && AllCovered(ZoneRange(0), log.zone1) && AllCovered(ZoneRange(1), log.zone2)
      ensures log.Seeded? && !log.reseeded ==>
                var w1, w2 := WidenAll(OccupancySeed(log.first, 0), log.zone1), WidenAll(OccupancySeed(log.first, 1), log.zone2);
                log.first == MeasureFrom(0, old(sensor), old(Signals()), old(LastSignals())).last
                && ZoneRange(0) == (if ok then FloorMin(w1) else w1)
                && ZoneRange(1) == (if ok then FloorMin(w2) else w2)
      ensures ok && !log.reseeded ==>
                |log.zone1| == 2 * NUM_OCCUPANCY_CALIBRATION_LOOPS && |log.zone2| == 2 * NUM_OCCUPANCY_CALIBRATION_LOOPS
      decreases |sensor|, 1
    {
      var r := Measure();
      if r == SENSOR_TIMEOUT_ERROR {
        ok, log := false, Unseeded;
        return;
      }
      SeedOccupancyBaselines();
      ghost var first := LastSignals();
      log := Seeded(first, [], [], false);
      for i := 0 to NUM_OCCUPANCY_CALIBRATION_LOOPS
        invariant Suffix(sensor, old(sensor)) && |sensor| < |old(sensor)|
        invariant i > 0 ==> SamplesInRange()
        invariant log.Seeded? && |log.first| == 2
        invariant AllLooselyCovered(ZoneRange(0), log.zone1) && AllLooselyCovered(ZoneRange(1), log.zone2)
        invariant !log.reseeded ==>
                    log.first == first && |log.zone1| == 2 * i && |log.zone2| == 2 * i
                    && ZoneRange(0) == WidenAll(OccupancySeed(first, 0), log.zone1)
                    && ZoneRange(1) == WidenAll(OccupancySeed(first, 1), log.zone2)
      {
        ghost var before := sensor;
        var roundOk;
        roundOk, log := OccupancyRound(first, log);
        if !roundOk {
          EndedInTimeoutExtends(old(sensor), before, sensor);
          ok := false;
          return;
        }
        SuffixTransitive(old(sensor), before, sensor);
      }
      ghost var b1, b2 := ZoneRange(0), ZoneRange(1);
      if occupancyBaselines[0, 0] < MIN_BASELINE { occupancyBaselines[0, 0] := MIN_BASELINE; }
      if occupancyBaselines[1, 0] < MIN_BASELINE { occupancyBaselines[1, 0] := MIN_BASELINE; }
      assert ZoneRange(0) == FloorMin(b1) && ZoneRange(1) == FloorMin(b2);
      FloorCovers(b1, log.zone1);
      FloorCovers(b2, log.zone2);
      ok := true;
    }

    /**
     * Lines 97-116, one pass of the calibration loop: measure, re-run the
     * whole calibration if the doorway is not clear, then widen both ranges
     * by the samples the arrays now hold. `log0` is what the ranges took in
     * so far and `first` the reading the outer run was seeded from.
     */
    method OccupancyRound(ghost first: seq<int>, ghost log0: OccupancyLog) returns (ok: bool, ghost log: OccupancyLog)
      requires Valid() && |first| == 2 && log0.Seeded? && |log0.first| == 2
      requires AllLooselyCovered(ZoneRange(0), log0.zone1) && AllLooselyCovered(ZoneRange(1), log0.zone2)
      requires !log0.reseeded ==>
                 log0.first == first
                 && ZoneRange(0) == WidenAll(OccupancySeed(first, 0), log0.zone1)
                 && ZoneRange(1) == WidenAll(OccupancySeed(first, 1), log0.zone2)
      modifies this`sensor, zoneSignalPerSpad, lastSignal, occupancyBaselines
      ensures Suffix(sensor, old(sensor))
      ensures !ok ==>
                EndedInTimeout(old(sensor), sensor) && log == log0
                && ZoneRange(0) == old(ZoneRange(0)) && ZoneRange(1) == old(ZoneRange(1))
      ensures ok ==> |sensor| < |old(sensor)| && SamplesInRange()
      ensures log.Seeded? && |log.first| == 2
      ensures AllLooselyCovered(ZoneRange(0), log.zone1) && AllLooselyCovered(ZoneRange(1), log.zone2)
      ensures ok && !log.reseeded ==>
                !log0.reseeded && log.first == first
                && |log.zone1| == |log0.zone1| + 2 && |log.zone2| == |log0.zone2| + 2
                && ZoneRange(0) == WidenAll(OccupancySeed(first, 0), log.zone1)
                && ZoneRange(1) == WidenAll(OccupancySeed(first, 1), log.zone2)
      decreases |sensor|, 0
    {
      log := log0;
      var r := Measure();
      if r == SENSOR_TIMEOUT_ERROR {
        ok := false;
        return;
      }
      if ZoneNotClear() {
        ghost var mid := sensor;
        var _, inner := PerformOccupancyCalibration();
        SuffixTransitive(old(sensor), mid, sensor);
        if inner.Seeded? {
          log := inner.(reseeded := true);
        }
      }
      ghost var b1, b2 := ZoneRange(0), ZoneRange(1);
      WidenOccupancyBaselines();
      ghost var g := Signals();
      WidenKeepsLoose(b1, log.zone1, g[0][0], g[0][1]);
      WidenKeepsLoose(b2, log.zone2, g[1][0], g[1][1]);
      WidenAllPair(OccupancySeed(first, 0), log.zone1, g[0][0], g[0][1]);
      WidenAllPair(OccupancySeed(first, 1), log.zone2, g[1][0], g[1][1]);
      log := log.(zone1 := log.zone1 + [g[0][0], g[0][1]], zone2 := log.zone2 + [g[1][0], g[1][1]]);
      ok := true;
    }

    /**
     * `performDetectionCalibration()`: seeded 8 above a first reading whose
     * timeout is ignored, widened by each sample, then by 3 on each side and
     * floored at 5. A sample at or over the retry threshold runs the whole
     * calibration again from the inside, and the outer loop carries on from
     * the range it left.
     */
    method PerformDetectionCalibration() returns (ok: bool, ghost log: DetectionLog)
      requires Valid()
      modifies this`sensor, this`lastDetectionSignal, detectionBaselines
      ensures Suffix(sensor, old(sensor))
      ensures !ok ==> EndedInTimeout(old(sensor), sensor)
      ensures !ok ==> AllDetectionLoose(DetectionRange(), log.samples)
      ensures ok ==> DetectionCalibrated() && AllDetectionCovered(DetectionRange(), log.samples)
      ensures !log.reseeded ==>
                var w := WidenAll(DetectionSeed(log.first), log.samples);
                log.first == FirstDetection(old(sensor), old(lastDetectionSignal))
                && DetectionRange() == (if ok then DetectionFinish(w) else w)
      ensures ok && !log.reseeded ==> |log.samples| == NUM_DETECTION_CALIBRATION_LOOPS
      decreases |sensor|, 1
    {
      var r := Detect();
      ghost var first := lastDetectionSignal;
      assert first == FirstDetection(old(sensor), old(lastDetectionSignal));
      SeedDetectionBaselines();
      log := DetectionLog(first, [], false);
      for i := 0 to NUM_DETECTION_CALIBRATION_LOOPS
        invariant Suffix(sensor, old(sensor))
        invariant i > 0 ==> |sensor| < |old(sensor)| && DetectionRange().min <= lastDetectionSignal <= DetectionRange().max
        invariant AllDetectionLoose(DetectionRange(), log.samples)
        invariant !log.reseeded ==>
                    log.first == first && |log.samples| == i && DetectionRange() == WidenAll(DetectionSeed(first), log.samples)
      {
        ghost var before := sensor;
        var roundOk;
        roundOk, log := DetectionRound(first, log);
        if !roundOk {
          EndedInTimeoutExtends(old(sensor), before, sensor);
          ok := false;
          return;
        }
        SuffixTransitive(old(sensor), before, sensor);
      }
      ghost var b := DetectionRange();
      FinishDetectionBaselines();
      DetectionFinishCovers(b, log.samples);
      ok := true;
    }

    /**
     * Lines 131-140, one pass of the detection calibration loop: read, re-run
     * the whole calibration if the zone is not clear, then widen the range by
     * the signal now held. `log0` is what the range took in so far and
     * `first` the reading the outer run was seeded from.
     */
    method DetectionRound(ghost first: int, ghost log0: DetectionLog) returns (ok: bool, ghost log: DetectionLog)
      requires Valid() && AllDetectionLoose(DetectionRange(), log0.samples)
      requires !log0.reseeded ==> log0.first == first && DetectionRange() == WidenAll(DetectionSeed(first), log0.samples)
      modifies this`sensor, this`lastDetectionSignal, detectionBaselines
      ensures Suffix(sensor, old(sensor))
      ensures !ok ==> EndedInTimeout(old(sensor), sensor) && log == log0 && DetectionRange() == old(DetectionRange())
      ensures ok ==> |sensor| < |old(sensor)| && DetectionRange().min <= lastDetectionSignal <= DetectionRange().max
      ensures AllDetectionLoose(DetectionRange(), log.samples)
      ensures ok && !log.reseeded ==>
                !log0.reseeded && log.first == first && |log.samples| == |log0.samples| + 1
                && DetectionRange() == WidenAll(DetectionSeed(first), log.samples)
      decreases |sensor|, 0
    {
      log := log0;
      var r := Detect();
      if r == SENSOR_TIMEOUT_ERROR {
        ok := false;
        return;
      }
      if lastDetectionSignal >= CALIBRATION_SIGNAL_RETRY_THRESHOLD {
        ghost var mid := sensor;
        var innerOk, inner := PerformDetectionCalibration();
        SuffixTransitive(old(sensor), mid, sensor);
        if innerOk {
          DetectionCoveredIsLoose(DetectionRange(), inner.samples);
        }
        log := inner.(reseeded := true);
      }
      ghost var b := DetectionRange();
      ghost var s := lastDetectionSignal;
      WidenDetectionBaselines();
      WidenKeepsDetectionLoose(b, log.samples, s);
      WidenAllOne(DetectionSeed(first), log.samples, s);
      log := log.(samples := log.samples + [s]);
      ok := true;
    }

    /** Lines 128-129: the first reading, raised by 8, becomes both ends of the detection range. */
    method SeedDetectionBaselines()
      requires Valid()
      modifies detectionBaselines
      ensures DetectionRange() == DetectionSeed(lastDetectionSignal)
    {
      detectionBaselines[0] := lastDetectionSignal + DETECTION_SEED_OFFSET;
      detectionBaselines[1] := lastDetectionSignal + DETECTION_SEED_OFFSET;
    }

    /** Lines 139-140: the detection range takes in the sample just read. */
    method WidenDetectionBaselines()
      requires Valid()
      modifies detectionBaselines
      ensures DetectionRange() == Widen(old(DetectionRange()), lastDetectionSignal, lastDetectionSignal)
    {
      if lastDetectionSignal < detectionBaselines[0] { detectionBaselines[0] := lastDetectionSignal; }
      if lastDetectionSignal > detectionBaselines[1] { detectionBaselines[1] := lastDetectionSignal; }
    }

    /** Lines 142-144: the margins of 3 and the floor of 5. */
    method FinishDetectionBaselines()
      requires Valid()
      modifies detectionBaselines
      ensures DetectionRange() == DetectionFinish(old(DetectionRange()))
    {
      detectionBaselines[0] := detectionBaselines[0] - DETECTION_MARGIN;
      detectionBaselines[1] := detectionBaselines[1] + DETECTION_MARGIN;
      if detectionBaselines[0] < MIN_BASELINE { detectionBaselines[0] := MIN_BASELINE; }
    }

    /**
     * `setup()`: `beginStatus` is what the driver's `begin()` returned. A
     * failed begin raises alert 3; the third consecutive one gives up at
     * once, the others carry on. The buffer-fill wait calls `measure()` once,
     * since that never returns SENSOR_BUFFRER_NOT_FULL. Any calibration
     * failure raises alert 3 and returns false.
     */
    method Setup(beginStatus: int, sys: SysStatusData) returns (ok: bool)
      requires Valid()
      modifies this`sensor, this`numberOfRetries, this`lastDetectionSignal
      modifies zoneSignalPerSpad, lastSignal, occupancyBaselines, detectionBaselines, sys`sysStatus
      ensures beginStatus != 0 && old(numberOfRetries) == MAX_INIT_RETRIES ==> !ok && sensor == old(sensor)
      ensures numberOfRetries == if beginStatus != 0 && old(numberOfRetries) != MAX_INIT_RETRIES then old(numberOfRetries) + 1 else old(numberOfRetries)
      ensures sys.sysStatus == if beginStatus != 0 || !ok then old(sys.sysStatus).(alertCodeNode := SENSOR_ALERT) else old(sys.sysStatus)
      ensures ok ==> OccupancyCalibrated() && DetectionCalibrated()
      ensures Suffix(sensor, old(sensor))
    {
      if beginStatus != 0 {
        if numberOfRetries == MAX_INIT_RETRIES {
          sys.sysStatus := sys.sysStatus.(alertCodeNode := SENSOR_ALERT);
          return false;
        } else {
          sys.sysStatus := sys.sysStatus.(alertCodeNode := SENSOR_ALERT);
        }
        numberOfRetries := numberOfRetries + 1;
      }
      var filled := Measure();
      ghost var mid := sensor;
      var occupancyOk, _ := PerformOccupancyCalibration();
      SuffixTransitive(old(sensor), mid, sensor);
      if occupancyOk {
        mid := sensor;
        var detectionOk, _ := PerformDetectionCalibration();
        SuffixTransitive(old(sensor), mid, sensor);
        if detectionOk {
          return true;
        }
      }
      sys.sysStatus := sys.sysStatus.(alertCodeNode := SENSOR_ALERT);
      return false;
    }

    /** `recalibrate()`: the occupancy calibration only; a failure raises alert 3. */
    method Recalibrate(sys: SysStatusData) returns (ok: bool)
      requires Valid()
      modifies this`sensor, zoneSignalPerSpad, lastSignal, occupancyBaselines, sys`sysStatus
      ensures ok ==> OccupancyCalibrated()
      ensures sys.sysStatus == if ok then old(sys.sysStatus) else old(sys.sysStatus).(alertCodeNode := SENSOR_ALERT)
      ensures !ok ==> EndedInTimeout(old(sensor), sensor)
    {
      ghost var log;
      ok, log := PerformOccupancyCalibration();
      if !ok {
        sys.sysStatus := sys.sysStatus.(alertCodeNode := SENSOR_ALERT);
      }
    }
  }
}
