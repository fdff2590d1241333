/**
 * What the firmware sees of the VL53L1X time-of-flight driver: each ranging
 * either delivers a signal rate per SPAD (a `uint16_t`) or never reports
 * data-ready within SENSOR_TIMEOUT. The driver itself is foreign code; a
 * sensor is modelled as the finite sequence of outcomes it will produce,
 * consumed front first, and an exhausted sequence never becomes ready again.
 */
module SensorDriver {
  import opened Bytes

  datatype Ranging = DataReady(signalPerSpad: u16) | TimedOut

  /**
   * The error codes come from ErrorCodes.h, which is not part of this model.
   * All that the code relies on is that they differ from the success value 1
   * and from the "no change" value 0; these stand-ins do.
   */
  const SENSOR_TIMEOUT_ERROR: int := -1
  const SENSOR_BUFFRER_NOT_FULL: int := -2

  /** The value `measure()` and `detect()` return after `ready = 0; return ++ready`. */
  const READY: int := 1

  /** `rest` is what remains of `rs` after some outcomes were consumed. */
  predicate Suffix(rest: seq<Ranging>, rs: seq<Ranging>)
  {
    |rest| <= |rs| && rest == rs[|rs| - |rest|..]
  }

  /**
   * Going from `rs` to `rest`, the last outcome consumed was a timeout, or the
   * sensor has nothing left (it then never reports data-ready).
   */
  predicate EndedInTimeout(rs: seq<Ranging>, rest: seq<Ranging>)
  {
    Suffix(rest, rs) && (rest == [] || (|rest| < |rs| && rs[|rs| - |rest| - 1].TimedOut?))
  }

  /** Consuming one outcome of a sensor: nothing when it is exhausted. */
  function Consume(rs: seq<Ranging>): (rest: seq<Ranging>)
    ensures Suffix(rest, rs)
    ensures rs != [] ==> |rest| == |rs| - 1
  {
    if rs == [] then [] else rs[1..]
  }

  /** Consuming a suffix of a suffix consumes a suffix. */
  lemma {:induction false} SuffixTransitive(rs: seq<Ranging>, mid: seq<Ranging>, rest: seq<Ranging>)
    requires Suffix(mid, rs) && Suffix(rest, mid)
    ensures Suffix(rest, rs)
  {
    assert rest == mid[|mid| - |rest|..];
    assert forall i | 0 <= i < |rest| :: rest[i] == rs[|rs| - |rest| + i];
  }

  /** A timeout at the end of the later part of a run is a timeout at the end of the whole run. */
  lemma {:induction false} EndedInTimeoutExtends(rs: seq<Ranging>, mid: seq<Ranging>, rest: seq<Ranging>)
    requires Suffix(mid, rs) && EndedInTimeout(mid, rest)
    ensures EndedInTimeout(rs, rest)
  {
    SuffixTransitive(rs, mid, rest);
    if rest != [] {
      assert mid[|mid| - |rest| - 1] == rs[|rs| - |mid| + (|mid| - |rest| - 1)];
    }
  }
}
