/**
 * The accelerometer asset (src/Assets/Accelerometer/Accelerometer.cpp): a
 * tap interrupt marks the space occupied, and an occupancy period stays open
 * until `debounceMin` minutes have passed since it began; closing the period
 * records its length in seconds as the gross occupancy. The two static
 * locals of `readData` are the fields of the singleton. The tap interrupt
 * pin, the clock and the result of `accel.begin` are parameters.
 */
module Accelerometer {
  import opened Bytes
  import opened MyData

  /** The static locals of `readData`: is a period open, and when did it start. */
  datatype Period = Period(lastOccupancyState: bool, occupancyPeriodStart: int)

  /** What `readData` changes: the period, the `current` record and its dirty flag. */
  datatype Reading = Reading(period: Period, current: CurrentData, changed: bool)

  /** A period is over once more than `debounceMin` minutes have passed since it began. */
  predicate Expired(p: Period, now: int, debounceMin: u8)
  {
    now - p.occupancyPeriodStart > debounceMin as int * 60
  }

  /** Lines 54-81: one call of `readData` at time `now` with the interrupt pin at `pinHigh`. */
  function ReadStep(r: Reading, pinHigh: bool, now: int, debounceMin: u8): Reading
  {
    var c := if pinHigh then r.current.(occupancyNet := 1) else r.current;
    if c.occupancyNet != 1 then r.(current := c)
    else if !r.period.lastOccupancyState then
      r.(period := Period(true, now), current := c)
    else if Expired(r.period, now, debounceMin) then
      Reading(Period(false, r.period.occupancyPeriodStart),
              c.(occupancyNet := 0, occupancyGross := U16(now - r.period.occupancyPeriodStart)),
              true)
    else r.(current := c)
  }

  /** A tap with no period open starts one now; gross occupancy and the dirty flag are untouched. */
  lemma TapOpensPeriod(r: Reading, now: int, debounceMin: u8)
    requires !r.period.lastOccupancyState
    ensures var n := ReadStep(r, true, now, debounceMin);
            n.period == Period(true, now) && n.current == r.current.(occupancyNet := 1) && n.changed == r.changed
  {
  }

  /**
   * An open period closes at the first call after its debounce window: net
   * goes back to 0, gross becomes the period's length in seconds (kept in
   * 16 bits) and the record is marked for saving.
   */
  lemma ExpiredPeriodCloses(r: Reading, pinHigh: bool, now: int, debounceMin: u8)
    requires r.period.lastOccupancyState && (pinHigh || r.current.occupancyNet == 1)
    requires Expired(r.period, now, debounceMin)
    ensures var n := ReadStep(r, pinHigh, now, debounceMin);
            !n.period.lastOccupancyState && n.changed
            && n.current.occupancyNet == 0
            && n.current.occupancyGross == U16(now - r.period.occupancyPeriodStart)
            && (now - r.period.occupancyPeriodStart < 0x1_0000 ==>
                  n.current.occupancyGross as int == now - r.period.occupancyPeriodStart)
            && n.current.occupancyState == r.current.occupancyState
  {
  }

  /** Inside an open, unexpired period nothing is counted: at most the net flag is raised by a tap. */
  lemma OpenPeriodHolds(r: Reading, pinHigh: bool, now: int, debounceMin: u8)
    requires r.period.lastOccupancyState && !Expired(r.period, now, debounceMin)
    ensures var n := ReadStep(r, pinHigh, now, debounceMin);
            n.period == r.period && n.changed == r.changed
            && n.current.occupancyGross == r.current.occupancyGross
            && n.current == (if pinHigh then r.current.(occupancyNet := 1) else r.current)
  {
  }

  /** Without a tap and without occupancy, nothing at all changes, even with a period open. */
  lemma QuietWithoutOccupancy(r: Reading, now: int, debounceMin: u8)
    requires r.current.occupancyNet != 1
    ensures ReadStep(r, false, now, debounceMin) == r
  {
  }

  /** The net occupancy stays a flag: 0 or 1 before a call means 0 or 1 after it. */
  lemma NetStaysAFlag(r: Reading, pinHigh: bool, now: int, debounceMin: u8)
    requires r.current.occupancyNet <= 1
    ensures ReadStep(r, pinHigh, now, debounceMin).current.occupancyNet <= 1
  {
  }

  /**
   * A tap followed by calls with no further tap: the period opened at `t0`
   * closes at `t1` if and only if more than `debounceMin` minutes separate
   * them, and then records `t1 - t0` seconds.
   */
  lemma {:induction false} TapThenWait(r: Reading, t0: int, t1: int, debounceMin: u8)
    requires !r.period.lastOccupancyState && 0 <= t1 - t0 < 0x1_0000
    ensures var n1 := ReadStep(r, true, t0, debounceMin);
            var n2 := ReadStep(n1, false, t1, debounceMin);
            (!n2.period.lastOccupancyState <==> t1 - t0 > debounceMin as int * 60)
            && (!n2.period.lastOccupancyState ==> n2.current.occupancyGross as int == t1 - t0 && n2.current.occupancyNet == 0)
  {
    var n1 := ReadStep(r, true, t0, debounceMin);
    TapOpensPeriod(r, t0, debounceMin);
    if t1 - t0 > debounceMin as int * 60 {
      ExpiredPeriodCloses(n1, false, t1, debounceMin);
    } else {
      OpenPeriodHolds(n1, false, t1, debounceMin);
    }
  }

  /** The `Accelerometer` singleton; its fields are the static locals of `readData`. */
  class Accelerometer {
    var lastOccupancyState: bool
    var occupancyPeriodStart: int

    /** The statics start out with no period open, begun at time 0. */
    constructor ()
      ensures !lastOccupancyState && occupancyPeriodStart == 0
    {
      lastOccupancyState := false;
      occupancyPeriodStart := 0;
    }

    /**
     * `setup()`: when the accelerometer does not begin, report failure and
     * change nothing; otherwise set the tap sensitivity to 1 and succeed.
     */
    method Setup(begins: bool, sys: SysStatusData) returns (ok: bool)
      modifies sys`sysStatus
      ensures ok == begins
      ensures sys.sysStatus == if begins then old(sys.sysStatus).(sensitivity := 1) else old(sys.sysStatus)
    {
      if !begins {
        return false;
      }
      sys.sysStatus := sys.sysStatus.(sensitivity := 1);
      return true;
    }

    /** `readData()`: always reports success. */
    method ReadData(pinHigh: bool, now: int, sys: SysStatusData, cur: CurrentStatusData) returns (ok: bool)
      modifies this, cur`current, cur`currentDataChanged
      ensures ok
      ensures Reading(Period(lastOccupancyState, occupancyPeriodStart), cur.current, cur.currentDataChanged)
              == ReadStep(Reading(Period(old(lastOccupancyState), old(occupancyPeriodStart)), old(cur.current),
                                  old(cur.currentDataChanged)),
                          pinHigh, now, sys.sysStatus.debounceMin)
    {
      if pinHigh {
        cur.current := cur.current.(occupancyNet := 1);
      }
      if cur.current.occupancyNet == 1 {
        if !lastOccupancyState {
          lastOccupancyState := true;
          occupancyPeriodStart := now;
        } else if lastOccupancyState && now - occupancyPeriodStart > sys.sysStatus.debounceMin as int * 60 {
          lastOccupancyState := false;
          cur.current := cur.current.(occupancyNet := 0);
          cur.current := cur.current.(occupancyGross := U16(now - occupancyPeriodStart));
          cur.currentDataChanged := true;
        }
      }
      return true;
    }
  }
}
