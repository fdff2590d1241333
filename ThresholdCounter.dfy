/**
 * The older people counter (src/PeopleCounter.cpp): a recogniser over the
 * two-zone occupancy state that remembers the last single-zone state seen
 * and whether both zones were occupied since (`atTheThreshold`). Passing
 * 2 -> 3 -> 1 counts a person in; passing 1 -> 3 -> 2 counts one out.
 * It is built with TENFOOTDISPLAY on, the branch that compiles.
 */
module ThresholdCounter {
  import opened Bytes
  import opened MyData

  /** The two function-level statics of `loop`. */
  datatype Memory = Memory(oldOccupancyState: int, atTheThreshold: bool)

  /** What one pass of `loop` leaves: the statics and the current record. */
  datatype Stepped = Stepped(memory: Memory, current: CurrentData)

  /**
   * One pass of the switch at lines 39-78 for the sensor's `reading`, which
   * is first stored in `current.occupancyState`. The counts are `uint16_t`.
   */
  function Step(m: Memory, reading: u8, c0: CurrentData): Stepped
  {
    var c := c0.(occupancyState := reading);
    if reading == 0 then Stepped(Memory(0, false), c)
    else if reading == 1 then
      var c' := if m.atTheThreshold && m.oldOccupancyState == 2
                then c.(occupancyGross := U16(c.occupancyGross + 1), occupancyNet := U16(c.occupancyNet + 1))
                else c;
      Stepped(Memory(1, false), c')
    else if reading == 2 then
      var c' := if m.atTheThreshold && m.oldOccupancyState == 1 && c.occupancyNet > 0
                then c.(occupancyNet := c.occupancyNet - 1, occupancyGross := U16(c.occupancyGross - 1))
                else c;
      Stepped(Memory(2, false), c')
    else if reading == 3 then Stepped(m.(atTheThreshold := true), c)
    else Stepped(m, c)
  }

  /** State 0 forgets the path and touches no count. */
  lemma EmptyResets(m: Memory, c: CurrentData)
    ensures var r := Step(m, 0, c);
            r.memory == Memory(0, false)
            && r.current.occupancyNet == c.occupancyNet && r.current.occupancyGross == c.occupancyGross
  {
  }

  /** State 3 only raises the threshold flag; the remembered state and the counts stay. */
  lemma BothZonesSetsThreshold(m: Memory, c: CurrentData)
    ensures var r := Step(m, 3, c);
            r.memory == Memory(m.oldOccupancyState, true)
            && r.current.occupancyNet == c.occupancyNet && r.current.occupancyGross == c.occupancyGross
  {
  }

  /** Reaching zone 1 after 2 -> 3 counts a person in; any other arrival at 1 counts nothing. */
  lemma EnteringCounts(m: Memory, c: CurrentData)
    ensures var r := Step(m, 1, c);
            r.memory == Memory(1, false)
            && (if m.atTheThreshold && m.oldOccupancyState == 2
                then r.current.occupancyGross == U16(c.occupancyGross + 1) && r.current.occupancyNet == U16(c.occupancyNet + 1)
                else r.current.occupancyGross == c.occupancyGross && r.current.occupancyNet == c.occupancyNet)
  {
  }

  /**
   * Reaching zone 2 after 1 -> 3 counts a person out, but only when net is
   * positive, so net never wraps below zero on this path.
   */
  lemma LeavingCountsOnlyWhenPositive(m: Memory, c: CurrentData)
    ensures var r := Step(m, 2, c);
            r.memory == Memory(2, false)
            && (if m.atTheThreshold && m.oldOccupancyState == 1 && c.occupancyNet > 0
                then r.current.occupancyNet == c.occupancyNet - 1 && r.current.occupancyGross == U16(c.occupancyGross - 1)
                else r.current.occupancyGross == c.occupancyGross && r.current.occupancyNet == c.occupancyNet)
  {
  }

  /** A reading outside 0..3 changes nothing but the stored occupancy state. */
  lemma OutOfRangeChangesNothing(m: Memory, reading: u8, c: CurrentData)
    requires reading > 3
    ensures Step(m, reading, c) == Stepped(m, c.(occupancyState := reading))
  {
  }

  /**
   * Net and gross always move together by the same amount, so gross - net
   * is preserved (modulo 2^16, the width of both counts), and nothing but
   * the counts and the occupancy state changes.
   */
  lemma {:induction false} DifferencePreserved(m: Memory, reading: u8, c: CurrentData)
    ensures var r := Step(m, reading, c).current;
            U16(r.occupancyGross - r.occupancyNet) == U16(c.occupancyGross - c.occupancyNet)
            && r == c.(occupancyState := reading, occupancyGross := r.occupancyGross, occupancyNet := r.occupancyNet)
  {
    var r := Step(m, reading, c).current;
    var g, n := c.occupancyGross, c.occupancyNet;
    if r.occupancyGross != g {
      if reading == 1 {
        ShiftKeepsDifference(g, n, 1);
      } else {
        ShiftKeepsDifference(g, n, -1);
      }
    }
  }

  /** Adding the same amount to both counts before wrapping them leaves their wrapped difference. */
  lemma ShiftKeepsDifference(g: u16, n: u16, d: int)
    ensures U16(U16(g + d) - U16(n + d)) == U16(g - n)
  {
    var a: int, b: int := U16(g + d), U16(n + d);
    assert (g + d - a) % 0x1_0000 == 0 && (n + d - b) % 0x1_0000 == 0;
    var k1, k2 := (g + d - a) / 0x1_0000, (n + d - b) / 0x1_0000;
    assert a - b == (g - n) + (k2 - k1) * 0x1_0000;
  }

  /** `PeopleCounter` of src/PeopleCounter.cpp with the statics of its `loop`. */
  class PeopleCounter {
    var oldOccupancyState: int
    var atTheThreshold: bool
    var occupancyLimit: int

    /** The statics start at 0 and false; the limit at DEFAULT_PEOPLE_LIMIT. */
    constructor (defaultLimit: int)
      ensures oldOccupancyState == 0 && !atTheThreshold && occupancyLimit == defaultLimit
    {
      oldOccupancyState := 0;
      atTheThreshold := false;
      occupancyLimit := defaultLimit;
    }

    /**
     * `loop`: run the recogniser on the sensor's reading; report (and mark
     * the current data dirty) exactly when the net count changed.
     */
    method Loop(reading: u8, cur: CurrentStatusData) returns (changed: bool)
      modifies this`oldOccupancyState, this`atTheThreshold, cur`current, cur`currentDataChanged
      ensures var r := Step(Memory(old(oldOccupancyState), old(atTheThreshold)), reading, old(cur.current));
              Memory(oldOccupancyState, atTheThreshold) == r.memory && cur.current == r.current
      ensures changed <==> cur.current.occupancyNet != old(cur.current.occupancyNet)
      ensures cur.currentDataChanged == (changed || old(cur.currentDataChanged))
    {
      var oldOccupancyCount := cur.current.occupancyNet;
      cur.current := cur.current.(occupancyState := reading);
      if reading == 0 {
        oldOccupancyState := 0;
        atTheThreshold := false;
      } else if reading == 1 {
        if atTheThreshold {
          atTheThreshold := false;
          if oldOccupancyState == 2 {
            cur.current := cur.current.(occupancyGross := U16(cur.current.occupancyGross + 1));
            cur.current := cur.current.(occupancyNet := U16(cur.current.occupancyNet + 1));
          }
        }
        oldOccupancyState := 1;
      } else if reading == 2 {
        if atTheThreshold {
          atTheThreshold := false;
          if oldOccupancyState == 1 {
            if cur.current.occupancyNet > 0 {
              cur.current := cur.current.(occupancyNet := cur.current.occupancyNet - 1);
              cur.current := cur.current.(occupancyGross := U16(cur.current.occupancyGross - 1));
            }
          }
        }
        oldOccupancyState := 2;
      } else if reading == 3 {
        atTheThreshold := true;
      }
      if oldOccupancyCount != cur.current.occupancyNet {
        cur.currentDataChanged := true;
        return true;
      }
      return false;
    }

    /** `setCount`: the `int` argument lands in the `uint16_t` net count. */
    method SetCount(cur: CurrentStatusData, value: int)
      modifies cur`current
      ensures cur.current == old(cur.current).(occupancyNet := U16(value))
    {
      cur.current := cur.current.(occupancyNet := U16(value));
    }

    /** `getLimit`. */
    method GetLimit() returns (limit: int)
      ensures limit == occupancyLimit
    {
      limit := occupancyLimit;
    }

    /** `setLimit`. */
    method SetLimit(value: int)
      modifies this`occupancyLimit
      ensures occupancyLimit == value
    {
      occupancyLimit := value;
    }
  }
}
