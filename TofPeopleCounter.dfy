/**
 * The stack-based people counter of the time-of-flight sensor
 * (src/TOF-Sensor/PeopleCounter.cpp). Successive two-zone occupancy states
 * (0 = empty, 1 = zone 1, 2 = zone 2, 3 = both) are pushed on `stateStack`;
 * "impossible" transitions (s followed by 3 - s) are repaired by inserting
 * the missed state; once five entries accumulate they are popped as a
 * string and the net and gross counts are moved.
 *
 * The stacks are sequences, bottom first. The library's `peek` on an empty
 * stack is given the value -1, which is never an occupancy state.
 */
module TofPeopleCounter {
  import opened Bytes
  import opened MyData

  /** A two-zone occupancy state as reported by the sensor. */
  type State = x: int | 0 <= x <= 3

  /** `impossibleStateTransition`: state s can never be followed directly by `IMPOSSIBLE_TRANSITION[s]`. */
  const IMPOSSIBLE_TRANSITION: seq<State> := [3, 2, 1, 0]

  /** `DEFAULT_PEOPLE_LIMIT`, the initial `occupancyLimit`. */
  const DEFAULT_PEOPLE_LIMIT: int := 5

  /** The five popped states, top of the stack first, that line 112 compares with "02310". */
  const PATTERN_02310: seq<int> := [0, 2, 3, 1, 0]
  /** The five popped states, top of the stack first, that line 128 compares with "01320". */
  const PATTERN_01320: seq<int> := [0, 1, 3, 2, 0]

  function Imp(s: State): State
  {
    IMPOSSIBLE_TRANSITION[s]
  }

  /** The impossible successor of s is 3 - s, and the table is its own inverse. */
  lemma ImpIsComplement(s: State)
    ensures Imp(s) == 3 - s && Imp(Imp(s)) == s && Imp(s) != s
  {
  }

  function Last(s: seq<State>): State
    requires s != []
  {
    s[|s| - 1]
  }

  function Front(s: seq<State>): seq<State>
    requires s != []
  {
    s[..|s| - 1]
  }

  /** `StackArray::peek`, with -1 for an empty stack. */
  function Peek(s: seq<State>): int
  {
    if s == [] then -1 else s[|s| - 1]
  }

  /** The order in which successive `pop()`s hand out the entries: top first. */
  function Rev(t: seq<State>): (r: seq<State>)
    ensures |r| == |t|
  {
    if t == [] then [] else [Last(t)] + Rev(Front(t))
  }

  /** The i-th entry popped is the i-th from the top. */
  lemma {:induction false} RevAt(t: seq<State>, i: nat)
    requires i < |t|
    ensures Rev(t)[i] == t[|t| - 1 - i]
  {
    if i > 0 {
      RevAt(Front(t), i - 1);
    }
  }

  /** Popping until the top equals x (or the stack runs out). */
  function PopUntil(s: seq<State>, x: int): (r: seq<State>)
    decreases |s|
    ensures |r| <= |s| && r == s[..|r|]
    ensures x in s ==> r != [] && Last(r) == x && x !in s[|r|..]
  {
    if s == [] || Last(s) == x then s else PopUntil(Front(s), x)
  }

  /** What the scan loop of `applyImpossibleStateTransitionCorrections` leaves behind. */
  datatype Scan = Scan(stack: seq<State>, temp: seq<State>, cleanup: bool)

  /**
   * The scan loop (lines 185-205): take the top entry `current` off the
   * stack; with `before` the entry now on top and `after` the top of the
   * temporary stack, either put `current` back and stop (before == after),
   * or push `current` to the temporary stack, together with the state that
   * was missed when one of the two transitions is impossible.
   */
  function CorrScan(stack: seq<State>, temp: seq<State>): (r: Scan)
    requires temp != []
    decreases |stack|
    ensures r.temp != []
  {
    if |stack| <= 1 then Scan(stack, temp, false)
    else
      var current := Last(stack);
      var rest := Front(stack);
      var after := Last(temp);
      var before := Last(rest);
      if before == after then Scan(rest + [current], temp, true)
      else if Imp(before) == current then CorrScan(rest, temp + [current, Imp(after)])
      else if Imp(current) == after then CorrScan(rest, temp + [Imp(before), current])
      else CorrScan(rest, temp + [current])
  }

  /** The stack `applyImpossibleStateTransitionCorrections` leaves when the scan ends after `s` was scanned with `n` on the temporary stack. */
  function Moved(sc: Scan): (r: seq<State>)
    requires sc.temp != []
    ensures r != []
  {
    sc.stack + Rev(sc.temp)
  }

  /**
   * The clean-up `do { pop } while (peek != n)` (lines 209-213) ends on an
   * entry equal to n, rather than popping an empty stack.
   */
  predicate CorrectionsSafe(s: seq<State>, n: State)
  {
    var sc := CorrScan(s, [n]);
    sc.cleanup ==> n in Front(Moved(sc))
  }

  /** `applyImpossibleStateTransitionCorrections(n)` as a function of the stack it starts from. */
  function Corrections(s: seq<State>, n: State): seq<State>
  {
    var sc := CorrScan(s, [n]);
    if sc.cleanup then PopUntil(Front(Moved(sc)), n) else Moved(sc)
  }

  /**
   * The scan loop never pops the bottom entry: what it leaves on the stack
   * is a non-empty prefix of what it started with, a single entry unless it
   * stopped for a clean-up, and the bottom of the temporary stack is still
   * the entry it started with.
   */
  lemma {:induction false} CorrScanShape(stack: seq<State>, temp: seq<State>)
    requires stack != [] && temp != []
    ensures var r := CorrScan(stack, temp);
            r.temp[0] == temp[0] && r.stack != [] && |r.stack| <= |stack| && r.stack == stack[..|r.stack|]
            && (!r.cleanup ==> |r.stack| == 1)
    decreases |stack|
  {
    if |stack| > 1 {
      var current := Last(stack);
      var rest := Front(stack);
      var after := Last(temp);
      var before := Last(rest);
      if before == after {
        assert rest + [current] == stack;
      } else if Imp(before) == current {
        CorrScanShape(rest, temp + [current, Imp(after)]);
      } else if Imp(current) == after {
        CorrScanShape(rest, temp + [Imp(before), current]);
      } else {
        CorrScanShape(rest, temp + [current]);
      }
    }
  }

  /**
   * `applyImpossibleStateTransitionCorrections` keeps the bottom entry and
   * leaves the new state on top (when its clean-up finds that state).
   */
  lemma CorrectionsShape(s: seq<State>, n: State)
    requires s != [] && CorrectionsSafe(s, n)
    ensures var r := Corrections(s, n); r != [] && r[0] == s[0] && Last(r) == n
  {
    var sc := CorrScan(s, [n]);
    CorrScanShape(s, [n]);
    RevAt(sc.temp, |sc.temp| - 1);
    var moved := Moved(sc);
    assert moved[0] == s[0];
    if sc.cleanup {
      assert Front(moved)[0] == s[0];
    }
  }

  /** The stack after the new state has been fed in (lines 44-104), before the completion check. */
  function AfterInput(s: seq<State>, n: State): seq<State>
  {
    if n == Peek(s) then s
    else if |s| == 0 then [0]
    else if |s| == 1 then s + [n]
    else if |s| == 2 || |s| == 3 then Corrections(s, n)
    else if |s| == 4 then
      (if n != 0 && n != Imp(Last(s)) then PopUntil(s, n)
       else s + [if n == Imp(Last(s)) then 0 else n])
    else s
  }

  /** Every stack the counter can hold between two calls of `loop`, starting from the empty stack. */
  const REACHABLE: set<seq<State>> :=
    {[], [0], [0, 1], [0, 2], [0, 3], [0, 1, 3], [0, 2, 3], [0, 1, 3, 2], [0, 2, 3, 1]}

  /** The only five-entry stacks that feeding a state can produce, bottom first. */
  const COMPLETED: set<seq<State>> := {[0, 1, 3, 2, 0], [0, 2, 3, 1, 0]}

  /** Which branch of lines 112-155 a popped string selects. */
  datatype Branch = IncrementBranch | DecrementBranch | ErrorBranch

  /**
   * The branch selection as written: `strcmp` returns nonzero when the
   * strings DIFFER, so `if (strcmp(states, "02310"))` is taken by every
   * string except "02310".
   */
  function ClassifyAsWritten(popped: seq<int>): Branch
  {
    if popped != PATTERN_02310 then IncrementBranch
    else if popped != PATTERN_01320 then DecrementBranch
    else ErrorBranch
  }

  /** The branch selection the comments at lines 112 and 128 describe: a match selects the branch. */
  function ClassifyIntended(popped: seq<int>): Branch
  {
    if popped == PATTERN_02310 then IncrementBranch
    else if popped == PATTERN_01320 then DecrementBranch
    else ErrorBranch
  }

  /** What a completed sequence does to the counts. */
  datatype Tallied = Tallied(current: CurrentData, changed: bool, counted: bool)

  /**
   * Lines 112-155 for a popped string: in the increment branch a counter
   * mounted inside (`placement` nonzero) decrements instead, and in the
   * decrement branch it increments; a decrement is skipped at net 0 for a
   * single entrance. The counts are `uint16_t`, so they wrap, and the
   * `occupancyNet < 0` safety check can never fire.
   */
  function Tally(popped: seq<int>, c: CurrentData, changed: bool, sys: SystemData): Tallied
  {
    var up := c.(occupancyGross := U16(c.occupancyGross + 1), occupancyNet := U16(c.occupancyNet + 1));
    var down := c.(occupancyGross := U16(c.occupancyGross + 1), occupancyNet := U16(c.occupancyNet - 1));
    var mayDecrement := c.occupancyNet > 0 || !sys.singleEntrance;
    match ClassifyAsWritten(popped)
    case IncrementBranch =>
      if sys.placement != 0 then
        (if mayDecrement then Tallied(down, true, true) else Tallied(c, changed, true))
      else Tallied(up, true, true)
    case DecrementBranch =>
      if sys.placement != 0 then Tallied(up, true, true)
      else if mayDecrement then Tallied(down, true, true)
      else Tallied(c, changed, true)
    case ErrorBranch => Tallied(c, changed, false)
  }

  /*
   * The transition table from every reachable stack with two or more
   * entries. Feeding the state already on top changes nothing, so only the
   * other three states are listed.
   */

  /** From [0, 1]: 0 backs out to [0], 2 inserts the missed 3, 3 is pushed. */
  lemma StepFrom01(n: State)
    requires n != 1
    ensures CorrectionsSafe([0, 1], n)
    ensures AfterInput([0, 1], n) == if n == 0 then [0] else if n == 2 then [0, 1, 3, 2] else [0, 1, 3]
  {
    if n == 0 {
      assert CorrectionsSafe([0, 1], 0) && AfterInput([0, 1], 0) == [0] by {
        assert Front([0, 1]) == [0];
        assert CorrScan([0, 1], [0]) == Scan([0, 1], [0], true);
        assert Rev([0]) == [0];
        assert Front([0, 1, 0]) == [0, 1];
        assert Front([0, 1]) == [0];
      }
    } else if n == 2 {
      assert CorrectionsSafe([0, 1], 2) && AfterInput([0, 1], 2) == [0, 1, 3, 2] by {
        assert Front([0, 1]) == [0];
        assert CorrScan([0, 1], [2]) == CorrScan([0], [2, 3, 1]);
        assert CorrScan([0], [2, 3, 1]) == Scan([0], [2, 3, 1], false);
        assert Rev([2, 3, 1]) == [1, 3, 2];
      }
    } else {
      assert CorrectionsSafe([0, 1], 3) && AfterInput([0, 1], 3) == [0, 1, 3] by {
        assert Front([0, 1]) == [0];
        assert CorrScan([0, 1], [3]) == CorrScan([0], [3, 1]);
        assert CorrScan([0], [3, 1]) == Scan([0], [3, 1], false);
        assert Rev([3, 1]) == [1, 3];
      }
    }
  }

  /** From [0, 2]: 0 backs out to [0], 1 inserts the missed 3, 3 is pushed. */
  lemma StepFrom02(n: State)
    requires n != 2
    ensures CorrectionsSafe([0, 2], n)
    ensures AfterInput([0, 2], n) == if n == 0 then [0] else if n == 1 then [0, 2, 3, 1] else [0, 2, 3]
  {
    if n == 0 {
      assert CorrectionsSafe([0, 2], 0) && AfterInput([0, 2], 0) == [0] by {
        assert Front([0, 2]) == [0];
        assert CorrScan([0, 2], [0]) == Scan([0, 2], [0], true);
        assert Rev([0]) == [0];
        assert Front([0, 2, 0]) == [0, 2];
        assert Front([0, 2]) == [0];
      }
    } else if n == 1 {
      assert CorrectionsSafe([0, 2], 1) && AfterInput([0, 2], 1) == [0, 2, 3, 1] by {
        assert Front([0, 2]) == [0];
        assert CorrScan([0, 2], [1]) == CorrScan([0], [1, 3, 2]);
        assert CorrScan([0], [1, 3, 2]) == Scan([0], [1, 3, 2], false);
        assert Rev([1, 3, 2]) == [2, 3, 1];
      }
    } else {
      assert CorrectionsSafe([0, 2], 3) && AfterInput([0, 2], 3) == [0, 2, 3] by {
        assert Front([0, 2]) == [0];
        assert CorrScan([0, 2], [3]) == CorrScan([0], [3, 2]);
        assert CorrScan([0], [3, 2]) == Scan([0], [3, 2], false);
        assert Rev([3, 2]) == [2, 3];
      }
    }
  }

  /** From [0, 3]: 0 backs out to [0]; 1 and 2 insert the zone that was missed before the 3. */
  lemma StepFrom03(n: State)
    requires n != 3
    ensures CorrectionsSafe([0, 3], n)
    ensures AfterInput([0, 3], n) == if n == 0 then [0] else if n == 1 then [0, 2, 3, 1] else [0, 1, 3, 2]
  {
    if n == 0 {
      assert CorrectionsSafe([0, 3], 0) && AfterInput([0, 3], 0) == [0] by {
        assert Front([0, 3]) == [0];
        assert CorrScan([0, 3], [0]) == Scan([0, 3], [0], true);
        assert Rev([0]) == [0];
        assert Front([0, 3, 0]) == [0, 3];
        assert Front([0, 3]) == [0];
      }
    } else if n == 1 {
      assert CorrectionsSafe([0, 3], 1) && AfterInput([0, 3], 1) == [0, 2, 3, 1] by {
        assert Front([0, 3]) == [0];
        assert CorrScan([0, 3], [1]) == CorrScan([0], [1, 3, 2]);
        assert CorrScan([0], [1, 3, 2]) == Scan([0], [1, 3, 2], false);
        assert Rev([1, 3, 2]) == [2, 3, 1];
      }
    } else {
      assert CorrectionsSafe([0, 3], 2) && AfterInput([0, 3], 2) == [0, 1, 3, 2] by {
        assert Front([0, 3]) == [0];
        assert CorrScan([0, 3], [2]) == CorrScan([0], [2, 3, 1]);
        assert CorrScan([0], [2, 3, 1]) == Scan([0], [2, 3, 1], false);
        assert Rev([2, 3, 1]) == [1, 3, 2];
      }
    }
  }

  /** From [0, 1, 3]: 0 completes a sequence with the missed 2, 1 backs out, 2 is pushed. */
  lemma StepFrom013(n: State)
    requires n != 3
    ensures CorrectionsSafe([0, 1, 3], n)
    ensures AfterInput([0, 1, 3], n) == if n == 0 then [0, 1, 3, 2, 0] else if n == 1 then [0, 1] else [0, 1, 3, 2]
  {
    if n == 0 {
      assert CorrectionsSafe([0, 1, 3], 0) && AfterInput([0, 1, 3], 0) == [0, 1, 3, 2, 0] by {
        assert Front([0, 1, 3]) == [0, 1];
        assert CorrScan([0, 1, 3], [0]) == CorrScan([0, 1], [0, 2, 3]);
        assert Front([0, 1]) == [0];
        assert CorrScan([0, 1], [0, 2, 3]) == CorrScan([0], [0, 2, 3, 1]);
        assert CorrScan([0], [0, 2, 3, 1]) == Scan([0], [0, 2, 3, 1], false);
        assert Rev([0, 2, 3, 1]) == [1, 3, 2, 0];
      }
    } else if n == 1 {
      assert CorrectionsSafe([0, 1, 3], 1) && AfterInput([0, 1, 3], 1) == [0, 1] by {
        assert Front([0, 1, 3]) == [0, 1];
        assert CorrScan([0, 1, 3], [1]) == Scan([0, 1, 3], [1], true);
        assert Rev([1]) == [1];
        assert Front([0, 1, 3, 1]) == [0, 1, 3];
        assert Front([0, 1, 3]) == [0, 1];
      }
    } else {
      assert CorrectionsSafe([0, 1, 3], 2) && AfterInput([0, 1, 3], 2) == [0, 1, 3, 2] by {
        assert Front([0, 1, 3]) == [0, 1];
        assert CorrScan([0, 1, 3], [2]) == CorrScan([0, 1], [2, 3]);
        assert Front([0, 1]) == [0];
        assert CorrScan([0, 1], [2, 3]) == CorrScan([0], [2, 3, 1]);
        assert CorrScan([0], [2, 3, 1]) == Scan([0], [2, 3, 1], false);
        assert Rev([2, 3, 1]) == [1, 3, 2];
      }
    }
  }

  /** From [0, 2, 3]: 0 completes a sequence with the missed 1, 1 is pushed, 2 backs out. */
  lemma StepFrom023(n: State)
    requires n != 3
    ensures CorrectionsSafe([0, 2, 3], n)
    ensures AfterInput([0, 2, 3], n) == if n == 0 then [0, 2, 3, 1, 0] else if n == 1 then [0, 2, 3, 1] else [0, 2]
  {
    if n == 0 {
      assert CorrectionsSafe([0, 2, 3], 0) && AfterInput([0, 2, 3], 0) == [0, 2, 3, 1, 0] by {
        assert Front([0, 2, 3]) == [0, 2];
        assert CorrScan([0, 2, 3], [0]) == CorrScan([0, 2], [0, 1, 3]);
        assert Front([0, 2]) == [0];
        assert CorrScan([0, 2], [0, 1, 3]) == CorrScan([0], [0, 1, 3, 2]);
        assert CorrScan([0], [0, 1, 3, 2]) == Scan([0], [0, 1, 3, 2], false);
        assert Rev([0, 1, 3, 2]) == [2, 3, 1, 0];
      }
    } else if n == 1 {
      assert CorrectionsSafe([0, 2, 3], 1) && AfterInput([0, 2, 3], 1) == [0, 2, 3, 1] by {
        assert Front([0, 2, 3]) == [0, 2];
        assert CorrScan([0, 2, 3], [1]) == CorrScan([0, 2], [1, 3]);
        assert Front([0, 2]) == [0];
        assert CorrScan([0, 2], [1, 3]) == CorrScan([0], [1, 3, 2]);
        assert CorrScan([0], [1, 3, 2]) == Scan([0], [1, 3, 2], false);
        assert Rev([1, 3, 2]) == [2, 3, 1];
      }
    } else {
      assert CorrectionsSafe([0, 2, 3], 2) && AfterInput([0, 2, 3], 2) == [0, 2] by {
        assert Front([0, 2, 3]) == [0, 2];
        assert CorrScan([0, 2, 3], [2]) == Scan([0, 2, 3], [2], true);
        assert Rev([2]) == [2];
        assert Front([0, 2, 3, 2]) == [0, 2, 3];
        assert Front([0, 2, 3]) == [0, 2];
      }
    }
  }

  /** From [0, 1, 3, 2]: 3 backs out to [0, 1, 3]; 0 and the impossible 1 both complete with a 0. */
  lemma StepFrom0132(n: State)
    requires n != 2
    ensures n != 0 && n != Imp(2) ==> n in [0, 1, 3, 2]
    ensures AfterInput([0, 1, 3, 2], n) == if n == 0 then [0, 1, 3, 2, 0] else if n == 1 then [0, 1, 3, 2, 0] else [0, 1, 3]
  {
    if n == 0 {
      assert AfterInput([0, 1, 3, 2], 0) == [0, 1, 3, 2, 0];
    } else if n == 1 {
      assert AfterInput([0, 1, 3, 2], 1) == [0, 1, 3, 2, 0];
    } else {
      assert AfterInput([0, 1, 3, 2], 3) == [0, 1, 3];
    }
  }

  /** From [0, 2, 3, 1]: 3 backs out to [0, 2, 3]; 0 and the impossible 2 both complete with a 0. */
  lemma StepFrom0231(n: State)
    requires n != 1
    ensures n != 0 && n != Imp(1) ==> n in [0, 2, 3, 1]
    ensures AfterInput([0, 2, 3, 1], n) == if n == 0 then [0, 2, 3, 1, 0] else if n == 2 then [0, 2, 3, 1, 0] else [0, 2, 3]
  {
    if n == 0 {
      assert AfterInput([0, 2, 3, 1], 0) == [0, 2, 3, 1, 0];
    } else if n == 2 {
      assert AfterInput([0, 2, 3, 1], 2) == [0, 2, 3, 1, 0];
    } else {
      assert AfterInput([0, 2, 3, 1], 3) == [0, 2, 3];
    }
  }


  /**
   * Feeding any state to a reachable stack leads to a reachable stack or to
   * one of the two completed sequences, and neither backtracking loop
   * (lines 80-82 and 210-212) ever pops an empty stack.
   */
  lemma StepClosed(s: seq<State>, n: State)
    requires s in REACHABLE
    ensures (|s| == 2 || |s| == 3) && n != Peek(s) ==> CorrectionsSafe(s, n)
    ensures |s| == 4 && n != Peek(s) && n != 0 && n != Imp(Last(s)) ==> n in s
    ensures AfterInput(s, n) in REACHABLE || AfterInput(s, n) in COMPLETED
  {
    if n == Peek(s) || s == [] {
    } else if s == [0] {
      assert AfterInput(s, n) == [0, n];
    } else if s == [0, 1] {
      StepFrom01(n);
    } else if s == [0, 2] {
      StepFrom02(n);
    } else if s == [0, 3] {
      StepFrom03(n);
    } else if s == [0, 1, 3] {
      StepFrom013(n);
    } else if s == [0, 2, 3] {
      StepFrom023(n);
    } else if s == [0, 1, 3, 2] {
      StepFrom0132(n);
    } else {
      StepFrom0231(n);
    }
  }

  /**
   * Every reachable stack starts at 0, never repeats a state twice in a row,
   * and, from its third entry on, contains no impossible transition.
   */
  lemma ReachableShape(s: seq<State>)
    requires s in REACHABLE
    ensures |s| <= 4 && (s != [] ==> s[0] == 0)
    ensures forall i :: 1 <= i < |s| ==> s[i] != s[i - 1]
    ensures forall i :: 2 <= i < |s| ==> s[i] != Imp(s[i - 1])
  {
  }

  /**
   * As written, a completed sequence is always counted: 0-1-3-2-0 (popped
   * as "02310") takes the decrement branch and 0-2-3-1-0 (popped as
   * "01320") the increment branch.
   */
  lemma CompletedSequencesAsWritten(s: seq<State>, n: State)
    requires s in REACHABLE && |AfterInput(s, n)| == 5
    ensures var popped := Rev(AfterInput(s, n));
            (popped == PATTERN_02310 && ClassifyAsWritten(popped) == DecrementBranch)
            || (popped == PATTERN_01320 && ClassifyAsWritten(popped) == IncrementBranch)
  {
    StepClosed(s, n);
    var t := AfterInput(s, n);
    forall i | 0 <= i < 5 {
      RevAt(t, i);
    }
    if t == [0, 1, 3, 2, 0] {
      assert Rev(t) == PATTERN_02310;
    } else {
      assert Rev(t) == PATTERN_01320;
    }
  }

  /** As written, the error branch at lines 147-155 is taken by no string at all. */
  lemma ErrorBranchUnreachable(popped: seq<int>)
    ensures ClassifyAsWritten(popped) != ErrorBranch
    ensures ClassifyAsWritten(popped) == DecrementBranch <==> popped == PATTERN_02310
  {
    assert PATTERN_02310[1] != PATTERN_01320[1];
  }

  /** The two selections disagree on both patterns: each takes the branch opposite to the one the comments on lines 112 and 128 name for it. */
  lemma ClassificationReversed()
    ensures ClassifyAsWritten(PATTERN_02310) == DecrementBranch && ClassifyIntended(PATTERN_02310) == IncrementBranch
    ensures ClassifyAsWritten(PATTERN_01320) == IncrementBranch && ClassifyIntended(PATTERN_01320) == DecrementBranch
  {
    assert PATTERN_02310[1] != PATTERN_01320[1];
  }

  /** The intended selection counts exactly the two patterns and reports any other string as an error. */
  lemma ClassifyIntendedMatches(popped: seq<int>)
    ensures ClassifyIntended(popped) == IncrementBranch <==> popped == PATTERN_02310
    ensures ClassifyIntended(popped) == DecrementBranch <==> popped == PATTERN_01320
    ensures ClassifyIntended(popped) == ErrorBranch <==> popped != PATTERN_02310 && popped != PATTERN_01320
  {
    assert PATTERN_02310[1] != PATTERN_01320[1];
  }

  /**
   * A completed sequence changes only the two counts and the dirty flag:
   * gross goes up by exactly one (modulo 2^16) or stays, and the flag is set
   * exactly when the counts moved.
   */
  lemma TallyGrossOnlyIncrements(popped: seq<int>, c: CurrentData, changed: bool, sys: SystemData)
    ensures var t := Tally(popped, c, changed, sys);
            t.current == c.(occupancyGross := t.current.occupancyGross, occupancyNet := t.current.occupancyNet)
            && (t.current.occupancyGross == c.occupancyGross || t.current.occupancyGross == U16(c.occupancyGross + 1))
            && (t.current == c ==> t.changed == changed)
            && (t.current != c ==> t.changed && t.current.occupancyGross == U16(c.occupancyGross + 1))
            && t.counted
  {
    ErrorBranchUnreachable(popped);
  }

  /** With a single entrance, net is decremented only when it is positive, so it never wraps below zero. */
  lemma TallySingleEntranceNoUnderflow(popped: seq<int>, c: CurrentData, changed: bool, sys: SystemData)
    requires sys.singleEntrance
    ensures var t := Tally(popped, c, changed, sys);
            t.current.occupancyNet == c.occupancyNet
            || t.current.occupancyNet == U16(c.occupancyNet + 1)
            || (c.occupancyNet > 0 && t.current.occupancyNet == c.occupancyNet - 1)
  {
  }

  /** `PeopleCounter` with the file-level `stateStack`, `tempStack` and `occupancyLimit`. */
  class PeopleCounter {
    var stateStack: seq<State>
    var tempStack: seq<State>
    var occupancyLimit: int

    predicate Valid()
      reads this
    {
      tempStack == [] && stateStack in REACHABLE
    }

    constructor ()
      ensures Valid() && stateStack == [] && occupancyLimit == DEFAULT_PEOPLE_LIMIT
    {
      stateStack := [];
      tempStack := [];
      occupancyLimit := DEFAULT_PEOPLE_LIMIT;
    }

    /** `setup`: a counter mounted inside starts with one person in the room. */
    method Setup(cur: CurrentStatusData, sys: SysStatusData)
      modifies cur`current
      ensures cur.current == old(cur.current).(occupancyNet := if sys.sysStatus.placement != 0 then 1 else 0)
    {
      if sys.sysStatus.placement != 0 {
        SetCount(cur, 1);
      } else {
        SetCount(cur, 0);
      }
    }

    /** `setCount`: the `int` argument is stored in the `uint16_t` net count. */
    method SetCount(cur: CurrentStatusData, value: int)
      modifies cur`current
      ensures cur.current == old(cur.current).(occupancyNet := U16(value))
      ensures 0 <= value < 0x1_0000 ==> cur.current.occupancyNet == value
    {
      cur.current := cur.current.(occupancyNet := U16(value));
    }

    /** `getCount`. */
    method GetCount(cur: CurrentStatusData) returns (count: int)
      ensures count == cur.current.occupancyNet && 0 <= count < 0x1_0000
    {
      count := cur.current.occupancyNet;
    }

    /** `getLimit`. */
    method GetLimit() returns (limit: int)
      ensures limit == occupancyLimit
    {
      limit := occupancyLimit;
    }

    /** `setLimit`. */
    method SetLimit(value: int)
      modifies this`occupancyLimit
      ensures occupancyLimit == value
    {
      occupancyLimit := value;
    }

    method Push(x: State)
      modifies this`stateStack
      ensures stateStack == old(stateStack) + [x]
    {
      stateStack := stateStack + [x];
    }

    method Pop() returns (x: State)
      requires stateStack != []
      modifies this`stateStack
      ensures x == Last(old(stateStack)) && stateStack == Front(old(stateStack))
    {
      x := stateStack[|stateStack| - 1];
      stateStack := stateStack[..|stateStack| - 1];
    }

    /**
     * `applyImpossibleStateTransitionCorrections`: the scan loop, the
     * transfer of the temporary stack back (top first), and the clean-up.
     */
    method ApplyCorrections(n: State)
      requires tempStack == [] && CorrectionsSafe(stateStack, n)
      modifies this`stateStack, this`tempStack
      ensures tempStack == []
      ensures stateStack == Corrections(old(stateStack), n)
    {
      ghost var scan := CorrScan(stateStack, [n]);
      var needsCleanup := false;
      tempStack := [n];
      while |stateStack| > 1
        invariant tempStack != [] && !needsCleanup
        invariant CorrScan(stateStack, tempStack) == scan
        decreases |stateStack|
      {
        ghost var before := stateStack;
        var currentState := Pop();
        var stateAfter := tempStack[|tempStack| - 1];
        var stateBefore := stateStack[|stateStack| - 1];
        assert Front(before) == stateStack && Last(before) == currentState;
        if stateBefore == stateAfter {
          Push(currentState);
          needsCleanup := true;
          break;
        }
        ghost var temp := tempStack;
        if Imp(stateBefore) == currentState {
          tempStack := tempStack + [currentState];
          var missedState := Imp(stateAfter);
          tempStack := tempStack + [missedState];
          assert tempStack == temp + [currentState, missedState];
          assert CorrScan(before, temp) == CorrScan(stateStack, tempStack);
        } else if Imp(currentState) == stateAfter {
          var missedState := Imp(stateBefore);
          tempStack := tempStack + [missedState];
          tempStack := tempStack + [currentState];
          assert tempStack == temp + [missedState, currentState];
          assert CorrScan(before, temp) == CorrScan(stateStack, tempStack);
        } else {
          tempStack := tempStack + [currentState];
          assert CorrScan(before, temp) == CorrScan(stateStack, tempStack);
        }
      }
      assert Scan(stateStack, tempStack, needsCleanup) == scan;
      TransferBack();
      if needsCleanup {
        var _ := Pop();
        PopUntilTop(n);
      }
    }

    /** Lines 206-208: move the temporary stack back, popping it top first. */
    method TransferBack()
      requires tempStack != []
      modifies this`stateStack, this`tempStack
      ensures tempStack == [] && stateStack == old(stateStack) + Rev(old(tempStack))
    {
      ghost var moved := stateStack + Rev(tempStack);
      while tempStack != []
        invariant stateStack + Rev(tempStack) == moved
        decreases |tempStack|
      {
        var top := tempStack[|tempStack| - 1];
        tempStack := tempStack[..|tempStack| - 1];
        Push(top);
      }
    }

    /** `while (peek() != n) pop();`, for an n that is somewhere on the stack. */
    method PopUntilTop(n: State)
      requires n in stateStack
      modifies this`stateStack
      ensures stateStack == PopUntil(old(stateStack), n)
    {
      ghost var s := stateStack;
      while Peek(stateStack) != n
        invariant n in stateStack
        invariant PopUntil(stateStack, n) == PopUntil(s, n)
        decreases |stateStack|
      {
        var _ := Pop();
      }
    }

    /** Lines 44-104: feed the new occupancy state to the stack. */
    method FeedState(n: State)
      requires Valid()
      modifies this`stateStack, this`tempStack
      ensures tempStack == [] && stateStack == AfterInput(old(stateStack), n)
      ensures stateStack in REACHABLE || stateStack in COMPLETED
    {
      ghost var s := stateStack;
      StepClosed(s, n);
      if n != Peek(stateStack) {
        var count := |stateStack|;
        if count == 0 {
          Push(0);
        } else if count == 1 {
          Push(n);
        } else if count == 2 || count == 3 {
          ApplyCorrections(n);
        } else if count == 4 {
          var top := stateStack[|stateStack| - 1];
          if n != 0 && n != Imp(top) {
            PopUntilTop(n);
          } else if n == Imp(top) {
            Push(0);
          } else {
            Push(n);
          }
        }
      }
    }

    /** Lines 106-155: pop the five entries, top first, and move the counts by the branch the string selects. */
    method CompleteSequence(cur: CurrentStatusData, sys: SysStatusData) returns (counted: bool)
      requires |stateStack| == 5
      modifies this`stateStack, cur`current, cur`currentDataChanged
      ensures stateStack == []
      ensures Tally(Rev(old(stateStack)), old(cur.current), old(cur.currentDataChanged), sys.sysStatus)
              == Tallied(cur.current, cur.currentDataChanged, counted)
    {
      ghost var t := stateStack;
      var p0 := Pop();
      assert p0 == t[4] && stateStack == t[..4];
      var p1 := Pop();
      assert p1 == t[3] && stateStack == t[..3];
      var p2 := Pop();
      assert p2 == t[2] && stateStack == t[..2];
      var p3 := Pop();
      assert p3 == t[1] && stateStack == t[..1];
      var p4 := Pop();
      var popped := [p0, p1, p2, p3, p4];
      forall i | 0 <= i < 5 {
        RevAt(t, i);
      }
      assert popped == Rev(t);
      if popped != PATTERN_02310 {
        if sys.sysStatus.placement != 0 {
          if cur.current.occupancyNet > 0 || !sys.sysStatus.singleEntrance {
            cur.current := cur.current.(occupancyGross := U16(cur.current.occupancyGross + 1));
            cur.current := cur.current.(occupancyNet := U16(cur.current.occupancyNet - 1));
            cur.currentDataChanged := true;
          }
        } else {
          cur.current := cur.current.(occupancyGross := U16(cur.current.occupancyGross + 1));
          cur.current := cur.current.(occupancyNet := U16(cur.current.occupancyNet + 1));
          cur.currentDataChanged := true;
        }
        counted := true;
      } else if popped != PATTERN_01320 {
        if sys.sysStatus.placement != 0 {
          cur.current := cur.current.(occupancyGross := U16(cur.current.occupancyGross + 1));
          cur.current := cur.current.(occupancyNet := U16(cur.current.occupancyNet + 1));
          cur.currentDataChanged := true;
        } else if cur.current.occupancyNet > 0 || !sys.sysStatus.singleEntrance {
          cur.current := cur.current.(occupancyGross := U16(cur.current.occupancyGross + 1));
          cur.current := cur.current.(occupancyNet := U16(cur.current.occupancyNet - 1));
          cur.currentDataChanged := true;
        }
        counted := true;
      } else {
        assert false;
      }
    }

    /**
     * `loop`: feed the sensor's new occupancy state; when five entries have
     * accumulated, pop them and move the counts; otherwise publish the top
     * of the stack as the current occupancy state.
     */
    method Loop(n: State, cur: CurrentStatusData, sys: SysStatusData) returns (counted: bool)
      requires Valid()
      modifies this`stateStack, this`tempStack, cur`current, cur`currentDataChanged
      ensures Valid()
      ensures var t := AfterInput(old(stateStack), n);
              if |t| == 5 then
                stateStack == []
                && Tally(Rev(t), old(cur.current), old(cur.currentDataChanged), sys.sysStatus)
                   == Tallied(cur.current, cur.currentDataChanged, counted)
              else
                stateStack == t && !counted && cur.currentDataChanged == old(cur.currentDataChanged)
                && cur.current == old(cur.current).(occupancyState := U8(Peek(t)))
      ensures n == Peek(old(stateStack)) ==> stateStack == old(stateStack) && !counted
      ensures old(stateStack) == [] ==> stateStack == [0]
      ensures |old(stateStack)| == 1 && n != Peek(old(stateStack)) ==> stateStack == old(stateStack) + [n]
    {
      FeedState(n);
      if |stateStack| == 5 {
        counted := CompleteSequence(cur, sys);
      } else {
        cur.current := cur.current.(occupancyState := U8(Peek(stateStack)));
        counted := false;
      }
    }
  }
}
