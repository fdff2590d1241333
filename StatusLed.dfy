/**
 * The status LED driver (src/stsLED.cpp): an eight-state sequencer that
 * flashes a pattern of `pulses` on/off pulses, repeated `count` times (0 =
 * for ever) with a pause between repetitions and an optional start delay,
 * and drives the LED's PWM level either at once or ramping one step per
 * `bulbSimRamp` microseconds. `millis()`, `micros()` are parameters and
 * `analogWrite` is the field `pinLevel`.
 */
module StatusLed {
  import opened Bytes

  const STOPPED: u8 := 0
  const START_DELAY: u8 := 1
  const PULSE_ON: u8 := 2
  const ON_WAIT: u8 := 3
  const PULSE_OFF: u8 := 4
  const OFF_WAIT: u8 := 5
  const PULSE_DONE: u8 := 6
  const PAUSE_WAIT: u8 := 7
  const FULL: u8 := 255

  /** What `flash` configures. */
  datatype Pattern = Pattern(
    onDuration: u32, offDuration: u32, pauseDuration: u32, delay: u8,
    pulses: u8, count: u8, bulbSimRamp: u8, flashOffBrightness: u8)

  /** The fields `loop` updates. */
  datatype Phase = Phase(
    state: u8, oldState: u8, pulseCnt: u8, seqCnt: u8, previousMillis: u32, previousRampMicros: u32,
    flashBrightness: u8, up: bool, down: bool, start: bool, pinLevel: u8)

  /** `currentMillis - since >= wait` on `uint32_t`. */
  predicate Elapsed(now: u32, since: u32, wait: int)
  {
    U32(now - since) >= wait
  }

  /** Lines 36-101: the switch on `_state` for one call of `loop` (state 0 returns before it ends). */
  function Sequence(p: Pattern, s: Phase, now: u32): Phase
  {
    match s.state
    case 1 => if Elapsed(now, s.previousMillis, p.delay) then s.(state := PULSE_ON) else s
    case 2 => s.(up := true, down := false, pulseCnt := U8(s.pulseCnt + 1), previousMillis := now,
                 state := ON_WAIT, start := true)
    case 3 => if Elapsed(now, s.previousMillis, p.onDuration) then s.(state := PULSE_OFF, start := false) else s
    case 4 => s.(down := true, up := false, previousMillis := now, state := OFF_WAIT)
    case 5 => if Elapsed(now, s.previousMillis, p.offDuration) then s.(state := PULSE_DONE) else s
    case 6 => PulseDone(p, s, now)
    case 7 => if Elapsed(now, s.previousMillis, p.pauseDuration) then s.(state := PULSE_ON) else s
    case _ => s
  }

  /** Lines 103-128: move the flash brightness toward its target, then (line 131) write it out. */
  function Brighten(p: Pattern, s: Phase, micros: u32): Phase
  {
    var r := if p.bulbSimRamp > 0 then Ramp(p, s, micros) else Jump(p, s);
    r.(pinLevel := r.flashBrightness)
  }

  /** Lines 103-117: one ramp step up or down once a ramp period has passed. */
  function Ramp(p: Pattern, s: Phase, micros: u32): Phase
  {
    if Elapsed(micros, s.previousRampMicros, p.bulbSimRamp) then
      var b1 := if s.up && s.flashBrightness < FULL then s.flashBrightness + 1 else s.flashBrightness;
      var up1 := if b1 == FULL || s.down then false else s.up;
      var b2 := if s.down && b1 > p.flashOffBrightness then b1 - 1 else b1;
      var down2 := if b2 == p.flashOffBrightness then false else s.down;
      s.(previousRampMicros := micros, flashBrightness := b2, up := up1, down := down2)
    else s
  }

  /** Lines 119-128: without a ramp the LED jumps to its target. */
  function Jump(p: Pattern, s: Phase): Phase
  {
    var s1 := if s.up then s.(flashBrightness := FULL, up := false) else s;
    if s1.down then s1.(flashBrightness := p.flashOffBrightness, down := false) else s1
  }

  /** Lines 80-95: after the off time, either end the sequence (stop or pause) or start the next pulse. */
  function PulseDone(p: Pattern, s: Phase, now: u32): Phase
  {
    if s.pulseCnt >= p.pulses then
      var sequences := U8(s.seqCnt + 1);
      s.(pulseCnt := 0, previousMillis := now, seqCnt := sequences,
         state := if sequences >= p.count && p.count != 0 then STOPPED else PAUSE_WAIT)
    else s.(state := PULSE_ON)
  }

  /** One call of `loop`: note the state, then either idle (state 0) or sequence and drive the LED. */
  function LoopStep(p: Pattern, s: Phase, now: u32, micros: u32): Phase
  {
    var s0 := s.(oldState := s.state);
    if s0.state == STOPPED then s0.(previousMillis := now)
    else Brighten(p, Sequence(p, s0, now), micros)
  }

  /** The sequencer only visits states 0..7, and the LED is never told to go up and down at once. */
  predicate Consistent(s: Phase)
  {
    s.state <= PAUSE_WAIT && !(s.up && s.down)
  }

  /** `loop` keeps the sequencer consistent. */
  lemma LoopStepConsistent(p: Pattern, s: Phase, now: u32, micros: u32)
    requires Consistent(s)
    ensures Consistent(LoopStep(p, s, now, micros))
  {
  }

  /** In state 0 `loop` only refreshes the time stamp: nothing is sequenced and nothing is written. */
  lemma StoppedOnlyRefreshesTime(p: Pattern, s: Phase, now: u32, micros: u32)
    requires s.state == STOPPED
    ensures LoopStep(p, s, now, micros) == s.(oldState := STOPPED, previousMillis := now)
  {
  }

  /**
   * The timed transitions: 1 -> 2 after the start delay, 3 -> 4 after the on
   * time, 5 -> 6 after the off time, 7 -> 2 after the pause; each state
   * stays put until its time is up. 2 counts a pulse and goes to 3; 4 goes
   * to 5.
   */
  lemma SequenceTimings(p: Pattern, s: Phase, now: u32)
    ensures s.state == START_DELAY ==>
              Sequence(p, s, now).state == (if Elapsed(now, s.previousMillis, p.delay) then PULSE_ON else START_DELAY)
    ensures s.state == ON_WAIT ==>
              Sequence(p, s, now).state == (if Elapsed(now, s.previousMillis, p.onDuration) then PULSE_OFF else ON_WAIT)
    ensures s.state == OFF_WAIT ==>
              Sequence(p, s, now).state == (if Elapsed(now, s.previousMillis, p.offDuration) then PULSE_DONE else OFF_WAIT)
    ensures s.state == PAUSE_WAIT ==>
              Sequence(p, s, now).state == (if Elapsed(now, s.previousMillis, p.pauseDuration) then PULSE_ON else PAUSE_WAIT)
    ensures s.state == PULSE_ON ==>
              var r := Sequence(p, s, now);
              r.state == ON_WAIT && r.pulseCnt == U8(s.pulseCnt + 1) && r.up && !r.down && r.previousMillis == now
    ensures s.state == PULSE_OFF ==>
              var r := Sequence(p, s, now);
              r.state == OFF_WAIT && r.down && !r.up && r.previousMillis == now
    ensures s.state in {START_DELAY, ON_WAIT, OFF_WAIT, PAUSE_WAIT} ==>
              Sequence(p, s, now).pulseCnt == s.pulseCnt && Sequence(p, s, now).seqCnt == s.seqCnt
  {
  }

  /**
   * State 6: once `pulses` pulses are out, the pulse count restarts and the
   * sequence count goes up; the machine stops exactly when a nonzero
   * `count` has been reached and pauses otherwise. With pulses still to
   * go it turns the LED on again.
   */
  lemma PulseDoneOutcome(p: Pattern, s: Phase, now: u32)
    requires s.state == PULSE_DONE
    ensures var r := Sequence(p, s, now);
            (s.pulseCnt >= p.pulses ==>
               r.pulseCnt == 0 && r.seqCnt == U8(s.seqCnt + 1)
               && (r.state == STOPPED <==> p.count != 0 && r.seqCnt >= p.count)
               && (r.state != STOPPED ==> r.state == PAUSE_WAIT))
            && (s.pulseCnt < p.pulses ==> r == s.(state := PULSE_ON))
  {
  }

  /**
   * Ramping: the brightness moves by at most one step per call; it only
   * rises while the LED is going up and is below 255, and only falls while
   * it is going down and is above the off brightness.
   */
  lemma RampMovesOneStep(p: Pattern, s: Phase, micros: u32)
    requires p.bulbSimRamp > 0 && !(s.up && s.down)
    ensures var r := Brighten(p, s, micros);
            (r.flashBrightness > s.flashBrightness ==> s.up && s.flashBrightness < FULL && r.flashBrightness == s.flashBrightness + 1)
            && (r.flashBrightness < s.flashBrightness ==>
                  s.down && s.flashBrightness > p.flashOffBrightness && r.flashBrightness == s.flashBrightness - 1)
            && r.pinLevel == r.flashBrightness
  {
  }

  /** Without ramping, going up lands at 255 and going down at the off brightness, and the request is consumed. */
  lemma ImmediateLandsAtTarget(p: Pattern, s: Phase, micros: u32)
    requires p.bulbSimRamp == 0 && !(s.up && s.down)
    ensures var r := Brighten(p, s, micros);
            !r.up && !r.down && r.pinLevel == r.flashBrightness
            && (s.up ==> r.flashBrightness == FULL)
            && (s.down ==> r.flashBrightness == p.flashOffBrightness)
            && (!s.up && !s.down ==> r.flashBrightness == s.flashBrightness)
  {
  }

  /**
   * A single pulse shown once with no waiting (`flash(0, 0, 0, 0, 1, 1)`,
   * any ramp) runs 2 -> 3 -> 4 -> 5 -> 6 -> 0: five calls of `loop` after the
   * start, whatever the clock says.
   */
  lemma {:induction false} SinglePulseStops(p: Pattern, s: Phase, t: seq<u32>, m: seq<u32>)
    requires p.onDuration == 0 && p.offDuration == 0 && p.pulses == 1 && p.count == 1
    requires s.state == PULSE_ON && s.pulseCnt == 0 && s.seqCnt == 0
    requires |t| == 5 && |m| == 5
    ensures var s1 := LoopStep(p, s, t[0], m[0]);
            var s2 := LoopStep(p, s1, t[1], m[1]);
            var s3 := LoopStep(p, s2, t[2], m[2]);
            var s4 := LoopStep(p, s3, t[3], m[3]);
            var s5 := LoopStep(p, s4, t[4], m[4]);
            s1.state == ON_WAIT && s2.state == PULSE_OFF && s3.state == OFF_WAIT && s4.state == PULSE_DONE
            && s5.state == STOPPED && s5.seqCnt == 1 && s5.pulseCnt == 0
  {
    var s1 := LoopStep(p, s, t[0], m[0]);
    assert s1.state == ON_WAIT && s1.pulseCnt == 1 && s1.seqCnt == 0;
    var s2 := LoopStep(p, s1, t[1], m[1]);
    assert s2.state == PULSE_OFF && s2.pulseCnt == 1 && s2.seqCnt == 0;
    var s3 := LoopStep(p, s2, t[2], m[2]);
    assert s3.state == OFF_WAIT && s3.pulseCnt == 1 && s3.seqCnt == 0;
    var s4 := LoopStep(p, s3, t[3], m[3]);
    assert s4.state == PULSE_DONE && s4.pulseCnt == 1 && s4.seqCnt == 0;
  }

  /**
   * Line 140 as written: the `uint16_t delay` argument of `flash` is kept in
   * the `uint8_t _delay`, so the start state and the wait come from its low
   * byte.
   */
  function FlashStartAsWritten(delay: u16): (start: (u8, u8))
  {
    var kept := U8(delay);
    (if kept == 0 then PULSE_ON else START_DELAY, kept)
  }

  /** A 256 ms start delay is dropped altogether, and 300 ms shrinks to 44 ms. */
  lemma FlashDelayTruncated()
    ensures FlashStartAsWritten(256) == (PULSE_ON, 0)
    ensures FlashStartAsWritten(300) == (START_DELAY, 44)
  {
  }

  /** The evident intent: keep the whole `uint16_t` delay. */
  function FlashStartIntended(delay: u16): (start: (u8, u16))
  {
    (if delay == 0 then PULSE_ON else START_DELAY, delay)
  }

  /** With the full delay kept, the machine waits exactly when a delay was asked for, and for that long. */
  lemma FlashStartIntendedWaits(delay: u16)
    ensures FlashStartIntended(delay).0 == START_DELAY <==> delay != 0
    ensures FlashStartIntended(delay).1 == delay
    ensures delay < 0x100 ==> FlashStartIntended(delay).0 == FlashStartAsWritten(delay).0
  {
  }

  /** The `stsLED` singleton. */
  class Led {
    var pin1: u8
    var onDuration: u32
    var offDuration: u32
    var pauseDuration: u32
    var count: u8
    var pulses: u8
    var delay: u8
    var bulbSimRamp: u8
    var flashOffBrightness: u8

    var state: u8
    var oldState: u8
    var pulseCnt: u8
    var seqCnt: u8
    var previousMillis: u32
    var previousFlashRampMillis: u32
    var flashBrightness: u8
    var up: bool
    var down: bool
    var start: bool

    var brightness: u8
    var offBrightness: u8
    var offOffBrightness: u8
    var offBulbSimRamp: u8
    var previousOffRampMillis: u32

    /** The level last written to the pin with `analogWrite`. */
    var pinLevel: u8

    /** The pattern currently configured. */
    function PatternOf(): Pattern
      reads this
    {
      Pattern(onDuration, offDuration, pauseDuration, delay, pulses, count, bulbSimRamp, flashOffBrightness)
    }

    /** The sequencer's current phase. */
    function PhaseOf(): Phase
      reads this
    {
      Phase(state, oldState, pulseCnt, seqCnt, previousMillis, previousFlashRampMillis,
            flashBrightness, up, down, start, pinLevel)
    }

    /** The header's initial values: stopped, flash brightness 20, everything else off. */
    constructor ()
      ensures state == STOPPED && pulseCnt == 0 && seqCnt == 0 && flashBrightness == 20
      ensures flashOffBrightness == 0 && offBrightness == 0 && offOffBrightness == 0
      ensures previousMillis == 0 && previousFlashRampMillis == 0 && previousOffRampMillis == 0
      ensures Consistent(PhaseOf())
    {
      state := 0;
      pulseCnt := 0;
      seqCnt := 0;
      flashBrightness := 20;
      flashOffBrightness := 0;
      offBrightness := 0;
      offOffBrightness := 0;
      previousMillis := 0;
      previousFlashRampMillis := 0;
      previousOffRampMillis := 0;
      up := false;
      down := false;
    }

    /** `setup(pin1)`. */
    method Setup(pin: u8)
      modifies this`pin1
      ensures pin1 == pin
    {
      pin1 := pin;
    }

    /** `loop()`. */
    method Loop(currentMillis: u32, micros: u32)
      modifies this`oldState, this`state, this`pulseCnt, this`seqCnt, this`previousMillis,
               this`previousFlashRampMillis, this`flashBrightness, this`up, this`down, this`start, this`pinLevel
      ensures PhaseOf() == LoopStep(PatternOf(), old(PhaseOf()), currentMillis, micros)
    {
      if state != oldState {
        oldState := state;
      }
      if state == 0 {
        previousMillis := currentMillis;
        return;
      }
      StepSequence(currentMillis);
      DriveBrightness(micros);
    }

    /** Lines 36-101: the switch on the state. */
    method StepSequence(currentMillis: u32)
      modifies this`state, this`pulseCnt, this`seqCnt, this`previousMillis, this`up, this`down, this`start
      ensures PhaseOf() == Sequence(PatternOf(), old(PhaseOf()), currentMillis)
    {
      match state {
      case 1 =>
        if U32(currentMillis - previousMillis) >= delay {
          state := 2;
        }
      case 2 =>
        up := true;
        down := false;
        pulseCnt := U8(pulseCnt + 1);
        previousMillis := currentMillis;
        state := 3;
        start := true;
      case 3 =>
        if U32(currentMillis - previousMillis) >= onDuration {
          state := 4;
          start := false;
        }
      case 4 =>
        down := true;
        up := false;
        previousMillis := currentMillis;
        state := 5;
      case 5 =>
        if U32(currentMillis - previousMillis) >= offDuration {
          state := 6;
        }
      case 6 =>
        FinishPulse(currentMillis);
      case 7 =>
        if U32(currentMillis - previousMillis) >= pauseDuration {
          state := 2;
        }
      case _ =>
      }
    }

    /** Lines 80-95. */
    method FinishPulse(currentMillis: u32)
      modifies this`state, this`pulseCnt, this`seqCnt, this`previousMillis
      ensures PhaseOf() == PulseDone(PatternOf(), old(PhaseOf()), currentMillis)
    {
      if pulseCnt >= pulses {
        pulseCnt := 0;
        previousMillis := currentMillis;
        seqCnt := U8(seqCnt + 1);
        if seqCnt >= count && count != 0 {
          state := 0;
        } else {
          state := 7;
        }
      } else {
        state := 2;
      }
    }

    /** Lines 103-131: move the brightness, then write it to the pin. */
    method DriveBrightness(micros: u32)
      modifies this`previousFlashRampMillis, this`flashBrightness, this`up, this`down, this`pinLevel
      ensures PhaseOf() == Brighten(PatternOf(), old(PhaseOf()), micros)
    {
      if bulbSimRamp > 0 {
        RampBrightness(micros);
      } else {
        JumpBrightness();
      }
      pinLevel := flashBrightness;
    }

    /** Lines 103-117. */
    method RampBrightness(micros: u32)
      modifies this`previousFlashRampMillis, this`flashBrightness, this`up, this`down
      ensures PhaseOf() == Ramp(PatternOf(), old(PhaseOf()), micros)
    {
      if U32(micros - previousFlashRampMillis) >= bulbSimRamp {
        previousFlashRampMillis := micros;
        if up && flashBrightness < 255 {
          flashBrightness := flashBrightness + 1;
        }
        if flashBrightness == 255 || down {
          up := false;
        }
        if down && flashBrightness > flashOffBrightness {
          flashBrightness := flashBrightness - 1;
        }
        if flashBrightness == flashOffBrightness {
          down := false;
        }
      }
    }

    /** Lines 119-128. */
    method JumpBrightness()
      modifies this`flashBrightness, this`up, this`down
      ensures PhaseOf() == Jump(PatternOf(), old(PhaseOf()))
    {
      if up {
        flashBrightness := 255;
        up := false;
      }
      if down {
        flashBrightness := flashOffBrightness;
        down := false;
      }
    }

    /**
     * `flash(...)`: configure the pattern, restart both counters and the
     * clock, start in state 1 (delay first) or 2, and run `loop` once.
     */
    method Flash(on: u16, off: u16, pause: u16, delayMs: u16, pulseCount: u8, repeat: u8, ramp: u8, offLevel: u8,
                 currentMillis: u32, micros: u32)
      modifies this
      ensures PatternOf() == Pattern(on, off, pause, U8(delayMs), pulseCount, repeat, ramp, offLevel)
      ensures var started := old(PhaseOf()).(pulseCnt := 0, seqCnt := 0, previousMillis := currentMillis,
                                             state := FlashStartAsWritten(delayMs).0);
              PhaseOf() == LoopStep(PatternOf(), started, currentMillis, micros)
      ensures pin1 == old(pin1) && brightness == old(brightness) && offBrightness == old(offBrightness)
    {
      Configure(on, off, pause, delayMs, pulseCount, repeat, ramp, offLevel, currentMillis);
      Loop(currentMillis, micros);
    }

    /** Lines 133-149 up to the call of `loop`. */
    method Configure(on: u16, off: u16, pause: u16, delayMs: u16, pulseCount: u8, repeat: u8, ramp: u8, offLevel: u8,
                     currentMillis: u32)
      modifies this`onDuration, this`offDuration, this`pauseDuration, this`delay, this`bulbSimRamp, this`pulses,
               this`count, this`flashOffBrightness, this`pulseCnt, this`seqCnt, this`previousMillis, this`state
      ensures PatternOf() == Pattern(on, off, pause, U8(delayMs), pulseCount, repeat, ramp, offLevel)
      ensures PhaseOf() == old(PhaseOf()).(pulseCnt := 0, seqCnt := 0, previousMillis := currentMillis,
                                           state := FlashStartAsWritten(delayMs).0)
    {
      SetPattern(Pattern(on, off, pause, U8(delayMs), pulseCount, repeat, ramp, offLevel));
      Restart(currentMillis);
    }

    /** Lines 134-141: store the pattern. */
    method SetPattern(p: Pattern)
      modifies this`onDuration, this`offDuration, this`pauseDuration, this`delay, this`bulbSimRamp, this`pulses,
               this`count, this`flashOffBrightness
      ensures PatternOf() == p
    {
      onDuration, offDuration, pauseDuration, delay := p.onDuration, p.offDuration, p.pauseDuration, p.delay;
      bulbSimRamp, pulses, count, flashOffBrightness := p.bulbSimRamp, p.pulses, p.count, p.flashOffBrightness;
    }

    /** Lines 142-149: restart both counters and the clock, and begin with the start delay if there is one. */
    method Restart(currentMillis: u32)
      modifies this`pulseCnt, this`seqCnt, this`previousMillis, this`state
      ensures PhaseOf() == old(PhaseOf()).(pulseCnt := 0, seqCnt := 0, previousMillis := currentMillis,
                                           state := if delay == 0 then PULSE_ON else START_DELAY)
    {
      pulseCnt, seqCnt, previousMillis := 0, 0, currentMillis;
      if delay == 0 {
        state := 2;
      } else {
        state := 1;
      }
    }

    /** `on()`: stop the sequencer and drive the LED fully on. */
    method On()
      modifies this`state, this`pinLevel
      ensures state == STOPPED && pinLevel == FULL
    {
      state := 0;
      pinLevel := 255;
    }

    /**
     * `off(bulbSimRamp, offOffBrightness)`: stop the sequencer and move the
     * off brightness to its target, at once or one step per ramp period.
     */
    method Off(ramp: u8, target: u8, micros: u32)
      modifies this`state, this`offBulbSimRamp, this`offOffBrightness, this`previousOffRampMillis, this`offBrightness, this`pinLevel
      ensures state == STOPPED && offBulbSimRamp == ramp && offOffBrightness == target
      ensures ramp == 0 ==> offBrightness == target && previousOffRampMillis == old(previousOffRampMillis)
      ensures ramp > 0 && U32(micros - old(previousOffRampMillis)) >= ramp ==>
                previousOffRampMillis == micros
                && offBrightness == if old(offBrightness) > target then old(offBrightness) - 1 else old(offBrightness)
      ensures ramp > 0 && U32(micros - old(previousOffRampMillis)) < ramp ==>
                previousOffRampMillis == old(previousOffRampMillis) && offBrightness == old(offBrightness)
      ensures pinLevel == offBrightness
    {
      state := 0;
      offBulbSimRamp := ramp;
      offOffBrightness := target;
      if offBulbSimRamp > 0 {
        if U32(micros - previousOffRampMillis) >= offBulbSimRamp {
          previousOffRampMillis := micros;
          if offBrightness > offOffBrightness {
            offBrightness := offBrightness - 1;
          }
        }
      } else {
        offBrightness := offOffBrightness;
      }
      pinLevel := offBrightness;
    }

    /** `pwm(brightness)`: stop the sequencer and drive the LED at the given level. */
    method Pwm(level: u8)
      modifies this`state, this`brightness, this`pinLevel
      ensures state == STOPPED && brightness == level && pinLevel == level
    {
      state := 0;
      brightness := level;
      pinLevel := brightness;
    }

    /** `isDone()`: the sequencer has stopped. */
    method IsDone() returns (done: bool)
      ensures done <==> state == STOPPED
    {
      if state == 0 {
        return true;
      } else {
        return false;
      }
    }
  }
}
