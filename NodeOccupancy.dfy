/**
 * The node's main program (src/LoRA-Node-Occupancy.cpp): `setup` raises the
 * start-up alerts, and each call of `loop` runs one case of the state
 * machine, then the housekeeping that reacts to the user switch and to the
 * sensor. The clock, `millis()`, `random()`, the RTC, the wake-up interrupt,
 * the radio's initialisation and what the radio delivers are the per-pass
 * inputs in `Env`; the interrupt flags are fields the environment sets
 * before a pass.
 */
module NodeOccupancy {
  import opened Bytes
  import opened MyData
  import opened LoRaFunctions

  datatype State = Initialization | Error | Idle | Sleeping | ActivePing | Transmission | Listening | RetryWait

  const FIRMWARE_RELEASE: u8 := 1
  /** Seconds to wait after a connection before sending changed data. */
  const TRANSMIT_LATENCY: int := 60
  /** Milliseconds of active pinging after the doorway was last seen occupied. */
  const OCCUPANCY_LATENCY: int := 1000
  /** Milliseconds to listen for an acknowledgement. */
  const LISTEN_WINDOW_MS: int := 5000
  /** Milliseconds alert 3 waits before powering the device down. */
  const POWER_CYCLE_WAIT_MS: int := 30000
  /** `random(20000)`: the retry delay lies below this many milliseconds. */
  const RETRY_SPREAD_MS: nat := 20000
  const MAX_RETRIES: int := 3
  /** Seconds to sleep when the clock is not set. */
  const UNSET_CLOCK_SLEEP: nat := 60

  const IRQ_INVALID: u8 := 0
  const IRQ_AB1805: u8 := 1
  const IRQ_RF95_DIO0: u8 := 2
  const IRQ_RF95_IRQ: u8 := 3
  const IRQ_USER_SWITCH: u8 := 4
  const IRQ_SENSOR: u8 := 5

  /**
   * What one pass of `loop` observes: the RTC time (read again after a
   * transmission as `afterSend`), `millis()`, whether the RTC is set, a user
   * switch press since the last pass, the interrupt that ends a sleep, the
   * value of `random(20000)`, the radio's re-initialisation result, what the
   * radio receives, and the send result with the link quality.
   */
  datatype Env = Env(
    now: nat, afterSend: nat, millis: u32, rtcSet: bool, switchPressed: bool, wakeReason: u8,
    randomDelay: nat, radioInit: bool, rx: Reception, sendResult: u8, rssi: i16, snr: i16)

  // ---------------------------------------------------------------- idle

  /** Lines 124-129: transmit changed data, else resolve an alert, else start pinging if the sensor fired. */
  function IdleNext(dataChanged: bool, sinceConnection: int, alert: u8, sensorDetect: bool): State
  {
    if dataChanged && sinceConnection > TRANSMIT_LATENCY then Transmission
    else if alert != 0 then Error
    else if sensorDetect then ActivePing
    else Idle
  }

  /**
   * IDLE's priorities: changed data older than the latency always goes out
   * first, even with an alert pending; an alert beats the sensor; and with
   * nothing to do the node stays idle (going to sleep is disabled).
   */
  lemma IdlePriorities(dataChanged: bool, sinceConnection: int, alert: u8, sensorDetect: bool)
    ensures var r := IdleNext(dataChanged, sinceConnection, alert, sensorDetect);
            (r == Transmission <==> dataChanged && sinceConnection > TRANSMIT_LATENCY)
            && (r == Error <==> !(dataChanged && sinceConnection > TRANSMIT_LATENCY) && alert != 0)
            && (r == ActivePing <==> !(dataChanged && sinceConnection > TRANSMIT_LATENCY) && alert == 0 && sensorDetect)
            && r in {Transmission, Error, ActivePing, Idle}
  {
  }

  // ---------------------------------------------------------------- sleeping

  /**
   * Lines 140-152: with the RTC set, sleep until the next multiple of the
   * reporting period (`frequencyMinutes` minutes); otherwise for 60 s. The
   * `% wakeBoundary` needs a nonzero period.
   */
  function SleepSeconds(rtcSet: bool, now: nat, frequencyMinutes: u16): (w: nat)
    requires rtcSet ==> frequencyMinutes > 0
    ensures rtcSet ==> 1 <= w <= frequencyMinutes as int * 60
    ensures !rtcSet ==> w == UNSET_CLOCK_SLEEP
  {
    if rtcSet then
      var wakeBoundary := frequencyMinutes as nat * 60;
      wakeBoundary - now % wakeBoundary
    else UNSET_CLOCK_SLEEP
  }

  /** `t` is a multiple of the period `b`. */
  predicate OnBoundary(t: int, b: int)
    requires b > 0
  {
    t % b == 0
  }

  /** The wake-up lands exactly on the next reporting boundary: no earlier second is a boundary. */
  lemma {:induction false} WakeOnNextBoundary(now: nat, frequencyMinutes: u16)
    requires frequencyMinutes > 0
    ensures var b := frequencyMinutes as int * 60;
            var w := SleepSeconds(true, now, frequencyMinutes);
            OnBoundary(now + w, b) && forall t | now < t < now + w :: !OnBoundary(t, b)
  {
    var b := frequencyMinutes as int * 60;
    var q, r := now / b, now % b;
    var w := SleepSeconds(true, now, frequencyMinutes);
    assert now + w == (q + 1) * b;
    ModOfOffset(q + 1, b, 0);
    forall t | now < t < now + w
      ensures !OnBoundary(t, b)
    {
      ModOfOffset(q, b, r + (t - now));
    }
  }

  /** `(q * b + x) % b == x` for an offset inside the period. */
  lemma {:induction false} ModOfOffset(q: int, b: int, x: int)
    requires b > 0 && 0 <= x < b
    ensures (q * b + x) % b == x
  {
    var y := q * b + x;
    var k, m := y / b, y % b;
    assert (q - k) * b == m - x;
    if q - k >= 1 {
      MultipleAtLeast(q - k, b);
    } else if k - q >= 1 {
      MultipleAtLeast(k - q, b);
    }
  }

  lemma MultipleAtLeast(n: int, b: int)
    requires n >= 1 && b > 0
    ensures n * b >= b
  {
  }

  /** Lines 161-183: the state the wake-up interrupt leads to. */
  function WakeState(irq: u8): (s: State)
    ensures s in {Idle, Listening, Sleeping}
  {
    if irq == IRQ_AB1805 then Idle
    else if irq == IRQ_RF95_DIO0 then Listening
    else if irq == IRQ_RF95_IRQ then Listening
    else if irq == IRQ_SENSOR then Sleeping
    else if irq == IRQ_USER_SWITCH then Idle
    else Idle
  }

  /** The radio wakes the node to listen, the sensor lets it sleep on, anything else (even no interrupt) makes it idle. */
  lemma WakeStateCases(irq: u8)
    ensures WakeState(irq) == Listening <==> irq == IRQ_RF95_DIO0 || irq == IRQ_RF95_IRQ
    ensures WakeState(irq) == Sleeping <==> irq == IRQ_SENSOR
  {
  }

  // ---------------------------------------------------------------- transmission

  /**
   * Lines 250-270: after a delivered message, listen with the retry count
   * reset; after a failure with three retries used up, reset the count and
   * either raise the power-cycle alert (`stale`) or listen anyway; after an
   * earlier failure, count the retry and wait.
   */
  function AfterAttempt(delivered: bool, retryCount: int, stale: bool): (State, int)
  {
    if delivered then (Listening, 0)
    else if retryCount >= MAX_RETRIES then (if stale then Error else Listening, 0)
    else (RetryWait, retryCount + 1)
  }

  /** The retry count stays in 0..3 and only a failure below three retries waits to retry. */
  lemma RetryCountBounded(delivered: bool, retryCount: int, stale: bool)
    requires 0 <= retryCount <= MAX_RETRIES
    ensures var (s, n) := AfterAttempt(delivered, retryCount, stale);
            0 <= n <= MAX_RETRIES && (s == RetryWait <==> !delivered && retryCount < MAX_RETRIES)
            && (n == 0 <==> s != RetryWait)
  {
  }

  /**
   * Four failed attempts in a row starting from a fresh count: the first
   * three wait to retry, the fourth gives up for the period with the count
   * reset.
   */
  lemma {:induction false} FourthFailureGivesUp(stale: bool)
    ensures AfterAttempt(false, 0, stale) == (RetryWait, 1)
    ensures AfterAttempt(false, 1, stale) == (RetryWait, 2)
    ensures AfterAttempt(false, 2, stale) == (RetryWait, 3)
    ensures AfterAttempt(false, 3, stale).1 == 0 && AfterAttempt(false, 3, stale).0 != RetryWait
  {
  }

  /**
   * Line 258 as written: `lastConnection` was set to the time of this pass
   * at line 238, so the check measures how long this pass took, not how long
   * the node has gone without a connection; the earlier connection time is
   * not used.
   */
  function StaleAsWritten(lastConnectionBefore: int, sentAt: int, checkedAt: int, frequencyMinutes: u16): bool
  {
    var lastConnection := sentAt;
    checkedAt - lastConnection > 2 * frequencyMinutes as int * 60
  }

  /** One TRANSMISSION pass: the clock reading of line 238, the one of line 258, and whether the message was delivered. */
  datatype Attempt = Attempt(sentAt: int, checkedAt: int, delivered: bool)

  /**
   * What successive TRANSMISSION passes carry from one to the next:
   * `sysStatus.lastConnection`, the retry count and the state chosen, plus
   * the time of the last delivered message, which the firmware does not keep.
   */
  datatype Link = Link(lastConnection: int, lastDelivery: int, retryCount: int, state: State)

  /**
   * One TRANSMISSION pass for an alert of 0..2 (lines 238-270): line 238
   * stamps `lastConnection` whatever the outcome, and after the last retry
   * the two-period check runs either as written or (`intended`) measured
   * from the last delivery.
   */
  function Pass(l: Link, a: Attempt, frequencyMinutes: u16, intended: bool): Link
  {
    var stale := if intended then StaleIntended(l.lastDelivery, a.checkedAt, frequencyMinutes)
                 else StaleAsWritten(l.lastConnection, a.sentAt, a.checkedAt, frequencyMinutes);
    var (s, n) := AfterAttempt(a.delivered, l.retryCount, stale);
    Link(a.sentAt, if a.delivered then a.sentAt else l.lastDelivery, n, s)
  }

  /** Successive TRANSMISSION passes, in order. */
  function Run(l: Link, attempts: seq<Attempt>, frequencyMinutes: u16, intended: bool): Link
    decreases |attempts|
  {
    if attempts == [] then l else Run(Pass(l, attempts[0], frequencyMinutes, intended), attempts[1..], frequencyMinutes, intended)
  }

  /** Every pass reads the clock at line 258 within two reporting periods of line 238. */
  predicate ShortPasses(attempts: seq<Attempt>, frequencyMinutes: u16)
  {
    forall i | 0 <= i < |attempts| :: attempts[i].checkedAt - attempts[i].sentAt <= 2 * frequencyMinutes as int * 60
  }

  /** A node last heard at 0 s that fails four passes in a row, ten seconds apart, from 100000 s on. */
  const SILENT_ATTEMPTS: seq<Attempt> :=
    [Attempt(100000, 100000, false), Attempt(100010, 100010, false), Attempt(100020, 100020, false), Attempt(100030, 100030, false)]

  /**
   * As written, no sequence of passes that each finish within two periods
   * ever raises the power-cycle alert, however long ago the last delivery
   * was: the four failures of SILENT_ATTEMPTS end in LISTENING.
   */
  lemma {:induction false} StaleCheckMissesSilentNode(l: Link, attempts: seq<Attempt>, frequencyMinutes: u16)
    requires attempts != [] && ShortPasses(attempts, frequencyMinutes)
    ensures Run(l, attempts, frequencyMinutes, false).state != Error
    ensures Run(Link(0, 0, 0, Transmission), SILENT_ATTEMPTS, 60, false).state == Listening
    decreases |attempts|
  {
    var l1 := Pass(l, attempts[0], frequencyMinutes, false);
    assert !StaleAsWritten(l.lastConnection, attempts[0].sentAt, attempts[0].checkedAt, frequencyMinutes);
    if |attempts| > 1 {
      assert ShortPasses(attempts[1..], frequencyMinutes) by {
        forall i | 0 <= i < |attempts[1..]|
          ensures attempts[1..][i].checkedAt - attempts[1..][i].sentAt <= 2 * frequencyMinutes as int * 60
        {
          assert attempts[1..][i] == attempts[i + 1];
        }
      }
      StaleCheckMissesSilentNode(l1, attempts[1..], frequencyMinutes);
    } else {
      assert Run(l, attempts, frequencyMinutes, false) == Run(l1, [], frequencyMinutes, false);
    }
    SilentRunUnrolled(false);
  }

  /** The evident intent: nothing delivered for two reporting periods. */
  function StaleIntended(lastDelivery: int, checkedAt: int, frequencyMinutes: u16): bool
  {
    checkedAt - lastDelivery > 2 * frequencyMinutes as int * 60
  }

  /**
   * Measured from the last delivery, four failures in a row from a fresh
   * count end in ERROR exactly when the fourth check comes more than two
   * periods after the last delivery, and in LISTENING otherwise; the
   * failures leave the delivery time alone, and SILENT_ATTEMPTS is caught.
   */
  lemma {:induction false} StaleIntendedCatchesSilentNode(l: Link, attempts: seq<Attempt>, frequencyMinutes: u16)
    requires l.retryCount == 0 && |attempts| == 4
    requires !attempts[0].delivered && !attempts[1].delivered && !attempts[2].delivered && !attempts[3].delivered
    ensures var r := Run(l, attempts, frequencyMinutes, true);
            r.retryCount == 0 && r.lastDelivery == l.lastDelivery
            && (r.state == Error <==> attempts[3].checkedAt - l.lastDelivery > 2 * frequencyMinutes as int * 60)
            && (r.state != Error ==> r.state == Listening)
    ensures Run(Link(0, 0, 0, Transmission), SILENT_ATTEMPTS, 60, true).state == Error
  {
    var l1 := Pass(l, attempts[0], frequencyMinutes, true);
    var l2 := Pass(l1, attempts[1], frequencyMinutes, true);
    var l3 := Pass(l2, attempts[2], frequencyMinutes, true);
    var l4 := Pass(l3, attempts[3], frequencyMinutes, true);
    assert l1.retryCount == 1 && l2.retryCount == 2 && l3.retryCount == 3;
    assert l3.lastDelivery == l.lastDelivery;
    assert attempts[1..][0] == attempts[1] && attempts[1..][1..] == attempts[2..];
    assert attempts[2..][0] == attempts[2] && attempts[2..][1..] == attempts[3..];
    assert attempts[3..][0] == attempts[3] && attempts[3..][1..] == [];
    assert Run(l, attempts, frequencyMinutes, true) == Run(l1, attempts[1..], frequencyMinutes, true)
        == Run(l2, attempts[2..], frequencyMinutes, true) == Run(l3, attempts[3..], frequencyMinutes, true)
        == Run(l4, [], frequencyMinutes, true);
    SilentRunUnrolled(true);
  }

  /** SILENT_ATTEMPTS run pass by pass. */
  lemma SilentRunUnrolled(intended: bool)
    ensures var l0 := Link(0, 0, 0, Transmission);
            var l4 := Pass(Pass(Pass(Pass(l0, SILENT_ATTEMPTS[0], 60, intended), SILENT_ATTEMPTS[1], 60, intended),
                                SILENT_ATTEMPTS[2], 60, intended), SILENT_ATTEMPTS[3], 60, intended);
            Run(l0, SILENT_ATTEMPTS, 60, intended) == l4
            && l4.state == (if intended then Error else Listening)
  {
    var a := SILENT_ATTEMPTS;
    assert a[1..][1..][1..][1..] == [];
  }

  // ---------------------------------------------------------------- error

  /** Lines 291-345: the alert code the ERROR case leaves behind. */
  function ErrorAlert(alert: u8, radioInit: bool, powerCycleDue: bool): u8
  {
    match alert
    case 1 => 1
    case 2 => 2
    case 3 => if powerCycleDue then 0 else 3
    case 4 => if radioInit then 0 else 3
    case 5 => 1
    case 6 => 0
    case _ => 0
  }

  /**
   * Every alert is resolved to one of 0..3: join alerts 1 and 2 stay for the
   * join request, 3 stays until the power cycle is due (or a radio
   * re-initialisation fails), a full reset asks to rejoin, and all others
   * are cleared.
   */
  lemma ErrorAlertResolves(alert: u8, radioInit: bool, powerCycleDue: bool)
    ensures var a := ErrorAlert(alert, radioInit, powerCycleDue);
            a <= 3
            && (a == 3 <==> (alert == 3 && !powerCycleDue) || (alert == 4 && !radioInit))
            && (a == 1 <==> alert == 1 || alert == 5)
            && (a == 2 <==> alert == 2)
  {
  }

  /**
   * The evident intent, and the state each alert's branch of the ERROR case
   * assigns (lines 292-344): the join and reset alerts listen, alert 3 stays
   * in ERROR while it waits for the power cycle, alert 4 listens after a good
   * re-initialisation and idles after a bad one, and unknown alerts idle.
   */
  function ErrorNextIntended(alert: u8, radioInit: bool): (s: State)
    ensures s in {Listening, Error, Idle}
  {
    match alert
    case 1 => Listening
    case 2 => Listening
    case 3 => Error
    case 4 => if radioInit then Listening else Idle
    case 5 => Listening
    case 6 => Listening
    case _ => Idle
  }

  /**
   * Lines 345-350 as written: the ERROR case ends without `break`, so control
   * falls into the INITIALIZATION case, which overwrites whatever the branch
   * chose with IDLE.
   */
  function ErrorNextAsWritten(alert: u8, radioInit: bool): State
  {
    // the branch's ErrorNextIntended(alert, radioInit) is assigned, then overwritten on line 349
    Idle
  }

  /** An unconfigured node (alert 1) never reaches LISTENING from ERROR: it is sent to IDLE instead. */
  lemma ErrorFallThroughSkipsListening(radioInit: bool)
    ensures ErrorNextIntended(1, radioInit) == Listening && ErrorNextAsWritten(1, radioInit) == Idle
    ensures forall alert: u8 :: ErrorNextAsWritten(alert, radioInit) == Idle
  {
  }

  /**
   * With the branch's choice kept, the node listens after the join, reset and
   * successful re-initialisation alerts, stays in ERROR only for the pending
   * power cycle, and idles otherwise.
   */
  lemma ErrorIntendedStates(alert: u8, radioInit: bool)
    ensures ErrorNextIntended(alert, radioInit) == Listening
            <==> alert == 1 || alert == 2 || alert == 5 || alert == 6 || (alert == 4 && radioInit)
    ensures ErrorNextIntended(alert, radioInit) == Error <==> alert == 3
  {
  }

  /**
   * A reception is taken as an acknowledgement when it is a data or join
   * acknowledgement whose first two bytes, as they land in the buffer, carry
   * the node's magic number.
   */
  predicate AckAccepted(rx: Reception, magicNumber: u16, a: Ack)
  {
    rx.Message? && a.magicNumber == magicNumber && rx.messageFlag in {DATA_ACK, JOIN_ACK}
  }

  /** The node's program state: the `state` globals, the interrupt flags and the static locals of `loop`. */
  class Node {
    var state: State
    var oldState: State
    var userSwitchDetected: bool
    var sensorDetect: bool
    var irqReason: u8
    /** `static int retryCount` of the TRANSMISSION case. */
    var retryCount: int
    /** `static unsigned long lastOccupancy` of the ACTIVE_PING case. */
    var lastOccupancy: u32
    /** `static unsigned long listeningStarted` of the LISTENING case. */
    var listeningStarted: u32
    /** The statics of the RETRY_WAIT case. */
    var variableDelay: u32
    var startDelay: u32
    /** `static unsigned long enteredState = millis()` of alert 3: set the first time the case runs. */
    var enteredStateSet: bool
    var enteredState: u32
    /** The RTC alarm `interruptAtTime` was last given. */
    var wakeAt: int
    /** `deepPowerDown` was called: the RTC cuts the power. */
    var poweredDown: bool

    /** The retry count never exceeds the three retries. */
    predicate Valid()
      reads this
    {
      0 <= retryCount <= MAX_RETRIES
    }

    /** The globals' and statics' initial values. */
    constructor ()
      ensures state == Initialization && oldState == Initialization
      ensures !userSwitchDetected && !sensorDetect && irqReason == IRQ_INVALID
      ensures retryCount == 0 && !enteredStateSet && !poweredDown
      ensures Valid()
    {
      state := Initialization;
      oldState := Initialization;
      userSwitchDetected := false;
      sensorDetect := false;
      irqReason := IRQ_INVALID;
      retryCount := 0;
      lastOccupancy := 0;
      listeningStarted := 0;
      variableDelay := 0;
      startDelay := 0;
      enteredStateSet := false;
      enteredState := 0;
      wakeAt := 0;
      poweredDown := false;
    }

    /** `publishStateTransition()`: the log line aside, the current state becomes the old state. */
    method PublishStateTransition()
      modifies this`oldState
      ensures oldState == state
    {
      oldState := state;
    }

    /**
     * Lines 87 and 99-111 of `setup()`: record the firmware release, raise
     * alert 3 when the radio fails to start, else alert 1 (join) when the
     * node is unconfigured or the clock is not set, and leave the
     * initialisation state for IDLE. `loraOk` is what `LoRA.setup(false)`
     * returned; the other set-ups are the MyData, LED and radio methods.
     */
    method Setup(loraOk: bool, rtcSet: bool, now: nat, sys: SysStatusData)
      modifies this`state, sys`sysStatus
      ensures var s := old(sys.sysStatus).(firmwareRelease := FIRMWARE_RELEASE);
              sys.sysStatus == if !loraOk then s.(alertCodeNode := 3, alertTimestampNode := now)
                               else if s.nodeNumber > MAX_CONFIGURED_NODE || !rtcSet then s.(alertCodeNode := 1)
                               else s
      ensures state == if old(state) == Initialization then Idle else old(state)
    {
      sys.sysStatus := sys.sysStatus.(firmwareRelease := FIRMWARE_RELEASE);
      if !loraOk {
        sys.sysStatus := sys.sysStatus.(alertCodeNode := 3);
        sys.sysStatus := sys.sysStatus.(alertTimestampNode := now);
      } else if sys.sysStatus.nodeNumber > 10 || !rtcSet {
        sys.sysStatus := sys.sysStatus.(alertCodeNode := 1);
      }
      if state == Initialization {
        state := Idle;
      }
    }

    /**
     * `loop()`: the environment's switch press reaches the flag first; then
     * the case for the current state runs, then the housekeeping. The other
     * classes' loops are separate methods (MyData, StatusLed).
     */
    method Loop(env: Env, sys: SysStatusData, cur: CurrentStatusData, mem: Eeprom, radio: LoRa)
      requires Valid() && radio.Valid() && env.randomDelay < RETRY_SPREAD_MS
      requires state == Sleeping && env.rtcSet ==> sys.sysStatus.frequencyMinutes > 0
      modifies this, sys`sysStatus, sys`sysDataChanged, cur`current, cur`currentDataChanged, mem`cells,
               radio.buf, radio`address, radio`loraState, radio`clock
      ensures Valid() && state != Initialization
      ensures env.switchPressed || old(userSwitchDetected) ==> state == Transmission
      ensures !userSwitchDetected
      ensures cur.current.occupancyState != 0 ==> sensorDetect
      ensures var quiet := !env.switchPressed && !old(userSwitchDetected);
              quiet && old(state) == Idle ==>
                state == IdleNext(old(cur.currentDataChanged), env.now - old(sys.sysStatus.lastConnection),
                                  old(sys.sysStatus.alertCodeNode), old(sensorDetect))
      ensures var quiet := !env.switchPressed && !old(userSwitchDetected);
              quiet && old(state) == Sleeping ==>
                wakeAt == env.now + SleepSeconds(env.rtcSet, env.now, old(sys.sysStatus.frequencyMinutes))
                && state == WakeState(env.wakeReason)
      ensures var quiet := !env.switchPressed && !old(userSwitchDetected);
              var since := if old(oldState) != ActivePing then env.millis else old(lastOccupancy);
              quiet && old(state) == ActivePing ==>
                state == if U32(env.millis - since) > OCCUPANCY_LATENCY && old(cur.current.occupancyState) == 0
                         then Idle else ActivePing
      ensures var quiet := !env.switchPressed && !old(userSwitchDetected);
              var accepted := AckAccepted(env.rx, old(sys.sysStatus.magicNumber), DecodeAck(radio.buf[..ACK_LEN]));
              quiet && old(state) == Listening ==>
                state == if accepted || U32(env.millis - listeningStarted) > LISTEN_WINDOW_MS then Idle else Listening
      ensures var quiet := !env.switchPressed && !old(userSwitchDetected);
              var alert := old(sys.sysStatus.alertCodeNode);
              var stale := StaleAsWritten(old(sys.sysStatus.lastConnection), env.now, env.afterSend,
                                          old(sys.sysStatus.frequencyMinutes));
              quiet && old(state) == Transmission ==>
                if alert <= 2 then (state, retryCount) == AfterAttempt(env.sendResult == RH_ROUTER_ERROR_NONE, old(retryCount), stale)
                else state == Error
      ensures var quiet := !env.switchPressed && !old(userSwitchDetected);
              quiet && old(state) == RetryWait ==>
                state == if env.millis >= U32(startDelay + variableDelay) then Transmission else RetryWait
      ensures old(state) == Error && !env.switchPressed && !old(userSwitchDetected) ==> state == Idle
    {
      if env.switchPressed {
        userSwitchDetected := true;
        irqReason := IRQ_USER_SWITCH;
        Dispatch(env, sys, cur, mem, radio);
      } else {
        Dispatch(env, sys, cur, mem, radio);
      }
      ghost var chosen := state;
      Housekeeping(cur);
      assert !env.switchPressed && !old(userSwitchDetected) ==> state == chosen;
    }

    /** The `switch (state)` of `loop()`: the case for the current state runs. */
    method Dispatch(env: Env, sys: SysStatusData, cur: CurrentStatusData, mem: Eeprom, radio: LoRa)
      requires Valid() && radio.Valid() && env.randomDelay < RETRY_SPREAD_MS
      requires state == Sleeping && env.rtcSet ==> sys.sysStatus.frequencyMinutes > 0
      modifies this, sys`sysStatus, sys`sysDataChanged, cur`current, cur`currentDataChanged, mem`cells,
               radio.buf, radio`address, radio`loraState, radio`clock
      ensures Valid() && state != Initialization
      ensures userSwitchDetected == old(userSwitchDetected)
      ensures old(state) == Idle ==>
                state == IdleNext(old(cur.currentDataChanged), env.now - old(sys.sysStatus.lastConnection),
                                  old(sys.sysStatus.alertCodeNode), old(sensorDetect))
      ensures old(state) == Sleeping ==>
                wakeAt == env.now + SleepSeconds(env.rtcSet, env.now, old(sys.sysStatus.frequencyMinutes))
                && state == WakeState(env.wakeReason)
      ensures var since := if old(oldState) != ActivePing then env.millis else old(lastOccupancy);
              old(state) == ActivePing ==>
                state == if U32(env.millis - since) > OCCUPANCY_LATENCY && old(cur.current.occupancyState) == 0
                         then Idle else ActivePing
      ensures var accepted := AckAccepted(env.rx, old(sys.sysStatus.magicNumber), DecodeAck(radio.buf[..ACK_LEN]));
              old(state) == Listening ==>
                state == if accepted || U32(env.millis - listeningStarted) > LISTEN_WINDOW_MS then Idle else Listening
      ensures var alert := old(sys.sysStatus.alertCodeNode);
              var stale := StaleAsWritten(old(sys.sysStatus.lastConnection), env.now, env.afterSend,
                                          old(sys.sysStatus.frequencyMinutes));
              old(state) == Transmission ==>
                if alert <= 2 then (state, retryCount) == AfterAttempt(env.sendResult == RH_ROUTER_ERROR_NONE, old(retryCount), stale)
                else state == Error
      ensures old(state) == RetryWait ==>
                state == if env.millis >= U32(startDelay + variableDelay) then Transmission else RetryWait
      ensures old(state) == Error ==> state == Idle
    {
      match state {
        case Idle => IdleStep(env.now, sys, cur);
        case Sleeping => SleepingStep(env, sys);
        case ActivePing => ActivePingStep(env.millis, cur);
        case Listening => var _ := ListeningStep(env, sys, cur, mem, radio);
        case Transmission => TransmissionStep(env, sys, cur, radio);
        case RetryWait => RetryWaitStep(env);
        case Error => ErrorStep(env, sys, cur, mem);
        case Initialization => state := Idle;
      }
    }

    /** Lines 122-131. */
    method IdleStep(now: nat, sys: SysStatusData, cur: CurrentStatusData)
      requires state == Idle
      modifies this`state, this`oldState
      ensures oldState == Idle
      ensures state == IdleNext(cur.currentDataChanged, now - sys.sysStatus.lastConnection, sys.sysStatus.alertCodeNode, sensorDetect)
    {
      if state != oldState {
        PublishStateTransition();
      }
      if cur.currentDataChanged && now - sys.sysStatus.lastConnection > TRANSMIT_LATENCY {
        state := Transmission;
      } else if sys.sysStatus.alertCodeNode != 0 {
        state := Error;
      } else if sensorDetect {
        state := ActivePing;
      }
    }

    /** Lines 133-187: set the RTC alarm for the next wake-up, sleep, and go where the waking interrupt says. */
    method SleepingStep(env: Env, sys: SysStatusData)
      requires state == Sleeping && (env.rtcSet ==> sys.sysStatus.frequencyMinutes > 0)
      modifies this`irqReason, this`oldState, this`wakeAt, this`state
      ensures oldState == Sleeping
      ensures wakeAt == env.now + SleepSeconds(env.rtcSet, env.now, sys.sysStatus.frequencyMinutes)
      ensures irqReason == env.wakeReason && state == WakeState(env.wakeReason)
    {
      irqReason := IRQ_INVALID;
      PublishStateTransition();
      var wakeInSeconds;
      if env.rtcSet {
        var wakeBoundary := sys.sysStatus.frequencyMinutes as nat * 60;
        wakeInSeconds := wakeBoundary - env.now % wakeBoundary;
      } else {
        wakeInSeconds := 60;
      }
      wakeAt := env.now + wakeInSeconds;
      // deep sleep; the waking interrupt's handler sets the reason
      irqReason := env.wakeReason;
      if irqReason == IRQ_AB1805 {
        state := Idle;
      } else if irqReason == IRQ_RF95_DIO0 {
        state := Listening;
      } else if irqReason == IRQ_RF95_IRQ {
        state := Listening;
      } else if irqReason == IRQ_SENSOR {
      } else if irqReason == IRQ_USER_SWITCH {
        state := Idle;
      } else {
        state := Idle;
      }
    }

    /**
     * Lines 189-205: on entry start the occupancy window; once more than
     * OCCUPANCY_LATENCY ms have passed, an occupied doorway restarts the
     * window and an empty one clears the sensor flag and returns to IDLE.
     */
    method ActivePingStep(millis: u32, cur: CurrentStatusData)
      requires state == ActivePing
      modifies this`lastOccupancy, this`oldState, this`sensorDetect, this`state
      ensures oldState == ActivePing
      ensures var since := if old(oldState) != ActivePing then millis else old(lastOccupancy);
              if U32(millis - since) > OCCUPANCY_LATENCY then
                if cur.current.occupancyState != 0 then
                  lastOccupancy == millis && state == ActivePing && sensorDetect == old(sensorDetect)
                else lastOccupancy == since && state == Idle && !sensorDetect
              else lastOccupancy == since && state == ActivePing && sensorDetect == old(sensorDetect)
    {
      if state != oldState {
        lastOccupancy := millis;
        PublishStateTransition();
      }
      if U32(millis - lastOccupancy) > OCCUPANCY_LATENCY {
        if cur.current.occupancyState != 0 {
          lastOccupancy := millis;
        } else {
          sensorDetect := false;
          state := Idle;
        }
      }
    }

    /**
     * Lines 207-231: listen for an acknowledgement. Any accepted message
     * marks the system data changed and ends in IDLE (the ERROR assignment
     * for a pending alert is overwritten on line 223); with nothing accepted
     * the node gives up after 5000 ms.
     */
    method ListeningStep(env: Env, sys: SysStatusData, cur: CurrentStatusData, mem: Eeprom, radio: LoRa)
      returns (received: bool)
      requires state == Listening && radio.Valid()
      modifies this`listeningStarted, this`oldState, this`state, sys`sysStatus, sys`sysDataChanged,
               cur`current, cur`currentDataChanged, mem`cells, radio.buf, radio`loraState, radio`clock, radio`address
      ensures oldState == Listening
      ensures listeningStarted == if old(oldState) != Listening then env.millis else old(listeningStarted)
      ensures received ==> state == Idle && sys.sysDataChanged
      ensures !received ==>
                sys.sysDataChanged == old(sys.sysDataChanged)
                && state == if U32(env.millis - listeningStarted) > LISTEN_WINDOW_MS then Idle else Listening
      ensures env.rx.NoMessage? ==> !received && sys.sysStatus == old(sys.sysStatus) && cur.current == old(cur.current)
      ensures env.rx.Message? ==>
                var a := DecodeAck(radio.buf[..ACK_LEN]);
                (received <==> AckAccepted(env.rx, old(sys.sysStatus.magicNumber), a))
                && sys.sysStatus == (if a.magicNumber == old(sys.sysStatus.magicNumber)
                                     then ListenStatus(old(sys.sysStatus), a, env.rx.messageFlag) else old(sys.sysStatus))
                && cur.current == (if received && env.rx.messageFlag == DATA_ACK && a.byte10 == 0
                                   then old(cur.current).(occupancyState := 0, occupancyGross := 0, occupancyNet := 0)
                                   else old(cur.current))
    {
      if state != oldState {
        listeningStarted := env.millis;
        PublishStateTransition();
      }
      received := radio.Listen(env.rx, sys, cur, mem);
      if received {
        if sys.sysStatus.alertCodeNode != 0 {
          state := Error;
        }
        sys.sysDataChanged := true;
        state := Idle;
      } else if U32(env.millis - listeningStarted) > LISTEN_WINDOW_MS {
        state := Idle;
      }
    }

    /**
     * Lines 233-271: note the connection time, then send a data report
     * (alert 0) or a join request (alerts 1 and 2); any other alert goes to
     * ERROR unsent. The outcome follows `AfterAttempt`, with the two-period
     * check of line 258 as written.
     */
    method TransmissionStep(env: Env, sys: SysStatusData, cur: CurrentStatusData, radio: LoRa)
      requires state == Transmission && Valid() && radio.Valid()
      modifies this`oldState, this`state, this`retryCount, sys`sysStatus, sys`sysDataChanged, cur`current,
               radio.buf, radio`address
      ensures oldState == Transmission && Valid()
      ensures var alert := old(sys.sysStatus.alertCodeNode);
              alert != 0 && alert != 1 && alert != 2 ==>
                state == Error && retryCount == old(retryCount) && sys.sysDataChanged == old(sys.sysDataChanged)
                && sys.sysStatus == old(sys.sysStatus).(lastConnection := env.now) && cur.current == old(cur.current)
      ensures var alert := old(sys.sysStatus.alertCodeNode);
              var delivered := env.sendResult == RH_ROUTER_ERROR_NONE;
              var stale := StaleAsWritten(old(sys.sysStatus.lastConnection), env.now, env.afterSend,
                                          old(sys.sysStatus.frequencyMinutes));
              (alert == 0 || alert == 1 || alert == 2) ==>
                (state, retryCount) == AfterAttempt(delivered, old(retryCount), stale)
                && sys.sysDataChanged == (delivered || old(sys.sysDataChanged))
                && sys.sysStatus == (if !delivered && old(retryCount) >= MAX_RETRIES && stale
                                     then old(sys.sysStatus).(lastConnection := env.now, alertCodeNode := 3,
                                                              alertTimestampNode := env.afterSend)
                                     else old(sys.sysStatus).(lastConnection := env.now))
      ensures old(sys.sysStatus.alertCodeNode) == 0 ==>
                var sent := CountAttempt(old(cur.current));
                cur.current == if env.sendResult == RH_ROUTER_ERROR_NONE
                               then sent.(successCount := U8(sent.successCount + 1), RSSI := env.rssi, SNR := env.snr)
                               else sent
      ensures old(sys.sysStatus.alertCodeNode) == 1 || old(sys.sysStatus.alertCodeNode) == 2 ==>
                cur.current == if env.sendResult == RH_ROUTER_ERROR_NONE
                               then old(cur.current).(RSSI := env.rssi, SNR := env.snr)
                               else old(cur.current)
    {
      var result := false;
      PublishStateTransition();
      sys.sysStatus := sys.sysStatus.(lastConnection := env.now);
      if sys.sysStatus.alertCodeNode == 0 {
        result := radio.ComposeDataReport(env.sendResult, env.rssi, env.snr, sys, cur);
      } else if sys.sysStatus.alertCodeNode == 1 || sys.sysStatus.alertCodeNode == 2 {
        result := radio.ComposeJoinRequest(env.sendResult, env.rssi, env.snr, sys, cur);
      } else {
        state := Error;
        return;
      }
      if result {
        retryCount := 0;
        state := Listening;
        sys.sysDataChanged := true;
      } else if retryCount >= 3 {
        retryCount := 0;
        if env.afterSend - sys.sysStatus.lastConnection > 2 * sys.sysStatus.frequencyMinutes as int * 60 {
          sys.sysStatus := sys.sysStatus.(alertCodeNode := 3);
          sys.sysStatus := sys.sysStatus.(alertTimestampNode := env.afterSend);
          state := Error;
          return;
        }
        state := Listening;
      } else {
        retryCount := retryCount + 1;
        state := RetryWait;
      }
    }

    /** Lines 273-286: on entry draw a random delay below 20 s; transmit again once it has passed. */
    method RetryWaitStep(env: Env)
      requires state == RetryWait && env.randomDelay < RETRY_SPREAD_MS
      modifies this`oldState, this`variableDelay, this`startDelay, this`state
      ensures oldState == RetryWait
      ensures old(oldState) != RetryWait ==> variableDelay == env.randomDelay && startDelay == env.millis
      ensures old(oldState) == RetryWait ==> variableDelay == old(variableDelay) && startDelay == old(startDelay)
      ensures state == if env.millis >= U32(startDelay + variableDelay) then Transmission else RetryWait
    {
      if state != oldState {
        PublishStateTransition();
        variableDelay := env.randomDelay;
        startDelay := env.millis;
      }
      if env.millis >= U32(startDelay + variableDelay) {
        state := Transmission;
      }
    }

    /**
     * Lines 288-350: act on the alert code, then fall through into the
     * INITIALIZATION case (the ERROR case has no `break`), so every pass
     * ends in IDLE whatever state the alert's own case chose.
     */
    method ErrorStep(env: Env, sys: SysStatusData, cur: CurrentStatusData, mem: Eeprom)
      requires state == Error
      modifies this`oldState, this`state, this`enteredStateSet, this`enteredState, this`poweredDown,
               sys`sysStatus, cur`current, cur`currentDataChanged, mem`cells
      ensures oldState == Error && state == Idle && state == ErrorNextAsWritten(old(sys.sysStatus.alertCodeNode), env.radioInit)
      ensures var alert := old(sys.sysStatus.alertCodeNode);
              var due := alert == 3 && U32(env.millis - enteredState) > POWER_CYCLE_WAIT_MS;
              sys.sysStatus.alertCodeNode == ErrorAlert(alert, env.radioInit, due)
      ensures var s := old(sys.sysStatus);
              match s.alertCodeNode
              case 1 => sys.sysStatus == s.(nodeNumber := 11) && cur.current == old(cur.current)
              case 2 => sys.sysStatus == s && cur.current == old(cur.current)
              case 3 =>
                enteredStateSet && enteredState == (if old(enteredStateSet) then old(enteredState) else env.millis)
                && (if U32(env.millis - enteredState) > POWER_CYCLE_WAIT_MS
                    then sys.sysStatus == s.(alertCodeNode := 0, alertTimestampNode := env.now)
                         && mem.SysRecord() == sys.sysStatus && poweredDown
                    else sys.sysStatus == s && poweredDown == old(poweredDown))
                && cur.current == old(cur.current)
              case 4 =>
                sys.sysStatus == (if env.radioInit then s.(alertCodeNode := 0)
                                  else s.(alertCodeNode := 3, alertTimestampNode := env.now))
                && cur.current == old(cur.current)
              case 5 =>
                sys.sysStatus == SystemDefaults(s).(resetCount := 0, alertCodeNode := 1, alertTimestampNode := env.now)
                && cur.current == old(cur.current).(occupancyState := 0, occupancyGross := 0, occupancyNet := 0)
                && mem.CurrentRecord() == cur.current && mem.Version() == STRUCTURES_VERSION
              case 6 =>
                sys.sysStatus == s.(resetCount := 0, alertCodeNode := 0)
                && cur.current == old(cur.current).(occupancyState := 0, occupancyGross := 0, occupancyNet := 0)
                && mem.CurrentRecord() == cur.current
              case _ => sys.sysStatus == s.(alertCodeNode := 0) && cur.current == old(cur.current)
    {
      if state != oldState {
        PublishStateTransition();
      }
      match sys.sysStatus.alertCodeNode {
        case 1 =>
          sys.sysStatus := sys.sysStatus.(nodeNumber := 11);
          state := Listening;
        case 2 =>
          state := Listening;
        case 3 =>
          PowerCycleAlert(env, sys, mem);
        case 4 =>
          if env.radioInit {
            sys.sysStatus := sys.sysStatus.(alertCodeNode := 0);
            state := Listening;
          } else {
            sys.sysStatus := sys.sysStatus.(alertCodeNode := 3);
            sys.sysStatus := sys.sysStatus.(alertTimestampNode := env.now);
            state := Idle;
          }
        case 5 =>
          sys.Initialize(mem);
          cur.ResetEverything(sys, mem);
          sys.sysStatus := sys.sysStatus.(alertCodeNode := 1);
          sys.sysStatus := sys.sysStatus.(alertTimestampNode := env.now);
          state := Listening;
        case 6 =>
          cur.ResetEverything(sys, mem);
          sys.sysStatus := sys.sysStatus.(alertCodeNode := 0);
          state := Listening;
        case _ =>
          sys.sysStatus := sys.sysStatus.(alertCodeNode := 0);
          state := Idle;
      }
      // no break: INITIALIZATION_STATE
      state := Idle;
    }

    /**
     * Lines 301-311: alert 3 waits until 30 s after the case first ran, then
     * clears the alert, saves the system data and powers the device down.
     */
    method PowerCycleAlert(env: Env, sys: SysStatusData, mem: Eeprom)
      modifies this`enteredStateSet, this`enteredState, this`poweredDown, sys`sysStatus, mem`cells
      ensures enteredStateSet && enteredState == if old(enteredStateSet) then old(enteredState) else env.millis
      ensures U32(env.millis - enteredState) > POWER_CYCLE_WAIT_MS ==>
                sys.sysStatus == old(sys.sysStatus).(alertCodeNode := 0, alertTimestampNode := env.now)
                && mem.SysRecord() == sys.sysStatus && poweredDown
      ensures U32(env.millis - enteredState) <= POWER_CYCLE_WAIT_MS ==>
                sys.sysStatus == old(sys.sysStatus) && poweredDown == old(poweredDown) && mem.cells == old(mem.cells)
    {
      if !enteredStateSet {
        enteredStateSet := true;
        enteredState := env.millis;
      }
      if U32(env.millis - enteredState) > POWER_CYCLE_WAIT_MS {
        sys.sysStatus := sys.sysStatus.(alertCodeNode := 0);
        sys.sysStatus := sys.sysStatus.(alertTimestampNode := env.now);
        sys.StoreSysData(mem);
        poweredDown := true;
      }
    }

    /**
     * Lines 353-365: a pending switch press is consumed and forces a
     * transmission; an occupied doorway raises the sensor flag.
     */
    method Housekeeping(cur: CurrentStatusData)
      modifies this`userSwitchDetected, this`state, this`sensorDetect
      ensures !userSwitchDetected
      ensures state == if old(userSwitchDetected) then Transmission else old(state)
      ensures sensorDetect == (old(sensorDetect) || cur.current.occupancyState != 0)
    {
      if userSwitchDetected {
        userSwitchDetected := false;
        state := Transmission;
      }
      if cur.current.occupancyState != 0 {
        sensorDetect := true;
      }
    }
  }
}
