/**
 * The node side of the LoRa protocol (src/LoRA_Functions.cpp): node
 * numbering at setup, the 19-byte data report and the 30-byte join request
 * a node sends, the acknowledgements it decodes from the global receive
 * buffer, and the checksum of a device ID string.
 *
 * The radio (RH_RF95 driver and RHMesh manager) is foreign code: what
 * `sendtoWait` returns, what `recvfromAck` delivers and the last RSSI/SNR
 * are parameters. The real-time clock that an acknowledgement sets is the
 * field `clock`; reading it back gives the value set.
 */
module LoRaFunctions {
  import opened Bytes
  import opened MyData

  const GATEWAY_ADDRESS: u8 := 0

  /** The `LoRA_State` message flags. */
  const NULL_STATE: u8 := 0
  const JOIN_REQ: u8 := 1
  const JOIN_ACK: u8 := 2
  const DATA_RPT: u8 := 3
  const DATA_ACK: u8 := 4

  /** RadioHead's RH_ROUTER_ERROR_NONE; RHRouter.h is not part of this model, 0 is the library's value. */
  const RH_ROUTER_ERROR_NONE: u8 := 0

  /** Nodes 1..10 are configured; 11 marks a node that must send a join request. */
  const MAX_CONFIGURED_NODE: u8 := 10
  const UNCONFIGURED_NODE: u8 := 11

  const DATA_REPORT_LEN: nat := 19
  const JOIN_REQUEST_LEN: nat := 30
  /** Bytes 0..10 are all an acknowledgement is read for. */
  const ACK_LEN: nat := 11

  /** What `manager.recvfromAck` reports: nothing, or a payload with its message flag. */
  datatype Reception = NoMessage | Message(payload: seq<u8>, messageFlag: u8)

  // ---------------------------------------------------------------- setup

  /** `setup(gatewayID)` on `sysStatus`: gateway is node 0, 1..10 are kept, anything else becomes 11 with alert 1. */
  function SetupNode(gatewayID: bool, s: SystemData): SystemData
  {
    if gatewayID then s.(nodeNumber := GATEWAY_ADDRESS)
    else if 0 < s.nodeNumber <= MAX_CONFIGURED_NODE then s
    else s.(nodeNumber := UNCONFIGURED_NODE, alertCodeNode := 1)
  }

  /**
   * After setup a node's number is 0..11; it is 11 exactly when a node had
   * no number in 1..10, and then the join-request alert is raised. Nothing
   * else in `sysStatus` changes.
   */
  lemma SetupNodeOutcome(gatewayID: bool, s: SystemData)
    ensures var r := SetupNode(gatewayID, s);
            r.nodeNumber <= UNCONFIGURED_NODE
            && (r.nodeNumber == UNCONFIGURED_NODE <==> !gatewayID && !(1 <= s.nodeNumber <= 10))
            && (r.nodeNumber == UNCONFIGURED_NODE ==> r.alertCodeNode == 1)
            && (r.nodeNumber != UNCONFIGURED_NODE ==> r.alertCodeNode == s.alertCodeNode)
            && r == s.(nodeNumber := r.nodeNumber, alertCodeNode := r.alertCodeNode)
  {
  }

  /** Running setup a second time changes nothing more. */
  lemma SetupNodeIdempotent(gatewayID: bool, s: SystemData)
    ensures SetupNode(gatewayID, SetupNode(gatewayID, s)) == SetupNode(gatewayID, s)
  {
  }

  // ------------------------------------------------------ acknowledgements

  /**
   * The fields a node reads out of an acknowledgement: the magic number
   * (bytes 0-1), the time (bytes 2-5, a signed 32-bit value), the reporting
   * frequency (6-7), the alert code (8) and the two bytes 9 and 10 whose
   * meaning depends on the message flag.
   */
  datatype Ack = Ack(magicNumber: u16, time: int, frequencyMinutes: u16, alertCode: u8, byte9: u8, byte10: u8)

  /** The decoding expressions of lines 131-142, 228, 236 and 293-294. */
  function DecodeAck(b: seq<u8>): Ack
    requires |b| >= ACK_LEN
  {
    Ack(Be16(b[0], b[1]), Signed32(Be32(b[2], b[3], b[4], b[5])), Be16(b[6], b[7]), b[8], b[9], b[10])
  }

  /** How a gateway lays an acknowledgement out: every multi-byte field high byte first. */
  function EncodeAck(a: Ack): (b: seq<u8>)
    requires -0x8000_0000 <= a.time < 0x8000_0000
    ensures |b| == ACK_LEN
  {
    var t := U32(a.time);
    [HighByte(a.magicNumber), LowByte(a.magicNumber),
     HighByte(t / 0x1_0000), LowByte(t / 0x1_0000), HighByte(t % 0x1_0000), LowByte(t % 0x1_0000),
     HighByte(a.frequencyMinutes), LowByte(a.frequencyMinutes), a.alertCode, a.byte9, a.byte10]
  }

  /** Decoding an encoded acknowledgement gives every field back. */
  lemma AckRoundTrip(a: Ack)
    requires -0x8000_0000 <= a.time < 0x8000_0000
    ensures DecodeAck(EncodeAck(a)) == a
  {
    var b := EncodeAck(a);
    var t := U32(a.time);
    Be16RoundTrip(a.magicNumber);
    Be16RoundTrip(a.frequencyMinutes);
    Be32RoundTrip(t);
    Signed32RoundTrip(a.time);
    assert Be32(b[2], b[3], b[4], b[5]) == t;
  }

  /** Lines 138-143: an accepted message sets the reporting frequency, the alert code and its time stamp. */
  function AcceptAck(s: SystemData, a: Ack): SystemData
  {
    s.(frequencyMinutes := a.frequencyMinutes, alertCodeNode := a.alertCode, alertTimestampNode := a.time)
  }

  /**
   * `receiveAcknowledmentDataReportNode` on `sysStatus`: alert 7 takes the
   * sensor type from byte 9 and clears the alert; another nonzero alert is
   * time stamped; `openHours` comes from byte 10 and any nonzero value is
   * stored as 1 (`= true`). A closed park (0) resets everything, which
   * includes zeroing the reset count.
   */
  function DataAckStatus(s: SystemData, a: Ack, now: int): SystemData
  {
    var s1 := if a.alertCode == 7 then s.(alertCodeNode := 0, sensorType := a.byte9)
              else if a.alertCode != 0 then s.(alertCodeNode := a.alertCode, alertTimestampNode := now)
              else s.(alertCodeNode := a.alertCode);
    if a.byte10 == 0 then s1.(openHours := 0, resetCount := 0) else s1.(openHours := 1)
  }

  /** `receiveAcknowledmentJoinRequestNode` on `sysStatus`: only an unconfigured node takes its number from byte 9. */
  function JoinAckStatus(s: SystemData, a: Ack): SystemData
  {
    s.(nodeNumber := if s.nodeNumber > MAX_CONFIGURED_NODE then a.byte9 else s.nodeNumber, sensorType := a.byte10)
  }

  /**
   * A data acknowledgement leaves `openHours` at 0 or 1, 0 exactly when the
   * gateway sent 0; alert 7 is consumed (sensor type from byte 9, alert
   * cleared) and any other alert code is kept as sent. Node number, magic
   * number and reporting frequency are untouched.
   */
  lemma DataAckOutcome(s: SystemData, a: Ack, now: int)
    ensures var r := DataAckStatus(s, a, now);
            (r.openHours == 0 <==> a.byte10 == 0) && r.openHours <= 1
            && (a.alertCode == 7 ==> r.alertCodeNode == 0 && r.sensorType == a.byte9)
            && (a.alertCode != 7 ==> r.alertCodeNode == a.alertCode && r.sensorType == s.sensorType)
            && (a.byte10 == 0 ==> r.resetCount == 0)
            && (a.byte10 != 0 ==> r.resetCount == s.resetCount)
            && r.nodeNumber == s.nodeNumber && r.magicNumber == s.magicNumber
            && r.frequencyMinutes == s.frequencyMinutes
  {
  }

  /**
   * A join acknowledgement never renumbers a configured node (1..10, or the
   * gateway's 0); the sensor type always comes from byte 10.
   */
  lemma JoinAckOutcome(s: SystemData, a: Ack)
    ensures var r := JoinAckStatus(s, a);
            (s.nodeNumber <= MAX_CONFIGURED_NODE ==> r.nodeNumber == s.nodeNumber)
            && (s.nodeNumber > MAX_CONFIGURED_NODE ==> r.nodeNumber == a.byte9)
            && r.sensorType == a.byte10
            && r == s.(nodeNumber := r.nodeNumber, sensorType := r.sensorType)
  {
  }

  // ----------------------------------------------------------- data report

  /** The fields of a data report, in wire order. */
  datatype Report = Report(
    magicNumber: u16, deviceID: u16, hourlyCount: u16, dailyCount: u16, sensorType: u8,
    internalTempC: i8, stateOfCharge: i8, batteryState: u8, resetCount: u8,
    messageCount: u8, successCount: u8, rssi: i16, snr: i16)

  /** What `composeDataReportNode` reports from `sysStatus` and `current`. */
  function ReportOf(s: SystemData, c: CurrentData): Report
  {
    Report(s.magicNumber, s.deviceID, c.hourlyCount, c.dailyCount, s.sensorType,
           c.internalTempC, c.stateOfCharge, c.batteryState, s.resetCount,
           c.messageCount, c.successCount, c.RSSI, c.SNR)
  }

  /** Lines 172-190: the 19 report bytes, 16-bit fields high byte first, signed bytes as their bit patterns. */
  function EncodeDataReport(r: Report): (b: seq<u8>)
    ensures |b| == DATA_REPORT_LEN
  {
    [HighByte(r.magicNumber), LowByte(r.magicNumber), HighByte(r.deviceID), LowByte(r.deviceID),
     HighByte(r.hourlyCount), LowByte(r.hourlyCount), HighByte(r.dailyCount), LowByte(r.dailyCount),
     r.sensorType, U8(r.internalTempC), U8(r.stateOfCharge), r.batteryState, r.resetCount,
     r.messageCount, r.successCount, HighByte(r.rssi), LowByte(r.rssi), HighByte(r.snr), LowByte(r.snr)]
  }

  /** How the gateway reads a data report back. */
  function DecodeDataReport(b: seq<u8>): Report
    requires |b| >= DATA_REPORT_LEN
  {
    Report(Be16(b[0], b[1]), Be16(b[2], b[3]), Be16(b[4], b[5]), Be16(b[6], b[7]), b[8],
           Signed8(b[9]), Signed8(b[10]), b[11], b[12], b[13], b[14],
           Signed16(Be16(b[15], b[16])), Signed16(Be16(b[17], b[18])))
  }

  /** Every field of a data report, signed ones included, survives encoding and decoding. */
  lemma DataReportRoundTrip(r: Report)
    ensures DecodeDataReport(EncodeDataReport(r)) == r
  {
    Be16RoundTrip(r.magicNumber);
    Be16RoundTrip(r.deviceID);
    Be16RoundTrip(r.hourlyCount);
    Be16RoundTrip(r.dailyCount);
    Signed8RoundTrip(r.internalTempC);
    Signed8RoundTrip(r.stateOfCharge);
    Be16SignedRoundTrip(r.rssi);
    Be16SignedRoundTrip(r.snr);
  }

  /**
   * Lines 160-166: the 8-bit message count is bumped for every report; when
   * it had wrapped to 0 the success count restarts with it.
   */
  function CountAttempt(c: CurrentData): CurrentData
  {
    var c1 := if c.messageCount == 0 then c.(messageCount := 0, successCount := 0) else c;
    c1.(messageCount := U8(c1.messageCount + 1))
  }

  /** A report attempt advances the message count modulo 256 and never leaves the success count ahead of a fresh cycle. */
  lemma CountAttemptOutcome(c: CurrentData)
    ensures var r := CountAttempt(c);
            r.messageCount == (c.messageCount + 1) % 0x100
            && (c.messageCount == 0 ==> r.successCount == 0 && r.messageCount == 1)
            && (c.messageCount != 0 ==> r.successCount == c.successCount)
            && r == c.(messageCount := r.messageCount, successCount := r.successCount)
  {
  }

  // ------------------------------------------------------------- receiving

  /**
   * How many bytes RadioHead's `recvfromAck` copies into a buffer whose
   * `len` argument says `capacity`: the payload, cut at `capacity`.
   */
  function ReceivedLength(payloadLen: nat, capacity: nat): (n: nat)
    ensures n <= capacity && n <= payloadLen
    ensures n == payloadLen || n == capacity
  {
    if payloadLen <= capacity then payloadLen else capacity
  }

  /**
   * Line 130 as written: with `len = sizeof(buf)` passed in, the terminator
   * goes to `buf[len]`, the index after the received bytes.
   */
  function TerminatorIndexAsWritten(payloadLen: nat, bufLen: nat): nat
  {
    ReceivedLength(payloadLen, bufLen)
  }

  /** A message that fills the buffer makes line 130 write one byte past its end. */
  lemma TerminatorOverrunsFullMessage(bufLen: nat)
    ensures TerminatorIndexAsWritten(bufLen, bufLen) == bufLen
    ensures forall p: nat :: p >= bufLen ==> TerminatorIndexAsWritten(p, bufLen) == bufLen
  {
  }

  /**
   * The evident intent: pass `sizeof(buf) - 1` as the capacity, so the
   * terminator always lands inside the buffer.
   */
  function TerminatorIndex(payloadLen: nat, bufLen: nat): (i: nat)
    requires bufLen > 0
    ensures i < bufLen
  {
    ReceivedLength(payloadLen, bufLen - 1)
  }

  /** With the corrected capacity, every protocol message (at most 30 bytes) still arrives whole. */
  lemma TerminatorIndexKeepsProtocolMessages(payloadLen: nat, bufLen: nat)
    requires JOIN_REQUEST_LEN < bufLen && payloadLen <= JOIN_REQUEST_LEN
    ensures TerminatorIndex(payloadLen, bufLen) == payloadLen
  {
  }

  // -------------------------------------------------------------- checksum

  /** The value `stringCheckSum` gives one character: its hex digit value, 0 for anything else. */
  function HexValue(c: char): (v: nat)
    ensures v <= 15
  {
    if '0' <= c <= '9' then c as int - '0' as int
    else if 'A' <= c <= 'F' then 10 + c as int - 'A' as int
    else if 'a' <= c <= 'f' then 10 + c as int - 'a' as int
    else 0
  }

  /** The checksum of a string, as the loop of lines 310-322 accumulates it from the left. */
  function CheckSum(s: string): nat
  {
    if s == [] then 0 else CheckSum(s[..|s| - 1]) + HexValue(s[|s| - 1])
  }

  /** The checksum is at most 15 per character (360 for a 24-character device ID). */
  lemma {:induction false} CheckSumBound(s: string)
    ensures CheckSum(s) <= 15 * |s|
  {
    if s != [] {
      CheckSumBound(s[..|s| - 1]);
    }
  }

  /** The checksum of two strings put together is the sum of their checksums. */
  lemma {:induction false} CheckSumAppend(a: string, b: string)
    ensures CheckSum(a + b) == CheckSum(a) + CheckSum(b)
    decreases |b|
  {
    if b != [] {
      var b' := b[..|b| - 1];
      var ab := a + b;
      assert ab[..|ab| - 1] == a + b';
      assert ab[|ab| - 1] == b[|b| - 1];
      CheckSumAppend(a, b');
      calc {
        CheckSum(ab);
        CheckSum(a + b') + HexValue(b[|b| - 1]);
        CheckSum(a) + CheckSum(b') + HexValue(b[|b| - 1]);
        CheckSum(a) + CheckSum(b);
      }
    } else {
      assert a + b == a;
    }
  }

  /** Upper- and lower-case hex digits count the same. */
  lemma HexValueIgnoresCase(c: char)
    requires 'a' <= c <= 'f'
    ensures HexValue(c) == HexValue((c as int - 32) as char)
  {
  }

  /** `stringCheckSum`. */
  method StringCheckSum(str: string) returns (result: int)
    ensures result == CheckSum(str)
    ensures 0 <= result <= 15 * |str|
  {
    result := 0;
    for i := 0 to |str|
      invariant result == CheckSum(str[..i])
    {
      var asciiCode := str[i] as int;
      if asciiCode >= 48 && asciiCode < 58 {
        result := result + asciiCode - 48;
      } else if asciiCode >= 65 && asciiCode < 71 {
        result := result + 10 + asciiCode - 65;
      } else if asciiCode >= 97 && asciiCode < 103 {
        result := result + 10 + asciiCode - 97;
      }
      assert str[..i + 1][..i] == str[..i];
    }
    assert str[..|str|] == str;
    CheckSumBound(str);
  }

  // ------------------------------------------------------------- the class

  /**
   * The `LoRA_Functions` singleton with the globals it works on: the receive
   * and send buffer `buf`, the mesh manager's own address, the last message
   * flag `lora_state`, and the clock an acknowledgement sets.
   */
  class LoRa {
    const buf: array<u8>
    var address: u8
    var loraState: u8
    var clock: int

    /** `buf` holds a join request, and its size fits the `uint8_t len` it is received with. */
    predicate Valid()
    {
      JOIN_REQUEST_LEN < buf.Length < 0x100
    }

    /** The globals start zeroed; the manager starts with the gateway address. */
    constructor (bufSize: nat)
      requires JOIN_REQUEST_LEN < bufSize < 0x100
      ensures Valid() && buf.Length == bufSize && fresh(buf)
      ensures address == GATEWAY_ADDRESS && loraState == NULL_STATE && clock == 0
    {
      buf := new u8[bufSize](i => 0);
      address := GATEWAY_ADDRESS;
      loraState := NULL_STATE;
      clock := 0;
    }

    /**
     * `setup(gatewayID)`: number the node and give the manager that address
     * (a gateway keeps the manager's initial address). The radio's own
     * initialisation result is ignored: the call always succeeds.
     */
    method Setup(gatewayID: bool, sys: SysStatusData) returns (ok: bool)
      modifies this`address, sys`sysStatus
      ensures ok
      ensures sys.sysStatus == SetupNode(gatewayID, old(sys.sysStatus))
      ensures address == if gatewayID then old(address) else sys.sysStatus.nodeNumber
    {
      if gatewayID {
        sys.sysStatus := sys.sysStatus.(nodeNumber := GATEWAY_ADDRESS);
      } else if sys.sysStatus.nodeNumber > 0 && sys.sysStatus.nodeNumber <= 10 {
        address := sys.sysStatus.nodeNumber;
      } else {
        sys.sysStatus := sys.sysStatus.(nodeNumber := 11);
        address := 11;
        sys.sysStatus := sys.sysStatus.(alertCodeNode := 1);
      }
      return true;
    }

    /**
     * `listenForLoRAMessageNode`: copy a received message into `buf` and
     * terminate it; reject it if its magic number is not ours; otherwise set
     * the clock, frequency and alert code and hand data and join
     * acknowledgements to their handlers. Only those two can succeed.
     */
    method Listen(rx: Reception, sys: SysStatusData, cur: CurrentStatusData, mem: Eeprom) returns (ok: bool)
      requires Valid()
      modifies buf, this`loraState, this`clock, this`address, sys`sysStatus, cur`current, cur`currentDataChanged, mem`cells
      ensures rx.NoMessage? ==>
                !ok && buf[..] == old(buf[..]) && sys.sysStatus == old(sys.sysStatus) && cur.current == old(cur.current)
                && address == old(address) && clock == old(clock)
      ensures rx.Message? ==>
                var n := TerminatorIndex(|rx.payload|, buf.Length);
                buf[..n] == rx.payload[..n] && buf[n] == 0 && buf[n + 1..] == old(buf[n + 1..])
      ensures rx.Message? ==>
                var a := DecodeAck(buf[..ACK_LEN]);
                (ok <==> a.magicNumber == old(sys.sysStatus.magicNumber) && rx.messageFlag in {DATA_ACK, JOIN_ACK})
                && (a.magicNumber != old(sys.sysStatus.magicNumber) ==>
                      sys.sysStatus == old(sys.sysStatus) && cur.current == old(cur.current) && clock == old(clock))
                && (a.magicNumber == old(sys.sysStatus.magicNumber) ==>
                      clock == a.time && loraState == rx.messageFlag
                      && sys.sysStatus == ListenStatus(old(sys.sysStatus), a, rx.messageFlag))
      ensures ok && rx.messageFlag == DATA_ACK && DecodeAck(buf[..ACK_LEN]).byte10 == 0 ==>
                cur.current == old(cur.current).(occupancyState := 0, occupancyGross := 0, occupancyNet := 0)
      ensures !(ok && rx.messageFlag == DATA_ACK && DecodeAck(buf[..ACK_LEN]).byte10 == 0) ==> cur.current == old(cur.current)
    {
      if rx.NoMessage? {
        // clearBuffer(): drain the driver, nothing of ours changes
        return false;
      }
      var len := TerminatorIndex(|rx.payload|, buf.Length);
      forall i | 0 <= i < len {
        buf[i] := rx.payload[i];
      }
      buf[len] := 0;
      if Be16(buf[0], buf[1]) != sys.sysStatus.magicNumber {
        return false;
      }
      loraState := rx.messageFlag;
      clock := Signed32(Be32(buf[2], buf[3], buf[4], buf[5]));
      sys.sysStatus := sys.sysStatus.(frequencyMinutes := Be16(buf[6], buf[7]));
      sys.sysStatus := sys.sysStatus.(alertCodeNode := buf[8]);
      sys.sysStatus := sys.sysStatus.(alertTimestampNode := clock);
      if loraState == DATA_ACK {
        ok := ReceiveDataAck(sys, cur, mem);
      } else if loraState == JOIN_ACK {
        ok := ReceiveJoinAck(sys);
      } else {
        ok := false;
      }
    }

    /** `receiveAcknowledmentDataReportNode`: act on bytes 8-10 of the acknowledgement in `buf`. */
    method ReceiveDataAck(sys: SysStatusData, cur: CurrentStatusData, mem: Eeprom) returns (ok: bool)
      requires Valid()
      modifies sys`sysStatus, cur`current, cur`currentDataChanged, mem`cells
      ensures ok
      ensures sys.sysStatus == DataAckStatus(old(sys.sysStatus), DecodeAck(buf[..ACK_LEN]), clock)
      ensures buf[10] == 0 ==>
                cur.current == old(cur.current).(occupancyState := 0, occupancyGross := 0, occupancyNet := 0)
                && mem.CurrentRecord() == cur.current && !cur.currentDataChanged
      ensures buf[10] != 0 ==> cur.current == old(cur.current) && mem.cells == old(mem.cells)
    {
      sys.sysStatus := sys.sysStatus.(alertCodeNode := buf[8]);
      if sys.sysStatus.alertCodeNode == 7 {
        sys.sysStatus := sys.sysStatus.(sensorType := buf[9]);
        sys.sysStatus := sys.sysStatus.(alertCodeNode := 0);
      } else if sys.sysStatus.alertCodeNode != 0 {
        sys.sysStatus := sys.sysStatus.(alertTimestampNode := clock);
      }
      sys.sysStatus := sys.sysStatus.(openHours := buf[10]);
      if sys.sysStatus.openHours == 0 {
        cur.ResetEverything(sys, mem);
      } else {
        sys.sysStatus := sys.sysStatus.(openHours := 1);
      }
      return true;
    }

    /** `receiveAcknowledmentJoinRequestNode`: take the node number (if unconfigured) and sensor type, then readdress. */
    method ReceiveJoinAck(sys: SysStatusData) returns (ok: bool)
      requires Valid()
      modifies this`address, sys`sysStatus
      ensures ok
      ensures sys.sysStatus == JoinAckStatus(old(sys.sysStatus), DecodeAck(buf[..ACK_LEN]))
      ensures address == sys.sysStatus.nodeNumber
    {
      if sys.sysStatus.nodeNumber > 10 {
        sys.sysStatus := sys.sysStatus.(nodeNumber := buf[9]);
      }
      sys.sysStatus := sys.sysStatus.(sensorType := buf[10]);
      address := sys.sysStatus.nodeNumber;
      return true;
    }

    /**
     * `composeDataReportNode`: count the attempt, lay the report out in the
     * first 19 bytes of `buf` and send it; on delivery count the success and
     * keep the link quality for the next report.
     */
    method ComposeDataReport(result: u8, rssi: i16, snr: i16, sys: SysStatusData, cur: CurrentStatusData)
      returns (delivered: bool)
      requires Valid()
      modifies buf, cur`current
      ensures delivered <==> result == RH_ROUTER_ERROR_NONE
      ensures var sent := CountAttempt(old(cur.current));
              DecodeDataReport(buf[..DATA_REPORT_LEN]) == ReportOf(sys.sysStatus, sent)
              && buf[DATA_REPORT_LEN..] == old(buf[DATA_REPORT_LEN..])
              && cur.current == if delivered then sent.(successCount := U8(sent.successCount + 1), RSSI := rssi, SNR := snr)
                                else sent
    {
      if cur.current.messageCount == 0 {
        cur.current := cur.current.(messageCount := 0, successCount := 0);
      }
      cur.current := cur.current.(messageCount := U8(cur.current.messageCount + 1));
      // lines 172-190, one byte per field in wire order
      var report := EncodeDataReport(ReportOf(sys.sysStatus, cur.current));
      forall i | 0 <= i < DATA_REPORT_LEN {
        buf[i] := report[i];
      }
      assert buf[..DATA_REPORT_LEN] == report;
      DataReportRoundTrip(ReportOf(sys.sysStatus, cur.current));
      if result == RH_ROUTER_ERROR_NONE {
        cur.current := cur.current.(successCount := U8(cur.current.successCount + 1));
        cur.current := cur.current.(RSSI := rssi, SNR := snr);
        return true;
      }
      return false;
    }

    /**
     * `composeJoinRequesttNode`: readdress the manager, write the magic number
     * and (twice) the device ID to bytes 0-5 and the sensor type to byte 29,
     * and send 30 bytes; bytes 6-28 go out with whatever they held. On
     * delivery the link quality is kept.
     */
    method ComposeJoinRequest(result: u8, rssi: i16, snr: i16, sys: SysStatusData, cur: CurrentStatusData)
      returns (delivered: bool)
      requires Valid()
      modifies buf, this`address, cur`current
      ensures address == sys.sysStatus.nodeNumber
      ensures Be16(buf[0], buf[1]) == sys.sysStatus.magicNumber
      ensures Be16(buf[2], buf[3]) == sys.sysStatus.deviceID && Be16(buf[4], buf[5]) == sys.sysStatus.deviceID
      ensures buf[29] == sys.sysStatus.sensorType
      ensures forall i | 6 <= i < buf.Length && i != 29 :: buf[i] == old(buf[i])
      ensures delivered <==> result == RH_ROUTER_ERROR_NONE
      ensures cur.current == if delivered then old(cur.current).(RSSI := rssi, SNR := snr) else old(cur.current)
    {
      address := sys.sysStatus.nodeNumber;
      buf[0] := HighByte(sys.sysStatus.magicNumber);
      buf[1] := LowByte(sys.sysStatus.magicNumber);
      buf[2] := HighByte(sys.sysStatus.deviceID);
      buf[3] := LowByte(sys.sysStatus.deviceID);
      buf[4] := HighByte(sys.sysStatus.deviceID);
      buf[5] := LowByte(sys.sysStatus.deviceID);
      buf[29] := sys.sysStatus.sensorType;
      Be16RoundTrip(sys.sysStatus.magicNumber);
      Be16RoundTrip(sys.sysStatus.deviceID);
      if result == RH_ROUTER_ERROR_NONE {
        cur.current := cur.current.(RSSI := rssi, SNR := snr);
        return true;
      }
      return false;
    }
  }

  /** `listenForLoRAMessageNode` on `sysStatus` once the magic number matched. */
  function ListenStatus(s: SystemData, a: Ack, flag: u8): SystemData
  {
    var s1 := AcceptAck(s, a);
    if flag == DATA_ACK then DataAckStatus(s1, a, a.time)
    else if flag == JOIN_ACK then JoinAckStatus(s1, a)
    else s1
  }
}
