# LoRa occupancy node: a Dafny model

This project models the firmware of a battery-powered LoRa node that counts
people passing through a doorway and reports the counts to a gateway. It
also models the small host script that copies a built firmware image onto
the board's UF2 bootloader volume.

The firmware's parts, one Dafny module each:

- **NodeOccupancy**: the main state machine (`setup`, and `loop` with its
  IDLE, SLEEPING, ACTIVE_PING, TRANSMISSION, LISTENING, RETRY_WAIT and
  ERROR cases and the housekeeping after them).
- **LoRaFunctions**: the node side of the LoRa protocol. It covers the node
  numbering, the 19-byte data report and the 30-byte join request, the
  decoding of acknowledgements from the receive buffer, and the device-ID
  checksum.
- **MyData**: the `sysStatus` and `current` records, their dirty flags, and
  the external EEPROM they persist in, with the version byte and fixed record
  offsets.
- **TofPeopleCounter**: the stack-based people counter of the time-of-flight
  sensor. It repairs impossible transitions and counts a person in or out
  when five states complete.
- **ThresholdCounter**: the older two-flag people counter.
- **TofSensor** and **TofSensorLegacy**: the two time-of-flight sensor
  front ends, with their zone classification and baseline calibration.
- **SensorDriver**: what the firmware sees of the ranging driver.
- **StatusLed**: the status-LED flash sequencer.
- **Accelerometer**: the accelerometer's occupancy period.
- **Bytes**: the fixed-width integer types and the big-endian byte helpers
  shared by the others.
- **Uf2Upload**: the upload script.

State the firmware updates in place is modelled as classes with `modifies`
clauses. Each class method is tied to a pure function or stated outright in
its postcondition, and lemmas about those functions carry the properties.
The hardware drivers, the clock, `millis()` and `random()` are inputs to the
methods. The same holds for what the radio and the sensor deliver.

## Model

| member | source | states |
|---|---|---|
| Bytes.U8 | src/LoRA_Functions.cpp:166 | storing into a `uint8_t` keeps the value modulo 256, and a value that already fits is unchanged |
| Bytes.U16 | src/Assets/Accelerometer/Accelerometer.cpp:73 | storing into a `uint16_t` keeps the value modulo 65536, and a value that already fits is unchanged |
| Bytes.U32 | src/MyData.cpp:72 | `unsigned long` arithmetic keeps the value modulo 2^32, and a value that already fits is unchanged |
| Bytes.Signed32 | src/LoRA_Functions.cpp:138 | the four time bytes read as an `int` lie in the signed 32-bit range and have the original bit pattern |
| Bytes.Be16 | src/LoRA_Functions.cpp:131 | the 16-bit value built from a high and a low byte has those bytes as its highByte and lowByte |
| Bytes.Be32 | src/LoRA_Functions.cpp:138 | the 32-bit word's upper half is bytes 0-1 and its lower half is bytes 2-3 |
| Bytes.Be16RoundTrip | src/LoRA_Functions.cpp:172-179 | a 16-bit field sent as highByte then lowByte decodes back to itself |
| Bytes.Signed8 | src/LoRA_Functions.cpp:181 | a byte read back as `int8_t` has the stored bit pattern |
| Bytes.Signed16 | src/LoRA_Functions.cpp:187-190 | two bytes read back as `int16_t` have the stored bit pattern |
| Bytes.Signed8RoundTrip | src/LoRA_Functions.cpp:181-182 | an `int8_t` stored in a `uint8_t` buffer cell is recovered when the cell is read as signed |
| Bytes.Be16SignedRoundTrip | src/LoRA_Functions.cpp:187-190 | an `int16_t` RSSI or SNR sent as highByte/lowByte is recovered, negative values included |
| Bytes.Be32RoundTrip | src/LoRA_Functions.cpp:138 | a 32-bit time split into four bytes, most significant first, is rebuilt exactly |
| Bytes.Signed32RoundTrip | src/LoRA_Functions.cpp:138 | a signed 32-bit time survives the trip through its unsigned bit pattern |
| LoRaFunctions.SetupNodeOutcome | src/LoRA_Functions.cpp:59-72 | after setup the node number is at most 11; it is 11 exactly when a non-gateway had no number in 1..10, and then the join-request alert 1 is raised; nothing else in `sysStatus` changes |
| LoRaFunctions.SetupNodeIdempotent | src/LoRA_Functions.cpp:59-72 | numbering the node a second time changes nothing more |
| LoRaFunctions.EncodeAck | src/LoRA_Functions.cpp:131-142 | the gateway's acknowledgement layout has the 11 bytes a node reads |
| LoRaFunctions.AckRoundTrip | src/LoRA_Functions.cpp:131-142 | decoding an encoded acknowledgement gives back magic number, time, frequency, alert code and bytes 9-10 |
| LoRaFunctions.DataAckOutcome | src/LoRA_Functions.cpp:224-242 | a data acknowledgement leaves `openHours` 0 or 1, 0 exactly when the gateway sent 0; alert 7 sets the sensor type from byte 9 and clears the alert; other alerts are kept; a closed park zeroes the reset count; node number, magic number and frequency are untouched |
| LoRaFunctions.JoinAckOutcome | src/LoRA_Functions.cpp:293-294 | a join acknowledgement renumbers only an unconfigured node (number above 10), always sets the sensor type from byte 10, and changes nothing else |
| LoRaFunctions.EncodeDataReport | src/LoRA_Functions.cpp:172-190 | a data report is 19 bytes long |
| LoRaFunctions.DataReportRoundTrip | src/LoRA_Functions.cpp:172-190 | every field of a data report, the signed temperature, charge, RSSI and SNR included, is recovered from the 19 bytes |
| LoRaFunctions.CountAttemptOutcome | src/LoRA_Functions.cpp:160-166 | each report attempt advances the 8-bit message count modulo 256; after a wrap to 0 the success count restarts at 0 and the message count becomes 1 |
| LoRaFunctions.ReceivedLength | src/LoRA_Functions.cpp:123-129 | the received length is the payload length cut at the buffer capacity |
| LoRaFunctions.TerminatorOverrunsFullMessage | src/LoRA_Functions.cpp:123-130 | as written, a message that fills the buffer puts the terminator at index `sizeof(buf)`, one past the end |
| LoRaFunctions.TerminatorIndex | src/LoRA_Functions.cpp:123-130 | with the capacity one less than the buffer, the terminator index is always inside the buffer |
| LoRaFunctions.TerminatorIndexKeepsProtocolMessages | src/LoRA_Functions.cpp:123-130 | with the corrected capacity every protocol message of up to 30 bytes is still received whole |
| LoRaFunctions.HexValue | src/LoRA_Functions.cpp:311-321 | a character contributes at most 15 to the checksum |
| LoRaFunctions.CheckSumBound | src/LoRA_Functions.cpp:308-324 | the checksum of a string is at most 15 per character |
| LoRaFunctions.CheckSumAppend | src/LoRA_Functions.cpp:308-324 | the checksum of two strings put together is the sum of their checksums |
| LoRaFunctions.HexValueIgnoresCase | src/LoRA_Functions.cpp:316-321 | the lower-case hex digits a-f count the same as A-F |
| LoRaFunctions.StringCheckSum | src/LoRA_Functions.cpp:308-324 | the loop computes the checksum of the whole string, between 0 and 15 per character |
| LoRaFunctions.LoRa.constructor | src/LoRA_Functions.cpp:33-50 | the buffer is fresh, the message flag is NULL_STATE and the manager holds the gateway address |
| LoRaFunctions.LoRa.Setup | src/LoRA_Functions.cpp:53-75 | setup always succeeds, numbers the node as `SetupNode` says, and gives the manager that address unless it is the gateway |
| LoRaFunctions.LoRa.Listen | src/LoRA_Functions.cpp:122-154 | with no message nothing changes and the result is false; a message is copied in and terminated; a wrong magic number is rejected with nothing changed; otherwise clock, frequency and alert are set and the call succeeds exactly for data and join acknowledgements; a closed-park data acknowledgement resets the occupancy counts |
| LoRaFunctions.LoRa.ReceiveDataAck | src/LoRA_Functions.cpp:219-254 | always succeeds; `sysStatus` becomes `DataAckStatus` of the acknowledgement; a closed park resets and stores the current record, otherwise it and the EEPROM are untouched |
| LoRaFunctions.LoRa.ReceiveJoinAck | src/LoRA_Functions.cpp:289-305 | always succeeds; `sysStatus` becomes `JoinAckStatus` of the acknowledgement and the manager takes the resulting node number |
| LoRaFunctions.LoRa.ComposeDataReport | src/LoRA_Functions.cpp:157-217 | the attempt is counted; the first 19 bytes decode to the report of `sysStatus` and the counted record; it reports delivery exactly when the router says none; on delivery the success count and the link quality are updated; the rest of the buffer is untouched |
| LoRaFunctions.LoRa.ComposeJoinRequest | src/LoRA_Functions.cpp:256-287 | the manager takes the node number; bytes 0-5 carry the magic number and the device ID twice, byte 29 the sensor type, and the other bytes keep what they held; on delivery the link quality is kept |
| MyData.Eeprom.constructor | src/MyData.cpp:4 | the memory starts with the given contents and presence |
| MyData.Eeprom.Version | src/MyData.cpp:44-45 | an erased version byte reads 255 |
| MyData.SystemDefaults | src/MyData.cpp:110-116 | the defaults set node 255, magic 27617, release 255, reset count 0, next connection 0, alert 1 and the current structures version, and keep every other field |
| MyData.CurrentValid | src/MyData.cpp:199-209 | the current record is valid exactly when net occupancy does not exceed gross |
| MyData.SysStatusData.constructor | src/MyData.cpp:22-23 | the record starts as given, not marked changed, last checked at 0 |
| MyData.SysStatusData.StoreSysData | src/MyData.cpp:125-128 | the whole system record is written at offset 10 and reads back unchanged |
| MyData.SysStatusData.Initialize | src/MyData.cpp:100-123 | the defaults are loaded, the version byte is written at offset 0 and the record at offset 10 |
| MyData.SysStatusData.Setup | src/MyData.cpp:29-68 | without memory it fails and changes nothing; with a stale version the unique ID is read (0xFFFFFFFF on virgin memory) and the defaults are stored; with the current version the stored record is loaded and memory is unchanged |
| MyData.SysStatusData.Loop | src/MyData.cpp:70-80 | more than 1000 ms after the last check a changed record is stored and the flag cleared; otherwise nothing changes |
| MyData.SysStatusData.Validate | src/MyData.cpp:82-98 | every check is commented out, so every record is valid |
| MyData.SysStatusData.UpdateUniqueID | src/MyData.cpp:143-146 | only the unique ID is written, at offset 1, and reads back |
| MyData.CurrentStatusData.constructor | src/MyData.cpp:162-164 | the record starts as given, not marked changed, last checked at 0 |
| MyData.CurrentStatusData.StoreCurrentData | src/MyData.cpp:222-226 | the flag is cleared and the current record is written at offset 90 and reads back |
| MyData.CurrentStatusData.ResetEverything | src/MyData.cpp:189-197 | occupancy state, gross and net become 0, the system reset count becomes 0, and the record is stored |
| MyData.CurrentStatusData.Validate | src/MyData.cpp:199-209 | valid exactly when net occupancy does not exceed gross |
| MyData.CurrentStatusData.Initialize | src/MyData.cpp:211-220 | the stored record is loaded when valid; otherwise it is loaded with the counts reset; afterwards net never exceeds gross |
| MyData.CurrentStatusData.Setup | src/MyData.cpp:169-175 | as `initialize`: a valid stored record is loaded with the stored records, `sysStatus` and the flag unchanged; an invalid one is loaded with state and counts zeroed, the reset count zeroed and the record stored back; either way net never exceeds gross |
| MyData.CurrentStatusData.Loop | src/MyData.cpp:177-187 | more than 1000 ms after the last check a changed record is stored and the flag cleared; otherwise nothing changes |
| SensorDriver.Consume | src/TOF-Sensor/TofSensor.cpp:176-184 | each ranging uses up one outcome of the sensor, and an exhausted sensor stays exhausted |
| SensorDriver.SuffixTransitive | src/TOF-Sensor/TofSensor.cpp:170-197 | outcomes consumed over two stretches of sampling are consumed from the front of the whole run |
| SensorDriver.EndedInTimeoutExtends | src/TOF-Sensor/TofSensor.cpp:178-183 | a timeout that ended the later stretch of a run also ended the whole run |
| TofSensor.MeasureOutcome | src/TOF-Sensor/TofSensor.cpp:167-199 | `measure()` returns 1 or the timeout code; samples already taken are kept; on success one outcome per remaining sample was used, no stored sample is 65535, and `lastSignal` holds each zone's second sample; a timeout is the last outcome consumed |
| TofSensor.MeasureShape | src/TOF-Sensor/TofSensor.cpp:167-199 | the arrays keep their 2x2 and 2-element shapes, consumed outcomes come from the front, samples already taken are kept, and a timeout result means the sensor timed out or ran dry |
| TofSensor.MeasureReady | src/TOF-Sensor/TofSensor.cpp:185-198 | a successful `measure()` used an outcome per remaining sample, retook every 65535 reading, and left each zone's second sample in `lastSignal` |
| TofSensor.MeasureValid | src/TOF-Sensor/TofSensor.cpp:185-198 | a successful `measure()` used an outcome per remaining sample and stored no 65535 reading |
| TofSensor.MeasureLast | src/TOF-Sensor/TofSensor.cpp:185-198 | after a successful `measure()`, `lastSignal` holds each zone's second sample |
| TofSensor.OccupancyState | src/TOF-Sensor/TofSensor.cpp:156-162 | the state is 0..3; its ones bit is set exactly when zone 1 is occupied and its twos bit exactly when zone 2 is occupied |
| TofSensor.Widen | src/TOF-Sensor/TofSensor.cpp:108-116 | a calibration pair only lowers the minimum and raises the maximum, each to the old bound or one of the samples, so the range then covers both samples |
| TofSensor.WidenAllBounds | src/TOF-Sensor/TofSensor.cpp:92-116 | the fold of the calibration samples over a seed range holds the seed range and every sample, and each end is the seed's end or one of the samples: the smallest such range |
| TofSensor.WidenAllPair | src/TOF-Sensor/TofSensor.cpp:108-116 | folding in one pass's two samples is one `Widen` of the range folded so far |
| TofSensor.WidenAllOne | src/TOF-Sensor/TofSensor.cpp:139-140 | folding in one detection sample is one `Widen` with that sample |
| TofSensor.FloorMin | src/TOF-Sensor/TofSensor.cpp:119-120 | the floored minimum is at least 5, the maximum is kept, and a minimum already at 5 or more is kept |
| TofSensor.WidenKeepsLoose | src/TOF-Sensor/TofSensor.cpp:108-116 | widening by a pair keeps every earlier sample below the maximum and above the minimum (or the minimum at most 5), and adds the pair |
| TofSensor.FloorCovers | src/TOF-Sensor/TofSensor.cpp:119-120 | after the floor, every sample taken in is below the maximum and above the minimum unless the minimum is the floor |
| TofSensor.CoveredIsLoose | src/TOF-Sensor/TofSensor.cpp:105-116 | a range left by a finished nested calibration still covers its samples for the outer loop |
| TofSensor.DetectionFinish | src/TOF-Sensor/TofSensor.cpp:142-144 | the finished detection range is 3 wider at the top and 3 lower at the bottom, floored at 5 |
| TofSensor.WidenKeepsDetectionLoose | src/TOF-Sensor/TofSensor.cpp:139-140 | widening by a detection sample keeps every earlier sample below the maximum and above the minimum (or the minimum under 8), and adds the new one |
| TofSensor.DetectionFinishCovers | src/TOF-Sensor/TofSensor.cpp:142-144 | after the margins and the floor, every sample taken in is at least 3 below the maximum and at least 3 above the minimum unless the minimum is the floor |
| TofSensor.DetectionCoveredIsLoose | src/TOF-Sensor/TofSensor.cpp:134-140 | a range left by a finished nested detection calibration still covers its samples for the outer loop |
| TofSensor.OccupancySeed | src/TOF-Sensor/TofSensor.cpp:92-95 | a zone's seed range is its first reading at both ends, zone 2's raised by 5 |
| TofSensor.DetectionSeed | src/TOF-Sensor/TofSensor.cpp:128-129 | the detection seed range is the first reading plus 8 at both ends |
| TofSensor.ZoneOccupiedIntendedMeansOutside | src/TOF-Sensor/TofSensor.cpp:158-162 | with the corrected comparison a zone is occupied only when both samples leave the clear range, and a sample inside the range never makes it occupied |
| TofSensor.ZoneOccupiedAtMinimum | src/TOF-Sensor/TofSensor.cpp:154-162 | as written, two samples equal to the calibrated minimum make a zone occupied, while the detection test of line 154 treats its minimum as clear |
| TofSensor.TofSensor.constructor | src/TOF-Sensor/TofSensor.cpp:17-30 | every global starts at zero |
| TofSensor.TofSensor.Signals | src/TOF-Sensor/TofSensor.cpp:23 | `zoneSignalPerSpad` is a 2x2 table |
| TofSensor.TofSensor.LastSignals | src/TOF-Sensor/TofSensor.cpp:25 | `lastSignal` has one entry per zone |
| TofSensor.TofSensor.Measure | src/TOF-Sensor/TofSensor.cpp:167-199 | the loop leaves exactly what `MeasureFrom` describes: the result, both arrays and the unread outcomes; it returns 1 only after four samples were consumed, and a timeout only when the sensor timed out |
| TofSensor.TofSensor.Detect | src/TOF-Sensor/TofSensor.cpp:201-221 | one outcome is consumed; a timeout or a dry sensor returns the timeout code and keeps the old signal; otherwise the signal is stored and 1 returned |
| TofSensor.TofSensor.Loop | src/TOF-Sensor/TofSensor.cpp:150-165 | in detection mode only the detection signal and `detectionState` change, and the state is 1 exactly when the signal is outside its range; otherwise the arrays are as `measure()` leaves them and the occupancy state is rebuilt from them, even after a timeout |
| TofSensor.TofSensor.SeedOccupancyBaselines | src/TOF-Sensor/TofSensor.cpp:92-95 | each zone's range starts at its first reading, zone 2 raised by 5 |
| TofSensor.TofSensor.WidenOccupancyBaselines | src/TOF-Sensor/TofSensor.cpp:108-116 | both ranges are widened to take in the four samples, and afterwards every sample lies in its zone's range |
| TofSensor.TofSensor.WidenZone | src/TOF-Sensor/TofSensor.cpp:108-116 | one zone's range takes in its two samples and the other zone's range is untouched |
| TofSensor.TofSensor.PerformOccupancyCalibration | src/TOF-Sensor/TofSensor.cpp:88-124 | a first timeout fails with the ranges untouched; otherwise every sample widened in since the latest seeding lies in its zone's range (strictly covered after success, which floors both minimums at 5); without a nested re-seed the seed is the first `measure()` reading and each range is the fold of its samples over that seed (zone 2 +5), floored on success, after exactly 50 samples per zone; failure means the sensor timed out |
| TofSensor.TofSensor.OccupancyRound | src/TOF-Sensor/TofSensor.cpp:97-116 | one loop pass: a timeout changes no range; otherwise both ranges take in the samples the arrays now hold, keep covering every sample since the latest seeding, and without a re-seed stay the fold of the samples over the outer seed |
| TofSensor.TofSensor.PerformDetectionCalibration | src/TOF-Sensor/TofSensor.cpp:126-148 | every sample widened in since the latest seeding lies in the range; success leaves them at least 3 inside it (the minimum floored at 5) and the last signal too; without a nested re-seed the seed is the first reading (the previous signal after a timeout) plus 8 and the range is the fold of the 50 samples over it, with the margins and floor on success; failure means the sensor timed out |
| TofSensor.TofSensor.DetectionRound | src/TOF-Sensor/TofSensor.cpp:131-140 | one loop pass: a timeout changes no range; otherwise the range takes in the signal now held, keeps covering every sample since the latest seeding, and without a re-seed stays the fold of the samples over the outer seed |
| TofSensor.TofSensor.SeedDetectionBaselines | src/TOF-Sensor/TofSensor.cpp:128-129 | the detection range starts at the last signal plus 8 |
| TofSensor.TofSensor.WidenDetectionBaselines | src/TOF-Sensor/TofSensor.cpp:139-140 | the detection range takes in the signal just read |
| TofSensor.TofSensor.FinishDetectionBaselines | src/TOF-Sensor/TofSensor.cpp:142-144 | the detection range gets its margins of 3 and its floor of 5 |
| TofSensor.TofSensor.Setup | src/TOF-Sensor/TofSensor.cpp:51-86 | a failed `begin` raises alert 3 and counts a retry, and the one after three retries gives up at once; a calibration failure raises alert 3 and returns false; success leaves both calibrations in force |
| TofSensor.TofSensor.Recalibrate | src/TOF-Sensor/TofSensor.cpp:247-256 | only the occupancy calibration runs; success leaves it in force and `sysStatus` untouched; failure raises alert 3 and means the sensor timed out |
| TofSensorLegacy.OccupancyOf | src/TofSensor.cpp:119-121 | the state is 0..3; its ones bit is set exactly when zone 1's signal reaches its baseline plus the threshold, its twos bit exactly when zone 2's does |
| TofSensorLegacy.ScanFrom | src/TofSensor.cpp:95-122 | sampling the zones never changes the baselines |
| TofSensorLegacy.ScanIgnoresState | src/TofSensor.cpp:90-91 | the state before the zone loop is irrelevant: `loop()` starts the sum from 0 |
| TofSensorLegacy.ScanStep | src/TofSensor.cpp:119-121 | a sampled zone stores its signal, consumes one outcome and adds its weight (1 or 2) exactly when occupied |
| TofSensorLegacy.LoopStep | src/TofSensor.cpp:89-129 | one `loop()` that reads both zones leaves the baselines unchanged; on a timeout the model also leaves them unchanged because it omits the `setup()` re-entry (see Left out) |
| TofSensorLegacy.LoopOutcome | src/TofSensor.cpp:89-129 | `loop()` times out exactly when one of the two samples does not arrive; otherwise it stores both signals, consumes two outcomes, sets the state from them and returns 1 exactly when the state changed |
| TofSensorLegacy.AccumulateSums | src/TofSensor.cpp:71-75 | without timeouts the accumulation adds the first N-1 samples of each zone onto whatever the baselines held before, and consumes exactly those samples |
| TofSensorLegacy.AccumulateStep | src/TofSensor.cpp:71-75 | a round whose two samples arrive adds them to the baselines and consumes exactly them |
| TofSensorLegacy.RoundReady | src/TofSensor.cpp:72-74 | a round whose two samples arrive adds each zone's signal to its baseline and consumes two outcomes |
| TofSensorLegacy.CalibrateOkMeansClear | src/TofSensor.cpp:70-87 | calibration succeeds exactly when it leaves the occupancy state clear |
| TofSensorLegacy.CDivTruncatesNonNegative | src/TofSensor.cpp:76-77 | the C++ division of a non-negative sum by the loop count is the largest multiple not above it |
| TofSensorLegacy.CDivOdd | src/TofSensor.cpp:76-77 | the C++ division of a negative sum truncates toward zero, the opposite of the positive sum's quotient |
| TofSensorLegacy.LegacyTofSensor.constructor | src/TofSensor.cpp:14-17 | the signals, baselines and occupancy state start at zero |
| TofSensorLegacy.LegacyTofSensor.Loop | src/TofSensor.cpp:89-129 | the result and the new globals are one `LoopStep` of the old globals |
| TofSensorLegacy.LegacyTofSensor.AccumulateBaselines | src/TofSensor.cpp:71-75 | the loop leaves the globals that N-1 rounds of `Accumulate` describe |
| TofSensorLegacy.LegacyTofSensor.PerformCalibration | src/TofSensor.cpp:70-87 | the result and the new globals are `Calibrate` of the old ones, and success means the occupancy state is clear |
| TofSensorLegacy.LegacyTofSensor.Setup | src/TofSensor.cpp:37-68 | a failed `begin` fails with nothing changed; otherwise one `loop()` runs and calibration is tried at most twice; success means the occupancy state is clear |
| ThresholdCounter.EmptyResets | src/PeopleCounter.cpp:40-43 | state 0 forgets the remembered zone and the threshold flag and touches no count |
| ThresholdCounter.BothZonesSetsThreshold | src/PeopleCounter.cpp:69-71 | state 3 only raises the threshold flag; the remembered zone and the counts stay |
| ThresholdCounter.EnteringCounts | src/PeopleCounter.cpp:45-54 | arriving in zone 1 after 2 then 3 adds one to gross and net (modulo 2^16); any other arrival in zone 1 counts nothing; zone 1 is remembered and the flag cleared |
| ThresholdCounter.LeavingCountsOnlyWhenPositive | src/PeopleCounter.cpp:56-67 | arriving in zone 2 after 1 then 3 takes one off net and gross only when net is positive; otherwise nothing is counted; zone 2 is remembered and the flag cleared |
| ThresholdCounter.OutOfRangeChangesNothing | src/PeopleCounter.cpp:73-77 | a reading above 3 changes nothing but the stored occupancy state |
| ThresholdCounter.DifferencePreserved | src/PeopleCounter.cpp:39-78 | net and gross always move together, so gross minus net is kept (modulo 2^16), and nothing but the counts and the state changes |
| ThresholdCounter.ShiftKeepsDifference | src/PeopleCounter.cpp:49-62 | adding the same amount to both 16-bit counts keeps their wrapped difference |
| ThresholdCounter.PeopleCounter.constructor | src/PeopleCounter.cpp:11-34 | the statics start at 0 and false and the limit at its default |
| ThresholdCounter.PeopleCounter.Loop | src/PeopleCounter.cpp:32-94 | the statics and the record become one `Step` of the reading; the result is true, and the record is marked dirty, exactly when the net count changed |
| ThresholdCounter.PeopleCounter.SetCount | src/PeopleCounter.cpp:96-98 | the `int` argument lands in the 16-bit net count and nothing else changes |
| ThresholdCounter.PeopleCounter.GetLimit | src/PeopleCounter.cpp:100-102 | returns the stored limit |
| ThresholdCounter.PeopleCounter.SetLimit | src/PeopleCounter.cpp:104-106 | stores the given limit |
| TofPeopleCounter.ImpIsComplement | src/TOF-Sensor/PeopleCounter.cpp:20 | the impossible successor of state s is 3 - s, never s itself, and the table is its own inverse |
| TofPeopleCounter.Rev | src/TOF-Sensor/PeopleCounter.cpp:111 | popping every entry hands out as many states as the stack holds |
| TofPeopleCounter.RevAt | src/TOF-Sensor/PeopleCounter.cpp:111 | the i-th state popped is the i-th from the top |
| TofPeopleCounter.PopUntil | src/TOF-Sensor/PeopleCounter.cpp:80-82 | popping until the top is x leaves a prefix of the stack, and when x is on the stack it stops at its highest occurrence |
| TofPeopleCounter.CorrScan | src/TOF-Sensor/PeopleCounter.cpp:185-205 | the temporary stack is never empty during the scan |
| TofPeopleCounter.Moved | src/TOF-Sensor/PeopleCounter.cpp:206-208 | after moving the temporary stack back the stack is not empty |
| TofPeopleCounter.CorrScanShape | src/TOF-Sensor/PeopleCounter.cpp:185-205 | the scan never pops the bottom entry: it leaves a non-empty prefix of the stack, a single entry unless it stopped for a clean-up, and keeps the new state at the bottom of the temporary stack |
| TofPeopleCounter.CorrectionsShape | src/TOF-Sensor/PeopleCounter.cpp:182-214 | the corrections keep the bottom entry and leave the new state on top |
| TofPeopleCounter.StepFrom01 | src/TOF-Sensor/PeopleCounter.cpp:182-214 | from [0, 1], state 0 backs out to [0], state 2 inserts the missed 3, state 3 is pushed, and the clean-up never runs dry |
| TofPeopleCounter.StepFrom02 | src/TOF-Sensor/PeopleCounter.cpp:182-214 | from [0, 2], state 0 backs out to [0], state 1 inserts the missed 3, state 3 is pushed |
| TofPeopleCounter.StepFrom03 | src/TOF-Sensor/PeopleCounter.cpp:182-214 | from [0, 3], state 0 backs out to [0], and states 1 and 2 insert the missed single-zone state before the 3 |
| TofPeopleCounter.StepFrom013 | src/TOF-Sensor/PeopleCounter.cpp:182-214 | from [0, 1, 3], state 0 completes 0-1-3-2-0 by inserting the missed 2, state 1 backs out to [0, 1], state 2 is pushed |
| TofPeopleCounter.StepFrom023 | src/TOF-Sensor/PeopleCounter.cpp:182-214 | from [0, 2, 3], state 0 completes 0-2-3-1-0, state 1 is pushed, state 2 backs out to [0, 2] |
| TofPeopleCounter.StepFrom0132 | src/TOF-Sensor/PeopleCounter.cpp:78-101 | from [0, 1, 3, 2], states 0 and the impossible 1 both complete the sequence with 0; state 3 backtracks to [0, 1, 3] |
| TofPeopleCounter.StepFrom0231 | src/TOF-Sensor/PeopleCounter.cpp:78-101 | from [0, 2, 3, 1], states 0 and the impossible 2 both complete the sequence with 0; state 3 backtracks to [0, 2, 3] |
| TofPeopleCounter.StepClosed | src/TOF-Sensor/PeopleCounter.cpp:42-104 | feeding any state to a reachable stack gives a reachable stack or one of the two completed sequences, and neither backtracking loop pops an empty stack |
| TofPeopleCounter.ReachableShape | src/TOF-Sensor/PeopleCounter.cpp:42-104 | every reachable stack starts at 0, holds at most four entries, never repeats a state twice in a row, and has no impossible transition from its third entry on |
| TofPeopleCounter.CompletedSequencesAsWritten | src/TOF-Sensor/PeopleCounter.cpp:106-155 | as written, 0-1-3-2-0 (popped as "02310") takes the decrement branch and 0-2-3-1-0 (popped as "01320") the increment branch |
| TofPeopleCounter.ErrorBranchUnreachable | src/TOF-Sensor/PeopleCounter.cpp:112-155 | as written, no popped string reaches the error branch, and only "02310" reaches the decrement branch |
| TofPeopleCounter.ClassificationReversed | src/TOF-Sensor/PeopleCounter.cpp:112-128 | on both patterns the branch taken as written is the opposite of the one the comments describe |
| TofPeopleCounter.ClassifyIntendedMatches | src/TOF-Sensor/PeopleCounter.cpp:112-155 | the intended selection increments exactly for "02310", decrements exactly for "01320" and reports every other string as an error |
| TofPeopleCounter.TallyGrossOnlyIncrements | src/TOF-Sensor/PeopleCounter.cpp:112-146 | a completed sequence changes only the counts and the dirty flag; gross stays or rises by one (modulo 2^16); the flag is set exactly when the counts moved |
| TofPeopleCounter.TallySingleEntranceNoUnderflow | src/TOF-Sensor/PeopleCounter.cpp:114-141 | with a single entrance net rises by one, stays, or falls by one only from a positive value, so it never wraps below zero |
| TofPeopleCounter.PeopleCounter.constructor | src/TOF-Sensor/PeopleCounter.cpp:15-18 | both stacks start empty and the limit at its default |
| TofPeopleCounter.PeopleCounter.Setup | src/TOF-Sensor/PeopleCounter.cpp:38-40 | a counter mounted inside starts at one person, otherwise at zero |
| TofPeopleCounter.PeopleCounter.SetCount | src/TOF-Sensor/PeopleCounter.cpp:170-172 | the `int` argument lands in the 16-bit net count, unchanged when it fits |
| TofPeopleCounter.PeopleCounter.GetCount | src/TOF-Sensor/PeopleCounter.cpp:164-168 | returns the net count, which is 0..65535 |
| TofPeopleCounter.PeopleCounter.GetLimit | src/TOF-Sensor/PeopleCounter.cpp:174-176 | returns the stored limit |
| TofPeopleCounter.PeopleCounter.SetLimit | src/TOF-Sensor/PeopleCounter.cpp:178-180 | stores the given limit |
| TofPeopleCounter.PeopleCounter.Push | src/TOF-Sensor/PeopleCounter.cpp:47-53 | `push` puts the state on top |
| TofPeopleCounter.PeopleCounter.Pop | src/TOF-Sensor/PeopleCounter.cpp:81 | `pop` returns the top state and removes it |
| TofPeopleCounter.PeopleCounter.ApplyCorrections | src/TOF-Sensor/PeopleCounter.cpp:182-214 | the loops leave exactly the stack `Corrections` describes and an empty temporary stack |
| TofPeopleCounter.PeopleCounter.TransferBack | src/TOF-Sensor/PeopleCounter.cpp:206-208 | the temporary stack is emptied onto the stack, top first |
| TofPeopleCounter.PeopleCounter.PopUntilTop | src/TOF-Sensor/PeopleCounter.cpp:80-82 | the loop leaves the stack `PopUntil` describes |
| TofPeopleCounter.PeopleCounter.FeedState | src/TOF-Sensor/PeopleCounter.cpp:43-104 | the new stack is `AfterInput` of the old one, and it is reachable or one of the two completed sequences |
| TofPeopleCounter.PeopleCounter.CompleteSequence | src/TOF-Sensor/PeopleCounter.cpp:106-155 | the five entries are popped, top first, and the counts, the dirty flag and the result are what `Tally` gives for that string |
| TofPeopleCounter.PeopleCounter.Loop | src/TOF-Sensor/PeopleCounter.cpp:42-162 | a repeated state changes nothing; a completed sequence empties the stack and is tallied; otherwise the stack is fed and its top becomes the current occupancy state; the stack stays reachable |
| StatusLed.LoopStepConsistent | src/stsLED.cpp:25-132 | `loop` keeps the state in 0..7 and never has the LED going up and down at once |
| StatusLed.StoppedOnlyRefreshesTime | src/stsLED.cpp:37-39 | in state 0 `loop` only refreshes the time stamp: nothing is sequenced and nothing is written to the pin |
| StatusLed.SequenceTimings | src/stsLED.cpp:42-100 | states 1, 3, 5 and 7 advance exactly when their wait (start delay, on, off, pause) has elapsed on the 32-bit clock and keep both counters; state 2 counts a pulse and starts going up; state 4 starts going down |
| StatusLed.PulseDoneOutcome | src/stsLED.cpp:77-94 | once all pulses are out the pulse count restarts and the sequence count rises; the machine stops exactly when a nonzero `count` is reached and pauses otherwise; with pulses to go it turns the LED on again and nothing else changes |
| StatusLed.RampMovesOneStep | src/stsLED.cpp:103-117 | with a ramp the brightness moves by at most one step per call, rising only while going up below 255 and falling only while going down above the off brightness; the pin gets the brightness |
| StatusLed.ImmediateLandsAtTarget | src/stsLED.cpp:118-131 | without a ramp going up lands at 255 and going down at the off brightness, both requests are consumed, and the pin gets the brightness |
| StatusLed.SinglePulseStops | src/stsLED.cpp:48-94 | a single pulse shown once with no waiting runs 2, 3, 4, 5, 6 and stops after five calls, whatever the clock says |
| StatusLed.FlashDelayTruncated | src/stsLED.cpp:136-153 | as written, a 256 ms start delay is dropped altogether and 300 ms shrinks to 44 ms, because the 16-bit argument is kept in an 8-bit field |
| StatusLed.FlashStartIntendedWaits | src/stsLED.cpp:136-153 | keeping the whole 16-bit delay, the sequence starts with a wait exactly when a delay was asked for and waits that long; below 256 ms it agrees with the code as written |
| StatusLed.Led.constructor | src/stsLED.cpp:13-14 | the driver starts stopped, with both counters 0 and flash brightness 20 |
| StatusLed.Led.Setup | src/stsLED.cpp:19-23 | the pin is recorded |
| StatusLed.Led.Loop | src/stsLED.cpp:25-132 | the new sequencer state is one `LoopStep` of the old one under the stored pattern |
| StatusLed.Led.StepSequence | src/stsLED.cpp:36-101 | the switch leaves the state `Sequence` describes |
| StatusLed.Led.FinishPulse | src/stsLED.cpp:77-94 | state 6 leaves the state `PulseDone` describes |
| StatusLed.Led.DriveBrightness | src/stsLED.cpp:103-131 | the brightness moves as `Brighten` describes and is written to the pin |
| StatusLed.Led.RampBrightness | src/stsLED.cpp:103-117 | one ramp step as `Ramp` describes |
| StatusLed.Led.JumpBrightness | src/stsLED.cpp:118-128 | the immediate change as `Jump` describes |
| StatusLed.Led.Flash | src/stsLED.cpp:136-156 | the pattern is stored with the delay cut to 8 bits, the counters and the clock restart, the state is 1 or 2, and then one `loop` runs; the pin number and the other brightness fields are kept |
| StatusLed.Led.Configure | src/stsLED.cpp:137-153 | the pattern is stored with the delay cut to 8 bits and the sequencer restarts at 1 or 2 |
| StatusLed.Led.SetPattern | src/stsLED.cpp:137-144 | the pattern fields take the given values |
| StatusLed.Led.Restart | src/stsLED.cpp:145-153 | both counters become 0, the clock is refreshed, and the state becomes 1 when a delay is stored and 2 otherwise |
| StatusLed.Led.On | src/stsLED.cpp:159-162 | the sequencer stops and the LED is driven fully on |
| StatusLed.Led.Off | src/stsLED.cpp:165-181 | the sequencer stops; without a ramp the off brightness jumps to the target; with one it steps down by one once a ramp period has passed; the pin gets the off brightness |
| StatusLed.Led.Pwm | src/stsLED.cpp:184-188 | the sequencer stops and the LED is driven at the given level |
| StatusLed.Led.IsDone | src/stsLED.cpp:190-197 | done exactly when the sequencer is stopped |
| Accelerometer.TapOpensPeriod | src/Assets/Accelerometer/Accelerometer.cpp:54-68 | a tap with no period open raises the net flag and starts a period now; gross occupancy and the dirty flag are untouched |
| Accelerometer.ExpiredPeriodCloses | src/Assets/Accelerometer/Accelerometer.cpp:69-76 | an open period closes at the first occupied call after `debounceMin` minutes: net goes to 0, gross becomes the period's length in seconds kept in 16 bits (exactly the length when it fits), and the record is marked for saving |
| Accelerometer.OpenPeriodHolds | src/Assets/Accelerometer/Accelerometer.cpp:62-80 | inside an open, unexpired period nothing is counted: at most the net flag is raised by a tap |
| Accelerometer.QuietWithoutOccupancy | src/Assets/Accelerometer/Accelerometer.cpp:54-62 | with no tap and no occupancy, nothing changes, even with a period open |
| Accelerometer.NetStaysAFlag | src/Assets/Accelerometer/Accelerometer.cpp:57-71 | a net occupancy of 0 or 1 stays 0 or 1 |
| Accelerometer.TapThenWait | src/Assets/Accelerometer/Accelerometer.cpp:50-81 | after a tap at t0 and a quiet call at t1, the period has closed exactly when more than `debounceMin` minutes separate them, and then gross is t1 - t0 and net is 0 |
| Accelerometer.Accelerometer.constructor | src/Assets/Accelerometer/Accelerometer.cpp:51-52 | the statics start with no period open, begun at time 0 |
| Accelerometer.Accelerometer.Setup | src/Assets/Accelerometer/Accelerometer.cpp:23-48 | a device that does not begin fails with nothing changed; otherwise the sensitivity becomes 1 and setup succeeds |
| Accelerometer.Accelerometer.ReadData | src/Assets/Accelerometer/Accelerometer.cpp:50-81 | always succeeds; the statics, the current record and its dirty flag become one `ReadStep` of the old ones |
| Uf2Upload.Join | manual_uf2_upload.py:16 | a joined path ends with its second part and is at least as long as both parts |
| Uf2Upload.UpperChar | manual_uf2_upload.py:15 | upper-casing leaves no lower-case ASCII letter and keeps every other character |
| Uf2Upload.Upper | manual_uf2_upload.py:15 | `upper()` keeps the length and upper-cases each character in place |
| Uf2Upload.ContainsAt | manual_uf2_upload.py:15 | wherever the label occurs in a name, `in` finds it |
| Uf2Upload.ContainsFound | manual_uf2_upload.py:15 | whenever `Contains` holds, the label occurs at some position of the name |
| Uf2Upload.ContainsIffOccurs | manual_uf2_upload.py:15 | `Contains` holds exactly when the substring occurs at some position, as Python's `in` does |
| Uf2Upload.UpperIdempotent | manual_uf2_upload.py:15 | upper-casing twice is upper-casing once |
| Uf2Upload.BootVolumeIgnoresCase | manual_uf2_upload.py:15 | a name and its upper-cased form are both boot volumes or both not |
| Uf2Upload.BootVolumeAt | manual_uf2_upload.py:15 | a name with "FEATHERBOOT" in any case somewhere in it is a boot volume |
| Uf2Upload.BootVolumeIff | manual_uf2_upload.py:15 | a name is a boot volume exactly when "FEATHERBOOT" occurs somewhere in its upper-cased form |
| Uf2Upload.ShortNameNeverMatches | manual_uf2_upload.py:15 | a name shorter than the label is never a boot volume |
| Uf2Upload.FileSystem.constructor | manual_uf2_upload.py:1-8 | the file system starts with the given directories and files |
| Uf2Upload.FileSystem.FindFeatherboot | manual_uf2_upload.py:10-17 | nothing without /Volumes; otherwise the path of the first listed entry that is a boot volume, or nothing exactly when no entry is one |
| Uf2Upload.FileSystem.UploadUf2 | manual_uf2_upload.py:19-39 | a missing firmware file stops with nothing changed; no boot volume changes nothing; otherwise NEW.UF2 in the first boot volume is the target, and on a successful copy it holds the firmware's contents while a failed copy changes nothing |
| Uf2Upload.TargetIsNewUf2 | manual_uf2_upload.py:34 | whatever the volume is called, the copy lands in a file named NEW.UF2 directly inside it |
| NodeOccupancy.IdlePriorities | src/LoRA-Node-Occupancy.cpp:122-131 | IDLE goes to TRANSMISSION exactly when data changed more than 60 s after the last connection, to ERROR exactly when not and an alert is pending, to ACTIVE_PING exactly when neither and the sensor fired, and otherwise stays idle |
| NodeOccupancy.SleepSeconds | src/LoRA-Node-Occupancy.cpp:140-152 | with the clock set the sleep lasts between 1 s and one reporting period; with the clock unset it lasts 60 s |
| NodeOccupancy.WakeOnNextBoundary | src/LoRA-Node-Occupancy.cpp:140-152 | the wake-up time is a multiple of the reporting period and no second between now and then is one, so the node wakes on the next period boundary |
| NodeOccupancy.WakeState | src/LoRA-Node-Occupancy.cpp:161-183 | every waking interrupt leads to IDLE, LISTENING or SLEEPING |
| NodeOccupancy.WakeStateCases | src/LoRA-Node-Occupancy.cpp:161-183 | the node listens exactly when a radio interrupt woke it and sleeps on exactly when the sensor woke it |
| NodeOccupancy.RetryCountBounded | src/LoRA-Node-Occupancy.cpp:250-270 | the retry count stays within 0 to 3; the node waits to retry exactly after a failure with fewer than three retries used, and the count is reset whenever it does not wait |
| NodeOccupancy.FourthFailureGivesUp | src/LoRA-Node-Occupancy.cpp:250-270 | from a fresh count, three failures wait to retry with counts 1, 2, 3 and the fourth gives up with the count reset |
| NodeOccupancy.StaleCheckMissesSilentNode | src/LoRA-Node-Occupancy.cpp:238-258 | as written, since line 238 stamps `lastConnection` on every pass, no run of passes that each read the clock within two periods ever raises the power-cycle alert, however long ago the last delivery was; the four failures of SILENT_ATTEMPTS end in LISTENING |
| NodeOccupancy.StaleIntendedCatchesSilentNode | src/LoRA-Node-Occupancy.cpp:250-262 | measured from the last delivery, four failures in a row from a fresh count end in ERROR exactly when the fourth check comes more than two periods after the last delivery, and otherwise in LISTENING with the count reset; SILENT_ATTEMPTS ends in ERROR |
| NodeOccupancy.SilentRunUnrolled | src/LoRA-Node-Occupancy.cpp:238-270 | SILENT_ATTEMPTS run pass by pass ends in ERROR measured from the last delivery and in LISTENING as written |
| NodeOccupancy.ErrorAlertResolves | src/LoRA-Node-Occupancy.cpp:291-345 | ERROR leaves an alert code of at most 3: 3 exactly when a power cycle is still pending or re-initialising the radio failed, 1 exactly for the join and full-reset alerts, 2 exactly for the time alert |
| NodeOccupancy.ErrorFallThroughSkipsListening | src/LoRA-Node-Occupancy.cpp:292-350 | as written, the missing break sends every ERROR pass to IDLE, so alert 1 chooses LISTENING yet ends in IDLE |
| NodeOccupancy.ErrorNextIntended | src/LoRA-Node-Occupancy.cpp:292-344 | the state each alert's branch assigns is LISTENING, ERROR or IDLE |
| NodeOccupancy.ErrorIntendedStates | src/LoRA-Node-Occupancy.cpp:292-344 | kept as the branch chose, the node listens exactly after alerts 1, 2, 5, 6 and a successful alert 4, and stays in ERROR exactly for alert 3 |
| NodeOccupancy.Node.constructor | src/LoRA-Node-Occupancy.cpp:47-66 | the machine starts in INITIALIZATION with no switch press, no sensor event, no interrupt reason and no retries |
| NodeOccupancy.Node.PublishStateTransition | src/LoRA-Node-Occupancy.cpp:381-391 | the current state becomes the recorded old state |
| NodeOccupancy.Node.Setup | src/LoRA-Node-Occupancy.cpp:87-111 | a radio that fails to start raises alert 3 with the current time; otherwise an unconfigured node or an unset clock raises alert 1; the machine leaves INITIALIZATION for IDLE |
| NodeOccupancy.Node.Loop | src/LoRA-Node-Occupancy.cpp:119-374 | each pass keeps the machine valid and out of INITIALIZATION; a switch press forces TRANSMISSION and is consumed; occupancy raises the sensor flag; without a press each state's case decides the next state: IdleNext from IDLE, the waking interrupt from SLEEPING, the 1000 ms window from ACTIVE_PING, an accepted acknowledgement or the 5000 ms limit from LISTENING, AfterAttempt (or ERROR for another alert) from TRANSMISSION, the spent delay from RETRY_WAIT, and IDLE from ERROR |
| NodeOccupancy.Node.Dispatch | src/LoRA-Node-Occupancy.cpp:121-350 | the case for the current state runs and leaves the next state its step decides, without touching the switch flag |
| NodeOccupancy.Node.IdleStep | src/LoRA-Node-Occupancy.cpp:122-131 | the next state is the IDLE choice for the data flag, the time since the last connection, the alert code and the sensor flag |
| NodeOccupancy.Node.SleepingStep | src/LoRA-Node-Occupancy.cpp:133-187 | the wake-up is set SleepSeconds after now, and the state is the one the waking interrupt leads to |
| NodeOccupancy.Node.ActivePingStep | src/LoRA-Node-Occupancy.cpp:189-205 | entering restarts the occupancy window; once more than 1000 ms have passed, occupancy restarts the window and an empty doorway clears the sensor flag and returns to IDLE |
| NodeOccupancy.Node.ListeningStep | src/LoRA-Node-Occupancy.cpp:207-231 | a message is accepted exactly when it is a data or join acknowledgement carrying the node's magic number; a matching magic number applies ListenStatus (DataAckStatus or JoinAckStatus) to `sysStatus`, and an accepted data acknowledgement whose byte 10 is 0 resets the counts; an accepted one marks the system data changed and ends in IDLE; with none the data is untouched and the node gives up after 5000 ms |
| NodeOccupancy.Node.TransmissionStep | src/LoRA-Node-Occupancy.cpp:233-271 | the connection time is set; alert 0 sends a data report and alerts 1 and 2 a join request, any other alert goes to ERROR unsent; the outcome follows AfterAttempt, and a fourth failure with a stale connection raises alert 3 |
| NodeOccupancy.Node.RetryWaitStep | src/LoRA-Node-Occupancy.cpp:273-286 | entering draws a delay below 20 s and notes the time; the node transmits again once the delay has passed |
| NodeOccupancy.Node.ErrorStep | src/LoRA-Node-Occupancy.cpp:288-350 | the alert code becomes ErrorAlert's; each alert's effects on the system and current data and the stored records are as its branch says; the pass ends in IDLE as written |
| NodeOccupancy.Node.PowerCycleAlert | src/LoRA-Node-Occupancy.cpp:301-311 | the first pass notes the time; after more than 30 s the alert is cleared, timestamped, saved and the device powered down, and before that nothing changes |
| NodeOccupancy.Node.Housekeeping | src/LoRA-Node-Occupancy.cpp:353-365 | a pending switch press is consumed and forces TRANSMISSION; occupancy raises the sensor flag |

## Left out

- Radio, sensor, real-time clock, accelerometer and EEPROM drivers (RH_RF95 and RHMesh, the VL53L1X driver, AB1805, the external EEPROM library) are foreign code. Their results are method parameters or a finite sequence of sensor outcomes.
- The EEPROM holds whole records at offsets 0, 1, 10 and 90, not bytes. The byte layout `put`/`get` produce depends on the compiler's struct padding.
- Logging, `printBigNumbers`, `printSysData` and the LED calls made for show inside other modules only produce output, so they are not modelled.
- Floating point is not modelled: the success percentage of a data report, and the temperature, humidity and battery readings.
- `delay()`, deep sleep and `LowPower` calls take time and change no modelled state. The wake-up is modelled by the interrupt reason given to the next step.
- The interrupt handlers and `volatile` flags are inputs set before a step of `loop`. Concurrency between an interrupt and the loop is not modelled.
- `time_t` clock values are unbounded integers. Each pass reads the clock once. The exception is the second reading after a transmission, which line 258 of src/LoRA-Node-Occupancy.cpp makes.
- `timeFunctions.deepPowerDown()` becomes the flag `poweredDown`. The statements after it in the same pass still run in the model, while the device would be off.
- The constants from ErrorCodes.h, RHRouter.h and the sensor configuration header are fixed stand-ins. ErrorCodes.h, RHRouter.h and those headers are not part of this model. PERSON_THRESHOLD and NUM_CALIBRATION_LOOPS are fields fixed when a sensor object is built.
- `randomSeed` and the distribution of `random()` are not modelled. The retry delay is any input below 20000 ms.
- The other classes' `loop` methods are separate methods and are not called from `NodeOccupancy.Node.Loop`: the MyData store loops, the LED sequencer and the sensor and counter loops.
- NodeOccupancy.Node.SleepingStep: requires a nonzero reporting period when the clock is set, and so does NodeOccupancy.Node.Loop in SLEEPING. The source divides by `frequencyMinutes * 60` (src/LoRA-Node-Occupancy.cpp:141-142), and a gateway acknowledgement can set the period to 0 (src/LoRA_Functions.cpp:139). That division by zero is not modelled.
- TofSensorLegacy.LoopStep: its "baselines unchanged" holds for the modelled timeout path only; the legacy code re-enters `setup()` on a timeout (src/TofSensor.cpp:107-111), which would re-run the calibration and change the baselines.
- TofSensorLegacy.LegacyTofSensor.Loop: on a sensor timeout the legacy loop re-enters `setup()` before returning SENSOR_TIMEOUT_ERROR. The model returns the error without the re-entry.
- The non-TENFOOTDISPLAY branch of src/PeopleCounter.cpp uses an undeclared variable and does not compile, so only the TENFOOTDISPLAY branch is modelled.
- The order of the five `pop()` calls inside one `snprintf` is left open by the C++ standard. The model pops top first, so the string reads from the top of the stack down.
- StackArray is not part of this model. Its `peek` on an empty stack gives -1, a value that is never an occupancy state.
- LoRaFunctions.LoRa.Listen uses the corrected terminator index of the finding below. An out-of-bounds write cannot happen on a Dafny array, so the overrun exists only in `TerminatorIndexAsWritten`.
- Uf2Upload.UpperChar upper-cases ASCII letters only. Python's `str.upper()` also maps non-ASCII letters.
- Uf2Upload.Join models `os.path.join` only for a relative second part. The script joins only relative names.
- `time.sleep` in the upload script and the messages it prints are not modelled. Whether `shutil.copy` succeeds is a parameter.
- uf2_auto.py, the PlatformIO post-build hook, is not modelled. It calls an external converter, and its volume search repeats the one in manual_uf2_upload.py.
- The asset factory, the camera and serial glue, src/config.cpp, src/pinout.cpp, src/main.cpp, src/LoRA-Node-Counter.cpp, src/take_measurements.cpp and src/sensors.cpp are wiring and I/O, so they are not modelled.

## Findings

| source | as written | input that shows it | evidently intended | confidence | as-written member | corrected member |
|---|---|---|---|---|---|---|
| src/TOF-Sensor/PeopleCounter.cpp:112-146 | `strcmp(...)` is used as a truth value, so every string that differs from the pattern takes the branch | the popped string "02310", which the comment on line 112 names the increment sequence, takes the decrement branch; "01320", named the decrement sequence on line 128, takes the increment branch; no string reaches the error branch | compare with `strcmp(...) == 0`, so each pattern takes the branch its comment names. The intended direction rests on those comments alone: popped top first, as modelled, "02310" is zone 1 (the inner zone, line 7) then zone 2, a person leaving, so the as-written decrement is physically right; popped bottom first, which the C++ standard also allows, it is a person entering | medium, not executed | TofPeopleCounter.ClassificationReversed | TofPeopleCounter.ClassifyIntendedMatches |
| src/stsLED.cpp:140 | the `uint16_t delay` argument is stored in the `uint8_t _delay` | `flash` with delay 256 starts at once with no delay; 300 waits 44 ms | keep the whole 16-bit delay | high, not executed | StatusLed.FlashDelayTruncated | StatusLed.FlashStartIntendedWaits |
| src/LoRA_Functions.cpp:123-130 | `recvfromAck` gets `len = sizeof(buf)`, then `buf[len] = 0` is written | a message that fills the whole buffer makes the terminator land one byte past its end | pass `sizeof(buf) - 1` so the terminator stays inside the buffer | medium, not executed | LoRaFunctions.TerminatorOverrunsFullMessage | LoRaFunctions.TerminatorIndexKeepsProtocolMessages |
| src/TOF-Sensor/TofSensor.cpp:158-162 | a zone is occupied when both samples are at or below the calibrated minimum | clear range [20, 30] and two samples of 20, a value seen while calibrating the empty doorway, count as occupied | use a strict below-minimum test, like the detection test on line 154 | medium, not executed | TofSensor.ZoneOccupiedAtMinimum | TofSensor.ZoneOccupiedIntendedMeansOutside |
| src/LoRA-Node-Occupancy.cpp:238-258 | line 238 stamps `lastConnection` on every pass, retries included, so the two-period check on line 258 only measures the current pass | last delivery at 0 s, then four failed passes at 100000, 100010, 100020 and 100030 s with a 60-minute period: the fourth gives up to LISTENING with no power-cycle alert | measure from the time of the last delivered message, which only a successful send updates: the same passes end in ERROR with alert 3 | high, not executed | NodeOccupancy.StaleCheckMissesSilentNode | NodeOccupancy.StaleIntendedCatchesSilentNode |
| src/LoRA-Node-Occupancy.cpp:288-350 | the ERROR case has no `break` and falls into the INITIALIZATION case, which sets IDLE | alert 1 selects LISTENING on line 295, yet the pass ends in IDLE | end the ERROR case with `break`, keeping the state its branch chose | high, not executed | NodeOccupancy.ErrorFallThroughSkipsListening | NodeOccupancy.ErrorIntendedStates |
