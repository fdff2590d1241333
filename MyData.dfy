/**
 * Persistent data of the node (src/MyData.cpp): the `sysStatus` and `current`
 * singletons, their dirty flags, and the 256-byte external EEPROM they are
 * saved in. The EEPROM is a map from offset to the record stored there:
 * the structures version byte at 0, the unique ID at 1, the system record
 * at 10 and the current record at 90. An offset nothing was written to
 * reads as erased memory (every byte 0xFF).
 */
module MyData {
  import opened Bytes

  const STRUCTURES_VERSION: u8 := 4
  const SYS_OFFSET: nat := 10
  const CURRENT_OFFSET: nat := 90
  const VERSION_OFFSET: nat := 0
  const UNIQUE_ID_OFFSET: nat := 1
  /** `myMem.setMemorySizeBytes(256)`. */
  const MEMORY_SIZE: nat := 256
  /** Both dirty-flag loops look at their flag at most once per this many milliseconds. */
  const CHECK_INTERVAL_MS: nat := 1000

  /**
   * `SystemDataStructure`. The fields after `multi` are used by the firmware
   * but not declared in src/MyData.h; their widths are this model's choice.
   */
  datatype SystemData = SystemData(
    structuresVersion: u8,
    firmwareRelease: u8,
    magicNumber: u16,
    nodeNumber: u8,
    token: u16,
    uniqueID: u32,
    resetCount: u8,
    lastConnection: int,
    nextConnection: int,
    alertCodeNode: u8,
    sensorType: u8,
    space: u8,
    placement: u8,
    multi: u8,
    frequencyMinutes: u16,
    alertTimestampNode: int,
    deviceID: u16,
    openHours: u8,
    singleEntrance: bool,
    debounceMin: u8,
    sensitivity: u8)

  /**
   * `CurrentDataStructure`. The fields after `occupancyState` are used by the
   * firmware but not declared in src/MyData.h.
   */
  datatype CurrentData = CurrentData(
    internalTempC: i8,
    internalHumidity: i8,
    stateOfCharge: i8,
    batteryState: u8,
    RSSI: i16,
    SNR: i16,
    occupancyGross: u16,
    occupancyNet: u16,
    occupancyState: u8,
    hourlyCount: u16,
    dailyCount: u16,
    messageCount: u8,
    successCount: u8,
    detectionMode: bool,
    detectionState: u8)

  /** What one EEPROM offset holds. */
  datatype Record =
    | VersionByte(version: u8)
    | UniqueIdWord(id: u32)
    | SysBlock(sys: SystemData)
    | CurrentBlock(cur: CurrentData)

  /** A system record read back from erased memory: every field all ones. */
  const ERASED_SYSTEM: SystemData :=
    SystemData(255, 255, 0xFFFF, 255, 0xFFFF, 0xFFFF_FFFF, 255, -1, -1, 255, 255, 255, 255, 255,
               0xFFFF, -1, 0xFFFF, 255, true, 255, 255)

  /** A current record read back from erased memory: every field all ones. */
  const ERASED_CURRENT: CurrentData :=
    CurrentData(-1, -1, -1, 255, -1, -1, 0xFFFF, 0xFFFF, 255, 0xFFFF, 0xFFFF, 255, 255, true, 255)

  /** The external EEPROM (ExternalEEPROM driver); `present` is what `begin()` reports. */
  class Eeprom {
    var cells: map<nat, Record>
    var present: bool

    constructor (present: bool, cells: map<nat, Record>)
      ensures this.present == present && this.cells == cells
    {
      this.present := present;
      this.cells := cells;
    }

    /** `myMem.get(0, versionNumber)`. */
    function Version(): (v: u8)
      reads this
      ensures VERSION_OFFSET !in cells ==> v == 255
    {
      if VERSION_OFFSET in cells && cells[VERSION_OFFSET].VersionByte? then cells[VERSION_OFFSET].version else 255
    }

    /**
     * `myMem.read(a)` for a = 1 or 2: the unique ID word at offset 1 is stored
     * little-endian, so these are its two low bytes; erased memory reads 255.
     */
    function RawByte(a: nat): (b: u8)
      reads this
      requires a == 1 || a == 2
    {
      if UNIQUE_ID_OFFSET in cells && cells[UNIQUE_ID_OFFSET].UniqueIdWord? then
        (if a == 1 then cells[UNIQUE_ID_OFFSET].id % 0x100 else (cells[UNIQUE_ID_OFFSET].id / 0x100) % 0x100)
      else 255
    }

    /** `myMem.get(1, uniqueID)`. */
    function UniqueId(): u32
      reads this
    {
      if UNIQUE_ID_OFFSET in cells && cells[UNIQUE_ID_OFFSET].UniqueIdWord? then cells[UNIQUE_ID_OFFSET].id else 0xFFFF_FFFF
    }

    /** `myMem.get(10, sysStatus)`. */
    function SysRecord(): SystemData
      reads this
    {
      if SYS_OFFSET in cells && cells[SYS_OFFSET].SysBlock? then cells[SYS_OFFSET].sys else ERASED_SYSTEM
    }

    /** `myMem.get(90, current)`. */
    function CurrentRecord(): CurrentData
      reads this
    {
      if CURRENT_OFFSET in cells && cells[CURRENT_OFFSET].CurrentBlock? then cells[CURRENT_OFFSET].cur else ERASED_CURRENT
    }
  }

  /** The defaults `sysStatusData::initialize` loads over the fields it names; the others are kept. */
  function SystemDefaults(s: SystemData): (d: SystemData)
    ensures d.nodeNumber == 255 && d.magicNumber == 27617 && d.firmwareRelease == 255
    ensures d.resetCount == 0 && d.nextConnection == 0 && d.alertCodeNode == 1
    ensures d.structuresVersion == STRUCTURES_VERSION
    ensures d.(nodeNumber := s.nodeNumber, magicNumber := s.magicNumber, firmwareRelease := s.firmwareRelease,
               resetCount := s.resetCount, nextConnection := s.nextConnection, alertCodeNode := s.alertCodeNode,
               structuresVersion := s.structuresVersion) == s
  {
    s.(nodeNumber := 255, structuresVersion := STRUCTURES_VERSION, magicNumber := 27617,
       firmwareRelease := 255, resetCount := 0, nextConnection := 0, alertCodeNode := 1)
  }

  /** Memory whose byte 1 or byte 2 still reads 255 has never been given a unique ID. */
  predicate IsVirgin(byte1: u8, byte2: u8)
  {
    byte1 == 255 || byte2 == 255
  }

  /** `millis() - lastChecked > 1000` on `unsigned long`. */
  predicate CheckDue(nowMillis: u32, lastChecked: u32)
  {
    U32(nowMillis - lastChecked) > CHECK_INTERVAL_MS
  }

  /** `currentStatusData::validate`: the stored counts are consistent when net does not exceed gross. */
  function CurrentValid(c: CurrentData): (ok: bool)
    ensures ok <==> c.occupancyNet <= c.occupancyGross
  {
    !(c.occupancyNet > c.occupancyGross)
  }

  /** `sysStatusData`: the `sysStatus` struct, its dirty flag and the `lastChecked` static of its loop. */
  class SysStatusData {
    var sysStatus: SystemData
    var sysDataChanged: bool
    var lastChecked: u32

    constructor (initial: SystemData)
      ensures sysStatus == initial && !sysDataChanged && lastChecked == 0
    {
      sysStatus := initial;
      sysDataChanged := false;
      lastChecked := 0;
    }

    /** `sysStatusData::storeSysData`: the whole record goes to offset 10. */
    method StoreSysData(mem: Eeprom)
      modifies mem`cells
      ensures mem.cells == old(mem.cells)[SYS_OFFSET := SysBlock(sysStatus)]
      ensures mem.SysRecord() == sysStatus
    {
      mem.cells := mem.cells[SYS_OFFSET := SysBlock(sysStatus)];
    }

    /**
     * `sysStatusData::initialize`: load the defaults, write the version byte
     * at offset 0, then store the record at offset 10.
     */
    method Initialize(mem: Eeprom)
      modifies this`sysStatus, mem`cells
      ensures sysStatus == SystemDefaults(old(sysStatus))
      ensures mem.cells == old(mem.cells)[VERSION_OFFSET := VersionByte(STRUCTURES_VERSION)][SYS_OFFSET := SysBlock(sysStatus)]
      ensures mem.Version() == STRUCTURES_VERSION && mem.SysRecord() == sysStatus
    {
      sysStatus := sysStatus.(nodeNumber := 255);
      sysStatus := sysStatus.(structuresVersion := STRUCTURES_VERSION);
      sysStatus := sysStatus.(magicNumber := 27617);
      sysStatus := sysStatus.(firmwareRelease := 255);
      sysStatus := sysStatus.(resetCount := 0);
      sysStatus := sysStatus.(nextConnection := 0);
      sysStatus := sysStatus.(alertCodeNode := 1);
      mem.cells := mem.cells[VERSION_OFFSET := VersionByte(sysStatus.structuresVersion)];
      StoreSysData(mem);
    }

    /**
     * `sysStatusData::setup`: without memory it fails; otherwise the unique ID
     * comes from offset 1 (0xFFFFFFFF on virgin memory), and then either the
     * defaults are loaded (stored version differs) or the whole record is
     * read from offset 10, which overwrites that unique ID as well.
     */
    method Setup(mem: Eeprom) returns (ok: bool)
      modifies this`sysStatus, mem`cells
      ensures ok == old(mem.present)
      ensures !ok ==> sysStatus == old(sysStatus) && mem.cells == old(mem.cells)
      ensures ok && old(mem.Version()) != STRUCTURES_VERSION ==>
        var withId := old(sysStatus).(uniqueID := if IsVirgin(old(mem.RawByte(1)), old(mem.RawByte(2))) then 0xFFFF_FFFF else old(mem.UniqueId()));
        sysStatus == SystemDefaults(withId) && mem.Version() == STRUCTURES_VERSION && mem.SysRecord() == sysStatus
      ensures ok && old(mem.Version()) == STRUCTURES_VERSION ==>
        sysStatus == old(mem.SysRecord()) && mem.cells == old(mem.cells)
    {
      if !mem.present {
        return false;
      }
      var versionNumber := mem.Version();
      if IsVirgin(mem.RawByte(1), mem.RawByte(2)) {
        sysStatus := sysStatus.(uniqueID := 0xFFFF_FFFF);
      } else {
        sysStatus := sysStatus.(uniqueID := mem.UniqueId());
      }
      if versionNumber != STRUCTURES_VERSION {
        Initialize(mem);
      } else {
        sysStatus := mem.SysRecord();
      }
      return true;
    }

    /** `sysStatusData::loop`: at most once per second, store the record if it changed and clear the flag. */
    method Loop(nowMillis: u32, mem: Eeprom)
      modifies this`lastChecked, this`sysDataChanged, mem`cells
      ensures CheckDue(nowMillis, old(lastChecked)) ==> lastChecked == nowMillis && !sysDataChanged
      ensures CheckDue(nowMillis, old(lastChecked)) && old(sysDataChanged) ==>
        mem.cells == old(mem.cells)[SYS_OFFSET := SysBlock(sysStatus)]
      ensures !(CheckDue(nowMillis, old(lastChecked)) && old(sysDataChanged)) ==> mem.cells == old(mem.cells)
      ensures !CheckDue(nowMillis, old(lastChecked)) ==>
        lastChecked == old(lastChecked) && sysDataChanged == old(sysDataChanged)
    {
      if CheckDue(nowMillis, lastChecked) {
        lastChecked := nowMillis;
        if sysDataChanged {
          StoreSysData(mem);
          sysDataChanged := false;
        }
      }
    }

    /** `sysStatusData::validate`: every check is commented out, so any record is accepted. */
    method Validate(dataSize: nat) returns (valid: bool)
      ensures valid
    {
      valid := true;
    }

    /** `sysStatusData::updateUniqueID`: the unique ID alone goes to offset 1. */
    method UpdateUniqueID(mem: Eeprom)
      modifies mem`cells
      ensures mem.cells == old(mem.cells)[UNIQUE_ID_OFFSET := UniqueIdWord(sysStatus.uniqueID)]
      ensures mem.UniqueId() == sysStatus.uniqueID
    {
      mem.cells := mem.cells[UNIQUE_ID_OFFSET := UniqueIdWord(sysStatus.uniqueID)];
    }
  }

  /** `currentStatusData`: the `current` struct, its dirty flag and the `lastChecked` static of its loop. */
  class CurrentStatusData {
    var current: CurrentData
    var currentDataChanged: bool
    var lastChecked: u32

    constructor (initial: CurrentData)
      ensures current == initial && !currentDataChanged && lastChecked == 0
    {
      current := initial;
      currentDataChanged := false;
      lastChecked := 0;
    }

    /** `currentStatusData::storeCurrentData`: clears the dirty flag and writes the record at offset 90. */
    method StoreCurrentData(mem: Eeprom)
      modifies this`currentDataChanged, mem`cells
      ensures !currentDataChanged
      ensures mem.cells == old(mem.cells)[CURRENT_OFFSET := CurrentBlock(current)]
      ensures mem.CurrentRecord() == current
    {
      currentDataChanged := false;
      mem.cells := mem.cells[CURRENT_OFFSET := CurrentBlock(current)];
    }

    /**
     * `currentStatusData::resetEverything`: zero the occupancy state and both
     * counts, zero the system reset count, and persist the current record.
     */
    method ResetEverything(sys: SysStatusData, mem: Eeprom)
      modifies this`current, this`currentDataChanged, sys`sysStatus, mem`cells
      ensures current == old(current).(occupancyState := 0, occupancyGross := 0, occupancyNet := 0)
      ensures sys.sysStatus == old(sys.sysStatus).(resetCount := 0)
      ensures !currentDataChanged
      ensures mem.cells == old(mem.cells)[CURRENT_OFFSET := CurrentBlock(current)]
      ensures CurrentValid(current)
    {
      current := current.(occupancyState := 0);
      sys.sysStatus := sys.sysStatus.(resetCount := 0);
      current := current.(occupancyGross := 0);
      current := current.(occupancyNet := 0);
      StoreCurrentData(mem);
    }

    /** `currentStatusData::validate`. */
    method Validate(dataSize: nat) returns (valid: bool)
      ensures valid <==> current.occupancyNet <= current.occupancyGross
    {
      valid := true;
      if valid {
        if current.occupancyNet > current.occupancyGross {
          valid := false;
        }
      }
    }

    /**
     * `currentStatusData::initialize`: load the record at offset 90 and, if
     * net exceeds gross, reset everything; afterwards the counts are consistent.
     */
    method Initialize(sys: SysStatusData, mem: Eeprom)
      modifies this`current, this`currentDataChanged, sys`sysStatus, mem`cells
      ensures CurrentValid(current)
      ensures CurrentValid(old(mem.CurrentRecord())) ==>
        current == old(mem.CurrentRecord()) && mem.cells == old(mem.cells) && sys.sysStatus == old(sys.sysStatus)
          && currentDataChanged == old(currentDataChanged)
      ensures !CurrentValid(old(mem.CurrentRecord())) ==>
        current == old(mem.CurrentRecord()).(occupancyState := 0, occupancyGross := 0, occupancyNet := 0)
          && sys.sysStatus == old(sys.sysStatus).(resetCount := 0)
          && mem.CurrentRecord() == current && !currentDataChanged
    {
      current := mem.CurrentRecord();
      if current.occupancyNet > current.occupancyGross {
        ResetEverything(sys, mem);
      }
    }

    /** `currentStatusData::setup` only runs `initialize`. */
    method Setup(sys: SysStatusData, mem: Eeprom)
      modifies this`current, this`currentDataChanged, sys`sysStatus, mem`cells
      ensures CurrentValid(current)
      ensures CurrentValid(old(mem.CurrentRecord())) ==>
        current == old(mem.CurrentRecord()) && mem.cells == old(mem.cells) && sys.sysStatus == old(sys.sysStatus)
          && currentDataChanged == old(currentDataChanged)
      ensures !CurrentValid(old(mem.CurrentRecord())) ==>
        current == old(mem.CurrentRecord()).(occupancyState := 0, occupancyGross := 0, occupancyNet := 0)
          && sys.sysStatus == old(sys.sysStatus).(resetCount := 0)
          && mem.CurrentRecord() == current && !currentDataChanged
    {
      Initialize(sys, mem);
    }

    /** `currentStatusData::loop`: at most once per second, store the record if it changed. */
    method Loop(nowMillis: u32, mem: Eeprom)
      modifies this`lastChecked, this`currentDataChanged, mem`cells
      ensures CheckDue(nowMillis, old(lastChecked)) ==> lastChecked == nowMillis && !currentDataChanged
      ensures CheckDue(nowMillis, old(lastChecked)) && old(currentDataChanged) ==>
        mem.cells == old(mem.cells)[CURRENT_OFFSET := CurrentBlock(current)]
      ensures !(CheckDue(nowMillis, old(lastChecked)) && old(currentDataChanged)) ==> mem.cells == old(mem.cells)
      ensures !CheckDue(nowMillis, old(lastChecked)) ==>
        lastChecked == old(lastChecked) && currentDataChanged == old(currentDataChanged)
    {
      if CheckDue(nowMillis, lastChecked) {
        lastChecked := nowMillis;
        if currentDataChanged {
          StoreCurrentData(mem);
          currentDataChanged := false;
        }
      }
    }
  }
}
