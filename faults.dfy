/** The branch selection of the fault-injection operation: the first guard,
    in source order, that holds on the current shadow decides the outcome. */
module Faults {
  import opened Values
  import opened Shadow

  datatype Fault =
    | BatteryDead    // battery below 3: stop heartbeats and exit with code 0
    | FirmwareCrash  // firmware "0.1": exit with code 1
    | StuckSensor    // location "atl": force the temperature to 100
    | TelemetryBug   // firmware "1.0": stop heartbeats only
    | NoFault
    | CompareError   // the battery value cannot be compared with 3 (TypeError)

  const LowBatteryLimit := 3
  const CrashingFirmware := Str("0.1")
  const StuckSensorLocation := Str("atl")
  const BuggyFirmware := Str("1.0")

  function FaultBranch(shadow: map<string, Value>): (f: Fault)
    requires InitialKeys <= shadow.Keys
    ensures f == CompareError <==> LessThan(shadow[BatteryKey], LowBatteryLimit).None?
    ensures f == BatteryDead <==> LessThan(shadow[BatteryKey], LowBatteryLimit) == Some(true)
    ensures f == FirmwareCrash <==>
      LessThan(shadow[BatteryKey], LowBatteryLimit) == Some(false) && shadow[FirmwareVersionKey] == CrashingFirmware
    ensures f == StuckSensor <==>
      && LessThan(shadow[BatteryKey], LowBatteryLimit) == Some(false)
      && shadow[FirmwareVersionKey] != CrashingFirmware
      && shadow[LocationKey] == StuckSensorLocation
    ensures f == TelemetryBug <==>
      && LessThan(shadow[BatteryKey], LowBatteryLimit) == Some(false)
      && shadow[LocationKey] != StuckSensorLocation
      && shadow[FirmwareVersionKey] == BuggyFirmware
    ensures f == NoFault <==>
      && LessThan(shadow[BatteryKey], LowBatteryLimit) == Some(false)
      && shadow[LocationKey] != StuckSensorLocation
      && shadow[FirmwareVersionKey] !in {CrashingFirmware, BuggyFirmware}
  {
    match LessThan(shadow[BatteryKey], LowBatteryLimit)
    case None => CompareError
    case Some(low) =>
      if low then BatteryDead
      else if shadow[FirmwareVersionKey] == CrashingFirmware then FirmwareCrash
      else if shadow[LocationKey] == StuckSensorLocation then StuckSensor
      else if shadow[FirmwareVersionKey] == BuggyFirmware then TelemetryBug
      else NoFault
  }

  /** A low battery wins whatever the firmware, location and temperature are. */
  lemma LowBatteryDominates(shadow: map<string, Value>, battery: int, firmware: Value, location: Value, temperature: Value)
    requires InitialKeys <= shadow.Keys
    requires battery < LowBatteryLimit
    ensures FaultBranch(shadow[BatteryKey := Int(battery)][FirmwareVersionKey := firmware]
                              [LocationKey := location][TemperatureKey := temperature]) == BatteryDead
  {
  }

  /** Only the battery, firmware and location properties take part in the choice. */
  lemma FaultBranchReadsOnlyGuards(s1: map<string, Value>, s2: map<string, Value>)
    requires InitialKeys <= s1.Keys && InitialKeys <= s2.Keys
    requires s1[BatteryKey] == s2[BatteryKey]
    requires s1[FirmwareVersionKey] == s2[FirmwareVersionKey]
    requires s1[LocationKey] == s2[LocationKey]
    ensures FaultBranch(s1) == FaultBranch(s2)
  {
  }
}
