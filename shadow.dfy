/** The device's shadow document: its property names and its initial value. */
module Shadow {
  import opened Values

  const BatteryKey := "battery_state_of_charge"
  const FirmwareVersionKey := "firmware_version"
  const TemperatureKey := "temperature"
  const LocationKey := "location"
  /** The desired-state key that switches heartbeats on and off. */
  const HeartbeatKey := "heartbeat"

  /** The properties present from the start; deltas only ever add keys. */
  const InitialKeys: set<string> := {BatteryKey, FirmwareVersionKey, TemperatureKey, LocationKey}

  /** The values the device draws its initial battery, firmware and location from. */
  const BatteryChoices: set<int> := {1, 10, 30, 90}
  const FirmwareChoices: set<string> := {"0.1", "1.0", "1.5", "2.0"}
  const LocationChoices: set<string> := {"nyc", "atl", "chi", "la", "sf", "bos"}
  const InitialTemperature := 15

  function InitialShadow(battery: int, firmware: string, location: string): (s: map<string, Value>)
    ensures s.Keys == InitialKeys
    ensures s[TemperatureKey] == Int(InitialTemperature)
  {
    map[BatteryKey := Int(battery), FirmwareVersionKey := Str(firmware),
        TemperatureKey := Int(InitialTemperature), LocationKey := Str(location)]
  }
}
