/**
 * The request records of the health-monitoring API
 * (health_monitoring/schemas.py) with the ranges and defaults their field
 * declarations impose. A `Validate…` function plays the part of the
 * record validator: it accepts exactly the in-range inputs and fills in the
 * declared defaults for omitted fields (an omitted field is `None`).
 */
module HealthSchemas {
  import opened Wrappers

  /** An integer field declared with `ge=0, le=100`. */
  type Percent = x: int | 0 <= x <= 100

  const DefaultRestingHr: int := 70
  const DefaultBatteryPercent: Percent := 100
  const DefaultBatteryVoltage: real := 3.7
  const DefaultMonitoringState: string := "idle"
  const MinCalibrationHr: int := 40
  const MaxCalibrationHr: int := 100

  datatype HeartRateData = HeartRateData(bpm: int, signalQuality: Percent, isValid: bool)
  datatype SpO2Data = SpO2Data(percent: Percent, signalQuality: Percent, isValid: bool)
  /** `source` is 'DS18B20' or 'ESTIMATED' by convention; nothing checks it. */
  datatype TemperatureData = TemperatureData(celsius: real, source: string, isEstimated: bool)
  datatype SystemData = SystemData(
    batteryPercent: Percent, batteryVoltage: real, wifiRssi: int, uptimeSeconds: int,
    monitoringState: Option<string>)
  datatype VitalsData = VitalsData(heartRate: HeartRateData, spo2: SpO2Data, temperature: TemperatureData)
  datatype AlertData = AlertData(alertType: string, message: string)
  /** `timestamp` is the Unix time in seconds that the device reports. */
  datatype VitalReadingCreate = VitalReadingCreate(
    deviceId: string, timestamp: int, vitals: VitalsData, system: SystemData, alerts: seq<AlertData>)

  /** A date of birth, as a day number; a present date is always truthy. */
  type Date = int

  datatype DeviceCreate = DeviceCreate(
    deviceId: string, deviceName: Option<string>, userName: Option<string>,
    dateOfBirth: Option<Date>, gender: Option<string>,
    restingHr: Option<int>, isAthlete: Option<bool>)

  datatype ThresholdCreate = ThresholdCreate(thresholdType: string, thresholdValue: real, enabled: bool)
  datatype ThresholdResponse = ThresholdResponse(
    id: int, deviceId: string, thresholdType: string, thresholdValue: real, enabled: bool)

  /** The first `ThresholdConfig` declaration: six optional limits. */
  datatype ThresholdLimits = ThresholdLimits(
    hrHigh: Option<real>, hrLow: Option<real>, spo2Low: Option<real>,
    spo2Critical: Option<real>, tempHigh: Option<real>, tempLow: Option<real>)

  /** The second `ThresholdConfig` declaration, which is what the name means once the module is loaded. */
  datatype ThresholdConfig = ThresholdConfig(thresholds: seq<ThresholdResponse>)

  datatype CalibrationRequest = CalibrationRequest(restingHr: int)

  predicate InPercent(x: int) {
    0 <= x <= 100
  }

  /** `HeartRateData`: accepted exactly when the signal quality is a percentage. */
  function ValidateHeartRate(bpm: int, signalQuality: int, isValid: bool): (r: Option<HeartRateData>)
    ensures r.Some? <==> InPercent(signalQuality)
    ensures r.Some? ==> r.value.bpm == bpm && r.value.signalQuality == signalQuality && r.value.isValid == isValid
  {
    if InPercent(signalQuality) then Some(HeartRateData(bpm, signalQuality, isValid)) else None
  }

  /** `SpO2Data`: accepted exactly when both the saturation and the signal quality are percentages. */
  function ValidateSpO2(percent: int, signalQuality: int, isValid: bool): (r: Option<SpO2Data>)
    ensures r.Some? <==> InPercent(percent) && InPercent(signalQuality)
    ensures r.Some? ==> r.value.percent == percent && r.value.signalQuality == signalQuality && r.value.isValid == isValid
  {
    if InPercent(percent) && InPercent(signalQuality) then Some(SpO2Data(percent, signalQuality, isValid)) else None
  }

  /**
   * `SystemData`: an omitted battery percentage is 100, an omitted voltage 3.7
   * and an omitted monitoring state "idle" (an explicit null state stays null);
   * a given battery percentage must lie in [0, 100].
   */
  function ValidateSystem(
    batteryPercent: Option<int>, batteryVoltage: Option<real>, wifiRssi: int, uptimeSeconds: int,
    monitoringState: Option<Option<string>>): (r: Option<SystemData>)
    ensures r.Some? <==> (batteryPercent.None? || InPercent(batteryPercent.value))
    ensures r.Some? ==> r.value.batteryPercent == batteryPercent.GetOr(DefaultBatteryPercent)
    ensures r.Some? ==> r.value.batteryVoltage == batteryVoltage.GetOr(DefaultBatteryVoltage)
    ensures r.Some? ==> r.value.wifiRssi == wifiRssi && r.value.uptimeSeconds == uptimeSeconds
    ensures r.Some? ==> r.value.monitoringState == monitoringState.GetOr(Some(DefaultMonitoringState))
  {
    if batteryPercent.Some? && !InPercent(batteryPercent.value) then None
    else
      var percent: Percent := if batteryPercent.Some? then batteryPercent.value else DefaultBatteryPercent;
      Some(SystemData(percent, batteryVoltage.GetOr(DefaultBatteryVoltage), wifiRssi, uptimeSeconds,
                      monitoringState.GetOr(Some(DefaultMonitoringState))))
  }

  /** `DeviceCreate(device_id=...)` with every other field omitted: resting HR 70, not an athlete. */
  function DeviceCreateDefaults(deviceId: string): (d: DeviceCreate)
    ensures d.deviceId == deviceId
    ensures d.restingHr == Some(DefaultRestingHr) && d.isAthlete == Some(false)
    ensures d.deviceName.None? && d.userName.None? && d.dateOfBirth.None? && d.gender.None?
  {
    DeviceCreate(deviceId, None, None, None, None, Some(DefaultRestingHr), Some(false))
  }

  /** `CalibrationRequest`: a resting heart rate in [40, 100]. */
  function ValidateCalibration(restingHr: int): (r: Option<CalibrationRequest>)
    ensures r.Some? <==> MinCalibrationHr <= restingHr <= MaxCalibrationHr
    ensures r.Some? ==> r.value.restingHr == restingHr
  {
    if MinCalibrationHr <= restingHr <= MaxCalibrationHr then Some(CalibrationRequest(restingHr)) else None
  }
}
