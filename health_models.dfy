/**
 * The health-monitoring tables (health_monitoring/models.py) held in memory.
 * A `HealthDb` plays the part of the database session: each table is a
 * sequence of rows in insertion order, and the auto-increment counters of
 * the reading and alert tables are fields. Times are microseconds since the
 * epoch; the clock is a parameter of every operation that reads it.
 */
module HealthModels {
  import opened Wrappers
  import opened HealthSchemas
  import opened Ordering

  datatype HealthDevice = HealthDevice(
    deviceId: string, deviceName: Option<string>, userName: Option<string>,
    dateOfBirth: Option<Date>, gender: Option<string>,
    restingHr: Option<int>, isAthlete: Option<bool>, lastSeen: Option<int>)

  datatype HealthThreshold = HealthThreshold(
    deviceId: string, thresholdType: string, thresholdValue: real, enabled: bool)

  datatype HealthVitalReading = HealthVitalReading(
    id: int, deviceId: string, timestamp: int,
    heartRate: int, hrSignalQuality: int, isHrValid: bool,
    spo2: int, spo2SignalQuality: int, isSpo2Valid: bool,
    temperature: real, tempSource: string, isTempEstimated: bool,
    batteryPercent: int, batteryVoltage: real, wifiRssi: int, uptimeSeconds: int)

  /** The `vital_snapshot` JSON stored with every alert. */
  datatype VitalSnapshot = VitalSnapshot(
    hr: int, hrQuality: int, spo2: int, spo2Quality: int, temp: real, tempSource: string)

  datatype HealthAlert = HealthAlert(
    id: int, deviceId: string, timestamp: int, alertType: string, severity: string,
    snapshot: VitalSnapshot, acknowledged: bool, acknowledgedAt: Option<int>)

  /** Index of the first device row with this id (the `.first()` of a `device_id ==` query). */
  function FindDevice(devices: seq<HealthDevice>, deviceId: string): (r: Option<nat>)
    ensures r.None? <==> forall i :: 0 <= i < |devices| ==> devices[i].deviceId != deviceId
    ensures r.Some? ==> r.value < |devices| && devices[r.value].deviceId == deviceId
    ensures r.Some? ==> forall i :: 0 <= i < r.value ==> devices[i].deviceId != deviceId
  {
    FirstIndex(devices, (d: HealthDevice) => d.deviceId == deviceId)
  }

  /** Index of the first threshold row of this device and type. */
  function FindThreshold(rows: seq<HealthThreshold>, deviceId: string, thresholdType: string): (r: Option<nat>)
    ensures r.None? <==>
              forall i :: 0 <= i < |rows| ==> !(rows[i].deviceId == deviceId && rows[i].thresholdType == thresholdType)
    ensures r.Some? ==> r.value < |rows| && rows[r.value].deviceId == deviceId && rows[r.value].thresholdType == thresholdType
    ensures r.Some? ==> forall i :: 0 <= i < r.value ==> !(rows[i].deviceId == deviceId && rows[i].thresholdType == thresholdType)
  {
    FirstIndex(rows, (t: HealthThreshold) => t.deviceId == deviceId && t.thresholdType == thresholdType)
  }

  /** Index of the first alert with this primary key. */
  function FindAlert(alerts: seq<HealthAlert>, id: int): (r: Option<nat>)
    ensures r.None? <==> forall i :: 0 <= i < |alerts| ==> alerts[i].id != id
    ensures r.Some? ==> r.value < |alerts| && alerts[r.value].id == id
    ensures r.Some? ==> forall i :: 0 <= i < r.value ==> alerts[i].id != id
  {
    FirstIndex(alerts, (a: HealthAlert) => a.id == id)
  }

  predicate UniqueDeviceIds(devices: seq<HealthDevice>) {
    forall i, j :: 0 <= i < j < |devices| ==> devices[i].deviceId != devices[j].deviceId
  }

  predicate UniqueAlertIds(alerts: seq<HealthAlert>) {
    forall i, j :: 0 <= i < j < |alerts| ==> alerts[i].id != alerts[j].id
  }

  /** With unique ids, the row that has the id is the one the query finds. */
  lemma FindUniqueDevice(devices: seq<HealthDevice>, deviceId: string, i: nat)
    requires UniqueDeviceIds(devices)
    requires i < |devices| && devices[i].deviceId == deviceId
    ensures FindDevice(devices, deviceId) == Some(i)
  {
  }

  class HealthDb {
    var devices: seq<HealthDevice>
    var thresholds: seq<HealthThreshold>
    var readings: seq<HealthVitalReading>
    var alerts: seq<HealthAlert>
    var nextReadingId: int
    var nextAlertId: int

    /** `device_id` is a unique column, and the primary keys so far are below their counters. */
    ghost predicate Valid()
      reads this
    {
      && UniqueDeviceIds(devices)
      && UniqueAlertIds(alerts)
      && (forall i :: 0 <= i < |alerts| ==> alerts[i].id < nextAlertId)
      && (forall i :: 0 <= i < |readings| ==> readings[i].id < nextReadingId)
    }

    constructor ()
      ensures Valid()
      ensures devices == [] && thresholds == [] && readings == [] && alerts == []
    {
      devices := [];
      thresholds := [];
      readings := [];
      alerts := [];
      nextReadingId := 1;
      nextAlertId := 1;
    }
  }
}
