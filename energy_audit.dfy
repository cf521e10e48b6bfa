/**
 * The energy-waste audit (energy_api/audit.py): the latest reading of a
 * device is checked against a fixed list of waste rules for each of its
 * two current sensors, plus a daily-consumption rule, and every candidate
 * that has no twin logged within the last ten minutes is written to the
 * audit log. Quantities are `real`; a nullable column is an `Option`, and a
 * comparison of a missing value raises Python's `TypeError`, which aborts the
 * audit before anything is logged. The clock `now` is a parameter, in
 * microseconds since the epoch (UTC).
 */
module EnergyAudit {
  import opened Wrappers
  import opened Text
  import opened Ordering

  datatype EnergyDevice = EnergyDevice(deviceId: string, deviceName: Option<string>)

  datatype SensorConfig = SensorConfig(
    deviceId: string, sensorNumber: int, customLabel: string, applianceCategory: Option<string>)

  datatype EnergyReading = EnergyReading(
    deviceId: string, timestamp: int,
    sensor1Amps: Option<real>, sensor1Watts: Option<real>, sensor1Voltage: Option<real>,
    sensor2Amps: Option<real>, sensor2Watts: Option<real>, sensor2Voltage: Option<real>,
    temperatureC: Option<real>, lightLux: Option<int>, outdoorTempC: Option<real>)
  {
    /** `getattr(latest, f"sensor_{n}_amps")` and its two siblings, for sensors 1 and 2. */
    function Amps(n: int): Option<real> {
      if n == 1 then sensor1Amps else sensor2Amps
    }

    function Watts(n: int): Option<real> {
      if n == 1 then sensor1Watts else sensor2Watts
    }

    function Voltage(n: int): Option<real> {
      if n == 1 then sensor1Voltage else sensor2Voltage
    }
  }

  /** The `type` of an audit candidate; `Name` is the string stored in the log. */
  datatype AuditKind =
    | DailyLimitExceeded | VoltageBrownout | VoltageSurge
    | LightingWaste | LightingCurfewWaste
    | AcInefficientUse | HvacOvercooling | FreeCoolingAvail
    | HeaterInefficientUse | HvacOverheating
    | PhantomLoad
  {
    /** The `type` string; the AC and the heater rule share theirs. */
    function Name(): string {
      match this
      case DailyLimitExceeded => "daily_limit_exceeded"
      case VoltageBrownout => "voltage_brownout"
      case VoltageSurge => "voltage_surge"
      case LightingWaste => "lighting_waste"
      case LightingCurfewWaste => "lighting_curfew_waste"
      case AcInefficientUse | HeaterInefficientUse => "hvac_inefficient_use"
      case HvacOvercooling => "hvac_overcooling"
      case FreeCoolingAvail => "free_cooling_avail"
      case HvacOverheating => "hvac_overheating"
      case PhantomLoad => "phantom_load"
    }

    function Severity(): string {
      match this
      case VoltageBrownout | VoltageSurge => "danger"
      case FreeCoolingAvail | PhantomLoad => "info"
      case _ => "warning"
    }

    /** `waste_watts` for a sensor drawing `watts`: half of it when overcooling, 60% when overheating. */
    function Waste(watts: real): real {
      match this
      case DailyLimitExceeded | VoltageBrownout | VoltageSurge => 0.0
      case HvacOvercooling => watts * 0.5
      case HvacOverheating => watts * 0.6
      case _ => watts
    }

    /** The position of a per-sensor appliance rule in the audit's order; 8 for the other kinds. */
    function ApplianceIndex(): nat {
      match this
      case LightingWaste => 0
      case LightingCurfewWaste => 1
      case AcInefficientUse => 2
      case HvacOvercooling => 3
      case FreeCoolingAvail => 4
      case HeaterInefficientUse => 5
      case HvacOverheating => 6
      case PhantomLoad => 7
      case _ => 8
    }
  }

  /** One candidate alert: the sensor (0 for the whole system), its rule and the estimated waste. */
  datatype AuditAlert = AuditAlert(sensor: int, kind: AuditKind, wasteWatts: real)

  datatype AuditLog = AuditLog(
    deviceId: string, timestamp: int, sensorNumber: int, auditType: string, severity: string,
    estimatedWasteWatts: real)

  /** The audit's answer, or the `TypeError` a missing measurement raises. */
  datatype AuditOutcome = Done(alerts: seq<AuditAlert>) | TypeError

  const MicrosPerHour: int := 3_600_000_000
  const MicrosPerDay: int := 24 * MicrosPerHour
  /** `timedelta(minutes=10)`. */
  const DedupWindow: int := 600_000_000
  const DailyLimitKwh: real := 20.0
  const BrownoutVolts: real := 200.0
  const SurgeVolts: real := 250.0
  const OffWatts: real := 5.0
  const BrightLux: int := 800
  const ApplianceOnWatts: real := 200.0

  /** `datetime.utcnow().replace(hour=0, minute=0, second=0, microsecond=0)`. */
  function TodayStart(now: int): (r: int)
    ensures r <= now < r + MicrosPerDay
    ensures r % MicrosPerDay == 0
  {
    now - now % MicrosPerDay
  }

  /** `datetime.utcnow().hour`. */
  function HourOf(now: int): (h: int)
    ensures 0 <= h < 24
    ensures TodayStart(now) + h * MicrosPerHour <= now < TodayStart(now) + (h + 1) * MicrosPerHour
  {
    (now % MicrosPerDay) / MicrosPerHour
  }

  /** The 11 PM to 5 AM curfew, read on the UTC hour. */
  predicate IsCurfew(hour: int) {
    hour >= 23 || hour < 5
  }

  /** Python truthiness of a nullable float column: present and non-zero. */
  predicate Truthy(x: Option<real>) {
    x.Some? && x.value != 0.0
  }

  function FindDevice(devices: seq<EnergyDevice>, deviceId: string): (r: Option<nat>)
    ensures r.None? <==> forall i :: 0 <= i < |devices| ==> devices[i].deviceId != deviceId
    ensures r.Some? ==> r.value < |devices| && devices[r.value].deviceId == deviceId
    ensures r.Some? ==> forall i :: 0 <= i < r.value ==> devices[i].deviceId != deviceId
  {
    FirstIndex(devices, (d: EnergyDevice) => d.deviceId == deviceId)
  }

  /**
   * The newest reading of the device (`order_by(timestamp.desc()).first()`);
   * among readings with the same timestamp the earliest row is taken.
   */
  function Latest(readings: seq<EnergyReading>, deviceId: string): (r: Option<EnergyReading>)
    ensures r.None? <==> forall i :: 0 <= i < |readings| ==> readings[i].deviceId != deviceId
    ensures r.Some? ==> r.value in readings && r.value.deviceId == deviceId
    ensures r.Some? ==> forall i :: 0 <= i < |readings| && readings[i].deviceId == deviceId ==>
                          readings[i].timestamp <= r.value.timestamp
  {
    if readings == [] then None
    else
      var rest := Latest(readings[1..], deviceId);
      assert forall i :: 1 <= i < |readings| ==> readings[i] == readings[1..][i - 1];
      if readings[0].deviceId != deviceId then rest
      else if rest.None? || rest.value.timestamp <= readings[0].timestamp then Some(readings[0])
      else rest
  }

  /**
   * `{c.sensor_number: c for c in configs}.get(n)` over the device's configs:
   * a later row for the same sensor overrides an earlier one.
   */
  function ConfigFor(configs: seq<SensorConfig>, deviceId: string, n: int): (r: Option<SensorConfig>)
    ensures r.None? <==> forall i :: 0 <= i < |configs| ==> !(configs[i].deviceId == deviceId && configs[i].sensorNumber == n)
    ensures r.Some? ==> r.value in configs && r.value.deviceId == deviceId && r.value.sensorNumber == n
    ensures r.Some? ==> exists i :: 0 <= i < |configs| && configs[i] == r.value &&
                          forall j :: i < j < |configs| ==> !(configs[j].deviceId == deviceId && configs[j].sensorNumber == n)
  {
    if configs == [] then None
    else
      var last := configs[|configs| - 1];
      if last.deviceId == deviceId && last.sensorNumber == n then Some(last)
      else ConfigFor(configs[..|configs| - 1], deviceId, n)
  }

  /** `(r.sensor_1_watts or 0) + (r.sensor_2_watts or 0)` summed over the device's readings since `since`. */
  function DailyWatts(readings: seq<EnergyReading>, deviceId: string, since: int): real {
    if readings == [] then 0.0
    else
      var r := readings[|readings| - 1];
      DailyWatts(readings[..|readings| - 1], deviceId, since)
        + (if r.deviceId == deviceId && r.timestamp >= since
           then r.sensor1Watts.GetOr(0.0) + r.sensor2Watts.GetOr(0.0) else 0.0)
  }

  /** Each reading stands for five seconds of draw: watt-samples × 5 s / (3600 × 1000). */
  function DailyKwh(readings: seq<EnergyReading>, deviceId: string, now: int): real {
    DailyWatts(readings, deviceId, TodayStart(now)) * 5.0 / 3_600_000.0
  }

  function When(c: bool, a: AuditAlert): (r: seq<AuditAlert>)
    ensures forall x :: x in r <==> c && x == a
  {
    if c then [a] else []
  }

  /** Rule 5: the system-wide daily-usage warning. */
  function DailyAlerts(kwh: real): seq<AuditAlert> {
    When(kwh > DailyLimitKwh, AuditAlert(0, DailyLimitExceeded, 0.0))
  }

  /** Rule 6: a brown-out below 200 V, else a surge above 250 V. */
  function VoltageAlerts(n: int, voltage: real): seq<AuditAlert> {
    if voltage < BrownoutVolts then [AuditAlert(n, VoltageBrownout, 0.0)]
    else if voltage > SurgeVolts then [AuditAlert(n, VoltageSurge, 0.0)]
    else []
  }

  predicate IsLighting(name: string, category: Option<string>) {
    Contains(name, "light") || category == Some("Lighting")
  }

  predicate IsAc(name: string, category: Option<string>) {
    category == Some("AC") || Contains(name, "ac") || Contains(name, "cooling") || Contains(name, "air con")
  }

  predicate IsHeater(name: string, category: Option<string>) {
    category == Some("Heater") || Contains(name, "heater") || Contains(name, "heating")
  }

  /** The overheating check's own matcher, which takes "HVAC" but not "Heater" as category. */
  predicate IsHeatingOrHvac(name: string, category: Option<string>) {
    Contains(name, "heater") || Contains(name, "heating") || category == Some("HVAC")
  }

  /** How a sensor's label and category match the four appliance tests of the audit. */
  datatype Appliance = Appliance(lighting: bool, ac: bool, heater: bool, heatingOrHvac: bool)

  function MatchAppliance(name: string, category: Option<string>): Appliance {
    Appliance(IsLighting(name, category), IsAc(name, category), IsHeater(name, category), IsHeatingOrHvac(name, category))
  }

  /** Rule 2a: the AC runs hard although it is cool inside and not hot outside. */
  predicate AcWasteful(r: EnergyReading, watts: real) {
    watts > ApplianceOnWatts && Truthy(r.temperatureC) && Truthy(r.outdoorTempC)
    && r.temperatureC.value < 21.0 && r.outdoorTempC.value < 24.0
  }

  predicate Overcooling(r: EnergyReading) {
    Truthy(r.temperatureC) && r.temperatureC.value < 20.0
  }

  /** Rule 4: it is more than three degrees cooler outdoors. */
  predicate FreeCooling(r: EnergyReading) {
    Truthy(r.outdoorTempC) && Truthy(r.temperatureC) && r.temperatureC.value - r.outdoorTempC.value > 3.0
  }

  /** Rule 2b: the heater runs hard although it is warm inside and mild outside. */
  predicate HeaterWasteful(r: EnergyReading, watts: real) {
    watts > ApplianceOnWatts && Truthy(r.temperatureC) && Truthy(r.outdoorTempC)
    && r.temperatureC.value > 25.0 && r.outdoorTempC.value > 20.0
  }

  predicate Overheating(r: EnergyReading) {
    Truthy(r.temperatureC) && r.temperatureC.value > 26.0
  }

  /** Rule 3: a small standby current, both bounds strict. */
  predicate Phantom(amps: real) {
    0.02 < amps < 0.2
  }

  /** Whether the appliance rules raise a `TypeError`: lux is compared for lights, the current always. */
  predicate ApplianceCrashes(r: EnergyReading, n: int, m: Appliance) {
    (m.lighting && r.lightLux.None?) || r.Amps(n).None?
  }

  /** Where each per-sensor appliance rule sits in the audit's order; the other kinds come last. */
  const ApplianceRuleCount: nat := 8

  /** The appliance rule at position `k`. */
  function ApplianceRuleAt(k: nat): (f: AuditKind)
    requires k < ApplianceRuleCount
    ensures forall g: AuditKind :: g.ApplianceIndex() == k <==> g == f
  {
    [LightingWaste, LightingCurfewWaste, AcInefficientUse, HvacOvercooling, FreeCoolingAvail,
     HeaterInefficientUse, HvacOverheating, PhantomLoad][k]
  }

  /** The guard of each appliance rule, as the audit tests it on a sensor that is on. */
  predicate Fires(f: AuditKind, r: EnergyReading, n: int, watts: real, m: Appliance, hour: int)
    requires !ApplianceCrashes(r, n, m)
  {
    match f
    case LightingWaste => m.lighting && r.lightLux.value > BrightLux
    case LightingCurfewWaste => m.lighting && IsCurfew(hour)
    case AcInefficientUse => m.ac && AcWasteful(r, watts)
    case HvacOvercooling => m.ac && Overcooling(r)
    case FreeCoolingAvail => m.ac && FreeCooling(r)
    case HeaterInefficientUse => m.heater && HeaterWasteful(r, watts)
    case HvacOverheating => m.heatingOrHvac && Overheating(r)
    case PhantomLoad => Phantom(r.Amps(n).value)
    case _ => false
  }

  /** The candidate a rule raises for sensor `n`. */
  function AlertOf(n: int, f: AuditKind, watts: real): AuditAlert {
    AuditAlert(n, f, f.Waste(watts))
  }

  /** The candidates of the first `k` appliance rules, in order. */
  function ApplianceFired(k: nat, n: int, r: EnergyReading, watts: real, m: Appliance, hour: int): (res: seq<AuditAlert>)
    requires k <= ApplianceRuleCount && !ApplianceCrashes(r, n, m)
    ensures forall f :: AlertOf(n, f, watts) in res <==> f.ApplianceIndex() < k && Fires(f, r, n, watts, m, hour)
    ensures forall a :: a in res ==> a == AlertOf(n, a.kind, watts) && a.kind.ApplianceIndex() < k
  {
    if k == 0 then []
    else
      var f := ApplianceRuleAt(k - 1);
      ApplianceFired(k - 1, n, r, watts, m, hour) + When(Fires(f, r, n, watts, m, hour), AlertOf(n, f, watts))
  }

  /** Rules 1 to 4 for a sensor that is switched on, in the order the audit checks them. */
  function ApplianceAlerts(n: int, r: EnergyReading, watts: real, m: Appliance, hour: int): (res: seq<AuditAlert>)
    requires !ApplianceCrashes(r, n, m)
    ensures forall a :: a in res ==> a.sensor == n && a.wasteWatts == a.kind.Waste(watts)
    ensures forall a :: a in res ==> a.kind != DailyLimitExceeded && a.kind != VoltageBrownout && a.kind != VoltageSurge
  {
    ApplianceFired(ApplianceRuleCount, n, r, watts, m, hour)
  }

  /** Rules 1 and 1b: lights on in daylight, and lights on in the curfew hours. */
  lemma LightingRules(n: int, r: EnergyReading, watts: real, m: Appliance, hour: int)
    requires !ApplianceCrashes(r, n, m)
    ensures var res := ApplianceAlerts(n, r, watts, m, hour);
      && (AlertOf(n, LightingWaste, watts) in res <==> m.lighting && r.lightLux.value > BrightLux)
      && (AlertOf(n, LightingCurfewWaste, watts) in res <==> m.lighting && IsCurfew(hour))
  {
  }

  /** Rules 2a, 2b and 4 and the cooling and heating checks, with the waste each one estimates. */
  lemma HvacRules(n: int, r: EnergyReading, watts: real, m: Appliance, hour: int)
    requires !ApplianceCrashes(r, n, m)
    ensures var res := ApplianceAlerts(n, r, watts, m, hour);
      && (AlertOf(n, AcInefficientUse, watts) in res <==> m.ac && AcWasteful(r, watts))
      && (AuditAlert(n, HvacOvercooling, watts * 0.5) in res <==> m.ac && Overcooling(r))
      && (AlertOf(n, FreeCoolingAvail, watts) in res <==> m.ac && FreeCooling(r))
      && (AlertOf(n, HeaterInefficientUse, watts) in res <==> m.heater && HeaterWasteful(r, watts))
      && (AuditAlert(n, HvacOverheating, watts * 0.6) in res <==> m.heatingOrHvac && Overheating(r))
  {
    assert AlertOf(n, HvacOvercooling, watts) == AuditAlert(n, HvacOvercooling, watts * 0.5);
    assert AlertOf(n, HvacOverheating, watts) == AuditAlert(n, HvacOverheating, watts * 0.6);
  }

  /** Rule 3: a standby current strictly between 0.02 A and 0.2 A, whatever the appliance. */
  lemma PhantomRule(n: int, r: EnergyReading, watts: real, m: Appliance, hour: int)
    requires !ApplianceCrashes(r, n, m)
    ensures AlertOf(n, PhantomLoad, watts) in ApplianceAlerts(n, r, watts, m, hour) <==> Phantom(r.Amps(n).value)
  {
  }

  /** The AC and the heater rule cannot both call the same use inefficient: the room cannot be below 21 and above 25 degrees. */
  lemma NoDoubleInefficiency(n: int, r: EnergyReading, watts: real, m: Appliance, hour: int)
    requires !ApplianceCrashes(r, n, m)
    ensures !(AlertOf(n, AcInefficientUse, watts) in ApplianceAlerts(n, r, watts, m, hour)
              && AlertOf(n, HeaterInefficientUse, watts) in ApplianceAlerts(n, r, watts, m, hour))
  {
  }

  /** The label a sensor without a config is shown under. */
  function DefaultLabel(n: int): string {
    if n == 1 then "sensor 1" else "sensor 2"
  }

  function LabelOf(config: Option<SensorConfig>, n: int): string {
    if config.Some? then Lower(config.value.customLabel) else DefaultLabel(n)
  }

  function CategoryOf(config: Option<SensorConfig>): Option<string> {
    if config.Some? then config.value.applianceCategory else Some("Unknown")
  }

  /**
   * One pass of `for sensor_num in [1, 2]`: the voltage rule, then the skip of
   * a sensor drawing under 5 W, then the appliance rules. `None` is the
   * `TypeError` of comparing a missing voltage, wattage, lux or current.
   */
  function SensorAlerts(n: int, r: EnergyReading, config: Option<SensorConfig>, hour: int): (res: Option<seq<AuditAlert>>)
    ensures res.Some? ==> forall a :: a in res.value ==> a.sensor == n
  {
    if r.Voltage(n).None? || r.Watts(n).None? then None
    else
      var voltage := VoltageAlerts(n, r.Voltage(n).value);
      var watts := r.Watts(n).value;
      if watts < OffWatts then Some(voltage)
      else
        var m := MatchAppliance(LabelOf(config, n), CategoryOf(config));
        if ApplianceCrashes(r, n, m) then None
        else Some(voltage + ApplianceAlerts(n, r, watts, m, hour))
  }

  /** The candidates once sensors 1 to `k - 1` have been analysed, after the daily rule. */
  function CandidatesBefore(k: int, r: EnergyReading, configs: seq<SensorConfig>, deviceId: string, daily: seq<AuditAlert>, hour: int): (res: Option<seq<AuditAlert>>)
    requires 1 <= k <= 3
    ensures res.Some? ==> daily <= res.value
    ensures res.Some? ==> forall i :: |daily| <= i < |res.value| ==> 1 <= res.value[i].sensor < k
    decreases k
  {
    if k == 1 then Some(daily)
    else
      match CandidatesBefore(k - 1, r, configs, deviceId, daily, hour)
      case None => None
      case Some(before) =>
        match SensorAlerts(k - 1, r, ConfigFor(configs, deviceId, k - 1), hour)
        case None => None
        case Some(found) => Some(before + found)
  }

  /** What `run_energy_audit` returns for the tables and the clock. */
  function Audit(devices: seq<EnergyDevice>, configs: seq<SensorConfig>, readings: seq<EnergyReading>,
                 deviceId: string, now: int): (r: AuditOutcome)
    ensures FindDevice(devices, deviceId).None? || Latest(readings, deviceId).None? ==> r == Done([])
    ensures r.TypeError? ==> FindDevice(devices, deviceId).Some? && Latest(readings, deviceId).Some?
  {
    if FindDevice(devices, deviceId).None? then Done([])
    else
      match Latest(readings, deviceId)
      case None => Done([])
      case Some(latest) =>
        match CandidatesBefore(3, latest, configs, deviceId, DailyAlerts(DailyKwh(readings, deviceId, now)), HourOf(now))
        case None => TypeError
        case Some(alerts) => Done(alerts)
  }

  /** The voltage rule runs before the skip of a sensor that is off, and is all such a sensor reports. */
  lemma VoltageRules(n: int, r: EnergyReading, config: Option<SensorConfig>, hour: int)
    requires SensorAlerts(n, r, config, hour).Some?
    ensures r.Voltage(n).Some? && r.Watts(n).Some?
    ensures var res, v := SensorAlerts(n, r, config, hour).value, r.Voltage(n).value;
      && (AuditAlert(n, VoltageBrownout, 0.0) in res <==> v < BrownoutVolts)
      && (AuditAlert(n, VoltageSurge, 0.0) in res <==> v > SurgeVolts)
      && (r.Watts(n).value < OffWatts ==> forall a :: a in res ==> a.kind == VoltageBrownout || a.kind == VoltageSurge)
  {
    var v, watts := r.Voltage(n).value, r.Watts(n).value;
    if watts >= OffWatts {
      var m := MatchAppliance(LabelOf(config, n), CategoryOf(config));
      var rest := ApplianceAlerts(n, r, watts, m, hour);
      assert SensorAlerts(n, r, config, hour).value == VoltageAlerts(n, v) + rest;
    }
  }

  /** A sensor without a configuration row is labelled "sensor N" of category "Unknown", which no appliance test matches. */
  lemma UnconfiguredMatchesNothing(n: int)
    ensures MatchAppliance(DefaultLabel(n), CategoryOf(None)) == Appliance(false, false, false, false)
  {
    var name := DefaultLabel(n);
    FirstCharAbsent(name, "light");
    FirstCharAbsent(name, "ac");
    FirstCharAbsent(name, "cooling");
    FirstCharAbsent(name, "air con");
    FirstCharAbsent(name, "heater");
    FirstCharAbsent(name, "heating");
  }

  /** So an unconfigured sensor can only report its voltage and a phantom load. */
  lemma UnconfiguredSensor(n: int, r: EnergyReading, hour: int)
    requires SensorAlerts(n, r, None, hour).Some?
    ensures forall a :: a in SensorAlerts(n, r, None, hour).value ==>
              a.kind == VoltageBrownout || a.kind == VoltageSurge || a.kind == PhantomLoad
  {
    UnconfiguredMatchesNothing(n);
    var v, watts := r.Voltage(n).value, r.Watts(n).value;
    if watts >= OffWatts {
      var m := MatchAppliance(LabelOf(None, n), CategoryOf(None));
      var rest := ApplianceAlerts(n, r, watts, m, hour);
      assert SensorAlerts(n, r, None, hour).value == VoltageAlerts(n, v) + rest;
      forall a | a in rest ensures a.kind == PhantomLoad {
        assert Fires(a.kind, r, n, watts, m, hour);
      }
    }
  }

  /** The system-wide rule: a daily warning on sensor 0 exactly when the day's estimate exceeds 20 kWh. */
  lemma DailyRule(devices: seq<EnergyDevice>, configs: seq<SensorConfig>, readings: seq<EnergyReading>,
                  deviceId: string, now: int)
    requires FindDevice(devices, deviceId).Some? && Latest(readings, deviceId).Some?
    requires Audit(devices, configs, readings, deviceId, now).Done?
    ensures var alerts := Audit(devices, configs, readings, deviceId, now).alerts;
      AuditAlert(0, DailyLimitExceeded, 0.0) in alerts <==> DailyKwh(readings, deviceId, now) > DailyLimitKwh
    ensures DailyKwh(readings, deviceId, now) > DailyLimitKwh <==> DailyWatts(readings, deviceId, TodayStart(now)) > 14_400_000.0
  {
    var daily := DailyAlerts(DailyKwh(readings, deviceId, now));
    var alerts := Audit(devices, configs, readings, deviceId, now).alerts;
    assert forall i :: |daily| <= i < |alerts| ==> alerts[i].sensor >= 1;
    assert forall i :: 0 <= i < |daily| ==> alerts[i] == daily[i];
  }

  /** The key the save loop deduplicates on, besides the device. */
  function Key(a: AuditAlert): (int, string) {
    (a.sensor, a.kind.Name())
  }

  function KeysOf(alerts: seq<AuditAlert>): (ks: set<(int, string)>)
    ensures forall a :: a in alerts ==> Key(a) in ks
    ensures forall k :: k in ks ==> exists a :: a in alerts && Key(a) == k
  {
    if alerts == [] then {}
    else
      var init := alerts[..|alerts| - 1];
      assert forall a :: a in alerts ==> a in init || a == alerts[|alerts| - 1];
      KeysOf(init) + {Key(alerts[|alerts| - 1])}
  }

  /** No two candidates share a sensor and a type. */
  predicate DistinctKeys(alerts: seq<AuditAlert>) {
    forall i, j :: 0 <= i < j < |alerts| ==> Key(alerts[i]) != Key(alerts[j])
  }

  lemma DistinctKeysAppend(a: seq<AuditAlert>, b: seq<AuditAlert>)
    requires DistinctKeys(a) && DistinctKeys(b)
    requires forall x, y :: x in a && y in b ==> Key(x) != Key(y)
    ensures DistinctKeys(a + b)
  {
    var c := a + b;
    forall i, j | 0 <= i < j < |c| ensures Key(c[i]) != Key(c[j]) {
      if i < |a| && j >= |a| {
        assert c[i] in a && c[j] == b[j - |a|];
      } else if i >= |a| {
        assert c[i] == b[i - |a|] && c[j] == b[j - |a|];
      }
    }
  }

  /** An appliance rule never repeats a key: only the AC and the heater rule share a type, and they exclude each other. */
  lemma {:induction false} ApplianceFiredDistinct(k: nat, n: int, r: EnergyReading, watts: real, m: Appliance, hour: int)
    requires k <= ApplianceRuleCount && !ApplianceCrashes(r, n, m)
    ensures DistinctKeys(ApplianceFired(k, n, r, watts, m, hour))
  {
    if k > 0 {
      var f := ApplianceRuleAt(k - 1);
      var prev := ApplianceFired(k - 1, n, r, watts, m, hour);
      ApplianceFiredDistinct(k - 1, n, r, watts, m, hour);
      var add := When(Fires(f, r, n, watts, m, hour), AlertOf(n, f, watts));
      forall x, y | x in prev && y in add ensures Key(x) != Key(y) {
        assert x == AlertOf(n, x.kind, watts) && x.kind.ApplianceIndex() < k - 1;
        assert Fires(x.kind, r, n, watts, m, hour);
      }
      DistinctKeysAppend(prev, add);
    }
  }

  /** One sensor's pass never repeats a key. */
  lemma SensorKeysDistinct(n: int, r: EnergyReading, config: Option<SensorConfig>, hour: int)
    requires SensorAlerts(n, r, config, hour).Some?
    ensures DistinctKeys(SensorAlerts(n, r, config, hour).value)
  {
    var v, watts := r.Voltage(n).value, r.Watts(n).value;
    if watts >= OffWatts {
      var m := MatchAppliance(LabelOf(config, n), CategoryOf(config));
      ApplianceFiredDistinct(ApplianceRuleCount, n, r, watts, m, hour);
      DistinctKeysAppend(VoltageAlerts(n, v), ApplianceAlerts(n, r, watts, m, hour));
    }
  }

  /** The candidates of a whole audit never repeat a key, so the save loop handles each key once. */
  lemma CandidateKeysDistinct(devices: seq<EnergyDevice>, configs: seq<SensorConfig>, readings: seq<EnergyReading>,
                              deviceId: string, now: int)
    requires Audit(devices, configs, readings, deviceId, now).Done?
    ensures DistinctKeys(Audit(devices, configs, readings, deviceId, now).alerts)
  {
    if FindDevice(devices, deviceId).Some? && Latest(readings, deviceId).Some? {
      var latest := Latest(readings, deviceId).value;
      var daily := DailyAlerts(DailyKwh(readings, deviceId, now));
      var hour := HourOf(now);
      var c1 := CandidatesBefore(2, latest, configs, deviceId, daily, hour).value;
      var s1 := SensorAlerts(1, latest, ConfigFor(configs, deviceId, 1), hour).value;
      var s2 := SensorAlerts(2, latest, ConfigFor(configs, deviceId, 2), hour).value;
      assert c1 == daily + s1;
      SensorKeysDistinct(1, latest, ConfigFor(configs, deviceId, 1), hour);
      SensorKeysDistinct(2, latest, ConfigFor(configs, deviceId, 2), hour);
      DistinctKeysAppend(daily, s1);
      forall x, y | x in c1 && y in s2 ensures Key(x) != Key(y) {
        var i :| 0 <= i < |c1| && c1[i] == x;
        assert x.sensor < 2;
      }
      DistinctKeysAppend(c1, s2);
    }
  }

  /** The first log of this device, sensor and type stamped after `now` minus ten minutes. */
  function FindRecent(logs: seq<AuditLog>, deviceId: string, sensor: int, auditType: string, now: int): (r: Option<nat>)
    ensures r.None? <==> forall i :: 0 <= i < |logs| ==> !IsRecentTwin(logs[i], deviceId, sensor, auditType, now)
    ensures r.Some? ==> r.value < |logs| && IsRecentTwin(logs[r.value], deviceId, sensor, auditType, now)
  {
    if logs == [] then None
    else if IsRecentTwin(logs[0], deviceId, sensor, auditType, now) then Some(0)
    else
      match FindRecent(logs[1..], deviceId, sensor, auditType, now)
      case None => None
      case Some(k) => Some(k + 1)
  }

  predicate IsRecentTwin(log: AuditLog, deviceId: string, sensor: int, auditType: string, now: int) {
    log.deviceId == deviceId && log.sensorNumber == sensor && log.auditType == auditType
    && log.timestamp > now - DedupWindow
  }

  /** The log row written for a candidate; the database stamps it with the current time. */
  function LogOf(deviceId: string, a: AuditAlert, now: int): AuditLog {
    AuditLog(deviceId, now, a.sensor, a.kind.Name(), a.kind.Severity(), a.wasteWatts)
  }

  /**
   * The log table after the save loop has handled `alerts`. Rows added earlier
   * in the same loop are visible to the later queries (the session flushes
   * before it queries).
   */
  function Persist(logs: seq<AuditLog>, deviceId: string, alerts: seq<AuditAlert>, now: int): (r: seq<AuditLog>)
    ensures logs <= r && |r| <= |logs| + |alerts|
    ensures forall i :: |logs| <= i < |r| ==>
              r[i].deviceId == deviceId && r[i].timestamp == now && (r[i].sensorNumber, r[i].auditType) in KeysOf(alerts)
  {
    if alerts == [] then logs
    else
      var before := Persist(logs, deviceId, alerts[..|alerts| - 1], now);
      var a := alerts[|alerts| - 1];
      assert KeysOf(alerts) == KeysOf(alerts[..|alerts| - 1]) + {Key(a)};
      if FindRecent(before, deviceId, a.sensor, a.kind.Name(), now).None? then before + [LogOf(deviceId, a, now)]
      else before
  }

  /** After the save loop, every candidate has a row of its device, sensor and type from the last ten minutes. */
  lemma {:induction false} PersistCovers(logs: seq<AuditLog>, deviceId: string, alerts: seq<AuditAlert>, now: int)
    ensures forall a :: a in alerts ==> FindRecent(Persist(logs, deviceId, alerts, now), deviceId, a.sensor, a.kind.Name(), now).Some?
  {
    if alerts != [] {
      var init, last := alerts[..|alerts| - 1], alerts[|alerts| - 1];
      PersistCovers(logs, deviceId, init, now);
      var before := Persist(logs, deviceId, init, now);
      var after := Persist(logs, deviceId, alerts, now);
      assert before <= after;
      forall a | a in alerts
        ensures FindRecent(after, deviceId, a.sensor, a.kind.Name(), now).Some?
      {
        if a in init {
          var k := FindRecent(before, deviceId, a.sensor, a.kind.Name(), now).value;
          assert after[k] == before[k];
        } else {
          assert a == last;
          if FindRecent(before, deviceId, a.sensor, a.kind.Name(), now).Some? {
            var k := FindRecent(before, deviceId, a.sensor, a.kind.Name(), now).value;
            assert after[k] == before[k];
          } else {
            assert after[|before|] == LogOf(deviceId, a, now);
          }
        }
      }
    }
  }

  /** No row from index `from` on has a recent twin of its own device, sensor and type before it. */
  ghost predicate NoTwinBefore(r: seq<AuditLog>, from: int, deviceId: string, now: int) {
    forall i :: from <= i < |r| && 0 <= i ==> FindRecent(r[..i], deviceId, r[i].sensorNumber, r[i].auditType, now).None?
  }

  /** A row the save loop adds never has a twin from the last ten minutes anywhere before it in the table. */
  lemma {:induction false} PersistAddsNoTwin(logs: seq<AuditLog>, deviceId: string, alerts: seq<AuditAlert>, now: int)
    ensures NoTwinBefore(Persist(logs, deviceId, alerts, now), |logs|, deviceId, now)
  {
    if alerts != [] {
      var init, last := alerts[..|alerts| - 1], alerts[|alerts| - 1];
      PersistAddsNoTwin(logs, deviceId, init, now);
      var before := Persist(logs, deviceId, init, now);
      if FindRecent(before, deviceId, last.sensor, last.kind.Name(), now).None? {
        var after := before + [LogOf(deviceId, last, now)];
        assert Persist(logs, deviceId, alerts, now) == after;
        forall i | |logs| <= i < |after|
          ensures FindRecent(after[..i], deviceId, after[i].sensorNumber, after[i].auditType, now).None?
        {
          if i < |before| {
            assert after[..i] == before[..i] && after[i] == before[i];
          } else {
            assert after[..i] == before;
          }
        }
      }
    }
  }

  /**
   * The rows an audit would add if every candidate were checked against the
   * table as it stood before the loop.
   */
  function NewLogs(logs: seq<AuditLog>, deviceId: string, alerts: seq<AuditAlert>, now: int): (r: seq<AuditLog>)
    ensures |r| <= |alerts|
    ensures forall l :: l in r ==> l.deviceId == deviceId && l.timestamp == now && (l.sensorNumber, l.auditType) in KeysOf(alerts)
  {
    if alerts == [] then []
    else
      var init, a := alerts[..|alerts| - 1], alerts[|alerts| - 1];
      assert KeysOf(alerts) == KeysOf(init) + {Key(a)};
      NewLogs(logs, deviceId, init, now)
        + (if FindRecent(logs, deviceId, a.sensor, a.kind.Name(), now).None? then [LogOf(deviceId, a, now)] else [])
  }

  lemma LastKeyFresh(alerts: seq<AuditAlert>)
    requires alerts != [] && DistinctKeys(alerts)
    ensures DistinctKeys(alerts[..|alerts| - 1])
    ensures Key(alerts[|alerts| - 1]) !in KeysOf(alerts[..|alerts| - 1])
  {
  }

  /** Rows that are none of them a twin of the key leave the lookup of that key as it was. */
  lemma FindRecentPastAdded(logs: seq<AuditLog>, added: seq<AuditLog>, deviceId: string, sensor: int, auditType: string, now: int)
    requires (sensor, auditType) !in set l | l in added :: (l.sensorNumber, l.auditType)
    ensures FindRecent(logs + added, deviceId, sensor, auditType, now).None? <==> FindRecent(logs, deviceId, sensor, auditType, now).None?
  {
    var all := logs + added;
    assert forall i :: 0 <= i < |logs| ==> all[i] == logs[i];
    assert forall i :: |logs| <= i < |all| ==> all[i] == added[i - |logs|];
  }

  /**
   * Because the candidates of one audit never repeat a key, the rows added
   * earlier in the loop never suppress a later candidate: the loop keeps
   * exactly the candidates that had no recent twin before the audit.
   */
  lemma {:induction false} PersistIsFilter(logs: seq<AuditLog>, deviceId: string, alerts: seq<AuditAlert>, now: int)
    requires DistinctKeys(alerts)
    ensures Persist(logs, deviceId, alerts, now) == logs + NewLogs(logs, deviceId, alerts, now)
  {
    if alerts != [] {
      var init, a := alerts[..|alerts| - 1], alerts[|alerts| - 1];
      LastKeyFresh(alerts);
      PersistIsFilter(logs, deviceId, init, now);
      var added := NewLogs(logs, deviceId, init, now);
      FindRecentPastAdded(logs, added, deviceId, a.sensor, a.kind.Name(), now);
    }
  }

  /** The save loop of an audit that ran: what it adds is the reference filter of its candidates. */
  lemma AuditPersistIsFilter(devices: seq<EnergyDevice>, configs: seq<SensorConfig>, readings: seq<EnergyReading>,
                             logs: seq<AuditLog>, deviceId: string, now: int)
    requires Audit(devices, configs, readings, deviceId, now).Done?
    ensures var alerts := Audit(devices, configs, readings, deviceId, now).alerts;
      Persist(logs, deviceId, alerts, now) == logs + NewLogs(logs, deviceId, alerts, now)
  {
    CandidateKeysDistinct(devices, configs, readings, deviceId, now);
    PersistIsFilter(logs, deviceId, Audit(devices, configs, readings, deviceId, now).alerts, now);
  }

  class EnergyDb {
    var devices: seq<EnergyDevice>
    var configs: seq<SensorConfig>
    var readings: seq<EnergyReading>
    var logs: seq<AuditLog>

    constructor (devices: seq<EnergyDevice>, configs: seq<SensorConfig>, readings: seq<EnergyReading>, logs: seq<AuditLog>)
      ensures this.devices == devices && this.configs == configs
      ensures this.readings == readings && this.logs == logs
    {
      this.devices := devices;
      this.configs := configs;
      this.readings := readings;
      this.logs := logs;
    }
  }

  /** A sensor whose pass raises stops the whole audit. */
  lemma CrashPropagates(n: int, r: EnergyReading, configs: seq<SensorConfig>, deviceId: string, daily: seq<AuditAlert>, hour: int)
    requires 1 <= n <= 2
    requires CandidatesBefore(n, r, configs, deviceId, daily, hour).Some?
    requires SensorAlerts(n, r, ConfigFor(configs, deviceId, n), hour).None?
    ensures CandidatesBefore(3, r, configs, deviceId, daily, hour).None?
  {
  }

  /**
   * The `for sensor_num in [1, 2]` loop of `run_energy_audit`: the candidates
   * after the daily rule's, or `None` for the `TypeError` a missing
   * measurement raises.
   */
  method CollectCandidates(reading: EnergyReading, configs: seq<SensorConfig>, deviceId: string,
                           daily: seq<AuditAlert>, hour: int) returns (found: Option<seq<AuditAlert>>)
    ensures found == CandidatesBefore(3, reading, configs, deviceId, daily, hour)
  {
    var alerts := daily;
    for n := 1 to 3
      invariant CandidatesBefore(n, reading, configs, deviceId, daily, hour) == Some(alerts)
    {
      ghost var before := alerts;
      var config := ConfigFor(configs, deviceId, n);
      var watts := reading.Watts(n);
      var voltage := reading.Voltage(n);
      if voltage.None? {
        CrashPropagates(n, reading, configs, deviceId, daily, hour);
        return None;
      }
      if voltage.value < BrownoutVolts {
        alerts := alerts + [AuditAlert(n, VoltageBrownout, 0.0)];
      } else if voltage.value > SurgeVolts {
        alerts := alerts + [AuditAlert(n, VoltageSurge, 0.0)];
      }
      assert alerts == before + VoltageAlerts(n, voltage.value);
      if watts.None? {
        CrashPropagates(n, reading, configs, deviceId, daily, hour);
        return None;
      }
      if watts.value < OffWatts {
        assert SensorAlerts(n, reading, config, hour) == Some(VoltageAlerts(n, voltage.value));
        continue;
      }
      var name := LabelOf(config, n);
      var category := CategoryOf(config);
      var m := MatchAppliance(name, category);
      if ApplianceCrashes(reading, n, m) {
        CrashPropagates(n, reading, configs, deviceId, daily, hour);
        return None;
      }
      var appliance := ApplianceAlerts(n, reading, watts.value, m, hour);
      alerts := alerts + appliance;
      assert alerts == before + (VoltageAlerts(n, voltage.value) + appliance);
      assert SensorAlerts(n, reading, config, hour) == Some(VoltageAlerts(n, voltage.value) + appliance);
    }
    return Some(alerts);
  }

  /** The save loop of `run_energy_audit`: log each candidate that has no recent twin. */
  method SaveAlerts(db: EnergyDb, deviceId: string, alerts: seq<AuditAlert>, now: int)
    modifies db
    ensures db.logs == Persist(old(db.logs), deviceId, alerts, now)
    ensures db.devices == old(db.devices) && db.configs == old(db.configs) && db.readings == old(db.readings)
  {
    for i := 0 to |alerts|
      invariant db.logs == Persist(old(db.logs), deviceId, alerts[..i], now)
      invariant db.devices == old(db.devices) && db.configs == old(db.configs) && db.readings == old(db.readings)
    {
      var a := alerts[i];
      assert alerts[..i + 1][..i] == alerts[..i];
      var recent := FindRecent(db.logs, deviceId, a.sensor, a.kind.Name(), now);
      if recent.None? {
        db.logs := db.logs + [LogOf(deviceId, a, now)];
      }
    }
    assert alerts[..|alerts|] == alerts;
  }

  /**
   * `run_energy_audit`: collect the candidates sensor by sensor, then log each
   * one that has no recent twin, and return every candidate, logged or not.
   */
  method RunEnergyAudit(db: EnergyDb, deviceId: string, now: int) returns (r: AuditOutcome)
    modifies db
    ensures r == Audit(db.devices, db.configs, db.readings, deviceId, now)
    ensures r.Done? ==> db.logs == Persist(old(db.logs), deviceId, r.alerts, now)
    ensures r.TypeError? ==> db.logs == old(db.logs)
    ensures db.devices == old(db.devices) && db.configs == old(db.configs) && db.readings == old(db.readings)
  {
    if FindDevice(db.devices, deviceId).None? {
      return Done([]);
    }
    var latest := Latest(db.readings, deviceId);
    if latest.None? {
      return Done([]);
    }
    var daily := DailyAlerts(DailyKwh(db.readings, deviceId, now));
    var found := CollectCandidates(latest.value, db.configs, deviceId, daily, HourOf(now));
    if found.None? {
      return TypeError;
    }
    SaveAlerts(db, deviceId, found.value, now);
    r := Done(found.value);
  }
}
