/**
 * The real-time vitals rule engine (health_monitoring/correlation_engine.py):
 * `analyze_vitals` checks one reading against an ordered list of threshold
 * and pattern rules and stores an alert for each rule that fires. The rule
 * list is specified once, by `Evaluate`; `AnalyzeVitals` is the imperative
 * procedure and is proved to store exactly what `Evaluate` lists.
 */
module HealthEngine {
  import opened Wrappers
  import opened HealthSchemas
  import opened HealthModels

  // Fallbacks for threshold types the device has no enabled row for.
  const DefaultSpo2Critical: real := 90.0
  const DefaultSpo2Low: real := 95.0
  const DefaultTempHigh: real := 38.0
  const DefaultHrHigh: real := 100.0
  const DefaultHrLow: real := 50.0
  const DefaultTempLow: real := 35.5

  /** A row the threshold query returns: the device's own, and enabled. */
  predicate ReadsThreshold(row: HealthThreshold, deviceId: string) {
    row.deviceId == deviceId && row.enabled
  }

  /** No later row that the query returns has the same type as row `i`. */
  ghost predicate LastOfType(rows: seq<HealthThreshold>, deviceId: string, i: int)
    requires 0 <= i < |rows|
  {
    forall j :: i < j < |rows| ==> !(ReadsThreshold(rows[j], deviceId) && rows[j].thresholdType == rows[i].thresholdType)
  }

  /**
   * `{t.threshold_type: t.threshold_value for t in thresholds}` over the
   * enabled rows of the device, built one row at a time; a later row
   * overwrites an earlier one of the same type.
   */
  function ThresholdMap(rows: seq<HealthThreshold>, deviceId: string): map<string, real> {
    if rows == [] then map[]
    else
      var last := rows[|rows| - 1];
      var m := ThresholdMap(rows[..|rows| - 1], deviceId);
      if ReadsThreshold(last, deviceId) then m[last.thresholdType := last.thresholdValue] else m
  }

  /** A type is a key of the threshold map exactly when an enabled row of the device has it. */
  lemma {:induction false} ThresholdMapKeys(rows: seq<HealthThreshold>, deviceId: string)
    ensures forall t :: t in ThresholdMap(rows, deviceId) <==>
              exists i :: 0 <= i < |rows| && ReadsThreshold(rows[i], deviceId) && rows[i].thresholdType == t
    decreases |rows|
  {
    if rows != [] {
      var n := |rows| - 1;
      var init := rows[..n];
      var last := rows[n];
      ThresholdMapKeys(init, deviceId);
      var m0 := ThresholdMap(init, deviceId);
      var m := ThresholdMap(rows, deviceId);
      assert m == if ReadsThreshold(last, deviceId) then m0[last.thresholdType := last.thresholdValue] else m0;
      forall t | t in m ensures exists i :: 0 <= i < |rows| && ReadsThreshold(rows[i], deviceId) && rows[i].thresholdType == t {
        if !(ReadsThreshold(last, deviceId) && last.thresholdType == t) {
          assert t in m0;
          var i :| 0 <= i < |init| && ReadsThreshold(init[i], deviceId) && init[i].thresholdType == t;
          assert rows[i] == init[i];
        }
      }
      forall t | exists i :: 0 <= i < |rows| && ReadsThreshold(rows[i], deviceId) && rows[i].thresholdType == t
        ensures t in m
      {
        var i :| 0 <= i < |rows| && ReadsThreshold(rows[i], deviceId) && rows[i].thresholdType == t;
        if i < n {
          assert init[i] == rows[i];
          assert t in m0;
        }
      }
    }
  }

  /** Where several enabled rows of the device share a type, the last one's value is the one kept. */
  lemma {:induction false} ThresholdMapLastWins(rows: seq<HealthThreshold>, deviceId: string, i: nat)
    requires i < |rows| && ReadsThreshold(rows[i], deviceId) && LastOfType(rows, deviceId, i)
    ensures rows[i].thresholdType in ThresholdMap(rows, deviceId)
    ensures ThresholdMap(rows, deviceId)[rows[i].thresholdType] == rows[i].thresholdValue
    decreases |rows|
  {
    var n := |rows| - 1;
    var init := rows[..n];
    var last := rows[n];
    var m0 := ThresholdMap(init, deviceId);
    assert ThresholdMap(rows, deviceId) == if ReadsThreshold(last, deviceId) then m0[last.thresholdType := last.thresholdValue] else m0;
    if i < n {
      assert init[i] == rows[i];
      assert LastOfType(init, deviceId, i) by {
        forall j | i < j < |init| ensures !(ReadsThreshold(init[j], deviceId) && init[j].thresholdType == init[i].thresholdType) {
          assert init[j] == rows[j];
        }
      }
      ThresholdMapLastWins(init, deviceId, i);
    }
  }

  /** `threshold_dict.get(key, default)`. */
  function Get(m: map<string, real>, key: string, default: real): real {
    if key in m then m[key] else default
  }

  /** The six limits the rules compare against. */
  datatype Limits = Limits(spo2Critical: real, spo2Low: real, tempHigh: real, hrHigh: real, hrLow: real, tempLow: real)

  function LimitsOf(m: map<string, real>): (lim: Limits)
    ensures "SPO2_CRITICAL" !in m ==> lim.spo2Critical == DefaultSpo2Critical
    ensures "SPO2_LOW" !in m ==> lim.spo2Low == DefaultSpo2Low
    ensures "TEMP_HIGH" !in m ==> lim.tempHigh == DefaultTempHigh
    ensures "HR_HIGH" !in m ==> lim.hrHigh == DefaultHrHigh
    ensures "HR_LOW" !in m ==> lim.hrLow == DefaultHrLow
    ensures "TEMP_LOW" !in m ==> lim.tempLow == DefaultTempLow
  {
    Limits(Get(m, "SPO2_CRITICAL", DefaultSpo2Critical), Get(m, "SPO2_LOW", DefaultSpo2Low),
           Get(m, "TEMP_HIGH", DefaultTempHigh), Get(m, "HR_HIGH", DefaultHrHigh),
           Get(m, "HR_LOW", DefaultHrLow), Get(m, "TEMP_LOW", DefaultTempLow))
  }

  /** The limits of a device without enabled thresholds. */
  const DefaultLimits: Limits :=
    Limits(DefaultSpo2Critical, DefaultSpo2Low, DefaultTempHigh, DefaultHrHigh, DefaultHrLow, DefaultTempLow)

  /** The saturation the rules see: an invalid SpO2 reading counts as 0. */
  function EffectiveSpo2(s: SpO2Data): int {
    if s.isValid then s.percent else 0
  }

  /** The rules of `analyze_vitals`, in the order they run. */
  datatype Rule =
    | CriticalHypoxia | LowSpo2 | RespiratoryDistress | InfectionPattern | Fever | HighTemp
    | Tachycardia | Bradycardia | TempEstUnreliable | Hypothermia | SevereInfection
  {
    /** The `alert_type` stored for the rule. */
    function AlertType(): string {
      match this
      case CriticalHypoxia => "CRITICAL_HYPOXIA"
      case LowSpo2 => "LOW_SPO2"
      case RespiratoryDistress => "RESPIRATORY_DISTRESS"
      case InfectionPattern => "INFECTION_PATTERN"
      case Fever => "FEVER"
      case HighTemp => "HIGH_TEMP"
      case Tachycardia => "TACHYCARDIA"
      case Bradycardia => "BRADYCARDIA"
      case TempEstUnreliable => "TEMP_EST_UNRELIABLE"
      case Hypothermia => "HYPOTHERMIA"
      case SevereInfection => "SEVERE_INFECTION"
    }

    /** The `severity` stored for the rule. */
    function Severity(): string {
      match this
      case CriticalHypoxia | RespiratoryDistress | Hypothermia | SevereInfection => "CRITICAL"
      case TempEstUnreliable => "INFO"
      case _ => "WARNING"
    }

    /** The rule's position in `analyze_vitals`. */
    function Index(): nat {
      match this
      case CriticalHypoxia => 0
      case LowSpo2 => 1
      case RespiratoryDistress => 2
      case InfectionPattern => 3
      case Fever => 4
      case HighTemp => 5
      case Tachycardia => 6
      case Bradycardia => 7
      case TempEstUnreliable => 8
      case Hypothermia => 9
      case SevereInfection => 10
    }
  }

  const RuleCount: nat := 11

  /** The rule at position `k`; positions and rules correspond one to one. */
  function RuleAt(k: nat): (f: Rule)
    requires k < RuleCount
    ensures forall g: Rule :: g.Index() == k <==> g == f
  {
    if k == 0 then CriticalHypoxia
    else if k == 1 then LowSpo2
    else if k == 2 then RespiratoryDistress
    else if k == 3 then InfectionPattern
    else if k == 4 then Fever
    else if k == 5 then HighTemp
    else if k == 6 then Tachycardia
    else if k == 7 then Bradycardia
    else if k == 8 then TempEstUnreliable
    else if k == 9 then Hypothermia
    else SevereInfection
  }

  /** `not device.is_athlete`: a null flag counts as not an athlete. */
  predicate NotAthlete(isAthlete: Option<bool>) {
    isAthlete != Some(true)
  }

  predicate Distinct<T(==)>(s: seq<T>) {
    forall i, j :: 0 <= i < j < |s| ==> s[i] != s[j]
  }

  /** `[x]` when `c` holds, otherwise empty: one rule's contribution. */
  function When(c: bool, x: Rule): (r: seq<Rule>)
    ensures forall y :: y in r <==> c && y == x
  {
    if c then [x] else []
  }

  predicate HasSpo2Finding(r: seq<Rule>) {
    CriticalHypoxia in r || LowSpo2 in r || RespiratoryDistress in r || InfectionPattern in r || SevereInfection in r
  }

  /**
   * The guard of each rule of `analyze_vitals`, on the heart rate, the
   * effective saturation and the temperature of the reading. LOW_SPO2 is the
   * `elif` of CRITICAL_HYPOXIA, and HIGH_TEMP the `else` of FEVER inside the
   * `temp > TEMP_HIGH` test.
   */
  predicate Fires(f: Rule, v: VitalsData, lim: Limits, isAthlete: Option<bool>) {
    var hr := v.heartRate.bpm;
    var spo2 := EffectiveSpo2(v.spo2);
    var temp := v.temperature.celsius;
    var hypoxia := spo2 > 0 && (spo2 as real) < lim.spo2Critical;
    match f
    case CriticalHypoxia => hypoxia
    case LowSpo2 => !hypoxia && spo2 > 0 && (spo2 as real) < lim.spo2Low
    case RespiratoryDistress => spo2 > 0 && spo2 < 94 && hr > 90
    case InfectionPattern => temp > 37.5 && hr > 90 && spo2 > 0 && spo2 < 96
    case Fever => temp > lim.tempHigh && hr as real > lim.hrHigh
    case HighTemp => temp > lim.tempHigh && !(hr as real > lim.hrHigh)
    case Tachycardia => hr as real > lim.hrHigh
    case Bradycardia => (hr as real) < lim.hrLow && hr > 0 && NotAthlete(isAthlete)
    case TempEstUnreliable => v.temperature.isEstimated && hr > 100
    case Hypothermia => temp < lim.tempLow
    case SevereInfection => spo2 > 0 && spo2 < 90 && hr > 90 && temp > 37.5
  }

  /** The rules among the first `k` that fire, in order. */
  function FiredAmong(k: nat, v: VitalsData, lim: Limits, isAthlete: Option<bool>): (r: seq<Rule>)
    requires k <= RuleCount
    ensures forall f :: f in r <==> f.Index() < k && Fires(f, v, lim, isAthlete)
  {
    if k == 0 then []
    else
      var f := RuleAt(k - 1);
      FiredAmong(k - 1, v, lim, isAthlete) + When(Fires(f, v, lim, isAthlete), f)
  }

  /** The rules that fire for one reading, in the order `analyze_vitals` runs them. */
  function Evaluate(v: VitalsData, lim: Limits, isAthlete: Option<bool>): (r: seq<Rule>)
    // SpO2 rules
    ensures CriticalHypoxia in r <==> 0 < EffectiveSpo2(v.spo2) && (EffectiveSpo2(v.spo2) as real) < lim.spo2Critical
    ensures LowSpo2 in r <==>
              0 < EffectiveSpo2(v.spo2) && lim.spo2Critical <= EffectiveSpo2(v.spo2) as real < lim.spo2Low
    ensures !(CriticalHypoxia in r && LowSpo2 in r)
    ensures EffectiveSpo2(v.spo2) == 0 ==> !HasSpo2Finding(r)
    // pattern rules, on fixed limits
    ensures RespiratoryDistress in r <==> 0 < EffectiveSpo2(v.spo2) < 94 && v.heartRate.bpm > 90
    ensures InfectionPattern in r <==>
              v.temperature.celsius > 37.5 && v.heartRate.bpm > 90 && 0 < EffectiveSpo2(v.spo2) < 96
    ensures SevereInfection in r <==>
              0 < EffectiveSpo2(v.spo2) < 90 && v.heartRate.bpm > 90 && v.temperature.celsius > 37.5
    ensures TempEstUnreliable in r <==> v.temperature.isEstimated && v.heartRate.bpm > 100
    // temperature and heart-rate rules
    ensures v.temperature.celsius > lim.tempHigh <==> (Fever in r || HighTemp in r)
    ensures !(Fever in r && HighTemp in r)
    ensures Fever in r <==> v.temperature.celsius > lim.tempHigh && v.heartRate.bpm as real > lim.hrHigh
    ensures Tachycardia in r <==> v.heartRate.bpm as real > lim.hrHigh
    ensures Bradycardia in r <==> 0 < v.heartRate.bpm && (v.heartRate.bpm as real) < lim.hrLow && NotAthlete(isAthlete)
    ensures Hypothermia in r <==> v.temperature.celsius < lim.tempLow
  {
    FiredAmong(RuleCount, v, lim, isAthlete)
  }

  /** Each rule fires at most once: the rules are listed in order of position. */
  lemma {:induction false} FiredAmongDistinct(k: nat, v: VitalsData, lim: Limits, isAthlete: Option<bool>)
    requires k <= RuleCount
    ensures Distinct(FiredAmong(k, v, lim, isAthlete))
  {
    if k > 0 {
      FiredAmongDistinct(k - 1, v, lim, isAthlete);
      var s := FiredAmong(k - 1, v, lim, isAthlete);
      var f := RuleAt(k - 1);
      assert f !in s;
      var c := Fires(f, v, lim, isAthlete);
      if c {
        assert FiredAmong(k, v, lim, isAthlete) == s + [f];
      } else {
        assert FiredAmong(k, v, lim, isAthlete) == s;
      }
    }
  }

  lemma EvaluateDistinct(v: VitalsData, lim: Limits, isAthlete: Option<bool>)
    ensures Distinct(Evaluate(v, lim, isAthlete))
  {
    FiredAmongDistinct(RuleCount, v, lim, isAthlete);
  }

  /** The `vital_snapshot` that `create_alert` stores: the reading's values, invalid SpO2 as 0. */
  function Snapshot(v: VitalsData): (s: VitalSnapshot)
    ensures s.spo2 == EffectiveSpo2(v.spo2)
    ensures s.hr == v.heartRate.bpm && s.temp == v.temperature.celsius
    ensures s.hrQuality == v.heartRate.signalQuality && s.spo2Quality == v.spo2.signalQuality
    ensures s.tempSource == v.temperature.source
  {
    VitalSnapshot(v.heartRate.bpm, v.heartRate.signalQuality, EffectiveSpo2(v.spo2),
                  v.spo2.signalQuality, v.temperature.celsius, v.temperature.source)
  }

  /** An alert as `create_alert` stores it. */
  ghost predicate IsNewAlert(a: HealthAlert, deviceId: string, v: VitalsData, now: int) {
    a.deviceId == deviceId && a.timestamp == now && a.snapshot == Snapshot(v)
    && !a.acknowledged && a.acknowledgedAt.None?
  }

  /** `create_alert`: store one alert stamped with the clock and a snapshot of the reading. */
  method CreateAlert(db: HealthDb, deviceId: string, alertType: string, severity: string, v: VitalsData, now: int)
    returns (alert: HealthAlert)
    requires db.Valid()
    modifies db
    ensures db.Valid()
    ensures alert == HealthAlert(old(db.nextAlertId), deviceId, now, alertType, severity, Snapshot(v), false, None)
    ensures db.alerts == old(db.alerts) + [alert]
    ensures db.nextAlertId == old(db.nextAlertId) + 1
    ensures db.devices == old(db.devices) && db.thresholds == old(db.thresholds)
    ensures db.readings == old(db.readings) && db.nextReadingId == old(db.nextReadingId)
  {
    alert := HealthAlert(db.nextAlertId, deviceId, now, alertType, severity, Snapshot(v), false, None);
    db.alerts := db.alerts + [alert];
    db.nextAlertId := db.nextAlertId + 1;
  }

  /** What `analyze_vitals` stores for a reading of a registered device: one alert per finding of `Evaluate`. */
  ghost predicate StoredFindings(created: seq<HealthAlert>, v: VitalReadingCreate, now: int, expected: seq<Rule>) {
    |created| == |expected|
    && forall i :: 0 <= i < |created| ==>
         && created[i].alertType == expected[i].AlertType() && created[i].severity == expected[i].Severity()
         && IsNewAlert(created[i], v.deviceId, v.vitals, now)
  }

  /** One more finding, stored as a new alert of its type and severity. */
  lemma StoredFindingsAppend(created: seq<HealthAlert>, v: VitalReadingCreate, now: int, expected: seq<Rule>,
                             alert: HealthAlert, f: Rule)
    requires StoredFindings(created, v, now, expected)
    requires alert.alertType == f.AlertType() && alert.severity == f.Severity()
    requires IsNewAlert(alert, v.deviceId, v.vitals, now)
    ensures StoredFindings(created + [alert], v, now, expected + [f])
  {
    var c, e := created + [alert], expected + [f];
    forall i | 0 <= i < |c|
      ensures c[i].alertType == e[i].AlertType() && c[i].severity == e[i].Severity()
      ensures IsNewAlert(c[i], v.deviceId, v.vitals, now)
    {
      if i < |created| {
        assert c[i] == created[i] && e[i] == expected[i];
      }
    }
  }

  /** Part way through `analyze_vitals`: the alerts created so far are those appended to the table. */
  ghost predicate Progress(db: HealthDb, alerts0: seq<HealthAlert>, created: seq<HealthAlert>, k: nat,
                           v: VitalReadingCreate, lim: Limits, isAthlete: Option<bool>, now: int)
    requires k <= RuleCount
    reads db
  {
    db.Valid() && db.alerts == alerts0 + created
    && StoredFindings(created, v, now, FiredAmong(k, v.vitals, lim, isAthlete))
  }

  /**
   * `analyze_vitals`: nothing for an unknown device; otherwise one stored and
   * returned alert per rule of `Evaluate` that fires, against the limits of
   * the device's enabled thresholds and its athlete flag.
   */
  method AnalyzeVitals(db: HealthDb, v: VitalReadingCreate, now: int) returns (created: seq<HealthAlert>)
    requires db.Valid()
    modifies db
    ensures db.Valid()
    ensures FindDevice(old(db.devices), v.deviceId).None? ==> created == [] && db.alerts == old(db.alerts)
    ensures FindDevice(old(db.devices), v.deviceId).Some? ==>
              var device := old(db.devices)[FindDevice(old(db.devices), v.deviceId).value];
              StoredFindings(created, v, now,
                Evaluate(v.vitals, LimitsOf(ThresholdMap(old(db.thresholds), v.deviceId)), device.isAthlete))
    ensures db.alerts == old(db.alerts) + created
    ensures db.devices == old(db.devices) && db.thresholds == old(db.thresholds) && db.readings == old(db.readings)
    ensures db.nextReadingId == old(db.nextReadingId)
    ensures db.nextAlertId == old(db.nextAlertId) + |created|
  {
    var found := FindDevice(db.devices, v.deviceId);
    if found.None? {
      return [];
    }
    var device := db.devices[found.value];
    var lim := LimitsOf(ThresholdMap(db.thresholds, v.deviceId));
    ghost var alerts0 := db.alerts;
    created := [];
    assert alerts0 + created == alerts0;
    created := Spo2Rules(db, created, v, now, lim, device.isAthlete, alerts0);
    created := PatternRules(db, created, v, now, lim, device.isAthlete, alerts0);
    created := FeverRules(db, created, v, now, lim, device.isAthlete, alerts0);
    created := HeartRateRules(db, created, v, now, lim, device.isAthlete, alerts0);
    created := LowTempRules(db, created, v, now, lim, device.isAthlete, alerts0);
    created := InfectionRule(db, created, v, now, lim, device.isAthlete, alerts0);
  }

  /** Rules 0 to 1 of `analyze_vitals`: CRITICAL_HYPOXIA, or else LOW_SPO2. */
  method Spo2Rules(db: HealthDb, created: seq<HealthAlert>, v: VitalReadingCreate, now: int, lim: Limits,
      isAthlete: Option<bool>, ghost alerts0: seq<HealthAlert>)
    returns (created': seq<HealthAlert>)
    requires Progress(db, alerts0, created, 0, v, lim, isAthlete, now)
    modifies db
    ensures Progress(db, alerts0, created', 2, v, lim, isAthlete, now)
    ensures db.devices == old(db.devices) && db.thresholds == old(db.thresholds)
    ensures db.readings == old(db.readings) && db.nextReadingId == old(db.nextReadingId)
    ensures db.nextAlertId == old(db.nextAlertId) + |created'| - |created|
  {
    var spo2 := EffectiveSpo2(v.vitals.spo2);
    var hypoxia := spo2 > 0 && (spo2 as real) < lim.spo2Critical;
    created' := FireIf(db, created, hypoxia, CriticalHypoxia, v, now, alerts0, lim, isAthlete);
    // the `elif` branch
    created' := FireIf(db, created', !hypoxia && spo2 > 0 && (spo2 as real) < lim.spo2Low, LowSpo2, v, now, alerts0, lim, isAthlete);
  }

  /** Rules 2 to 3 of `analyze_vitals`: respiratory distress and infection, on fixed limits. */
  method PatternRules(db: HealthDb, created: seq<HealthAlert>, v: VitalReadingCreate, now: int, lim: Limits,
      isAthlete: Option<bool>, ghost alerts0: seq<HealthAlert>)
    returns (created': seq<HealthAlert>)
    requires Progress(db, alerts0, created, 2, v, lim, isAthlete, now)
    modifies db
    ensures Progress(db, alerts0, created', 4, v, lim, isAthlete, now)
    ensures db.devices == old(db.devices) && db.thresholds == old(db.thresholds)
    ensures db.readings == old(db.readings) && db.nextReadingId == old(db.nextReadingId)
    ensures db.nextAlertId == old(db.nextAlertId) + |created'| - |created|
  {
    var hr := v.vitals.heartRate.bpm;
    var spo2 := EffectiveSpo2(v.vitals.spo2);
    var temp := v.vitals.temperature.celsius;
    created' := created;
    created' := FireIf(db, created', spo2 > 0 && spo2 < 94 && hr > 90, RespiratoryDistress, v, now, alerts0, lim, isAthlete);
    created' := FireIf(db, created', temp > 37.5 && hr > 90 && spo2 > 0 && spo2 < 96, InfectionPattern, v, now, alerts0, lim, isAthlete);
  }

  /** Rules 4 to 5 of `analyze_vitals`: above TEMP_HIGH, FEVER with a high heart rate and HIGH_TEMP without. */
  method FeverRules(db: HealthDb, created: seq<HealthAlert>, v: VitalReadingCreate, now: int, lim: Limits,
      isAthlete: Option<bool>, ghost alerts0: seq<HealthAlert>)
    returns (created': seq<HealthAlert>)
    requires Progress(db, alerts0, created, 4, v, lim, isAthlete, now)
    modifies db
    ensures Progress(db, alerts0, created', 6, v, lim, isAthlete, now)
    ensures db.devices == old(db.devices) && db.thresholds == old(db.thresholds)
    ensures db.readings == old(db.readings) && db.nextReadingId == old(db.nextReadingId)
    ensures db.nextAlertId == old(db.nextAlertId) + |created'| - |created|
  {
    var hr := v.vitals.heartRate.bpm;
    var temp := v.vitals.temperature.celsius;
    created' := created;
    created' := FireIf(db, created', temp > lim.tempHigh && hr as real > lim.hrHigh, Fever, v, now, alerts0, lim, isAthlete);
    created' := FireIf(db, created', temp > lim.tempHigh && !(hr as real > lim.hrHigh), HighTemp, v, now, alerts0, lim, isAthlete);
  }

  /** Rules 6 to 7 of `analyze_vitals`: tachycardia, and bradycardia for non-athletes. */
  method HeartRateRules(db: HealthDb, created: seq<HealthAlert>, v: VitalReadingCreate, now: int, lim: Limits,
      isAthlete: Option<bool>, ghost alerts0: seq<HealthAlert>)
    returns (created': seq<HealthAlert>)
    requires Progress(db, alerts0, created, 6, v, lim, isAthlete, now)
    modifies db
    ensures Progress(db, alerts0, created', 8, v, lim, isAthlete, now)
    ensures db.devices == old(db.devices) && db.thresholds == old(db.thresholds)
    ensures db.readings == old(db.readings) && db.nextReadingId == old(db.nextReadingId)
    ensures db.nextAlertId == old(db.nextAlertId) + |created'| - |created|
  {
    var hr := v.vitals.heartRate.bpm;
    created' := created;
    created' := FireIf(db, created', hr as real > lim.hrHigh, Tachycardia, v, now, alerts0, lim, isAthlete);
    created' := FireIf(db, created', (hr as real) < lim.hrLow && hr > 0 && NotAthlete(isAthlete), Bradycardia, v, now, alerts0, lim, isAthlete);
  }

  /** Rules 8 to 9 of `analyze_vitals`: the unreliable-estimate note and hypothermia. */
  method LowTempRules(db: HealthDb, created: seq<HealthAlert>, v: VitalReadingCreate, now: int, lim: Limits,
      isAthlete: Option<bool>, ghost alerts0: seq<HealthAlert>)
    returns (created': seq<HealthAlert>)
    requires Progress(db, alerts0, created, 8, v, lim, isAthlete, now)
    modifies db
    ensures Progress(db, alerts0, created', 10, v, lim, isAthlete, now)
    ensures db.devices == old(db.devices) && db.thresholds == old(db.thresholds)
    ensures db.readings == old(db.readings) && db.nextReadingId == old(db.nextReadingId)
    ensures db.nextAlertId == old(db.nextAlertId) + |created'| - |created|
  {
    var hr := v.vitals.heartRate.bpm;
    var temp := v.vitals.temperature.celsius;
    var isTempEstimated := v.vitals.temperature.isEstimated;
    created' := created;
    created' := FireIf(db, created', isTempEstimated && hr > 100, TempEstUnreliable, v, now, alerts0, lim, isAthlete);
    created' := FireIf(db, created', temp < lim.tempLow, Hypothermia, v, now, alerts0, lim, isAthlete);
  }

  /** Rule 10 of `analyze_vitals`: the severe-infection pattern. */
  method InfectionRule(db: HealthDb, created: seq<HealthAlert>, v: VitalReadingCreate, now: int, lim: Limits,
      isAthlete: Option<bool>, ghost alerts0: seq<HealthAlert>)
    returns (created': seq<HealthAlert>)
    requires Progress(db, alerts0, created, 10, v, lim, isAthlete, now)
    modifies db
    ensures Progress(db, alerts0, created', 11, v, lim, isAthlete, now)
    ensures db.devices == old(db.devices) && db.thresholds == old(db.thresholds)
    ensures db.readings == old(db.readings) && db.nextReadingId == old(db.nextReadingId)
    ensures db.nextAlertId == old(db.nextAlertId) + |created'| - |created|
  {
    var hr := v.vitals.heartRate.bpm;
    var spo2 := EffectiveSpo2(v.vitals.spo2);
    var temp := v.vitals.temperature.celsius;
    created' := FireIf(db, created, spo2 > 0 && spo2 < 90 && hr > 90 && temp > 37.5, SevereInfection, v, now, alerts0, lim, isAthlete);
  }

  /**
   * One rule of `analyze_vitals`: when its guard `c` holds,
   * `alerts.append(create_alert(...))` for rule `f`. The rules before `f`
   * have run.
   */
  method FireIf(db: HealthDb, created: seq<HealthAlert>, c: bool, f: Rule, v: VitalReadingCreate, now: int,
                ghost alerts0: seq<HealthAlert>, ghost lim: Limits, ghost isAthlete: Option<bool>)
    returns (created': seq<HealthAlert>)
    requires c == Fires(f, v.vitals, lim, isAthlete)
    requires Progress(db, alerts0, created, f.Index(), v, lim, isAthlete, now)
    modifies db
    ensures Progress(db, alerts0, created', f.Index() + 1, v, lim, isAthlete, now)
    ensures db.devices == old(db.devices) && db.thresholds == old(db.thresholds)
    ensures db.readings == old(db.readings) && db.nextReadingId == old(db.nextReadingId)
    ensures db.nextAlertId == old(db.nextAlertId) + |created'| - |created|
  {
    ghost var fs := FiredAmong(f.Index(), v.vitals, lim, isAthlete);
    assert RuleAt(f.Index()) == f;
    if c {
      var alert := CreateAlert(db, v.deviceId, f.AlertType(), f.Severity(), v.vitals, now);
      StoredFindingsAppend(created, v, now, fs, alert, f);
      created' := created + [alert];
      assert db.alerts == alerts0 + created';
      assert FiredAmong(f.Index() + 1, v.vitals, lim, isAthlete) == fs + [f];
    } else {
      created' := created;
      assert FiredAmong(f.Index() + 1, v.vitals, lim, isAthlete) == fs;
    }
  }

  /** Arithmetic mean of a non-empty list. */
  function Mean(values: seq<real>): real
    requires |values| > 0
  {
    Sum(values) / (|values| as real)
  }

  function Sum(values: seq<real>): real {
    if values == [] then 0.0 else values[0] + Sum(values[1..])
  }

  /** Python's `values[k:]`, where a negative `k` counts from the end and every bound is clamped. */
  function SliceFrom<T>(values: seq<T>, k: int): (r: seq<T>)
    ensures |r| <= |values|
  {
    if k >= 0 then (if k <= |values| then values[k..] else [])
    else if -k <= |values| then values[|values| + k..]
    else values
  }

  /** Python's `values[:k]` for `k >= 0`. */
  function SliceTo<T>(values: seq<T>, k: nat): (r: seq<T>)
    ensures |r| <= |values|
  {
    if k <= |values| then values[..k] else values
  }

  /**
   * `is_increasing_trend`: false for fewer than three values; otherwise the
   * mean of `values[-len(values) // 3:]` exceeds 1.05 times the mean of
   * `values[: len(values) // 3]`. Python's `-n // 3` is floor division of
   * the negated length, which Dafny's `/` also computes for a positive divisor.
   */
  function IsIncreasingTrend(values: seq<real>): (r: bool)
    ensures |values| < 3 ==> !r
    ensures |values| >= 3 ==>
              (r <==> Mean(values[|values| - LastThirdLength(|values|)..]) > Mean(values[..|values| / 3]) * 1.05)
  {
    var n := |values|;
    if n < 3 then false
    else
      var first := SliceTo(values, n / 3);
      var last := SliceFrom(values, (-(n as int)) / 3);
      ThirdsOfTrend(n);
      assert last == values[n - LastThirdLength(n)..];
      Mean(last) > Mean(first) * 1.05
  }

  /** ⌈n / 3⌉, the length of the last third. */
  function LastThirdLength(n: nat): nat {
    (n + 2) / 3
  }

  /** `-n // 3` is `-⌈n / 3⌉`, so both thirds are non-empty for three or more values. */
  lemma ThirdsOfTrend(n: nat)
    requires n >= 3
    ensures (-(n as int)) / 3 == -(LastThirdLength(n) as int)
    ensures 1 <= n / 3 <= LastThirdLength(n) <= n
  {
    var q: int := LastThirdLength(n);
    var m: int := -(n as int);
    assert 3 * q - 2 <= n <= 3 * q;
    assert -3 * q <= m < -3 * q + 3;
  }

  /** A constant positive series is never reported as increasing. */
  lemma {:induction false} ConstantSeriesNotIncreasing(values: seq<real>, c: real)
    requires c > 0.0
    requires forall i :: 0 <= i < |values| ==> values[i] == c
    ensures !IsIncreasingTrend(values)
  {
    var n := |values|;
    if n >= 3 {
      ThirdsOfTrend(n);
      var last := values[n - LastThirdLength(n)..];
      var first := values[..n / 3];
      ConstantMean(last, c);
      ConstantMean(first, c);
    }
  }

  lemma {:induction false} ConstantMean(values: seq<real>, c: real)
    requires |values| > 0
    requires forall i :: 0 <= i < |values| ==> values[i] == c
    ensures Mean(values) == c
  {
    ConstantSum(values, c);
  }

  lemma {:induction false} ConstantSum(values: seq<real>, c: real)
    requires forall i :: 0 <= i < |values| ==> values[i] == c
    ensures Sum(values) == (|values| as real) * c
  {
    if values != [] {
      ConstantSum(values[1..], c);
    }
  }
}
