/**
 * The service layer of the health-monitoring API
 * (health_monitoring/services.py) over the in-memory `HealthDb`: device
 * registration with its six seeded thresholds, the threshold upserts, alert
 * acknowledgement, calibration, the filtered and limited queries, the
 * per-device deletions and the ingestion of one reading. `now` stands for
 * `datetime.utcnow()`.
 */
module HealthServices {
  import opened Wrappers
  import opened HealthSchemas
  import opened HealthModels
  import opened HealthEngine
  import opened Ordering

  // ------------------------------------------------------------ devices

  /** Python truthiness of an optional string column: present and non-empty. */
  predicate Truthy(s: Option<string>) {
    s.Some? && s.value != ""
  }

  /** `given or current` for an optional string. */
  function OrString(given: Option<string>, current: Option<string>): (r: Option<string>)
    ensures Truthy(given) ==> r == given
    ensures !Truthy(given) ==> r == current
  {
    if Truthy(given) then given else current
  }

  /** `given or current` for an optional date: a date object is always truthy. */
  function OrDate(given: Option<Date>, current: Option<Date>): (r: Option<Date>)
    ensures given.Some? ==> r == given
    ensures given.None? ==> r == current
  {
    if given.Some? then given else current
  }

  /**
   * The row `create_device` leaves for an id that is already registered:
   * name, user, date of birth and gender are kept when the new value is
   * falsy, resting HR and athlete flag are always overwritten.
   */
  function Reregistered(row: HealthDevice, d: DeviceCreate, now: int): (r: HealthDevice)
    ensures r.deviceId == row.deviceId
    ensures !Truthy(d.deviceName) ==> r.deviceName == row.deviceName
    ensures Truthy(d.deviceName) ==> r.deviceName == d.deviceName
    ensures !Truthy(d.userName) ==> r.userName == row.userName
    ensures Truthy(d.userName) ==> r.userName == d.userName
    ensures d.dateOfBirth.None? ==> r.dateOfBirth == row.dateOfBirth
    ensures d.dateOfBirth.Some? ==> r.dateOfBirth == d.dateOfBirth
    ensures !Truthy(d.gender) ==> r.gender == row.gender
    ensures Truthy(d.gender) ==> r.gender == d.gender
    ensures r.restingHr == d.restingHr && r.isAthlete == d.isAthlete
    ensures r.lastSeen == Some(now)
  {
    row.(deviceName := OrString(d.deviceName, row.deviceName),
         userName := OrString(d.userName, row.userName),
         dateOfBirth := OrDate(d.dateOfBirth, row.dateOfBirth),
         gender := OrString(d.gender, row.gender),
         restingHr := d.restingHr, isAthlete := d.isAthlete, lastSeen := Some(now))
  }

  function NewDevice(d: DeviceCreate, now: int): HealthDevice {
    HealthDevice(d.deviceId, d.deviceName, d.userName, d.dateOfBirth, d.gender, d.restingHr, d.isAthlete, Some(now))
  }

  /** The six enabled rows `create_device` seeds for a new device, in order. */
  function DefaultThresholds(deviceId: string): (r: seq<HealthThreshold>)
    ensures |r| == 6
    ensures forall k :: 0 <= k < |r| ==> r[k].deviceId == deviceId && r[k].enabled
  {
    [HealthThreshold(deviceId, "HR_HIGH", 100.0, true),
     HealthThreshold(deviceId, "HR_LOW", 50.0, true),
     HealthThreshold(deviceId, "SPO2_LOW", 95.0, true),
     HealthThreshold(deviceId, "SPO2_CRITICAL", 90.0, true),
     HealthThreshold(deviceId, "TEMP_HIGH", 38.0, true),
     HealthThreshold(deviceId, "TEMP_LOW", 35.5, true)]
  }

  /**
   * `create_device`: a known id has its row updated in place and gains no
   * thresholds; an unknown id is appended together with the six defaults.
   */
  method CreateDevice(db: HealthDb, d: DeviceCreate, now: int) returns (device: HealthDevice)
    requires db.Valid()
    modifies db
    ensures db.Valid()
    ensures FindDevice(old(db.devices), d.deviceId).Some? ==>
              var i := FindDevice(old(db.devices), d.deviceId).value;
              && device == Reregistered(old(db.devices)[i], d, now)
              && db.devices == old(db.devices)[i := device]
              && db.thresholds == old(db.thresholds)
    ensures FindDevice(old(db.devices), d.deviceId).None? ==>
              && device == NewDevice(d, now)
              && db.devices == old(db.devices) + [device]
              && db.thresholds == old(db.thresholds) + DefaultThresholds(d.deviceId)
    ensures db.readings == old(db.readings) && db.alerts == old(db.alerts)
    ensures db.nextReadingId == old(db.nextReadingId) && db.nextAlertId == old(db.nextAlertId)
  {
    var found := FindDevice(db.devices, d.deviceId);
    if found.Some? {
      device := Reregistered(db.devices[found.value], d, now);
      db.devices := db.devices[found.value := device];
    } else {
      device := NewDevice(d, now);
      db.devices := db.devices + [device];
      var defaults := DefaultThresholds(d.deviceId);
      for k := 0 to |defaults|
        invariant db.thresholds == old(db.thresholds) + defaults[..k]
        invariant db.devices == old(db.devices) + [device]
        invariant db.readings == old(db.readings) && db.alerts == old(db.alerts)
        invariant db.nextReadingId == old(db.nextReadingId) && db.nextAlertId == old(db.nextAlertId)
      {
        db.thresholds := db.thresholds + [defaults[k]];
      }
      assert defaults[..|defaults|] == defaults;
    }
  }

  /** Appending a row: the query returns it last, so its value wins for its type. */
  lemma MapAfterAppend(rows: seq<HealthThreshold>, row: HealthThreshold, deviceId: string)
    ensures ThresholdMap(rows + [row], deviceId) ==
              if ReadsThreshold(row, deviceId) then ThresholdMap(rows, deviceId)[row.thresholdType := row.thresholdValue]
              else ThresholdMap(rows, deviceId)
  {
    assert (rows + [row])[..|rows|] == rows;
  }

  /**
   * The seeded rows come after every earlier row of the device, so whatever
   * rows existed before, the engine then reads exactly its own fallbacks.
   */
  lemma RegistrationYieldsDefaultLimits(rows: seq<HealthThreshold>, deviceId: string)
    ensures LimitsOf(ThresholdMap(rows + DefaultThresholds(deviceId), deviceId)) == DefaultLimits
  {
    var d := DefaultThresholds(deviceId);
    var r1 := rows + [d[0]];
    var r2 := r1 + [d[1]];
    var r3 := r2 + [d[2]];
    var r4 := r3 + [d[3]];
    var r5 := r4 + [d[4]];
    assert r5 + [d[5]] == rows + d;
    MapAfterAppend(rows, d[0], deviceId);
    MapAfterAppend(r1, d[1], deviceId);
    MapAfterAppend(r2, d[2], deviceId);
    MapAfterAppend(r3, d[3], deviceId);
    MapAfterAppend(r4, d[4], deviceId);
    MapAfterAppend(r5, d[5], deviceId);
  }

  /** `update_last_seen`: stamp the device's row, if there is one. */
  method UpdateLastSeen(db: HealthDb, deviceId: string, now: int)
    requires db.Valid()
    modifies db
    ensures db.Valid()
    ensures FindDevice(old(db.devices), deviceId).Some? ==>
              var i := FindDevice(old(db.devices), deviceId).value;
              db.devices == old(db.devices)[i := old(db.devices)[i].(lastSeen := Some(now))]
    ensures FindDevice(old(db.devices), deviceId).None? ==> db.devices == old(db.devices)
    ensures db.thresholds == old(db.thresholds) && db.readings == old(db.readings) && db.alerts == old(db.alerts)
    ensures db.nextReadingId == old(db.nextReadingId) && db.nextAlertId == old(db.nextAlertId)
  {
    var found := FindDevice(db.devices, deviceId);
    if found.Some? {
      db.devices := db.devices[found.value := db.devices[found.value].(lastSeen := Some(now))];
    }
  }

  /** `calibrate_device`: set the resting heart rate; false for an unknown device. */
  method CalibrateDevice(db: HealthDb, deviceId: string, restingHr: int) returns (ok: bool)
    requires db.Valid()
    modifies db
    ensures db.Valid()
    ensures ok <==> FindDevice(old(db.devices), deviceId).Some?
    ensures ok ==>
              var i := FindDevice(old(db.devices), deviceId).value;
              db.devices == old(db.devices)[i := old(db.devices)[i].(restingHr := Some(restingHr))]
    ensures !ok ==> db.devices == old(db.devices)
    ensures db.thresholds == old(db.thresholds) && db.readings == old(db.readings) && db.alerts == old(db.alerts)
    ensures db.nextReadingId == old(db.nextReadingId) && db.nextAlertId == old(db.nextAlertId)
  {
    var found := FindDevice(db.devices, deviceId);
    if found.None? {
      return false;
    }
    db.devices := db.devices[found.value := db.devices[found.value].(restingHr := Some(restingHr))];
    return true;
  }

  // --------------------------------------------------------- thresholds

  /** No two rows share a device and a threshold type. */
  predicate UniqueThresholdKeys(rows: seq<HealthThreshold>) {
    forall i, j :: 0 <= i < j < |rows| ==>
      !(rows[i].deviceId == rows[j].deviceId && rows[i].thresholdType == rows[j].thresholdType)
  }

  /** Seeding a device that has no rows yet keeps the keys unique. */
  lemma SeedingKeepsKeysUnique(rows: seq<HealthThreshold>, deviceId: string)
    requires UniqueThresholdKeys(rows)
    requires forall i :: 0 <= i < |rows| ==> rows[i].deviceId != deviceId
    ensures UniqueThresholdKeys(rows + DefaultThresholds(deviceId))
  {
    var all := rows + DefaultThresholds(deviceId);
    forall i, j | 0 <= i < j < |all|
      ensures !(all[i].deviceId == all[j].deviceId && all[i].thresholdType == all[j].thresholdType)
    {
      if j >= |rows| {
        assert all[j] == DefaultThresholds(deviceId)[j - |rows|];
        if i >= |rows| {
          assert all[i] == DefaultThresholds(deviceId)[i - |rows|];
        }
      }
    }
  }

  /**
   * A row of the device left by `update_threshold` before the device was
   * registered, with one of the six seeded types, is duplicated by the
   * registration: no unique constraint guards the pair.
   */
  lemma StrayRowIsDuplicated(rows: seq<HealthThreshold>, deviceId: string, i: nat, k: nat)
    requires i < |rows| && k < 6
    requires rows[i].deviceId == deviceId && rows[i].thresholdType == DefaultThresholds(deviceId)[k].thresholdType
    ensures !UniqueThresholdKeys(rows + DefaultThresholds(deviceId))
  {
    var all := rows + DefaultThresholds(deviceId);
    assert all[i] == rows[i] && all[|rows| + k] == DefaultThresholds(deviceId)[k];
  }

  /**
   * The table after `_upsert_threshold` / `update_threshold`: the first row
   * of the device and type takes the new value and flag; without one, a row
   * is appended.
   */
  function Upserted(rows: seq<HealthThreshold>, deviceId: string, thresholdType: string, value: real, enabled: bool)
    : seq<HealthThreshold>
  {
    var row := HealthThreshold(deviceId, thresholdType, value, enabled);
    match FindThreshold(rows, deviceId, thresholdType)
    case Some(i) => rows[i := row]
    case None => rows + [row]
  }

  lemma UpsertKeepsKeysUnique(rows: seq<HealthThreshold>, deviceId: string, thresholdType: string, value: real, enabled: bool)
    requires UniqueThresholdKeys(rows)
    ensures UniqueThresholdKeys(Upserted(rows, deviceId, thresholdType, value, enabled))
  {
    var r := Upserted(rows, deviceId, thresholdType, value, enabled);
    if FindThreshold(rows, deviceId, thresholdType).None? {
      forall i, j | 0 <= i < j < |r|
        ensures !(r[i].deviceId == r[j].deviceId && r[i].thresholdType == r[j].thresholdType)
      {
        if j == |rows| {
          assert r[i] == rows[i];
        }
      }
    }
  }

  /** A type no row of the device has is not a key of its map. */
  lemma AbsentType(rows: seq<HealthThreshold>, deviceId: string, thresholdType: string)
    requires forall i :: 0 <= i < |rows| ==> !(rows[i].deviceId == deviceId && rows[i].thresholdType == thresholdType)
    ensures thresholdType !in ThresholdMap(rows, deviceId)
  {
    ThresholdMapKeys(rows, deviceId);
  }

  /** The map after `row` takes over its type: the limit is set when the row is enabled, removed otherwise. */
  function Replaced(m: map<string, real>, row: HealthThreshold): map<string, real> {
    if row.enabled then m[row.thresholdType := row.thresholdValue] else m - {row.thresholdType}
  }

  /** Replacing the one row of a device and type by `row`: its limit is set, or removed when disabled. */
  lemma {:induction false} MapAfterReplace(rows: seq<HealthThreshold>, i: nat, row: HealthThreshold)
    requires UniqueThresholdKeys(rows)
    requires i < |rows| && rows[i].deviceId == row.deviceId && rows[i].thresholdType == row.thresholdType
    ensures ThresholdMap(rows[i := row], row.deviceId) == Replaced(ThresholdMap(rows, row.deviceId), row)
    decreases |rows|
  {
    var n := |rows| - 1;
    var init := rows[..n];
    var last := rows[n];
    assert rows == init + [last];
    if i == n {
      assert rows[i := row] == init + [row];
      ReplaceLastRow(init, last, row);
    } else {
      assert init[i] == rows[i];
      assert rows[i := row] == init[i := row] + [last];
      MapAfterReplace(init, i, row);
      MapAfterAppend(init[i := row], last, row.deviceId);
      MapAfterAppend(init, last, row.deviceId);
      ReplaceCommutes(ThresholdMap(init, row.deviceId), row, last);
    }
  }

  /** The base case: the replaced row is the last one, and no earlier row of the device has its type. */
  lemma ReplaceLastRow(init: seq<HealthThreshold>, last: HealthThreshold, row: HealthThreshold)
    requires forall j :: 0 <= j < |init| ==> !(init[j].deviceId == row.deviceId && init[j].thresholdType == row.thresholdType)
    requires last.deviceId == row.deviceId && last.thresholdType == row.thresholdType
    ensures ThresholdMap(init + [row], row.deviceId) == Replaced(ThresholdMap(init + [last], row.deviceId), row)
  {
    var id := row.deviceId;
    MapAfterAppend(init, last, id);
    MapAfterAppend(init, row, id);
    AbsentType(init, id, row.thresholdType);
    ReplaceFreshKey(ThresholdMap(init, id), last, row);
  }

  /** The map algebra of the base case: the type is not yet a key before `last` or `row` is absorbed. */
  lemma ReplaceFreshKey(m0: map<string, real>, last: HealthThreshold, row: HealthThreshold)
    requires row.thresholdType !in m0
    requires last.deviceId == row.deviceId && last.thresholdType == row.thresholdType
    ensures (if ReadsThreshold(row, row.deviceId) then m0[row.thresholdType := row.thresholdValue] else m0)
              == Replaced(if ReadsThreshold(last, row.deviceId) then m0[last.thresholdType := last.thresholdValue] else m0, row)
  {
    var t, v := row.thresholdType, row.thresholdValue;
    if row.enabled {
      if last.enabled {
        assert m0[t := last.thresholdValue][t := v] == m0[t := v];
      }
    } else {
      if last.enabled {
        assert m0[t := last.thresholdValue] - {t} == m0;
      } else {
        assert m0 - {t} == m0;
      }
    }
  }

  /** A later row of another type is absorbed the same way before or after the replacement. */
  lemma ReplaceCommutes(m: map<string, real>, row: HealthThreshold, last: HealthThreshold)
    requires !(last.deviceId == row.deviceId && last.thresholdType == row.thresholdType)
    ensures var id := row.deviceId;
            (if ReadsThreshold(last, id) then Replaced(m, row)[last.thresholdType := last.thresholdValue] else Replaced(m, row))
              == Replaced(if ReadsThreshold(last, id) then m[last.thresholdType := last.thresholdValue] else m, row)
  {
    if ReadsThreshold(last, row.deviceId) {
      var t, v, lt, lv := row.thresholdType, row.thresholdValue, last.thresholdType, last.thresholdValue;
      if row.enabled {
        assert m[t := v][lt := lv] == m[lt := lv][t := v];
      } else {
        assert (m - {t})[lt := lv] == m[lt := lv] - {t};
      }
    }
  }

  /**
   * With unique keys, an upsert is what the engine sees: an enabled row sets
   * the type's limit, a disabled one removes it; other types are untouched.
   */
  lemma UpsertLookup(rows: seq<HealthThreshold>, deviceId: string, thresholdType: string, value: real, enabled: bool)
    requires UniqueThresholdKeys(rows)
    ensures var m := ThresholdMap(rows, deviceId);
            ThresholdMap(Upserted(rows, deviceId, thresholdType, value, enabled), deviceId)
              == if enabled then m[thresholdType := value] else m - {thresholdType}
  {
    var row := HealthThreshold(deviceId, thresholdType, value, enabled);
    match FindThreshold(rows, deviceId, thresholdType)
    case Some(i) =>
      MapAfterReplace(rows, i, row);
      assert Upserted(rows, deviceId, thresholdType, value, enabled) == rows[i := row];
    case None =>
      MapAfterAppend(rows, row, deviceId);
      AbsentType(rows, deviceId, thresholdType);
  }

  /**
   * `ThresholdMap` of a device depends only on the rows that device's query
   * returns: tables that agree on those give the same limits.
   */
  lemma {:induction false} MapDependsOnOwnRows(rows: seq<HealthThreshold>, rows': seq<HealthThreshold>, deviceId: string)
    requires |rows| == |rows'|
    requires forall j :: 0 <= j < |rows| ==>
               (ReadsThreshold(rows[j], deviceId) || ReadsThreshold(rows'[j], deviceId)) ==> rows[j] == rows'[j]
    ensures ThresholdMap(rows, deviceId) == ThresholdMap(rows', deviceId)
    decreases |rows|
  {
    if rows != [] {
      var n := |rows| - 1;
      MapDependsOnOwnRows(rows[..n], rows'[..n], deviceId);
    }
  }

  /** An upsert for one device leaves every other device's limits as they were. */
  lemma UpsertLeavesOtherDevices(rows: seq<HealthThreshold>, deviceId: string, thresholdType: string, value: real,
                                 enabled: bool, other: string)
    requires other != deviceId
    ensures ThresholdMap(Upserted(rows, deviceId, thresholdType, value, enabled), other) == ThresholdMap(rows, other)
  {
    var r := Upserted(rows, deviceId, thresholdType, value, enabled);
    if FindThreshold(rows, deviceId, thresholdType).None? {
      assert r[..|rows|] == rows;
    } else {
      MapDependsOnOwnRows(r, rows, other);
    }
  }

  /** `_upsert_threshold` (inside `set_thresholds`) and the body of `update_threshold`. */
  method UpsertThreshold(db: HealthDb, deviceId: string, thresholdType: string, value: real, enabled: bool)
    returns (row: HealthThreshold)
    modifies db
    ensures row == HealthThreshold(deviceId, thresholdType, value, enabled)
    ensures db.thresholds == Upserted(old(db.thresholds), deviceId, thresholdType, value, enabled)
    ensures db.devices == old(db.devices) && db.readings == old(db.readings) && db.alerts == old(db.alerts)
    ensures db.nextReadingId == old(db.nextReadingId) && db.nextAlertId == old(db.nextAlertId)
  {
    row := HealthThreshold(deviceId, thresholdType, value, enabled);
    var found := FindThreshold(db.thresholds, deviceId, thresholdType);
    if found.Some? {
      db.thresholds := db.thresholds[found.value := row];
    } else {
      db.thresholds := db.thresholds + [row];
    }
  }

  /** `update_threshold`: upsert one row, whether or not the device is registered. */
  method UpdateThreshold(db: HealthDb, deviceId: string, threshold: ThresholdCreate) returns (row: HealthThreshold)
    modifies db
    ensures row == HealthThreshold(deviceId, threshold.thresholdType, threshold.thresholdValue, threshold.enabled)
    ensures db.thresholds ==
              Upserted(old(db.thresholds), deviceId, threshold.thresholdType, threshold.thresholdValue, threshold.enabled)
    ensures db.devices == old(db.devices) && db.readings == old(db.readings) && db.alerts == old(db.alerts)
    ensures db.nextReadingId == old(db.nextReadingId) && db.nextAlertId == old(db.nextAlertId)
  {
    row := UpsertThreshold(db, deviceId, threshold.thresholdType, threshold.thresholdValue, threshold.enabled);
  }

  /** One `if thresholds.<field> is not None: _upsert_threshold(<type>, <field>)`. */
  function UpsertIf(rows: seq<HealthThreshold>, deviceId: string, thresholdType: string, value: Option<real>)
    : seq<HealthThreshold>
  {
    if value.Some? then Upserted(rows, deviceId, thresholdType, value.value, true) else rows
  }

  /** The table after the six conditional upserts of `set_thresholds`, in the source's order. */
  function ApplyLimits(rows: seq<HealthThreshold>, deviceId: string, l: ThresholdLimits): seq<HealthThreshold> {
    var r1 := UpsertIf(rows, deviceId, "HR_HIGH", l.hrHigh);
    var r2 := UpsertIf(r1, deviceId, "HR_LOW", l.hrLow);
    var r3 := UpsertIf(r2, deviceId, "SPO2_LOW", l.spo2Low);
    var r4 := UpsertIf(r3, deviceId, "SPO2_CRITICAL", l.spo2Critical);
    var r5 := UpsertIf(r4, deviceId, "TEMP_HIGH", l.tempHigh);
    UpsertIf(r5, deviceId, "TEMP_LOW", l.tempLow)
  }

  /** `m` with `key` set when a value is given. */
  function Put(m: map<string, real>, key: string, value: Option<real>): map<string, real> {
    if value.Some? then m[key := value.value] else m
  }

  lemma UpsertIfLookup(rows: seq<HealthThreshold>, deviceId: string, thresholdType: string, value: Option<real>)
    requires UniqueThresholdKeys(rows)
    ensures UniqueThresholdKeys(UpsertIf(rows, deviceId, thresholdType, value))
    ensures ThresholdMap(UpsertIf(rows, deviceId, thresholdType, value), deviceId)
              == Put(ThresholdMap(rows, deviceId), thresholdType, value)
  {
    if value.Some? {
      UpsertKeepsKeysUnique(rows, deviceId, thresholdType, value.value, true);
      UpsertLookup(rows, deviceId, thresholdType, value.value, true);
    }
  }

  /**
   * With unique keys, `set_thresholds` sets exactly the given limits, each
   * enabled, and the engine reads every given one back.
   */
  lemma SetThresholdsTakeEffect(rows: seq<HealthThreshold>, deviceId: string, l: ThresholdLimits)
    requires UniqueThresholdKeys(rows)
    ensures UniqueThresholdKeys(ApplyLimits(rows, deviceId, l))
    ensures var m := ThresholdMap(rows, deviceId);
            ThresholdMap(ApplyLimits(rows, deviceId, l), deviceId)
              == Put(Put(Put(Put(Put(Put(m, "HR_HIGH", l.hrHigh), "HR_LOW", l.hrLow), "SPO2_LOW", l.spo2Low),
                                 "SPO2_CRITICAL", l.spo2Critical), "TEMP_HIGH", l.tempHigh), "TEMP_LOW", l.tempLow)
  {
    var r1 := UpsertIf(rows, deviceId, "HR_HIGH", l.hrHigh);
    UpsertIfLookup(rows, deviceId, "HR_HIGH", l.hrHigh);
    var r2 := UpsertIf(r1, deviceId, "HR_LOW", l.hrLow);
    UpsertIfLookup(r1, deviceId, "HR_LOW", l.hrLow);
    var r3 := UpsertIf(r2, deviceId, "SPO2_LOW", l.spo2Low);
    UpsertIfLookup(r2, deviceId, "SPO2_LOW", l.spo2Low);
    var r4 := UpsertIf(r3, deviceId, "SPO2_CRITICAL", l.spo2Critical);
    UpsertIfLookup(r3, deviceId, "SPO2_CRITICAL", l.spo2Critical);
    var r5 := UpsertIf(r4, deviceId, "TEMP_HIGH", l.tempHigh);
    UpsertIfLookup(r4, deviceId, "TEMP_HIGH", l.tempHigh);
    UpsertIfLookup(r5, deviceId, "TEMP_LOW", l.tempLow);
  }

  /** A lookup through `Put`. */
  lemma PutGet(m: map<string, real>, key: string, value: Option<real>)
    ensures forall k, d :: Get(Put(m, key, value), k, d) == if k == key && value.Some? then value.value else Get(m, k, d)
  {
  }

  /** After `set_thresholds` (with unique keys), the engine reads back every limit given. */
  lemma SetThresholdsReadBack(rows: seq<HealthThreshold>, deviceId: string, l: ThresholdLimits)
    requires UniqueThresholdKeys(rows)
    ensures var lim := LimitsOf(ThresholdMap(ApplyLimits(rows, deviceId, l), deviceId));
            && (l.hrHigh.Some? ==> lim.hrHigh == l.hrHigh.value)
            && (l.hrLow.Some? ==> lim.hrLow == l.hrLow.value)
            && (l.spo2Low.Some? ==> lim.spo2Low == l.spo2Low.value)
            && (l.spo2Critical.Some? ==> lim.spo2Critical == l.spo2Critical.value)
            && (l.tempHigh.Some? ==> lim.tempHigh == l.tempHigh.value)
            && (l.tempLow.Some? ==> lim.tempLow == l.tempLow.value)
  {
    SetThresholdsTakeEffect(rows, deviceId, l);
    var m0 := ThresholdMap(rows, deviceId);
    var m1 := Put(m0, "HR_HIGH", l.hrHigh);
    var m2 := Put(m1, "HR_LOW", l.hrLow);
    var m3 := Put(m2, "SPO2_LOW", l.spo2Low);
    var m4 := Put(m3, "SPO2_CRITICAL", l.spo2Critical);
    var m5 := Put(m4, "TEMP_HIGH", l.tempHigh);
    PutGet(m0, "HR_HIGH", l.hrHigh);
    PutGet(m1, "HR_LOW", l.hrLow);
    PutGet(m2, "SPO2_LOW", l.spo2Low);
    PutGet(m3, "SPO2_CRITICAL", l.spo2Critical);
    PutGet(m4, "TEMP_HIGH", l.tempHigh);
    PutGet(m5, "TEMP_LOW", l.tempLow);
  }

  /**
   * `set_thresholds`, called with the six optional limits its body reads:
   * false and no change for an unknown device; otherwise the given limits
   * are upserted, enabled, and the result is true.
   */
  method SetThresholds(db: HealthDb, deviceId: string, limits: ThresholdLimits) returns (ok: bool)
    requires db.Valid()
    modifies db
    ensures db.Valid()
    ensures ok <==> FindDevice(old(db.devices), deviceId).Some?
    ensures db.thresholds == if ok then ApplyLimits(old(db.thresholds), deviceId, limits) else old(db.thresholds)
    ensures db.devices == old(db.devices) && db.readings == old(db.readings) && db.alerts == old(db.alerts)
    ensures db.nextReadingId == old(db.nextReadingId) && db.nextAlertId == old(db.nextAlertId)
  {
    if FindDevice(db.devices, deviceId).None? {
      return false;
    }
    UpsertIfGiven(db, deviceId, "HR_HIGH", limits.hrHigh);
    UpsertIfGiven(db, deviceId, "HR_LOW", limits.hrLow);
    UpsertIfGiven(db, deviceId, "SPO2_LOW", limits.spo2Low);
    UpsertIfGiven(db, deviceId, "SPO2_CRITICAL", limits.spo2Critical);
    UpsertIfGiven(db, deviceId, "TEMP_HIGH", limits.tempHigh);
    UpsertIfGiven(db, deviceId, "TEMP_LOW", limits.tempLow);
    return true;
  }

  /** `if thresholds.<field> is not None: _upsert_threshold(<type>, thresholds.<field>)`. */
  method UpsertIfGiven(db: HealthDb, deviceId: string, thresholdType: string, value: Option<real>)
    modifies db
    ensures db.thresholds == UpsertIf(old(db.thresholds), deviceId, thresholdType, value)
    ensures db.devices == old(db.devices) && db.readings == old(db.readings) && db.alerts == old(db.alerts)
    ensures db.nextReadingId == old(db.nextReadingId) && db.nextAlertId == old(db.nextAlertId)
  {
    if value.Some? {
      var row := UpsertThreshold(db, deviceId, thresholdType, value.value, true);
    }
  }

  // ------------------------------------------------------------- alerts

  /** `acknowledge_alert`: mark the alert and stamp the time; false for an unknown id. */
  method AcknowledgeAlert(db: HealthDb, alertId: int, now: int) returns (ok: bool)
    requires db.Valid()
    modifies db
    ensures db.Valid()
    ensures ok <==> exists i :: 0 <= i < |old(db.alerts)| && old(db.alerts)[i].id == alertId
    ensures ok ==>
              var i := FindAlert(old(db.alerts), alertId).value;
              db.alerts == old(db.alerts)[i := old(db.alerts)[i].(acknowledged := true, acknowledgedAt := Some(now))]
    ensures !ok ==> db.alerts == old(db.alerts)
    ensures db.devices == old(db.devices) && db.thresholds == old(db.thresholds) && db.readings == old(db.readings)
    ensures db.nextReadingId == old(db.nextReadingId) && db.nextAlertId == old(db.nextAlertId)
  {
    var found := FindAlert(db.alerts, alertId);
    if found.None? {
      return false;
    }
    var i := found.value;
    db.alerts := db.alerts[i := db.alerts[i].(acknowledged := true, acknowledgedAt := Some(now))];
    return true;
  }

  const DefaultAlertLimit: nat := 50
  const CriticalAlertLimit: nat := 20
  const DefaultHistoryLimit: nat := 100

  function AlertTime(a: HealthAlert): int {
    a.timestamp
  }

  /** The filter of `get_alerts`: the device's alerts, of one severity when a non-empty one is given. */
  predicate AlertMatches(a: HealthAlert, deviceId: string, severity: Option<string>) {
    a.deviceId == deviceId && (Truthy(severity) ==> a.severity == severity.value)
  }

  /** The rows `get_alerts` selects before ordering and limiting, in table order. */
  function MatchingAlerts(alerts: seq<HealthAlert>, deviceId: string, severity: Option<string>): seq<HealthAlert> {
    Filter(alerts, a => AlertMatches(a, deviceId, severity))
  }

  /**
   * `get_alerts`: the matching alerts, newest first, at most `limit`; a
   * matching alert is left out only when the limit is reached, and then it
   * is no newer than any alert returned.
   */
  function GetAlerts(alerts: seq<HealthAlert>, deviceId: string, limit: nat, severity: Option<string>)
    : (r: seq<HealthAlert>)
    ensures forall a :: a in r ==> a in alerts && AlertMatches(a, deviceId, severity)
    ensures SortedDesc(r, AlertTime)
    ensures |r| <= limit
    ensures forall a :: a in alerts && AlertMatches(a, deviceId, severity) && a !in r ==>
              |r| == limit && forall b :: b in r ==> b.timestamp >= a.timestamp
    ensures multiset(r) <= multiset(MatchingAlerts(alerts, deviceId, severity))
  {
    var matching := MatchingAlerts(alerts, deviceId, severity);
    var r := TopN(matching, AlertTime, limit);
    SubMultisetMembers(r, matching);
    r
  }

  /** `get_critical_alerts`: at most 20 CRITICAL alerts of the device, newest first. */
  function GetCriticalAlerts(alerts: seq<HealthAlert>, deviceId: string): (r: seq<HealthAlert>)
    ensures forall a :: a in r ==> a in alerts && a.deviceId == deviceId && a.severity == "CRITICAL"
    ensures |r| <= CriticalAlertLimit
    ensures SortedDesc(r, AlertTime)
    ensures forall a :: a in alerts && a.deviceId == deviceId && a.severity == "CRITICAL" && a !in r ==>
              |r| == CriticalAlertLimit && forall b :: b in r ==> b.timestamp >= a.timestamp
    ensures multiset(r) <= multiset(MatchingAlerts(alerts, deviceId, Some("CRITICAL")))
  {
    GetAlerts(alerts, deviceId, CriticalAlertLimit, Some("CRITICAL"))
  }

  function ReadingTime(v: HealthVitalReading): int {
    v.timestamp
  }

  /** The filter of `get_vitals_history`: the device's readings inside the given bounds, both inclusive. */
  predicate InHistoryWindow(v: HealthVitalReading, deviceId: string, startDate: Option<int>, endDate: Option<int>) {
    && v.deviceId == deviceId
    && (startDate.Some? ==> v.timestamp >= startDate.value)
    && (endDate.Some? ==> v.timestamp <= endDate.value)
  }

  /** The rows `get_vitals_history` selects before ordering and limiting, in table order. */
  function ReadingsInWindow(readings: seq<HealthVitalReading>, deviceId: string, startDate: Option<int>, endDate: Option<int>)
    : seq<HealthVitalReading>
  {
    Filter(readings, v => InHistoryWindow(v, deviceId, startDate, endDate))
  }

  /** `get_vitals_history`: the readings in the window, newest first, at most `limit`. */
  function GetVitalsHistory(readings: seq<HealthVitalReading>, deviceId: string, limit: nat,
                            startDate: Option<int>, endDate: Option<int>): (r: seq<HealthVitalReading>)
    ensures forall v :: v in r ==> v in readings && InHistoryWindow(v, deviceId, startDate, endDate)
    ensures SortedDesc(r, ReadingTime)
    ensures |r| <= limit
    ensures forall v :: v in readings && InHistoryWindow(v, deviceId, startDate, endDate) && v !in r ==>
              |r| == limit && forall w :: w in r ==> w.timestamp >= v.timestamp
    ensures multiset(r) <= multiset(ReadingsInWindow(readings, deviceId, startDate, endDate))
  {
    var matching := ReadingsInWindow(readings, deviceId, startDate, endDate);
    var r := TopN(matching, ReadingTime, limit);
    SubMultisetMembers(r, matching);
    r
  }

  function AlertKey(a: HealthAlert): int {
    a.id
  }

  /** `delete_device_vitals`: drop the device's readings and return how many there were. */
  method DeleteDeviceVitals(db: HealthDb, deviceId: string) returns (count: nat)
    requires db.Valid()
    modifies db
    ensures db.Valid()
    ensures db.readings == Filter(old(db.readings), (v: HealthVitalReading) => v.deviceId != deviceId)
    ensures count == |Filter(old(db.readings), (v: HealthVitalReading) => v.deviceId == deviceId)|
    ensures count + |db.readings| == |old(db.readings)|
    ensures db.devices == old(db.devices) && db.thresholds == old(db.thresholds) && db.alerts == old(db.alerts)
    ensures db.nextReadingId == old(db.nextReadingId) && db.nextAlertId == old(db.nextAlertId)
  {
    count := |Filter(db.readings, (v: HealthVitalReading) => v.deviceId == deviceId)|;
    FilterSplit(db.readings, (v: HealthVitalReading) => v.deviceId == deviceId,
                (v: HealthVitalReading) => v.deviceId != deviceId);
    db.readings := Filter(db.readings, (v: HealthVitalReading) => v.deviceId != deviceId);
    assert forall i :: 0 <= i < |db.readings| ==> db.readings[i] in old(db.readings);
  }

  /** `delete_device_alerts`: drop the device's alerts and return how many there were. */
  method DeleteDeviceAlerts(db: HealthDb, deviceId: string) returns (count: nat)
    requires db.Valid()
    modifies db
    ensures db.Valid()
    ensures db.alerts == Filter(old(db.alerts), (a: HealthAlert) => a.deviceId != deviceId)
    ensures count == |Filter(old(db.alerts), (a: HealthAlert) => a.deviceId == deviceId)|
    ensures count + |db.alerts| == |old(db.alerts)|
    ensures db.devices == old(db.devices) && db.thresholds == old(db.thresholds) && db.readings == old(db.readings)
    ensures db.nextReadingId == old(db.nextReadingId) && db.nextAlertId == old(db.nextAlertId)
  {
    count := |Filter(db.alerts, (a: HealthAlert) => a.deviceId == deviceId)|;
    FilterSplit(db.alerts, (a: HealthAlert) => a.deviceId == deviceId, (a: HealthAlert) => a.deviceId != deviceId);
    assert KeysDistinct(db.alerts, AlertKey);
    FilterKeepsKeysDistinct(db.alerts, (a: HealthAlert) => a.deviceId != deviceId, AlertKey);
    db.alerts := Filter(db.alerts, (a: HealthAlert) => a.deviceId != deviceId);
    assert forall i :: 0 <= i < |db.alerts| ==> db.alerts[i] in old(db.alerts);
  }

  // ----------------------------------------------------------- ingestion

  /** One entry of `critical_alerts` (the message text is not modelled). */
  datatype CriticalAlertSummary = CriticalAlertSummary(id: int, alertType: string, timestamp: int)

  /** The summary `create_vital_reading` returns. */
  datatype ReadingResponse = ReadingResponse(
    status: string, readingId: int, alertsGenerated: nat, criticalAlerts: seq<CriticalAlertSummary>)

  function Summary(a: HealthAlert): CriticalAlertSummary {
    CriticalAlertSummary(a.id, a.alertType, a.timestamp)
  }

  /** The CRITICAL alerts among `alerts`, in order. */
  function CriticalOf(alerts: seq<HealthAlert>): seq<HealthAlert> {
    Filter(alerts, (a: HealthAlert) => a.severity == "CRITICAL")
  }

  /** The `critical_alerts` comprehension: one summary per CRITICAL alert, in order. */
  function CriticalSummaries(alerts: seq<HealthAlert>): (r: seq<CriticalAlertSummary>)
    ensures |r| == |CriticalOf(alerts)|
    ensures forall i :: 0 <= i < |r| ==> r[i] == Summary(CriticalOf(alerts)[i])
    ensures forall a :: a in alerts && a.severity == "CRITICAL" ==> Summary(a) in r
    ensures forall x :: x in r ==> exists a :: a in alerts && a.severity == "CRITICAL" && x == Summary(a)
  {
    if alerts == [] then []
    else
      var rest := CriticalSummaries(alerts[1..]);
      var head := if alerts[0].severity == "CRITICAL" then [Summary(alerts[0])] else [];
      var crit := if alerts[0].severity == "CRITICAL" then [alerts[0]] else [];
      assert CriticalOf(alerts) == crit + CriticalOf(alerts[1..]);
      assert forall i :: 0 <= i < |head + rest| ==> (head + rest)[i] == Summary((crit + CriticalOf(alerts[1..]))[i]);
      assert forall a :: a in alerts[1..] ==> a in alerts;
      head + rest
  }

  /** The reading row stored for a request; the device's Unix seconds become microseconds. */
  function ReadingRow(id: int, v: VitalReadingCreate): HealthVitalReading {
    HealthVitalReading(
      id, v.deviceId, v.timestamp * 1_000_000,
      v.vitals.heartRate.bpm, v.vitals.heartRate.signalQuality, v.vitals.heartRate.isValid,
      v.vitals.spo2.percent, v.vitals.spo2.signalQuality, v.vitals.spo2.isValid,
      v.vitals.temperature.celsius, v.vitals.temperature.source, v.vitals.temperature.isEstimated,
      v.system.batteryPercent, v.system.batteryVoltage, v.system.wifiRssi, v.system.uptimeSeconds)
  }

  /** The limits the engine uses for a reading: a device registered on the spot has the seeded defaults. */
  function LimitsForReading(devices: seq<HealthDevice>, thresholds: seq<HealthThreshold>, deviceId: string): Limits {
    if FindDevice(devices, deviceId).Some? then LimitsOf(ThresholdMap(thresholds, deviceId)) else DefaultLimits
  }

  /** The athlete flag the engine uses: a device registered on the spot is not an athlete. */
  function AthleteForReading(devices: seq<HealthDevice>, deviceId: string): Option<bool> {
    match FindDevice(devices, deviceId)
    case Some(i) => devices[i].isAthlete
    case None => DeviceCreateDefaults(deviceId).isAthlete
  }

  /** The devices table after a reading arrives: a known device is stamped, an unknown one registered with the defaults. */
  function DevicesAfterReading(devices: seq<HealthDevice>, deviceId: string, now: int): seq<HealthDevice> {
    match FindDevice(devices, deviceId)
    case Some(i) => devices[i := devices[i].(lastSeen := Some(now))]
    case None => devices + [NewDevice(DeviceCreateDefaults(deviceId), now)]
  }

  /** The thresholds table after a reading arrives: an unknown device gets its six defaults. */
  function ThresholdsAfterReading(devices: seq<HealthDevice>, thresholds: seq<HealthThreshold>, deviceId: string)
    : seq<HealthThreshold>
  {
    if FindDevice(devices, deviceId).Some? then thresholds else thresholds + DefaultThresholds(deviceId)
  }

  /**
   * The first steps of `create_vital_reading`: an unknown device is
   * registered with the defaults, then the device is stamped as seen. The
   * engine then sees the limits and athlete flag the reading is judged by.
   */
  method RegisterAndStamp(db: HealthDb, deviceId: string, now: int)
    requires db.Valid()
    modifies db
    ensures db.Valid()
    ensures FindDevice(db.devices, deviceId).Some?
    ensures db.devices == DevicesAfterReading(old(db.devices), deviceId, now)
    ensures db.thresholds == ThresholdsAfterReading(old(db.devices), old(db.thresholds), deviceId)
    ensures LimitsOf(ThresholdMap(db.thresholds, deviceId)) == LimitsForReading(old(db.devices), old(db.thresholds), deviceId)
    ensures db.devices[FindDevice(db.devices, deviceId).value].isAthlete == AthleteForReading(old(db.devices), deviceId)
    ensures db.readings == old(db.readings) && db.alerts == old(db.alerts)
    ensures db.nextReadingId == old(db.nextReadingId) && db.nextAlertId == old(db.nextAlertId)
  {
    ghost var devices0 := db.devices;
    ghost var thresholds0 := db.thresholds;
    var known := FindDevice(db.devices, deviceId);
    if known.None? {
      var device := CreateDevice(db, DeviceCreateDefaults(deviceId), now);
      RegistrationYieldsDefaultLimits(thresholds0, deviceId);
      FindUniqueDevice(db.devices, deviceId, |devices0|);
    }
    ghost var i := FindDevice(db.devices, deviceId).value;
    UpdateLastSeen(db, deviceId, now);
    FindUniqueDevice(db.devices, deviceId, i);
  }

  /**
   * `create_vital_reading`: register an unknown device with the defaults,
   * stamp it, store the reading, run `analyze_vitals`, and report how many
   * alerts were generated and which of them are CRITICAL.
   */
  method CreateVitalReading(db: HealthDb, v: VitalReadingCreate, now: int) returns (resp: ReadingResponse)
    requires db.Valid()
    modifies db
    ensures db.Valid()
    ensures FindDevice(db.devices, v.deviceId).Some?
    ensures db.devices == DevicesAfterReading(old(db.devices), v.deviceId, now)
    ensures db.thresholds == ThresholdsAfterReading(old(db.devices), old(db.thresholds), v.deviceId)
    ensures db.readings == old(db.readings) + [ReadingRow(old(db.nextReadingId), v)]
    ensures db.nextReadingId == old(db.nextReadingId) + 1
    ensures |old(db.alerts)| <= |db.alerts| && db.alerts[..|old(db.alerts)|] == old(db.alerts)
    ensures var created := db.alerts[|old(db.alerts)|..];
            && StoredFindings(created, v, now,
                 Evaluate(v.vitals, LimitsForReading(old(db.devices), old(db.thresholds), v.deviceId),
                          AthleteForReading(old(db.devices), v.deviceId)))
            && resp == ReadingResponse("success", old(db.nextReadingId), |created|, CriticalSummaries(created))
            && db.nextAlertId == old(db.nextAlertId) + |created|
  {
    RegisterAndStamp(db, v.deviceId, now);
    var reading := ReadingRow(db.nextReadingId, v);
    db.readings := db.readings + [reading];
    db.nextReadingId := db.nextReadingId + 1;
    ghost var alerts0 := db.alerts;
    var created := AnalyzeVitals(db, v, now);
    assert db.alerts[..|alerts0|] == alerts0 && db.alerts[|alerts0|..] == created;
    resp := ReadingResponse("success", reading.id, |created|, CriticalSummaries(created));
  }
}
