# Smart building backend: a verified model of its decision logic

The backend serves four device families: a burglary alarm that pairs camera
images with alerts, a wearable health monitor, an energy monitor, and smart
waste bins that classify what is dropped into them. This project models, in
Dafny, the parts of that backend that decide something:

- **Burglary alarm.** The correlation of a new camera image with the
  uncorrelated alert closest to it in time. The Cloudinary public-id handling
  and the retention sweep of old images. The masked view of the Telegram
  configuration.
- **Health monitor.** The request schemas with their ranges and defaults, and
  the device, threshold and alert services. The rule engine that turns one
  vital-signs reading into stored alerts, and the rising-trend test.
- **Energy monitor.** The energy audit: a daily-usage rule, voltage rules and
  appliance rules over the latest reading, then a save loop that skips any
  alert already logged in the last ten minutes.
- **Waste bins.** The bin update with its weight/level estimates, the
  maintenance reset, and the statistics. The classifier's fallback order
  (Gemini, trained model, colour rules) and its rule-based scoring.

Each table of the database is a sequence field of a class standing for the
session: `HealthModels.HealthDb`, `EnergyAudit.EnergyDb`, `WasteBins.BinDb`,
`BurglaryCorrelation.AlertTable` and `CloudStorage.ImageTable`. The
operations that change rows are methods with `modifies` clauses. Each such
method is specified by functions over the old tables, and lemmas state what
those functions guarantee. Times are integers (microseconds since the epoch),
and the clock is a parameter. External services are parameters. These are the
Gemini reply and its JSON decoding, the trained model's prediction, the
Cloudinary destroy call, and the image feature vector.

Where the code does something its comments do not intend, the model follows
the code and the README says so:

- `update_bins` tests "became full" after it has already assigned `full`, so
  it never logs a "full" event. `WasteBins.StoreOne` keeps that test and
  proves the events unchanged.
- `update_threshold` on a device that is not registered yet leaves a row that
  the later registration duplicates (`HealthServices.StrayRowIsDuplicated`).
- Two `ThresholdConfig` classes share one name in the schemas. The one bound
  at import time is the list form. `set_thresholds` reads the six optional
  fields of the first, so it is modelled over those six fields
  (`HealthSchemas.ThresholdLimits`).
- The correlation query has no device filter, so alerts from every device are
  candidates for an image; the model keeps that.
- The rule-based classifier reads the colour ratios at feature positions 18
  to 21, while the feature extractor stores them at 16 to 19. The model reads
  positions 18 to 21 of a 23-element vector, as the classifier does.
- The energy audit reads `sensor_N_voltage`, which the reading route never
  fills in. A missing voltage, watt, amp or lux value that the code compares
  makes Python raise `TypeError`. The model has that outcome
  (`EnergyAudit.AuditOutcome.TypeError`), and no log row is written then.

## Model

| member | source | states |
|---|---|---|
| BurglaryCorrelation.Image.constructor | burglary_alert/models/image.py:17-27 | A new image row has its id and timestamp and no alert link. |
| BurglaryCorrelation.Uncorrelated | burglary_alert/services/correlation.py:31-41 | Exactly the uncorrelated alerts whose timestamp lies in [image − 10 s, image + 5 s] are kept. |
| BurglaryCorrelation.Candidates | burglary_alert/services/correlation.py:34-44 | The query result holds exactly the filtered alerts, ordered newest first. |
| BurglaryCorrelation.FindBestMatch | burglary_alert/services/correlation.py:50-57 | No match exactly when every candidate is 5 s or more away. Otherwise the match is strictly within 5 s, no candidate is closer, and every earlier candidate in scan order is strictly farther. |
| BurglaryCorrelation.NewestAmongEquallyClose | burglary_alert/services/correlation.py:42-57 | Because the scan runs newest first and needs a strict improvement, no equally close candidate is newer than the chosen one. |
| BurglaryCorrelation.LinkRow | burglary_alert/services/correlation.py:61-62 | The table keeps its length and every row's id. Rows of other ids are untouched; a row with the matched id keeps its timestamp and becomes correlated to the image. |
| BurglaryCorrelation.LinkRowWriteOnce | burglary_alert/services/correlation.py:38-62 | With unique ids, linking never touches an alert that was already correlated. |
| BurglaryCorrelation.AlertTable.constructor | burglary_alert/models/alert.py:19-33 | The alert table starts empty with unique ids. |
| BurglaryCorrelation.AlertTable.CorrelateImageWithAlert | burglary_alert/services/correlation.py:14-72 | Returns nothing and changes nothing exactly when no candidate is within 5 s. Otherwise it returns the linked row of the closest candidate (the newest among equally close ones), as it reads after linking. The image points to that alert, the table is `LinkRow` of the old one, and correlated rows are left alone. |
| BurglaryCorrelation.AlertTable.LinkBestMatch | burglary_alert/services/correlation.py:59-70 | Linking the chosen alert: the table becomes `LinkRow` of the old one with ids still unique, the image points to the alert, correlated rows are untouched, and the row returned is the alert as linked. |
| CloudStorage.RemoveExtension | burglary_alert/utils/storage.py:98 | The result is a prefix of the text that stops at its last '.'. A text without '.' is kept whole. |
| CloudStorage.RemoveJpg | burglary_alert/utils/storage.py:98 | Removing the extension from `x + ".jpg"` gives `x` back, whatever dots `x` holds. |
| CloudStorage.PublicIdFromUrl | burglary_alert/utils/storage.py:94-98 | There is no id exactly when no "/"-segment is "upload". |
| CloudStorage.PublicIdRoundTrip | burglary_alert/utils/storage.py:94-98 | A URL of upload-free segments, then "upload", then `id + ".jpg"` yields `id`, even when `id` contains '/' and '.'. |
| CloudStorage.SplitPrefix | burglary_alert/utils/storage.py:94 | Splitting a joined prefix plus a tail gives the prefix's pieces followed by the tail's. |
| CloudStorage.DeleteImage | burglary_alert/utils/storage.py:81-114 | True exactly when the URL has an id and the destroy reply's "result" is "ok". A raised error or any other reply is false. |
| CloudStorage.SavePublicId | burglary_alert/utils/storage.py:46-47 | The id starts with `folder/timestamp_`. A file name without ".jpg" is appended unchanged. |
| CloudStorage.SaveCaptureName | burglary_alert/routers/images.py:52-57 | The router's `capture_<seconds>.jpg` name loses exactly its extension. |
| CloudStorage.Kept | burglary_alert/utils/storage.py:139-147 | A row stays exactly when it is not both older than the cutoff and deleted from Cloudinary. |
| CloudStorage.Swept | burglary_alert/utils/storage.py:133-147 | Defines when the sweep removes a row: older than the cutoff and deleted from Cloudinary. `Kept` keeps exactly the rows for which it fails. |
| CloudStorage.OldImages | burglary_alert/utils/storage.py:133 | Exactly the rows strictly older than the cutoff. |
| CloudStorage.Deletions | burglary_alert/utils/storage.py:139-147 | Defines the reference count: how many of the old images Cloudinary deletes. `DeletionsCountRemoved` and `SweepOutcome` tie it to the rows removed. |
| CloudStorage.DeletionsCountRemoved | burglary_alert/utils/storage.py:139-156 | Kept rows plus the deletion count equals the row count, so the count returned is the number of rows removed. |
| CloudStorage.Remove | burglary_alert/utils/storage.py:146 | Every occurrence of the deleted row, and nothing else, is removed. |
| CloudStorage.KeptAfter | burglary_alert/utils/storage.py:139-147 | Defines the loop's progress: the rows left once a prefix of the old images has been handled, each handled image gone exactly when its delete succeeded. `KeptAfterNone`, `KeptAfterStep` and `KeptAfterAll` relate it to `Kept`. |
| CloudStorage.KeptAfterNone | burglary_alert/utils/storage.py:139 | Before the loop, no row is removed. |
| CloudStorage.KeptAfterStep | burglary_alert/utils/storage.py:141-147 | One more iteration removes its image exactly when Cloudinary deletes it. |
| CloudStorage.KeptAfterAll | burglary_alert/utils/storage.py:133-147 | Having handled every old image, the rows left are those of `Kept`. |
| CloudStorage.ImageTable.constructor | burglary_alert/models/image.py:17-24 | The image table starts empty. |
| CloudStorage.ImageTable.CleanupOldImages | burglary_alert/utils/storage.py:116-156 | For any integer retention (a negative one puts the cutoff in the future), the table becomes `Kept` of the cutoff `now − retention hours`, and the count returned is the number of rows removed. |
| CloudStorage.SweepOutcome | burglary_alert/utils/storage.py:133-156 | The loop goes from the whole table to `Kept`, and the deletion count is the number of rows removed. With no old image, nothing changes and 0 is returned. |
| CloudStorage.SweepStep | burglary_alert/utils/storage.py:141-147 | The loop invariant advances by one image: the row is removed and the count rises by one exactly when the delete succeeds. |
| CloudStorage.KeptSubsequence | burglary_alert/utils/storage.py:135-137 | When the sweep keeps as many rows as there are, it keeps them all. |
| CloudStorage.DeletionsAppend | burglary_alert/utils/storage.py:144-147 | `deleted_count += 1` happens exactly for a successful delete. |
| TelegramSettings.Stars | burglary_alert/models/telegram_config.py:22 | `"*" * n` is n star characters. |
| TelegramSettings.MaskToken | burglary_alert/models/telegram_config.py:22 | A token longer than 6 keeps its length and last 6 characters, and the rest are stars. A shorter one becomes "******". |
| TelegramSettings.MaskHidesPrefix | burglary_alert/models/telegram_config.py:22 | Two tokens of equal length and equal last 6 characters mask alike, so the mask reveals nothing else. |
| TelegramSettings.ToDict | burglary_alert/models/telegram_config.py:17-29 | id, chat id and active are copied. The token is masked only when masking is on and the token is non-empty; otherwise it is returned as stored. |
| Text.Lower | energy_api/audit.py:104 | Lower-casing keeps the length and lower-cases character by character. |
| Text.Contains | energy_api/audit.py:108-184 | Defines Python's `needle in text` as the needle being a prefix of some suffix. The appliance matchers use it. |
| Text.Split | burglary_alert/utils/storage.py:94 | Never empty, no piece holds the separator, and joining the pieces gives the text back. |
| Text.Join | burglary_alert/utils/storage.py:97 | Defines Python's `sep.join(parts)`. `Split` and `SplitJoin` prove it inverts the split. |
| Text.SplitJoin | burglary_alert/utils/storage.py:94-97 | Splitting a join of separator-free pieces gives those pieces. |
| Text.IndexOf | burglary_alert/utils/storage.py:96 | `list.index` gives the first position holding the element. |
| Text.RemoveAll | burglary_alert/utils/storage.py:47 | `replace(p, "")` never lengthens the text. |
| Text.RemoveAllAbsent | burglary_alert/utils/storage.py:47 | A text without the pattern is unchanged. |
| Text.RemoveAllSuffix | burglary_alert/utils/storage.py:47 | When the pattern occurs only as the final suffix, removing it leaves the stem. |
| Ordering.SortDesc | health_monitoring/services.py:182-196 | `ORDER BY … DESC` gives a permutation sorted by descending key. |
| Ordering.Take | health_monitoring/services.py:182-196 | `LIMIT n` gives a prefix of length min(n, size). |
| Ordering.SortedDesc | health_monitoring/services.py:182-196 | Defines descending order by the key, the promise of `ORDER BY … DESC`. |
| Ordering.Insert | health_monitoring/services.py:182-196 | Inserting into a sorted list keeps it sorted, adds exactly the element to the multiset, and grows the length by one. |
| Ordering.SubMultisetMembers | health_monitoring/services.py:182-196 | A sub-multiset of the rows holds only rows of the table, so a limited query returns stored rows. |
| Ordering.FirstIndex | health_monitoring/services.py:74-81 | `.first()` in table order: none exactly when no row satisfies the filter, otherwise the first position of a row that does. Every by-key lookup of the model is an instance. |
| Ordering.Filter | health_monitoring/services.py:173-194 | `WHERE` keeps exactly the rows satisfying the predicate, and never more rows than the table has. |
| Ordering.FilterSplit | health_monitoring/services.py:321-330 | A filter and its complement together account for every row once. |
| Ordering.TopN | health_monitoring/services.py:182-196 | The result is sorted, of length min(n, size), and a sub-multiset of the rows. A row is left out only when n are returned, and then it ranks at or below each returned row. |
| Ordering.TakeOfSortedDominates | health_monitoring/services.py:182-196 | A prefix of a sorted permutation is a sub-multiset of the rows, and it outranks everything it leaves out. |
| HealthSchemas.ValidateHeartRate | health_monitoring/schemas.py:40-43 | Accepted exactly when the signal quality lies in [0, 100], with the fields copied. |
| HealthSchemas.ValidateSpO2 | health_monitoring/schemas.py:46-49 | Accepted exactly when both the saturation and the signal quality lie in [0, 100]. |
| HealthSchemas.ValidateSystem | health_monitoring/schemas.py:58-63 | Accepted exactly when a given battery percentage is in [0, 100]. Omitted fields become 100, 3.7 and "idle"; an explicit null state stays null. |
| HealthSchemas.DeviceCreateDefaults | health_monitoring/schemas.py:13-20 | A device created from an id alone has resting HR 70, is not an athlete, and has no optional text. |
| HealthSchemas.ValidateCalibration | health_monitoring/schemas.py:158-159 | Accepted exactly when the resting HR lies in [40, 100]. |
| HealthModels.FindDevice | health_monitoring/services.py:74-81 | `.first()` by device id: none exactly when no row has the id, otherwise the first such row. |
| HealthModels.FindThreshold | health_monitoring/services.py:245-253 | None exactly when no row has the device and type; otherwise the first row that has both, so `.first()` on duplicate rows picks the earliest. |
| HealthModels.FindAlert | health_monitoring/services.py:206-208 | None exactly when no alert has the id; otherwise the first alert with that id. |
| HealthModels.FindUniqueDevice | health_monitoring/models.py:30 | With the unique device-id column, the row holding the id is the one found. |
| HealthModels.HealthDb.constructor | health_monitoring/models.py:24-110 | An empty database satisfies the key invariants. |
| HealthEngine.ThresholdMapKeys | health_monitoring/correlation_engine.py:33-43 | A type is a key of `threshold_dict` exactly when an enabled row of the device has that type. |
| HealthEngine.ThresholdMap | health_monitoring/correlation_engine.py:33-43 | Defines `threshold_dict` over the device's enabled rows, built in table order so a later row of a type overwrites an earlier one. `ThresholdMapKeys` and `ThresholdMapLastWins` state its keys and values. |
| HealthEngine.ThresholdMapLastWins | health_monitoring/correlation_engine.py:43 | When several enabled rows share a type, the last one's value is kept. |
| HealthEngine.LimitsOf | health_monitoring/correlation_engine.py:52-159 | Each missing key falls back to its default: 90, 95, 38.0, 100, 50 and 35.5. |
| HealthEngine.RuleAt | health_monitoring/correlation_engine.py:51-180 | Rule positions 0 to 10 and the eleven rules correspond one to one. |
| HealthEngine.FiredAmong | health_monitoring/correlation_engine.py:51-180 | A rule is among the first k results exactly when its position is below k and its guard holds. |
| HealthEngine.Evaluate | health_monitoring/correlation_engine.py:46-180 | Each alert type fires exactly when its guard holds, against the thresholds and defaults. CRITICAL_HYPOXIA and LOW_SPO2 exclude each other, as do FEVER and HIGH_TEMP. Invalid SpO2 (read as 0) raises no SpO2 alert. |
| HealthEngine.Fires | health_monitoring/correlation_engine.py:51-180 | Defines the guard of each of the eleven rules on the heart rate, the effective SpO2 and the temperature, against the limits: LOW_SPO2 as the `elif` of CRITICAL_HYPOXIA, HIGH_TEMP as the `else` of FEVER, and BRADYCARDIA only for a non-athlete. `Evaluate` fires exactly the rules whose guard holds. |
| HealthEngine.EffectiveSpo2 | health_monitoring/correlation_engine.py:47 | Defines the saturation the rules see: the reading when valid, 0 otherwise. `Evaluate` proves that 0 raises no SpO2 alert. |
| HealthEngine.NotAthlete | health_monitoring/correlation_engine.py:135 | Defines `not device.is_athlete`, where a null flag counts as not an athlete. |
| HealthEngine.FiredAmongDistinct | health_monitoring/correlation_engine.py:51-180 | No rule fires twice among the first k. |
| HealthEngine.EvaluateDistinct | health_monitoring/correlation_engine.py:46-182 | A reading never raises the same alert type twice. |
| HealthEngine.Snapshot | health_monitoring/correlation_engine.py:200-209 | The snapshot copies the reading, with invalid SpO2 as 0. |
| HealthEngine.IsNewAlert | health_monitoring/correlation_engine.py:185-213 | Defines a row as `create_alert` stores it: of the device, stamped with the clock, with the reading's snapshot, unacknowledged. `CreateAlert` ensures its result satisfies it. |
| HealthEngine.CreateAlert | health_monitoring/correlation_engine.py:185-213 | One alert is appended with the next id, the clock, the type, the severity and the snapshot, unacknowledged. Nothing else changes. |
| HealthEngine.StoredFindingsAppend | health_monitoring/correlation_engine.py:53-61 | Appending the alert for one more finding keeps the stored alerts in step with the findings. |
| HealthEngine.StoredFindings | health_monitoring/correlation_engine.py:51-213 | Defines what `analyze_vitals` stores: as many alerts as findings, the i-th of the i-th finding's type and severity, of the device, at the clock, unacknowledged, with the reading's snapshot. |
| HealthEngine.AnalyzeVitals | health_monitoring/correlation_engine.py:15-182 | An unknown device gives no alerts. Otherwise one alert is stored and returned per finding of `Evaluate`, in order, against the device's enabled thresholds and athlete flag. The alert counter advances by the number created, and only the alert table changes. |
| HealthEngine.Spo2Rules | health_monitoring/correlation_engine.py:51-73 | After the SpO2 rules, the alerts created are those of the first two rule positions. |
| HealthEngine.PatternRules | health_monitoring/correlation_engine.py:75-97 | After the distress and infection rules, the alerts created are those of the first four rule positions. |
| HealthEngine.FeverRules | health_monitoring/correlation_engine.py:99-120 | After the fever rules, the alerts created are those of the first six rule positions. |
| HealthEngine.HeartRateRules | health_monitoring/correlation_engine.py:122-144 | After the heart-rate rules, the alerts created are those of the first eight rule positions. |
| HealthEngine.LowTempRules | health_monitoring/correlation_engine.py:146-168 | After the estimate and hypothermia rules, the alerts created are those of the first ten rule positions. |
| HealthEngine.InfectionRule | health_monitoring/correlation_engine.py:170-180 | After the severe-infection rule, all eleven rule positions have been handled. |
| HealthEngine.FireIf | health_monitoring/correlation_engine.py:53-61 | One `if guard: alerts.append(create_alert(...))` moves the rule progress one position on. |
| HealthEngine.SliceFrom | health_monitoring/correlation_engine.py:352 | Python's `values[k:]` never lengthens the list. |
| HealthEngine.SliceTo | health_monitoring/correlation_engine.py:351 | Python's `values[:k]` never lengthens the list. |
| HealthEngine.IsIncreasingTrend | health_monitoring/correlation_engine.py:347-353 | False for fewer than three values. Otherwise true exactly when the mean of the last ⌈n/3⌉ values exceeds 1.05 times the mean of the first ⌊n/3⌋. |
| HealthEngine.ThirdsOfTrend | health_monitoring/correlation_engine.py:351-352 | `-n // 3` is −⌈n/3⌉, so both thirds are non-empty for three or more values. |
| HealthEngine.ConstantSeriesNotIncreasing | health_monitoring/correlation_engine.py:347-353 | A constant positive series is never reported as rising. |
| HealthEngine.ConstantMean | health_monitoring/correlation_engine.py:351-352 | The mean of a constant list is that constant. |
| HealthEngine.ConstantSum | health_monitoring/correlation_engine.py:351-352 | The sum of a constant list is its length times the constant. |
| HealthEngine.Mean | health_monitoring/correlation_engine.py:351-352 | Defines `statistics.mean` of a non-empty list as its sum over its length. `ConstantMean` states its value on a constant list. |
| HealthEngine.Sum | health_monitoring/correlation_engine.py:351-352 | Defines the sum of a list. `ConstantSum` states its value on a constant list. |
| HealthServices.OrString | health_monitoring/services.py:24-27 | `given or current` picks the given string exactly when it is non-empty. |
| HealthServices.Truthy | health_monitoring/services.py:24-27 | Defines Python truthiness of an optional string: present and non-empty. `OrString` and `AlertMatches` use it. |
| HealthServices.OrDate | health_monitoring/services.py:26 | A given date always wins. |
| HealthServices.Reregistered | health_monitoring/services.py:22-30 | Re-registering keeps each optional field whose new value is falsy. It always overwrites resting HR and the athlete flag, and stamps last seen. |
| HealthServices.NewDevice | health_monitoring/services.py:32-44 | Defines the row `create_device` adds for an unknown id: the request's fields, stamped with the clock. |
| HealthServices.DefaultThresholds | health_monitoring/services.py:46-62 | Six enabled rows of the device are seeded. |
| HealthServices.CreateDevice | health_monitoring/services.py:13-66 | A known id has its row updated in place, with no threshold added. An unknown id is appended with its six default thresholds. |
| HealthServices.MapAfterAppend | health_monitoring/correlation_engine.py:43 | An appended row's value wins for its type when the row is read. |
| HealthServices.RegistrationYieldsDefaultLimits | health_monitoring/services.py:46-62 | Whatever rows existed before, a newly registered device is judged by exactly the default limits. |
| HealthServices.UpdateLastSeen | health_monitoring/services.py:144-149 | Only the device's last-seen stamp changes, and an unknown id changes nothing. |
| HealthServices.CalibrateDevice | health_monitoring/services.py:217-224 | True exactly for a known device, whose resting HR alone is set. |
| HealthServices.SeedingKeepsKeysUnique | health_monitoring/services.py:46-62 | Seeding a device that has no rows keeps (device, type) unique. |
| HealthServices.StrayRowIsDuplicated | health_monitoring/services.py:284-306 | A row left by `update_threshold` before registration is duplicated by the seeding. |
| HealthServices.UpsertKeepsKeysUnique | health_monitoring/services.py:244-264 | An upsert keeps (device, type) unique. |
| HealthServices.Upserted | health_monitoring/services.py:244-264 | Defines the table after one upsert: the first row of the device and type takes the value and flag, or a row is appended. `UpsertKeepsKeysUnique`, `UpsertLookup` and `UpsertLeavesOtherDevices` state its effect. |
| HealthServices.Replaced | health_monitoring/services.py:254-256 | Defines the map after a row takes over its type: set when enabled, removed when disabled. `MapAfterReplace` proves the table change has this effect. |
| HealthServices.AbsentType | health_monitoring/correlation_engine.py:43 | A type no row of the device has is not a key. |
| HealthServices.MapAfterReplace | health_monitoring/services.py:254-256 | Overwriting the single row of a type sets its limit when enabled and removes it when disabled. |
| HealthServices.ReplaceLastRow | health_monitoring/services.py:254-256 | The base case of the replacement: the replaced row is the last one read. |
| HealthServices.ReplaceFreshKey | health_monitoring/services.py:254-256 | For a type not yet in the map, absorbing the new row equals replacing the absorbed old one. |
| HealthServices.ReplaceCommutes | health_monitoring/correlation_engine.py:43 | A later row of another type is absorbed alike before or after the replacement. |
| HealthServices.UpsertLookup | health_monitoring/services.py:244-264 | With unique keys, an enabled upsert sets the type's limit, a disabled one removes it, and other types are untouched. |
| HealthServices.MapDependsOnOwnRows | health_monitoring/correlation_engine.py:33-43 | Tables that agree on a device's rows give that device the same limits. |
| HealthServices.UpsertLeavesOtherDevices | health_monitoring/services.py:244-264 | An upsert for one device leaves every other device's limits as they were. |
| HealthServices.UpsertThreshold | health_monitoring/services.py:244-264 | The table becomes `Upserted`: the first row of the type is overwritten, or a row is appended. |
| HealthServices.UpdateThreshold | health_monitoring/services.py:284-310 | Upserts the row whether or not the device is registered, and returns it. |
| HealthServices.UpsertIfLookup | health_monitoring/services.py:267-278 | A given limit is set, keys stay unique, and a limit not given leaves the map unchanged. |
| HealthServices.UpsertIf | health_monitoring/services.py:267-278 | Defines one `if <field> is not None: _upsert_threshold(…)`. `UpsertIfLookup` states its effect on the map. |
| HealthServices.ApplyLimits | health_monitoring/services.py:267-278 | Defines the six conditional upserts of `set_thresholds`, in the source's order. `SetThresholdsTakeEffect` and `SetThresholdsReadBack` state their effect. |
| HealthServices.SetThresholdsTakeEffect | health_monitoring/services.py:237-281 | With unique keys, exactly the given limits are set, each enabled, and keys stay unique. |
| HealthServices.PutGet | health_monitoring/correlation_engine.py:52 | A lookup after `Put` sees the value put, and every other key as before. |
| HealthServices.Put | health_monitoring/correlation_engine.py:43 | Defines a map with a key set when a value is given. `PutGet` states its lookups. |
| HealthServices.SetThresholdsReadBack | health_monitoring/services.py:237-281 | After `set_thresholds`, the engine reads back every limit given and the old value of every other limit. |
| HealthServices.SetThresholds | health_monitoring/services.py:237-281 | False with no change for an unknown device. Otherwise the six conditional upserts are applied and the result is true. |
| HealthServices.UpsertIfGiven | health_monitoring/services.py:267-278 | A limit given as null leaves the table alone; otherwise it is upserted. |
| HealthServices.AcknowledgeAlert | health_monitoring/services.py:204-214 | True exactly when an alert has the id. That alert is marked and stamped, and nothing else changes. |
| HealthServices.GetAlerts | health_monitoring/services.py:185-196 | The result is a sub-multiset of `MatchingAlerts` (so no row appears more often than it is stored), newest first, at most `limit` long. An alert is left out only when the limit is reached, and then it is no newer than any alert returned. |
| HealthServices.MatchingAlerts | health_monitoring/services.py:189-194 | Defines the rows `get_alerts` selects: the device's alerts, of the severity when a non-empty one is given, in table order. |
| HealthServices.AlertMatches | health_monitoring/services.py:189-194 | Defines the filter of `get_alerts`: the device, and the severity only when a non-empty one is given. |
| HealthServices.GetCriticalAlerts | health_monitoring/services.py:199-201 | A sub-multiset of the device's CRITICAL alerts, newest first, at most 20. A CRITICAL alert of the device is left out only when 20 are returned, and then each returned one is at least as new. |
| HealthServices.GetVitalsHistory | health_monitoring/services.py:165-182 | A sub-multiset of `ReadingsInWindow` (the device's readings within both inclusive bounds), newest first, at most `limit`. A reading is left out only when the limit is reached, and then it is no newer than any returned. |
| HealthServices.ReadingsInWindow | health_monitoring/services.py:173-180 | Defines the rows `get_vitals_history` selects: the device's readings within the given inclusive bounds, in table order. |
| HealthServices.InHistoryWindow | health_monitoring/services.py:173-180 | Defines the filter of `get_vitals_history`: the device, and each bound given, both inclusive. |
| HealthServices.DeleteDeviceVitals | health_monitoring/services.py:321-330 | The device's readings are dropped, and the count returned is how many there were. |
| HealthServices.DeleteDeviceAlerts | health_monitoring/services.py:333-342 | The device's alerts are dropped, and the count returned is how many there were. |
| HealthServices.CriticalSummaries | health_monitoring/services.py:124-133 | One summary per CRITICAL alert, in the alerts' order: the i-th summary is that of the i-th alert of `CriticalOf`. |
| HealthServices.CriticalOf | health_monitoring/services.py:124-133 | Defines the generated alerts whose severity is CRITICAL, in order. |
| HealthServices.Summary | health_monitoring/services.py:125-130 | Defines the summary of a CRITICAL alert: its id, type and timestamp. |
| HealthServices.ReadingRow | health_monitoring/services.py:96-112 | Defines the stored reading: the request's vitals and system fields under the given id, with the Unix seconds as microseconds. |
| HealthServices.LimitsForReading | health_monitoring/services.py:88-91 | Defines the limits the engine reads for a reading: the device's own for a known device, the defaults for one registered on the spot. `RegistrationYieldsDefaultLimits` justifies the second case. |
| HealthServices.AthleteForReading | health_monitoring/services.py:88-91 | Defines the athlete flag the engine reads: the device's own, or not an athlete for a device registered on the spot. |
| HealthServices.DevicesAfterReading | health_monitoring/services.py:88-93 | Defines the devices table after a reading arrives: the known row with last seen set to the clock, or a new default row. |
| HealthServices.ThresholdsAfterReading | health_monitoring/services.py:88-91 | Defines the thresholds table after a reading arrives: unchanged for a known device, the six defaults appended otherwise. |
| HealthServices.RegisterAndStamp | health_monitoring/services.py:88-93 | The devices table becomes `DevicesAfterReading` (a known row stamped, or a new default row) and the thresholds `ThresholdsAfterReading` (unchanged, or the six defaults appended). The engine then sees the limits and athlete flag a registration on the spot yields, while a known device keeps its own. Readings, alerts and both counters are unchanged. |
| HealthServices.CreateVitalReading | health_monitoring/services.py:84-141 | Devices and thresholds change as in `RegisterAndStamp`. The reading is appended under the next id, and the new alerts are exactly the findings of `Evaluate`, with the alert counter advanced by their number. The response counts them and lists the CRITICAL ones. |
| EnergyAudit.TodayStart | energy_api/audit.py:49 | Midnight (UTC) of the current day: a multiple of a day, at most `now` and less than a day before it. |
| EnergyAudit.HourOf | energy_api/audit.py:119-121 | The UTC hour lies in [0, 24) and brackets `now`. |
| EnergyAudit.IsCurfew | energy_api/audit.py:126 | Defines the curfew: the UTC hour is 23 or below 5. `LightingRules` states the curfew alert fires exactly then. |
| EnergyAudit.Truthy | energy_api/audit.py:139-186 | Defines Python truthiness of a nullable float column: present and non-zero. |
| EnergyAudit.FindDevice | energy_api/audit.py:18-20 | None exactly when no device has the id; otherwise the first device with it. |
| EnergyAudit.Latest | energy_api/audit.py:23-32 | None exactly when the device has no reading. Otherwise it is a reading of the device with the greatest timestamp. |
| EnergyAudit.ConfigFor | energy_api/audit.py:35-41 | `config_map.get(n)`: none exactly when the device has no config for the sensor. Otherwise it is the last such config row, since later rows override earlier ones. |
| EnergyAudit.ApplianceRuleAt | energy_api/audit.py:107-204 | The eight appliance rules and positions 0 to 7 correspond one to one. |
| EnergyAudit.ApplianceFired | energy_api/audit.py:107-204 | A rule's alert is among the first k exactly when its position is below k and its guard holds, and every alert comes from such a rule. |
| EnergyAudit.ApplianceAlerts | energy_api/audit.py:107-204 | Each appliance alert carries the sensor, a waste derived from the watts, and neither a daily nor a voltage type. |
| EnergyAudit.LightingRules | energy_api/audit.py:108-133 | A lighting sensor warns above 800 lux, and separately during the curfew hours 23:00 to 05:00. |
| EnergyAudit.HvacRules | energy_api/audit.py:137-193 | AC inefficiency, overcooling (half the watts wasted), free cooling, heater inefficiency and overheating (60 % wasted) each fire exactly when their matcher and guard hold. |
| EnergyAudit.AcWasteful | energy_api/audit.py:139-140 | Defines rule 2a: over 200 W, both temperatures truthy, indoors below 21 °C and outdoors below 24 °C. |
| EnergyAudit.Overcooling | energy_api/audit.py:150 | Defines overcooling: a truthy indoor temperature below 20 °C. |
| EnergyAudit.FreeCooling | energy_api/audit.py:161-162 | Defines rule 4: both temperatures truthy and indoors more than 3 °C warmer than outdoors. |
| EnergyAudit.HeaterWasteful | energy_api/audit.py:174-175 | Defines rule 2b: over 200 W, both temperatures truthy, indoors above 25 °C and outdoors above 20 °C. |
| EnergyAudit.Overheating | energy_api/audit.py:186 | Defines overheating: a truthy indoor temperature above 26 °C. |
| EnergyAudit.PhantomRule | energy_api/audit.py:197-204 | A phantom load is reported exactly when 0.02 < amps < 0.2. |
| EnergyAudit.Phantom | energy_api/audit.py:197 | Defines rule 3: a current strictly between 0.02 A and 0.2 A. |
| EnergyAudit.ApplianceCrashes | energy_api/audit.py:109-197 | Defines when the appliance rules raise `TypeError`: a missing lux on a lighting sensor, or a missing current. `CrashPropagates` and `Audit` carry the raise. |
| EnergyAudit.LabelOf | energy_api/audit.py:104 | Defines the label: the configured label lower-cased, or "sensor N" without a config. `UnconfiguredMatchesNothing` uses the default. |
| EnergyAudit.CategoryOf | energy_api/audit.py:105 | Defines the category: the configured one, or "Unknown" without a config. |
| EnergyAudit.Audit | energy_api/audit.py:18-233 | An unknown device or a device without readings gives `[]`. A raise can only happen once both exist. |
| EnergyAudit.NoDoubleInefficiency | energy_api/audit.py:139-182 | The AC and heater inefficiency rules, which share a type name, never both fire. |
| EnergyAudit.SensorAlerts | energy_api/audit.py:77-204 | Every alert of a sensor's pass carries that sensor's number. |
| EnergyAudit.CandidatesBefore | energy_api/audit.py:66-77 | The daily alert comes first, and the sensor passes add only alerts of sensors 1 to k−1. |
| EnergyAudit.VoltageRules | energy_api/audit.py:81-102 | Brownout exactly below 200 V and surge exactly above 250 V. A sensor under 5 W reports nothing else. |
| EnergyAudit.VoltageAlerts | energy_api/audit.py:83-99 | Defines rule 6: a brown-out below 200 V, else a surge above 250 V, else nothing. `VoltageRules` states it. |
| EnergyAudit.UnconfiguredMatchesNothing | energy_api/audit.py:104-184 | The "sensor N" label and "Unknown" category match no appliance test. |
| EnergyAudit.IsLighting | energy_api/audit.py:108 | Defines the lighting matcher: "light" in the label or category "Lighting". |
| EnergyAudit.IsAc | energy_api/audit.py:137 | Defines the AC matcher: category "AC", or "ac", "cooling" or "air con" in the label. |
| EnergyAudit.IsHeater | energy_api/audit.py:172 | Defines the heater matcher: category "Heater", or "heater" or "heating" in the label. |
| EnergyAudit.IsHeatingOrHvac | energy_api/audit.py:184 | Defines the overheating matcher: "heater" or "heating" in the label, or category "HVAC". |
| EnergyAudit.Fires | energy_api/audit.py:107-204 | Defines each appliance rule's guard on a sensor that is on. `ApplianceFired`, `LightingRules`, `HvacRules` and `PhantomRule` state which alerts follow. |
| EnergyAudit.UnconfiguredSensor | energy_api/audit.py:101-197 | An unconfigured sensor reports at most voltage and phantom-load alerts. |
| EnergyAudit.DailyRule | energy_api/audit.py:60-75 | The system-wide sensor-0 alert appears exactly when the day's estimate exceeds 20 kWh, that is, when the watts summed since midnight exceed 14 400 000. |
| EnergyAudit.DailyAlerts | energy_api/audit.py:66-75 | Defines rule 5: one sensor-0 alert when the day's estimate exceeds 20 kWh, none otherwise. `DailyRule` states it. |
| EnergyAudit.DailyWatts | energy_api/audit.py:50-62 | Defines `Σ (sensor_1_watts or 0) + (sensor_2_watts or 0)` over the device's readings since midnight. |
| EnergyAudit.DailyKwh | energy_api/audit.py:60-63 | Defines the day's estimate as the watt sum × 5 s / 3 600 000. `DailyRule` states when it exceeds 20 kWh. |
| EnergyAudit.KeysOf | energy_api/audit.py:213-215 | The (sensor, type) keys of the alerts, no more and no fewer. |
| EnergyAudit.DistinctKeysAppend | energy_api/audit.py:77-204 | Concatenating alert lists with disjoint keys keeps keys distinct. |
| EnergyAudit.ApplianceFiredDistinct | energy_api/audit.py:107-204 | The appliance rules never repeat a (sensor, type) key. |
| EnergyAudit.SensorKeysDistinct | energy_api/audit.py:83-204 | One sensor's pass never repeats a key. |
| EnergyAudit.CandidateKeysDistinct | energy_api/audit.py:43-204 | The candidates of a completed audit never repeat a key. |
| EnergyAudit.FindRecent | energy_api/audit.py:209-219 | None exactly when no log of the device, sensor and type is newer than `now` minus ten minutes. |
| EnergyAudit.IsRecentTwin | energy_api/audit.py:212-217 | Defines the dedup query's filter: same device, sensor and type, stamped after ten minutes before `now`. |
| EnergyAudit.LogOf | energy_api/audit.py:222-229 | Defines the log row saved for a candidate: its device, sensor, type, severity and waste, stamped `now`. |
| EnergyAudit.Persist | energy_api/audit.py:207-230 | The save loop only appends. At most one row is added per alert, each of the device, stamped `now`, with a candidate's key. |
| EnergyAudit.PersistCovers | energy_api/audit.py:207-230 | After saving, every candidate has a log of its key from the last ten minutes. |
| EnergyAudit.PersistAddsNoTwin | energy_api/audit.py:209-222 | No added row has a ten-minute twin of its key earlier in the table. |
| EnergyAudit.NewLogs | energy_api/audit.py:207-230 | The reference filter, checking each candidate against the table as it was before the loop. Each row it adds is of the device, stamped `now`, with a candidate's key. |
| EnergyAudit.LastKeyFresh | energy_api/audit.py:207 | With distinct keys, the last alert's key is not among the earlier ones. |
| EnergyAudit.FindRecentPastAdded | energy_api/audit.py:209-219 | Rows of other keys do not change the ten-minute lookup. |
| EnergyAudit.PersistIsFilter | energy_api/audit.py:207-230 | With distinct keys, the loop equals the reference filter, so rows added in the loop never suppress a later candidate. |
| EnergyAudit.AuditPersistIsFilter | energy_api/audit.py:43-233 | The save loop of any completed audit equals the reference filter. |
| EnergyAudit.EnergyDb.constructor | energy_api/models.py:16-96 | The session holds the four given tables. |
| EnergyAudit.CrashPropagates | energy_api/audit.py:77-204 | A sensor pass that raises aborts the whole audit. |
| EnergyAudit.CollectCandidates | energy_api/audit.py:77-204 | The loop over sensors 1 and 2 yields exactly `CandidatesBefore(3)`, with the raise as None. |
| EnergyAudit.SaveAlerts | energy_api/audit.py:207-232 | The log table becomes `Persist` of the old one, and nothing else changes. |
| EnergyAudit.RunEnergyAudit | energy_api/audit.py:13-233 | The result is `Audit` of the tables and clock, so it lists every candidate, suppressed ones included. On success the logs become `Persist`; on a raise nothing is written. Other tables are unchanged. |
| WasteBins.Trunc | main.py:92-93 | Python's `int()` truncates toward zero, within one of the real value. |
| WasteBins.WeightFromLevel | main.py:91 | Defines the weight estimated from a level: level / 100 × 10 kg. `LevelWeightRoundTrip` inverts it. |
| WasteBins.LevelFromWeight | main.py:93 | Defines the level estimated from a weight: `int(weight / 10 × 100)`. `WeightLevelBracket` bounds it. |
| WasteBins.LevelWeightRoundTrip | main.py:89-93 | Turning a level into a weight and back gives the level again. |
| WasteBins.WeightLevelBracket | main.py:89-93 | For a positive weight, the estimated level is non-negative, and its weight lies less than 0.1 kg below the given weight. |
| WasteBins.Infer | main.py:86-97 | A null weight raises. A given level is kept, and a non-zero weight or a missing level keeps the weight. |
| WasteBins.InferCases | main.py:89-97 | Level and zero weight: the weight is estimated. Weight and no level: the level is truncated from it. Neither: level 0. Otherwise both are kept. |
| WasteBins.InferConsistent | main.py:89-93 | An estimated pair is consistent: a weight estimated from a given level maps back onto that level, and a level estimated from a given weight brackets that weight to within 0.1 kg. |
| WasteBins.FindBin | main.py:83 | `.first()` by bin id: none exactly when no bin has the id, otherwise the first such bin. |
| WasteBins.FindBinFirst | main.py:83 | The first row with the id is the one found. |
| WasteBins.StoreBin | main.py:95-114 | Defines the table after one half of the update: an existing bin overwritten and stamped, or a new bin appended. `StoreBinFinds`, `StoreBinOthers` and `StoreBinUnique` state its effect. |
| WasteBins.StoreBinFinds | main.py:95-114 | After a store, the bin holds what was sent. Its type is the old one if it existed, else the given one. |
| WasteBins.StoreBinOthers | main.py:95-114 | Other bins are untouched, and a row is added exactly for an unknown id. |
| WasteBins.StoreBinUnique | main.py:95-114 | Bin ids stay unique. |
| WasteBins.BinDb.constructor | models.py:12-27 | The session holds the given bins and events. |
| WasteBins.StoreOne | main.py:95-114 | The table becomes `StoreBin`, and the "became full" test never logs an event. |
| WasteBins.UpdateBins | main.py:76-157 | Success exactly when both weights are non-null. Then the organic and then the non-organic bin are stored. On an error everything is rolled back. No event is ever logged. |
| WasteBins.ResetBin | main.py:203-225 | An unknown id changes nothing. Otherwise the bin gets weight 0, level 0, not full and a new stamp, and exactly one "reset" event is appended. |
| WasteBins.ResetRow | main.py:212-215 | Defines the reset row: weight 0, level 0, not full, stamped `now`, other fields kept. `StatisticsAfterReset` states its effect on the statistics. |
| WasteBins.FullCount | main.py:188 | The full count never exceeds the number of bins. |
| WasteBins.TotalWeight | main.py:187 | Defines `sum(bin.weight for bin in bins)`. `SumsAfterReplace` and `StatisticsAfterReset` state how it changes. |
| WasteBins.LevelSum | main.py:189 | Defines the sum of levels. `LevelSumBounds` bounds it. |
| WasteBins.AverageLevel | main.py:189 | Defines the average level, 0 for no bins. `AverageWithin` bounds it. |
| WasteBins.GetStatistics | main.py:186-189 | The bin total is the row count, and the full count is at most that. With no bins the weight and average are 0; otherwise the average times the count is the level sum. |
| WasteBins.FullCountIsCount | main.py:188 | The full count is the size of the set of full bins. |
| WasteBins.SumsAfterReplace | main.py:187-189 | Replacing a bin changes each sum by the difference of the two rows. |
| WasteBins.StatisticsAfterReset | main.py:212-215 | A reset removes its bin's weight from the total and its level from the sum, and removes one from the full count if the bin was full. |
| WasteBins.LevelSumBounds | main.py:189 | Levels in [lo, hi] keep their sum in [n·lo, n·hi]. |
| WasteBins.AverageWithin | main.py:189 | The average of levels in [lo, hi] lies in [lo, hi]. |
| MaterialClassification.Strip | image_classifier.py:219 | `strip()` never lengthens the text and leaves no white space at either end. |
| MaterialClassification.IsSpace | image_classifier.py:219 | Defines the characters `str.isspace()` accepts, the ones `strip()` removes. |
| MaterialClassification.StripIsMiddle | image_classifier.py:219 | `strip()` keeps one contiguous piece `s[i..j]` of the text, and everything before `i` and from `j` on is white space. |
| MaterialClassification.MiddleAfterFront | image_classifier.py:219 | Removing a leading white-space character shifts the kept piece by one. |
| MaterialClassification.MiddleAfterBack | image_classifier.py:219 | Removing a trailing white-space character leaves the kept piece in place. |
| MaterialClassification.Slice | image_classifier.py:222-224 | Python slicing with clamped bounds, equal to the plain slice inside bounds. |
| MaterialClassification.StripFence | image_classifier.py:221-224 | The result is never longer, and text without a "```" opening is untouched. |
| MaterialClassification.JsonFenceRoundTrip | image_classifier.py:221-222 | A body fenced as "```json … ```" comes back whole. |
| MaterialClassification.PlainFenceRoundTrip | image_classifier.py:223-224 | A body fenced as "``` … ```" comes back whole, unless it starts with "json". |
| MaterialClassification.ShortFenceIsEmpty | image_classifier.py:221-224 | A fence of six characters or fewer gives the empty text. |
| MaterialClassification.Max | image_classifier.py:247 | `max(probabilities)` is an element and bounds all elements. |
| MaterialClassification.OrganicScore | image_classifier.py:275-291 | The organic score lies in [0, 6]. |
| MaterialClassification.NonOrganicScore | image_classifier.py:275-302 | The non-organic score lies in [0, 7]. |
| MaterialClassification.Verdict | image_classifier.py:305-313 | The higher score wins, and a tie goes to ORGANIC at 0.60. Confidence is min(0.85, 0.60 + 0.05·\|difference\|), always in [0.60, 0.85]. |
| MaterialClassification.RuleClassification | image_classifier.py:268-320 | Tagged "rule_based", with the two scores and their verdict. |
| MaterialClassification.RuleBasedClassify | image_classifier.py:268-320 | Accumulating the scores rule by rule gives `RuleClassification`, with scores in [0, 6] and [0, 7] and confidence in [0.60, 0.85]. |
| MaterialClassification.GeminiAnswer | image_classifier.py:204-237 | Gemini answers exactly when a reply's cleaned text decodes, and the cleaned text is kept as the raw response. |
| MaterialClassification.ModelAnswer | image_classifier.py:239-262 | The trained model answers exactly when it predicts with at least one probability. |
| MaterialClassification.Classify | image_classifier.py:191-266 | The invalid-image answer is given exactly for a missing or empty image. |
| MaterialClassification.InvalidImageIsUnknown | image_classifier.py:196-197 | A missing or empty image is UNKNOWN, with confidence 0.0 and no method. |
| MaterialClassification.FallbackOrder | image_classifier.py:204-266 | The method tag is "gemini_api", "ml_model" or "rule_based" exactly for the first source, in that order, that answers. A rule-based result is the rules' verdict. |
| MaterialClassification.OfflineUsesRules | image_classifier.py:204-266 | Without Gemini and a trained model, the rules decide. |
| MaterialClassification.ModelAnswerFields | image_classifier.py:246-259 | Prediction 1 is ORGANIC, anything else NON_ORGANIC. The confidence is the largest probability, and a missing class-1 probability reads as 0.5. |
| MaterialClassification.FullScores | image_classifier.py:275-302 | Each score reaches its maximum exactly when every one of its cues is present. |

## Left out

- I/O, HTTP routing, JSON rendering, logging output, and the `commit`/`rollback` transaction boundaries. A rollback is modelled only where it decides the outcome (a raising bin update changes nothing).
- The HTTP routers. health_monitoring/routes.py calls service functions that do not exist; energy_api/routes.py never fills in the voltage columns.
- Floating point. Weights, temperatures, voltages and scores are exact reals, so `round(…)`, binary rounding and `:.2f` formatting are not modelled.
- Message strings of alerts and responses (they are format strings over the modelled values).
- `str.lower()` lower-cases ASCII letters only. `str.strip()` removes exactly the characters `str.isspace()` accepts: U+0009 to U+000D, U+001C to U+0020, U+0085, U+00A0, U+1680, U+2000 to U+200A, U+2028, U+2029, U+202F, U+205F and U+3000.
- HealthEngine.AnalyzeVitals: one clock reading per call stamps every alert it creates. The source calls `utcnow()` once per alert (health_monitoring/correlation_engine.py:196), so the alerts of one reading may carry increasing timestamps. `get_alerts` then lists the last-created first, while the model, with equal stamps, keeps insertion order.
- HealthServices.CreateVitalReading: one clock reading per call. The source reads the clock separately in `create_device`, in `update_last_seen` and for each alert (health_monitoring/services.py:30-148), so those stamps may differ.
- HealthServices.RegisterAndStamp: the registration stamp and the last-seen stamp are one clock reading. In the source `update_last_seen` reads the clock again (health_monitoring/services.py:148), and that later value is the one kept.
- EnergyAudit.RunEnergyAudit: one clock reading for the day's start, the hour, every dedup cutoff and the log stamps. The source reads `utcnow()` at each of these (energy_api/audit.py:49-216), and the log row takes the database's time.
- EnergyAudit.SaveAlerts: every dedup cutoff is `now` minus ten minutes for one `now`. The source recomputes it per alert (energy_api/audit.py:216).
- Local time and time zones. Every clock reading is one UTC instant in microseconds, and `datetime.fromtimestamp` is taken as UTC.
- SQL row order. A query without ORDER BY returns rows in an order SQL leaves unspecified, and so does ORDER BY among equal timestamps. This matters for the `.all()` threshold query (health_monitoring/correlation_engine.py:33-41), which builds `threshold_dict`, and for the `.first()` upsert lookup (health_monitoring/services.py:245-253). The model reads every table in insertion order. So with duplicate rows of a type, `ThresholdMap` keeps the last-inserted one and `Upserted` overwrites the first-inserted one.
- The session's autoflush is taken as on, so rows added earlier in a loop are visible to later queries in that loop.
- `analyze_health_patterns` and `get_summary_stats`: statistics.mean, percentages and display rounding over the same readings.
- The vision and learning parts of image_classifier.py (`extract_features`, `_calculate_lbp`, the Gemini call, sklearn training and loading) and train_model.py. Their outputs are parameters.
- The Cloudinary upload, Telegram messages and JWT handling are external services. The destroy reply is a parameter.
- CloudStorage.CleanupOldImages: the destroy reply (and so `Swept`, `Kept` and `Deletions`) is a function of the public id alone, so old rows that share an image path all get the same answer and are all removed and counted. Two captures in the same second get the same path (burglary_alert/routers/images.py:51-52 and burglary_alert/utils/storage.py:46-47; the path column is not unique, burglary_alert/models/image.py:24); in the source the second destroy of an id already deleted answers "not found", and that row is kept and not counted (burglary_alert/utils/storage.py:139-147).
- Trivial getters with no logic beyond a query (`get_all_devices`, `get_device`, `get_latest_vitals`, `get_thresholds`, `get_all_bins`, `get_bin_status`, `get_events`, `get_detections`).
- The `limit` of the history and alert queries is a natural number; a negative SQL limit is not modelled.
- EnergyDevice and the other ORM records carry only the fields the logic reads.
- The version segment ("v1234") of a Cloudinary URL is treated like any other segment after "upload", as the code does.
- burglary_alert/routers/images.py:75 passes its two arguments to `correlate_image_with_alert` in the reverse order; the model describes the function as declared.
- WasteBins.GetStatistics: the average is exact real division; `round(…, 2)` is not modelled, nor are the detection count and the response timestamp, which only read the clock and another table.
- WasteBins.StoreBin stamps a newly created bin with `now`; the source leaves that to the database's `server_default`.
- MaterialClassification.GeminiAnswer: `json.loads`, `float(...)` and the dictionary reads are one decoding parameter that fails as a whole. A `"material"` key that is present with a null or non-string value cannot be represented: `result.get` would return that value as the material, and the model's decoding gives only a string or an absent key (read as "UNKNOWN").
