# Solar performance classification and alert lifecycle

This project models the core of the Energiepark PV monitoring tool in Dafny.
Each day, for each metered installation (POD, "point of delivery") and each
metric (OBIS code), the collector stores the energy produced. It estimates what
the installation should have produced from that day's weather and flags the day
as underperforming when actual output is below half of the estimate. It then
moves each flagged day through an alert lifecycle: pending, sent, acknowledged.
All three applications (the collector, the web API and the command-line alert
manager) share one SQLite table, `energy_data`, whose rows are identified by
`(pod_code, obis_code, date)`. Each application has its own copies of the
acknowledge and reset operations on that table.

## Layout

| file | module | what it holds |
|---|---|---|
| optional.dfy | `Optional` | `Option`, for nullable columns and omitted arguments |
| text_order.dfy | `TextOrder` | the TEXT order SQLite sorts by, with its order laws |
| performance.dfy | `Performance` | weather unit conversion, the expected-production formula, the classifier |
| records.dfy | `Records` | the row, its key, the lifecycle predicates, the row the collector writes |
| lifecycle.dfy | `Lifecycle` | WHERE clauses and the UPDATE statements; reset, acknowledge, mark-sent and re-collection on the whole table, with their laws |
| queries.dfy | `Queries` | the alert query with status/date/POD filters and its `ORDER BY date DESC, pod_name`, the statistics, the status label |
| store.dfy | `EnergyStore` | class `Store`: the table as mutable state, one method per SQL statement |
| collector.dfy | `Collector` | class `EnergyDataCollector` and the recipient-list normalisation |
| webapp.dfy | `WebApp` | the alert endpoints of the web API |
| alert_manager.dfy | `AlertManagement` | class `AlertManager`, the command-line tool |

## Modelling choices

- The table is `map<Key, Record>` held in the field `Store.table`. The
  applications mutate it only through `Store` methods. Each of these methods is
  one SQL statement: `INSERT OR REPLACE`, a flag `UPDATE ... WHERE` that returns
  `rowcount`, or the `SELECT` of the prior acknowledgement. `rowcount` is the
  number of rows the WHERE clause matched, whether or not their value changed.
- Each copy of acknowledge and reset keeps its source's `if / elif` branches and
  builds the WHERE clause that branch uses (`Lifecycle.Where`). Its contract
  ties the result to one scope-level definition: `Lifecycle.Reset` or
  `Lifecycle.Acknowledge`. `Reset` takes a `guardUnscoped` flag because the
  copies differ. The collector's unscoped reset clears every row. The web and
  command-line unscoped resets clear only underperforming rows. Every POD- or
  date-scoped reset clears the whole scope.
- Optional POD and date arguments follow Python truthiness (`Records.Given`).
  An empty string selects the same branch as `None`.
- `Store.Valid()` is the invariant every writer keeps. Each row's earnings are
  value × price, and its performance columns are the classification of its own
  value, peak power and weather (`Records.WellFormed`). Hence an
  underperforming row always has a positive expected energy and a ratio, so the
  web API's `Alert` response, whose `expected_kwh` and `performance_ratio`
  fields are not nullable, never meets a null.
- Network answers are inputs:
  - the metering API answer is a `MeteringResponse`;
  - the weather archive's `daily` block is a `DailyWeather`;
  - the SMTP exchange is the boolean `delivered`.
- Text columns compare by character (`TextOrder.LessEq`). For ISO dates this is
  date order. Rows with the same date and the same `pod_name` may come back in
  any order, as in SQLite.
- Quantities are `real`. The constants 0.80, 0.50, 3600 and 0.2778 are the
  source's own.

Points where the three applications behave differently, or where the code
does less than its comments suggest:

- Unscoped reset is not the same in every copy. The collector's
  `reset_alert_flags` says it "resets all if None", and its unscoped UPDATE has
  no WHERE clause at all (energy_data_collector.py:443-481). The unscoped
  resets in webapp.py:650-654 and alert_manager.py:123-129 add
  `WHERE is_underperforming = 1`.
- The affected count of acknowledge is every underperforming row in scope,
  whether or not it was already acknowledged, because SQLite's `rowcount`
  counts matched rows. It is not the number of rows that changed
  (`Lifecycle.AcknowledgeCountRepeats`).
- The panel efficiency is the class constant `PANEL_EFFICIENCY = 0.80`
  (energy_data_collector.py:33), not a per-installation figure.
- A failed e-mail delivery is not caught. The `try` around the SMTP exchange
  is commented out, so `SendAlertEmail` ends in `DeliveryFailed` and marks
  nothing.

## Model

| member | source | states |
|---|---|---|
| Performance.OrZero | energy_data_collector.py:147-150 | a null weather figure counts as zero; a present one is kept |
| Performance.SunHours | energy_data_collector.py:146-147 | hours × 3600 gives back the sunshine seconds; a missing figure gives 0 h |
| Performance.SolarIrradiance | energy_data_collector.py:148-151 | kWh/m² = MJ/m² × 0.2778; a missing figure gives 0; positive exactly when the radiation is positive |
| Performance.WeatherFromDaily | energy_data_collector.py:144-169 | weather exists exactly when the `daily` block and both non-empty series exist; its fields are the converted first entries |
| Performance.ExpectedProduction | energy_data_collector.py:171-199 | at 1 kWh/m² the result is peak × 0.80; zero when peak or irradiance is zero; positive when both are positive |
| Performance.ExpectedIgnoresSunHours | energy_data_collector.py:171-199 | the sun hours never change the expected energy |
| Performance.ExpectedMonotoneInPeakPower | energy_data_collector.py:193 | expected energy does not decrease with peak power at non-negative irradiance |
| Performance.ExpectedMonotoneInIrradiance | energy_data_collector.py:193 | expected energy does not decrease with irradiance at non-negative peak power |
| Performance.Assess | energy_data_collector.py:252-281 | without weather or with zero peak power nothing is computed and the day is not flagged; the ratio exists exactly when expected > 0 and then ratio × expected = actual; underperforming exactly when ratio < 0.50 |
| Performance.UnderperformingIffBelowHalfOfExpected | energy_data_collector.py:259-274 | flagged exactly when weather and a non-zero peak are given, expected > 0 and actual < 0.50 × expected |
| Performance.HalfOfExpectedIsNotUnderperforming | energy_data_collector.py:273 | actual output of exactly half the expected energy is not underperformance |
| Performance.TenKilowattScenario | energy_data_collector.py:193-274 | 10 kW at 0.4 kWh/m² expects 3.2 kWh; 1.0 kWh actual is ratio 0.3125 and flagged |
| Records.UnderperformingHasBasis | energy_data_collector.py:253-274 | a well-formed flagged row has non-zero peak, weather, expected > 0 and a ratio below 0.50 |
| Records.NewRecord | energy_data_collector.py:246-323 | the written row is well formed, holds the given price and the first sample's value, timestamps and calculated flag (false unless true), earnings = value × price, unit defaults to kWh, sent is false and the acknowledgement is the prior one |
| Lifecycle.ClearWhereIsReset | energy_data_collector.py:456-481 | a flag-clearing UPDATE whose WHERE selects exactly a reset scope performs that reset and its rowcount is the scope's size |
| Lifecycle.AcknowledgeWhereIsAcknowledge | energy_data_collector.py:503-529 | an acknowledging UPDATE whose WHERE selects exactly the acknowledgement scope performs it, with that rowcount |
| Lifecycle.MarkSentStep | energy_data_collector.py:429-434 | one per-key UPDATE after marking a set of keys equals marking the set with that key added |
| Lifecycle.ResetEffect | energy_data_collector.py:443-488 | reset keeps the keys, clears both flags on selected rows with every other column unchanged, and leaves other rows unchanged |
| Lifecycle.UnguardedResetIgnoresClassification | energy_data_collector.py:477-481 | without the guard a reset selects exactly the rows in scope, underperforming or not, the unscoped case included |
| Lifecycle.GuardOnlyAffectsUnscopedReset | webapp.py:628-655 | with a POD or a date given, guarded and unguarded resets give the same table and the same count |
| Lifecycle.ResetIdempotent | energy_data_collector.py:443-488 | resetting twice equals resetting once |
| Lifecycle.ResetReturnsToPending | energy_data_collector.py:456-481 | a reset underperforming row is pending again |
| Lifecycle.AcknowledgeEffect | energy_data_collector.py:490-536 | acknowledged afterwards exactly when acknowledged before or underperforming in scope; no other column, no non-underperforming row and no sent flag changes |
| Lifecycle.AcknowledgeIdempotent | energy_data_collector.py:490-536 | acknowledging twice equals acknowledging once |
| Lifecycle.AcknowledgeCountRepeats | webapp.py:572-601 | a repeated acknowledgement matches, and reports, the same number of rows as the first |
| Lifecycle.MarkSentNothingIsNoop | energy_data_collector.py:422-423 | marking no key changes nothing |
| Lifecycle.MarkSentEffect | energy_data_collector.py:429-434 | afterwards sent exactly when sent before or listed, with no underperforming guard; nothing else changes |
| Lifecycle.MarkingAllPendingLeavesNonePending | energy_data_collector.py:420-441 | marking a set that covers every pending row leaves no row pending |
| Lifecycle.RecollectionKeepsAcknowledgement | energy_data_collector.py:287-322 | re-collecting an acknowledged day keeps it acknowledged, not sent and not pending |
| Lifecycle.CollectAcknowledgeRecollect | energy_data_collector.py:287-322 | collect a flagged day, acknowledge its POD, collect again: the new value is stored, acknowledged and not sent |
| Queries.SelectRows | webapp.py:497-500 | the result is ordered by date descending then pod name, contains every selected row exactly once (as a multiset) and has COUNT(*) rows |
| Queries.Statistics | webapp.py:524-547 | total counts underperforming rows; pending, sent and acknowledged count their lifecycle state; pending + sent + acknowledged = total |
| Queries.StatisticsAgreeWithStatusFilters | webapp.py:478-487 | each statistic is the row count of the alert list with the matching status filter |
| Queries.AcknowledgeAllEmptiesQueues | webapp.py:594-599 | after the unscoped acknowledgement nothing is pending or sent and acknowledged = total |
| Queries.ResetAllMakesEverythingPending | webapp.py:650-654 | after the guarded unscoped reset every alert is pending |
| Queries.StatusLabelMatchesFilters | alert_manager.py:74-79 | on an alert the label is Pending, Sent or Acknowledged exactly when that status filter admits it |
| EnergyStore.Store.AcknowledgedFlag | energy_data_collector.py:288-294 | a flag exists exactly when the key has a row, and it is that row's acknowledgement |
| EnergyStore.Store.InsertOrReplace | energy_data_collector.py:296-323 | the key's row becomes the new record; the store invariant is kept for a well-formed record |
| EnergyStore.Store.ClearFlags | webapp.py:629-657 | both flags cleared on the matched rows; rowcount = number matched; invariant kept |
| EnergyStore.Store.SetAcknowledged | webapp.py:573-601 | acknowledgement set on the matched rows; rowcount = number matched; invariant kept |
| EnergyStore.Store.SetSent | energy_data_collector.py:430-434 | sent set on the key's row if there is one; rowcount 1 or 0 |
| Collector.ListAddressesAppend | energy_data_collector.py:565-570 | the addresses of a concatenated list are the concatenated addresses, so list order is kept |
| Collector.ListAddressesLength | energy_data_collector.py:565-570 | a list yields at most one address per item |
| Collector.ListAddressesMembers | energy_data_collector.py:565-570 | an address appears exactly when some item (a string, or a mapping's `mail`) yields it; other items are skipped |
| Collector.PlainStringListIsKept | energy_data_collector.py:568-570 | a list of plain strings yields those strings in order |
| Collector.ParseRecipients | energy_data_collector.py:561-573 | the loop yields the recipient list; a string gives a one-element list; anything other than a list or string gives none |
| Collector.EnergyDataCollector.StoreData | energy_data_collector.py:233-331 | no answer, no series or an empty series writes nothing; otherwise exactly the key's row is replaced by the new record, carrying the prior acknowledgement (false for a new key) |
| Collector.EnergyDataCollector.GetPendingAlerts | energy_data_collector.py:380-418 | exactly the underperforming, unsent, unacknowledged rows, each once, ordered by date descending then pod name, as many as the pending count |
| Collector.EnergyDataCollector.MarkAlertsSent | energy_data_collector.py:420-441 | sent is set on the listed keys and nowhere else; an empty list changes nothing |
| Collector.EnergyDataCollector.ResetAlertFlags | energy_data_collector.py:443-488 | both flags cleared on every row of the POD/date scope, with no guard even unscoped |
| Collector.EnergyDataCollector.AcknowledgeAlerts | energy_data_collector.py:490-536 | acknowledgement set on the underperforming rows of the scope |
| Collector.EnergyDataCollector.SendAlertEmail | energy_data_collector.py:538-684 | no alerts, no e-mail section or an incomplete one (no sender, password or recipient) stop before sending; alerts are marked sent only after a delivery that returned |
| Collector.NotifiedPendingAlertsLeaveNonePending | energy_data_collector.py:675-681 | after the whole pending list is delivered and marked, no row is pending |
| WebApp.GetAlerts | webapp.py:451-515 | only underperforming rows admitted by the status, the date and the POD filter, conjunctively; each once, ordered by date descending then pod name; never a null expected energy or ratio in a valid store |
| WebApp.GetAlertStats | webapp.py:518-554 | the four counts use the list's status filters and pending + sent + acknowledged = total |
| WebApp.AcknowledgeAlerts | webapp.py:557-610 | underperforming rows in scope acknowledged; affected = all of them; a message per scope branch |
| WebApp.ResetAlerts | webapp.py:613-666 | POD and/or date scope cleared unguarded, the unscoped reset only underperforming rows; affected = matched rows; a message per branch |
| AlertManagement.AlertManager.ListAlerts | alert_manager.py:23-85 | the status-filtered underperforming rows in web order, with labels naming their lifecycle state |
| AlertManagement.AlertManager.ResetAlerts | alert_manager.py:87-136 | without confirm nothing changes and an error is reported; otherwise the same guarded reset as the web API, with its matched count |
| AlertManagement.AlertManager.AcknowledgeAlerts | alert_manager.py:138-187 | without confirm nothing changes and an error is reported; otherwise underperforming rows in scope acknowledged, with their matched count |
| AlertManagement.AlertManager.GetStatistics | alert_manager.py:189-228 | the same four counts as the web statistics, summing to the total |

## Left out

- HTTP calls: metering fetch, weather archive request, geocoding (`get_geo_loc.py`). Their answers are inputs to the model. This is network I/O.
- SMTP: the connection, TLS, login and send are the single input `delivered`. HTML building and grouping by date are not modelled either.
- Collector.EnergyDataCollector.SendAlertEmail: `delivered` also stands for the HTML rendering step. That step raises before any SMTP call, so nothing is marked, when an alert has a null `performance_ratio` (energy_data_collector.py:626) or a null expected, sun-hours or irradiance figure (lines 631-635). The model returns `Delivered` for such an alert when `delivered` is true. The pending alerts the collector passes always have these fields (`Records.UnderperformingHasBasis`).
- `collect_data`: the loop over configured PODs and OBIS codes only feeds `StoreData` with fetched answers. `main` only sequences the steps.
- `get_summary`, `_get_previous_day_dates` and the health endpoint depend on the wall clock.
- YAML config loading, connection handling, schema and index creation, and the `id`/`created_at` columns are infrastructure.
- FastAPI routing, CORS, the embedded web page, `print` and logging are presentation.
- SQLite errors are left out: the collector logs them and commits nothing, and the web API answers HTTP 500.
- A sample with no `value` key raises an uncaught KeyError (energy_data_collector.py:248). The model's `Sample` always carries a value, so this path is not represented.
- A non-numeric weather figure cannot be represented in `DailyWeather`. The source catches the resulting TypeError (energy_data_collector.py:167-169) and treats the day as having no weather, which is `WeatherFromDaily(None)` in the model.
- Records.NewRecord: `unit` and a sample's `calculated` treat a missing key and a JSON `null` alike. `api_response.get('unit', 'kWh')` (energy_data_collector.py:250) and `data.get('calculated', False)` (line 315) return `None` for an explicit `null`, and the source then stores NULL. The model stores "kWh" and false. No core operation reads either column.
- Floating-point rounding and the `:.2f` / percent formatting: quantities are `real`.
- Collector.EnergyDataCollector.GetPendingAlerts: returns whole rows, not the nine-field dictionaries built at energy_data_collector.py:405-415.
- AlertManagement.AlertManager.ListAlerts: returns whole rows, not the eight selected columns printed at alert_manager.py:50-79.
- WebApp.GetAlerts: returns whole rows, not the `Alert` column projection. It states only that the projection's non-nullable fields are present.
- AlertManagement.AlertManager.ResetAlerts: the printed line's "(N records)" suffix is returned as the count, not formatted into the text. AcknowledgeAlerts does the same.
- Collector.ConfigValue: a mapping item's `mail` value is modelled as a string. A non-string value, which the source would append and later fail on when joining, is not represented.
- Records.Record: `podName` is a string and `peakPowerKw` a number, so neither can be NULL. In the source, `pod.get('address', pod_code)` and `pod.get('peak_power', 0.0)` (energy_data_collector.py:352, 354) return `None` when the config key is present but empty, and that NULL is stored. A NULL `pod_name` sorts first under `ORDER BY date DESC, pod_name`, and the web API's `Alert` (webapp.py:44) rejects that row. A NULL peak classifies like 0.0, but the stored column differs.
