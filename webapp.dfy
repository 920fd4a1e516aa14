/**
 * The web API's alert endpoints: the filtered alert list, the statistics,
 * and its own copies of acknowledge and reset, each answering with a
 * message and the number of rows matched.
 */
module WebApp {
  import opened Optional
  import opened Records
  import opened Lifecycle
  import opened Queries
  import opened EnergyStore

  datatype ActionResponse = ActionResponse(success: bool, message: string, affectedRecords: nat)

  /**
   * `GET /api/alerts`: the underperforming rows admitted by the status and,
   * when given, of that date and that POD, newest date first, then by pod name.
   */
  method GetAlerts(db: Store, status: Status, date: Option<string>, podCode: Option<string>) returns (alerts: seq<Row>)
    ensures Sorted(alerts)
    ensures multiset(alerts) == multiset(Matching(db.table, Query(status, date, podCode)))
    ensures |alerts| == CountWhere(db.table, Query(status, date, podCode))
    ensures forall i | 0 <= i < |alerts| ::
      && alerts[i].key in db.table && db.table[alerts[i].key] == alerts[i].rec
      && alerts[i].rec.isUnderperforming && StatusAdmits(status, alerts[i].rec)
      && (Given(date) ==> alerts[i].key.date == date.value)
      && (Given(podCode) ==> alerts[i].key.podCode == podCode.value)
    ensures db.Valid() ==> forall i | 0 <= i < |alerts| ::
      alerts[i].rec.expectedKwh.Some? && alerts[i].rec.performanceRatio.Some?
  {
    var q := Query(status, date, podCode);
    alerts := SelectRows(db.table, q);
    forall i | 0 <= i < |alerts|
      ensures alerts[i].key in db.table && db.table[alerts[i].key] == alerts[i].rec && Selects(q, alerts[i].key, alerts[i].rec)
      ensures db.Valid() ==> alerts[i].rec.expectedKwh.Some? && alerts[i].rec.performanceRatio.Some?
    {
      SelectedRowFacts(db.table, q, alerts, i);
      if db.Valid() {
        UnderperformingHasBasis(alerts[i].rec);
      }
    }
  }

  /** `GET /api/alerts/stats`: four counts, the three lifecycle states adding up to the total. */
  method GetAlertStats(db: Store) returns (stats: AlertStats)
    ensures stats.totalAlerts == CountWhere(db.table, Query(All, None, None))
    ensures stats.pending == CountWhere(db.table, Query(Pending, None, None))
    ensures stats.sent == CountWhere(db.table, Query(Sent, None, None))
    ensures stats.acknowledged == CountWhere(db.table, Query(Acknowledged, None, None))
    ensures stats.pending + stats.sent + stats.acknowledged == stats.totalAlerts
  {
    StatisticsAgreeWithStatusFilters(db.table);
    stats := Statistics(db.table);
  }

  /** `POST /api/alerts/acknowledge`: acknowledges the underperforming rows of the scope. */
  method AcknowledgeAlerts(db: Store, podCode: Option<string>, date: Option<string>) returns (response: ActionResponse)
    modifies db
    ensures db.table == Acknowledge(old(db.table), podCode, date)
    ensures response.success
    ensures response.affectedRecords == AcknowledgeCount(old(db.table), podCode, date)
    ensures response.message ==
      if Given(podCode) && Given(date) then "Acknowledged alerts for POD " + podCode.value + " on " + date.value
      else if Given(podCode) then "Acknowledged all alerts for POD " + podCode.value
      else if Given(date) then "Acknowledged all alerts for date " + date.value
      else "Acknowledged all alerts"
    ensures old(db.Valid()) ==> db.Valid()
  {
    var w, message;
    if Given(podCode) && Given(date) {
      w := Where(Some(podCode.value), Some(date.value), true);
      message := "Acknowledged alerts for POD " + podCode.value + " on " + date.value;
    } else if Given(podCode) {
      w := Where(Some(podCode.value), None, true);
      message := "Acknowledged all alerts for POD " + podCode.value;
    } else if Given(date) {
      w := Where(None, Some(date.value), true);
      message := "Acknowledged all alerts for date " + date.value;
    } else {
      w := Where(None, None, true);
      message := "Acknowledged all alerts";
    }
    AcknowledgeWhereIsAcknowledge(db.table, w, podCode, date);
    var affected := db.SetAcknowledged(w);
    response := ActionResponse(true, message, affected);
  }

  /**
   * `POST /api/alerts/reset`: clears both flags on every row of a POD or
   * date scope; the unscoped reset clears the underperforming rows only.
   */
  method ResetAlerts(db: Store, podCode: Option<string>, date: Option<string>) returns (response: ActionResponse)
    modifies db
    ensures db.table == Reset(old(db.table), podCode, date, true)
    ensures response.success
    ensures response.affectedRecords == ResetCount(old(db.table), podCode, date, true)
    ensures response.message ==
      if Given(podCode) && Given(date) then "Reset alerts for POD " + podCode.value + " on " + date.value
      else if Given(podCode) then "Reset all alerts for POD " + podCode.value
      else if Given(date) then "Reset all alerts for date " + date.value
      else "Reset all alerts"
    ensures old(db.Valid()) ==> db.Valid()
  {
    var w, message;
    if Given(podCode) && Given(date) {
      w := Where(Some(podCode.value), Some(date.value), false);
      message := "Reset alerts for POD " + podCode.value + " on " + date.value;
    } else if Given(podCode) {
      w := Where(Some(podCode.value), None, false);
      message := "Reset all alerts for POD " + podCode.value;
    } else if Given(date) {
      w := Where(None, Some(date.value), false);
      message := "Reset all alerts for date " + date.value;
    } else {
      w := Where(None, None, true);
      message := "Reset all alerts";
    }
    ClearWhereIsReset(db.table, w, podCode, date, true);
    var affected := db.ClearFlags(w);
    response := ActionResponse(true, message, affected);
  }
}
