/**
 * The command-line alert manager: the status-filtered list with its
 * status column, its own copies of reset and acknowledge behind the
 * `--confirm` flag, and the statistics.
 */
module AlertManagement {
  import opened Optional
  import opened Records
  import opened Lifecycle
  import opened Queries
  import opened EnergyStore

  /** What a confirm-guarded action reports: the refusal, or the summary line and the rows matched. */
  datatype ActionResult = Refused(error: string) | Applied(summary: string, affected: nat)

  class AlertManager {
    const db: Store

    constructor (db: Store)
      ensures this.db == db
    {
      this.db := db;
    }

    /**
     * `list`: the underperforming rows the status admits, newest date first,
     * then by pod name, each with its status label.
     */
    method ListAlerts(status: Status) returns (alerts: seq<Row>, labels: seq<string>)
      ensures Sorted(alerts)
      ensures multiset(alerts) == multiset(Matching(db.table, Query(status, None, None)))
      ensures |alerts| == CountWhere(db.table, Query(status, None, None))
      ensures |labels| == |alerts|
      ensures forall i | 0 <= i < |alerts| ::
        && alerts[i].key in db.table && db.table[alerts[i].key] == alerts[i].rec
        && alerts[i].rec.isUnderperforming && StatusAdmits(status, alerts[i].rec)
      ensures forall i | 0 <= i < |alerts| ::
        && (labels[i] == "Pending" <==> IsPendingAlert(alerts[i].rec))
        && (labels[i] == "Sent" <==> IsSentAlert(alerts[i].rec))
        && (labels[i] == "Acknowledged" <==> IsAcknowledgedAlert(alerts[i].rec))
    {
      var q := Query(status, None, None);
      alerts := SelectRows(db.table, q);
      labels := [];
      for i := 0 to |alerts|
        invariant |labels| == i
        invariant forall j | 0 <= j < i :: labels[j] == StatusLabel(alerts[j].rec)
      {
        var statusStr;
        if alerts[i].rec.alertAcknowledged {
          statusStr := "Acknowledged";
        } else if alerts[i].rec.alertSent {
          statusStr := "Sent";
        } else {
          statusStr := "Pending";
        }
        labels := labels + [statusStr];
      }
      forall i | 0 <= i < |alerts|
        ensures alerts[i].key in db.table && db.table[alerts[i].key] == alerts[i].rec && Selects(q, alerts[i].key, alerts[i].rec)
        ensures labels[i] == "Pending" <==> IsPendingAlert(alerts[i].rec)
        ensures labels[i] == "Sent" <==> IsSentAlert(alerts[i].rec)
        ensures labels[i] == "Acknowledged" <==> IsAcknowledgedAlert(alerts[i].rec)
      {
        SelectedRowFacts(db.table, q, alerts, i);
        StatusLabelMatchesFilters(alerts[i].rec);
      }
    }

    /**
     * `reset`: refused without `--confirm`; otherwise clears both flags on
     * every row of a POD or date scope, and on the underperforming rows when unscoped.
     */
    method ResetAlerts(podCode: Option<string>, date: Option<string>, confirm: bool) returns (result: ActionResult)
      modifies db
      ensures !confirm ==> result == Refused("ERROR: Must use --confirm flag to reset alerts") && db.table == old(db.table)
      ensures confirm ==> db.table == Reset(old(db.table), podCode, date, true)
      ensures confirm ==> result.Applied? && result.affected == ResetCount(old(db.table), podCode, date, true)
      ensures confirm ==> (result.summary ==
        if Given(podCode) && Given(date) then "Reset alerts for POD " + podCode.value + " on " + date.value
        else if Given(podCode) then "Reset all alerts for POD " + podCode.value
        else if Given(date) then "Reset all alerts for date " + date.value
        else "Reset ALL alerts")
      ensures old(db.Valid()) ==> db.Valid()
    {
      if !confirm {
        return Refused("ERROR: Must use --confirm flag to reset alerts");
      }
      var w, summary;
      if Given(podCode) && Given(date) {
        w := Where(Some(podCode.value), Some(date.value), false);
        summary := "Reset alerts for POD " + podCode.value + " on " + date.value;
      } else if Given(podCode) {
        w := Where(Some(podCode.value), None, false);
        summary := "Reset all alerts for POD " + podCode.value;
      } else if Given(date) {
        w := Where(None, Some(date.value), false);
        summary := "Reset all alerts for date " + date.value;
      } else {
        w := Where(None, None, true);
        summary := "Reset ALL alerts";
      }
      ClearWhereIsReset(db.table, w, podCode, date, true);
      var affected := db.ClearFlags(w);
      result := Applied(summary, affected);
    }

    /** `acknowledge`: refused without `--confirm`; otherwise acknowledges the underperforming rows of the scope. */
    method AcknowledgeAlerts(podCode: Option<string>, date: Option<string>, confirm: bool) returns (result: ActionResult)
      modifies db
      ensures !confirm ==> result == Refused("ERROR: Must use --confirm flag to acknowledge alerts") && db.table == old(db.table)
      ensures confirm ==> db.table == Acknowledge(old(db.table), podCode, date)
      ensures confirm ==> result.Applied? && result.affected == AcknowledgeCount(old(db.table), podCode, date)
      ensures confirm ==> (result.summary ==
        if Given(podCode) && Given(date) then "Acknowledged alerts for POD " + podCode.value + " on " + date.value
        else if Given(podCode) then "Acknowledged all alerts for POD " + podCode.value
        else if Given(date) then "Acknowledged all alerts for date " + date.value
        else "Acknowledged ALL alerts")
      ensures old(db.Valid()) ==> db.Valid()
    {
      if !confirm {
        return Refused("ERROR: Must use --confirm flag to acknowledge alerts");
      }
      var w, summary;
      if Given(podCode) && Given(date) {
        w := Where(Some(podCode.value), Some(date.value), true);
        summary := "Acknowledged alerts for POD " + podCode.value + " on " + date.value;
      } else if Given(podCode) {
        w := Where(Some(podCode.value), None, true);
        summary := "Acknowledged all alerts for POD " + podCode.value;
      } else if Given(date) {
        w := Where(None, Some(date.value), true);
        summary := "Acknowledged all alerts for date " + date.value;
      } else {
        w := Where(None, None, true);
        summary := "Acknowledged ALL alerts";
      }
      AcknowledgeWhereIsAcknowledge(db.table, w, podCode, date);
      var affected := db.SetAcknowledged(w);
      result := Applied(summary, affected);
    }

    /** `stats`: the same four counts as the web statistics, adding up the same way. */
    method GetStatistics() returns (stats: AlertStats)
      ensures stats.totalAlerts == |set k | k in db.table && db.table[k].isUnderperforming|
      ensures stats.pending == |set k | k in db.table && IsPendingAlert(db.table[k])|
      ensures stats.sent == |set k | k in db.table && IsSentAlert(db.table[k])|
      ensures stats.acknowledged == |set k | k in db.table && IsAcknowledgedAlert(db.table[k])|
      ensures stats.pending + stats.sent + stats.acknowledged == stats.totalAlerts
    {
      stats := Statistics(db.table);
    }
  }
}
