/**
 * The collector's side of the table: the upsert with carry-forward of
 * acknowledgements, the pending-alert query, marking alerts sent, its own
 * copies of reset and acknowledge, and the e-mail step that normalises the
 * recipient setting and marks alerts sent after a delivery.
 */
module Collector {
  import opened Optional
  import opened Performance
  import opened Records
  import opened Lifecycle
  import opened Queries
  import opened EnergyStore

  // ---------------------------------------------------------------------
  // Recipient setting

  /**
   * A configuration value as YAML loading yields it: a string, a list, a
   * mapping of text fields, or anything else (a number, a boolean, null).
   */
  datatype ConfigValue = Text(s: string) | Items(items: seq<ConfigValue>) | Mapping(fields: map<string, string>) | Scalar

  /** A list item contributes its `mail` field when it is a mapping, itself when it is a string. */
  function ItemAddresses(item: ConfigValue): seq<string>
  {
    match item
    case Mapping(fields) => if "mail" in fields then [fields["mail"]] else []
    case Text(s) => [s]
    case _ => []
  }

  /** The addresses a list yields, item after item. */
  function ListAddresses(items: seq<ConfigValue>): seq<string>
    decreases |items|
  {
    if items == [] then []
    else ListAddresses(items[..|items| - 1]) + ItemAddresses(items[|items| - 1])
  }

  /** The recipient list of a configuration value: a list's items, a lone string, or nothing. */
  function Recipients(c: ConfigValue): seq<string>
  {
    match c
    case Items(xs) => ListAddresses(xs)
    case Text(s) => [s]
    case _ => []
  }

  /** The list yields its items' addresses in order: joining lists joins their addresses. */
  lemma {:induction false} ListAddressesAppend(xs: seq<ConfigValue>, ys: seq<ConfigValue>)
    ensures ListAddresses(xs + ys) == ListAddresses(xs) + ListAddresses(ys)
    decreases |ys|
  {
    if ys == [] {
      assert xs + ys == xs;
    } else {
      var ys' := ys[..|ys| - 1];
      assert (xs + ys)[..|xs + ys| - 1] == xs + ys';
      ListAddressesAppend(xs, ys');
    }
  }

  /** Each item yields at most one address, so the list never grows. */
  lemma {:induction false} ListAddressesLength(xs: seq<ConfigValue>)
    ensures |ListAddresses(xs)| <= |xs|
    decreases |xs|
  {
    if xs != [] {
      ListAddressesLength(xs[..|xs| - 1]);
    }
  }

  /** An address is in the list exactly when some item yields it. */
  lemma {:induction false} ListAddressesMembers(xs: seq<ConfigValue>, a: string)
    ensures a in ListAddresses(xs) <==> exists i | 0 <= i < |xs| :: a in ItemAddresses(xs[i])
    decreases |xs|
  {
    if xs != [] {
      var init := xs[..|xs| - 1];
      ListAddressesMembers(init, a);
      if a in ItemAddresses(xs[|xs| - 1]) {
      } else if exists i | 0 <= i < |xs| :: a in ItemAddresses(xs[i]) {
        var i :| 0 <= i < |xs| && a in ItemAddresses(xs[i]);
        assert i < |xs| - 1 && init[i] == xs[i];
      }
      if exists i | 0 <= i < |init| :: a in ItemAddresses(init[i]) {
        var i :| 0 <= i < |init| && a in ItemAddresses(init[i]);
        assert xs[i] == init[i];
      }
    }
  }

  /** A list of plain strings is its own recipient list. */
  lemma {:induction false} PlainStringListIsKept(xs: seq<ConfigValue>)
    requires forall i | 0 <= i < |xs| :: xs[i].Text?
    ensures |ListAddresses(xs)| == |xs|
    ensures forall i | 0 <= i < |xs| :: ListAddresses(xs)[i] == xs[i].s
    decreases |xs|
  {
    if xs != [] {
      PlainStringListIsKept(xs[..|xs| - 1]);
    }
  }

  /** The parsing loop of `send_alert_email`: append each item's address in turn. */
  method ParseRecipients(c: ConfigValue) returns (emails: seq<string>)
    ensures emails == Recipients(c)
    ensures c.Text? ==> emails == [c.s]
    ensures !c.Items? && !c.Text? ==> emails == []
  {
    emails := [];
    match c {
      case Items(xs) =>
        for i := 0 to |xs|
          invariant emails == ListAddresses(xs[..i])
        {
          assert xs[..i + 1][..i] == xs[..i];
          match xs[i] {
            case Mapping(fields) =>
              if "mail" in fields {
                emails := emails + [fields["mail"]];
              }
            case Text(s) =>
              emails := emails + [s];
            case _ =>
          }
        }
        assert xs[..|xs|] == xs;
      case Text(s) =>
        emails := emails + [s];
      case _ =>
    }
  }

  /** The `email` section: sender, password and the recipient setting. */
  datatype EmailConfig = EmailConfig(senderEmail: Option<string>, senderPassword: Option<string>, recipientEmail: ConfigValue)

  /** `all([sender_email, sender_password, recipient_emails])`. */
  predicate EmailComplete(cfg: EmailConfig)
  {
    Given(cfg.senderEmail) && Given(cfg.senderPassword) && Recipients(cfg.recipientEmail) != []
  }

  /** How `send_alert_email` ends. `DeliveryFailed` is the SMTP exception, which it does not catch. */
  datatype SendOutcome = NoAlerts | MissingEmailConfig | IncompleteEmailConfig | DeliveryFailed | Delivered(recipients: seq<string>)

  class EnergyDataCollector {
    /** The database file the collector opens on every operation. */
    const db: Store

    constructor (db: Store)
      ensures this.db == db
    {
      this.db := db;
    }

    /**
     * `_store_data`: read the prior acknowledgement of the key, then replace
     * the row with the new reading, sent flag cleared. A missing answer, a
     * missing or empty series writes nothing.
     */
    method StoreData(podCode: string, podName: string, obisCode: string, obisDescription: string,
                     kwhPrice: real, peakPowerKw: real, apiResponse: Option<MeteringResponse>,
                     date: string, weather: Option<Weather>)
      modifies db
      ensures !HasSample(apiResponse) ==> db.table == old(db.table)
      ensures HasSample(apiResponse) ==>
        var key := Key(podCode, obisCode, date);
        db.table == old(db.table)[key := NewRecord(podName, obisDescription, kwhPrice, peakPowerKw,
                                                   apiResponse.value, weather, PriorAcknowledged(old(db.table), key))]
      ensures old(db.Valid()) ==> db.Valid()
    {
      if apiResponse.None? || apiResponse.value.aggregatedTimeSeries.None? {
        return;
      }
      if |apiResponse.value.aggregatedTimeSeries.value| == 0 {
        return;
      }
      var key := Key(podCode, obisCode, date);
      var existing := db.AcknowledgedFlag(key);
      var alertAcknowledged := if existing.Some? then existing.value else false;
      var rec := NewRecord(podName, obisDescription, kwhPrice, peakPowerKw, apiResponse.value, weather, alertAcknowledged);
      db.InsertOrReplace(key, rec);
    }

    /** Every underperforming row neither sent nor acknowledged, newest date first, then by pod name. */
    method GetPendingAlerts() returns (alerts: seq<Row>)
      ensures Sorted(alerts)
      ensures multiset(alerts) == multiset(Matching(db.table, Query(Pending, None, None)))
      ensures forall i | 0 <= i < |alerts| ::
        alerts[i].key in db.table && db.table[alerts[i].key] == alerts[i].rec && IsPendingAlert(alerts[i].rec)
      ensures forall k | k in db.table && IsPendingAlert(db.table[k]) :: Row(k, db.table[k]) in alerts
      ensures |alerts| == Statistics(db.table).pending
    {
      alerts := SelectRows(db.table, Query(Pending, None, None));
      StatisticsAgreeWithStatusFilters(db.table);
      forall i | 0 <= i < |alerts|
        ensures alerts[i].key in db.table && db.table[alerts[i].key] == alerts[i].rec && IsPendingAlert(alerts[i].rec)
      {
        SelectedRowFacts(db.table, Query(Pending, None, None), alerts, i);
      }
      forall k | k in db.table && IsPendingAlert(db.table[k]) ensures Row(k, db.table[k]) in alerts {
        MatchingMembers(db.table, Query(Pending, None, None), Row(k, db.table[k]));
        assert Row(k, db.table[k]) in multiset(alerts);
      }
    }

    /** Sets `alert_sent` on each listed key, one UPDATE per alert; nothing at all for an empty list. */
    method MarkAlertsSent(alerts: seq<Row>)
      modifies db
      ensures db.table == MarkSent(old(db.table), KeysOf(alerts))
      ensures old(db.Valid()) ==> db.Valid()
    {
      if alerts == [] {
        MarkSentNothingIsNoop(db.table);
        return;
      }
      for i := 0 to |alerts|
        invariant db.table == MarkSent(old(db.table), KeysOf(alerts[..i]))
        invariant old(db.Valid()) ==> db.Valid()
      {
        assert KeysOf(alerts[..i + 1]) == KeysOf(alerts[..i]) + {alerts[i].key} by {
          assert alerts[..i + 1] == alerts[..i] + [alerts[i]];
        }
        MarkSentStep(old(db.table), db.table, KeysOf(alerts[..i]), alerts[i].key);
        var rowcount := db.SetSent(alerts[i].key);
      }
      assert alerts[..|alerts|] == alerts;
    }

    /** `reset_alert_flags`: clears both flags on every row of the scope, with no guard even unscoped. */
    method ResetAlertFlags(podCode: Option<string>, date: Option<string>)
      modifies db
      ensures db.table == Reset(old(db.table), podCode, date, false)
      ensures old(db.Valid()) ==> db.Valid()
    {
      var w;
      if Given(podCode) && Given(date) {
        w := Where(Some(podCode.value), Some(date.value), false);
      } else if Given(podCode) {
        w := Where(Some(podCode.value), None, false);
      } else if Given(date) {
        w := Where(None, Some(date.value), false);
      } else {
        w := Where(None, None, false);
      }
      ClearWhereIsReset(db.table, w, podCode, date, false);
      var rowcount := db.ClearFlags(w);
    }

    /** `acknowledge_alerts`: acknowledges the underperforming rows of the scope. */
    method AcknowledgeAlerts(podCode: Option<string>, date: Option<string>)
      modifies db
      ensures db.table == Acknowledge(old(db.table), podCode, date)
      ensures old(db.Valid()) ==> db.Valid()
    {
      var w;
      if Given(podCode) && Given(date) {
        w := Where(Some(podCode.value), Some(date.value), true);
      } else if Given(podCode) {
        w := Where(Some(podCode.value), None, true);
      } else if Given(date) {
        w := Where(None, Some(date.value), true);
      } else {
        w := Where(None, None, true);
      }
      AcknowledgeWhereIsAcknowledge(db.table, w, podCode, date);
      var rowcount := db.SetAcknowledged(w);
    }

    /**
     * `send_alert_email`: gives up on an empty alert list, a missing e-mail
     * section or an incomplete one; otherwise sends to the normalised
     * recipients, and marks the alerts sent only when the delivery returned.
     */
    method SendAlertEmail(alerts: seq<Row>, email: Option<EmailConfig>, delivered: bool) returns (outcome: SendOutcome)
      modifies db
      ensures alerts == [] ==> outcome == NoAlerts
      ensures alerts != [] && email.None? ==> outcome == MissingEmailConfig
      ensures alerts != [] && email.Some? && !EmailComplete(email.value) ==> outcome == IncompleteEmailConfig
      ensures alerts != [] && email.Some? && EmailComplete(email.value) ==>
        outcome == if delivered then Delivered(Recipients(email.value.recipientEmail)) else DeliveryFailed
      ensures outcome.Delivered? ==> db.table == MarkSent(old(db.table), KeysOf(alerts))
      ensures !outcome.Delivered? ==> db.table == old(db.table)
      ensures old(db.Valid()) ==> db.Valid()
    {
      if alerts == [] {
        return NoAlerts;
      }
      if email.None? {
        return MissingEmailConfig;
      }
      var recipients := ParseRecipients(email.value.recipientEmail);
      if !(Given(email.value.senderEmail) && Given(email.value.senderPassword) && recipients != []) {
        return IncompleteEmailConfig;
      }
      if !delivered {
        return DeliveryFailed;
      }
      MarkAlertsSent(alerts);
      outcome := Delivered(recipients);
    }
  }

  /** After a successful notification of the whole pending list, no row is pending. */
  lemma NotifiedPendingAlertsLeaveNonePending(t: Table, alerts: seq<Row>)
    requires forall k | k in t && IsPendingAlert(t[k]) :: Row(k, t[k]) in alerts
    ensures forall k | k in MarkSent(t, KeysOf(alerts)) :: !IsPendingAlert(MarkSent(t, KeysOf(alerts))[k])
  {
    forall k | k in t && IsPendingAlert(t[k]) ensures k in KeysOf(alerts) {
      var i :| 0 <= i < |alerts| && alerts[i] == Row(k, t[k]);
    }
    MarkingAllPendingLeavesNonePending(t, KeysOf(alerts));
  }
}
