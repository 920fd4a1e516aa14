/**
 * The read side shared by the collector, the web API and the CLI: the
 * alert query `WHERE is_underperforming = 1 [AND status] [AND date = ?]
 * [AND pod_code = ?] ORDER BY date DESC, pod_name`, the four COUNT
 * statistics, and the CLI's status label.
 */
module Queries {
  import opened Optional
  import opened Records
  import TextOrder
  import opened Lifecycle

  /** The status filter of the alert lists. */
  datatype Status = All | Pending | Sent | Acknowledged

  predicate StatusAdmits(s: Status, r: Record)
  {
    match s
    case All => true
    case Pending => !r.alertSent && !r.alertAcknowledged
    case Sent => r.alertSent && !r.alertAcknowledged
    case Acknowledged => r.alertAcknowledged
  }

  /** An alert query: a status and optional date and POD filters, conjoined. */
  datatype Query = Query(status: Status, date: Option<string>, podCode: Option<string>)

  predicate Selects(q: Query, k: Key, r: Record)
  {
    && r.isUnderperforming
    && StatusAdmits(q.status, r)
    && (Given(q.date) ==> k.date == q.date.value)
    && (Given(q.podCode) ==> k.podCode == q.podCode.value)
  }

  /** The rows with keys in `keys` that the query selects. */
  function RowsAmong(t: Table, q: Query, keys: set<Key>): set<Row>
  {
    set k | k in keys && k in t && Selects(q, k, t[k]) :: Row(k, t[k])
  }

  /** Every row of the table the query selects. */
  function Matching(t: Table, q: Query): set<Row>
  {
    RowsAmong(t, q, t.Keys)
  }

  lemma MatchingMembers(t: Table, q: Query, row: Row)
    ensures row in Matching(t, q) <==> row.key in t && row.rec == t[row.key] && Selects(q, row.key, row.rec)
  {
    if row.key in t && row.rec == t[row.key] && Selects(q, row.key, row.rec) {
      assert row == Row(row.key, t[row.key]);
    }
  }

  // ---------------------------------------------------------------------
  // ORDER BY date DESC, pod_name

  /** `a` may come before `b`: a later date, or the same date and a pod name no later. */
  predicate Precedes(a: Row, b: Row)
  {
    || TextOrder.Less(b.key.date, a.key.date)
    || (a.key.date == b.key.date && TextOrder.LessEq(a.rec.podName, b.rec.podName))
  }

  predicate Sorted(rows: seq<Row>)
  {
    forall i, j | 0 <= i < j < |rows| :: Precedes(rows[i], rows[j])
  }

  lemma PrecedesTotal(a: Row, b: Row)
    ensures Precedes(a, b) || Precedes(b, a)
  {
    TextOrder.Total(a.key.date, b.key.date);
    TextOrder.Total(a.rec.podName, b.rec.podName);
  }

  lemma PrecedesTransitive(a: Row, b: Row, c: Row)
    requires Precedes(a, b) && Precedes(b, c)
    ensures Precedes(a, c)
  {
    var da, db, dc := a.key.date, b.key.date, c.key.date;
    if da == db && db == dc {
      TextOrder.Transitive(a.rec.podName, b.rec.podName, c.rec.podName);
    } else {
      TextOrder.Reflexive(db);
      assert TextOrder.LessEq(db, da) && TextOrder.LessEq(dc, db);
      TextOrder.Transitive(dc, db, da);
      if dc == da {
        TextOrder.Antisymmetric(da, db);
      }
    }
  }

  /** Inserts a row after every row that may precede it. */
  function Insert(rows: seq<Row>, x: Row): (r: seq<Row>)
    ensures multiset(r) == multiset(rows) + multiset{x}
  {
    if rows == [] then [x]
    else if Precedes(rows[0], x) then
      assert rows == [rows[0]] + rows[1..];
      [rows[0]] + Insert(rows[1..], x)
    else [x] + rows
  }

  lemma {:induction false} InsertKeepsSorted(rows: seq<Row>, x: Row)
    requires Sorted(rows)
    ensures Sorted(Insert(rows, x))
  {
    if rows == [] {
    } else if Precedes(rows[0], x) {
      var rest := Insert(rows[1..], x);
      InsertKeepsSorted(rows[1..], x);
      forall j | 0 <= j < |rest| ensures Precedes(rows[0], rest[j]) {
        assert rest[j] in multiset(rows[1..]) + multiset{x};
        if rest[j] != x {
          var m :| 0 <= m < |rows[1..]| && rows[1..][m] == rest[j];
          assert rows[1 + m] == rest[j];
        }
      }
    } else {
      PrecedesTotal(rows[0], x);
      forall j | 0 < j < |rows| ensures Precedes(x, rows[j]) {
        PrecedesTransitive(x, rows[0], rows[j]);
      }
    }
  }

  lemma RowsAmongAdd(t: Table, q: Query, keys: set<Key>, k: Key)
    requires k in t && k !in keys
    ensures Row(k, t[k]) !in RowsAmong(t, q, keys)
    ensures RowsAmong(t, q, keys + {k})
         == if Selects(q, k, t[k]) then RowsAmong(t, q, keys) + {Row(k, t[k])} else RowsAmong(t, q, keys)
  {
  }

  /** The keys among `keys` whose rows the query selects. */
  function KeysAmong(t: Table, q: Query, keys: set<Key>): set<Key>
  {
    set k | k in keys && k in t && Selects(q, k, t[k])
  }

  lemma KeysAmongAdd(t: Table, q: Query, keys: set<Key>, k: Key)
    requires k in t && k !in keys
    ensures |KeysAmong(t, q, keys + {k})| == |KeysAmong(t, q, keys)| + if Selects(q, k, t[k]) then 1 else 0
  {
    if Selects(q, k, t[k]) {
      assert KeysAmong(t, q, keys + {k}) == KeysAmong(t, q, keys) + {k};
    } else {
      assert KeysAmong(t, q, keys + {k}) == KeysAmong(t, q, keys);
    }
  }

  /**
   * The engine's SELECT ... ORDER BY: every selected row exactly once,
   * in an order where each row may precede all that follow it.
   */
  method SelectRows(t: Table, q: Query) returns (rows: seq<Row>)
    ensures Sorted(rows)
    ensures multiset(rows) == multiset(Matching(t, q))
    ensures |rows| == CountWhere(t, q)
  {
    rows := [];
    var remaining := t.Keys;
    while remaining != {}
      invariant remaining <= t.Keys
      invariant Sorted(rows)
      invariant multiset(rows) == multiset(RowsAmong(t, q, t.Keys - remaining))
      invariant |rows| == |KeysAmong(t, q, t.Keys - remaining)|
      decreases remaining
    {
      var k :| k in remaining;
      ghost var seen := t.Keys - remaining;
      RowsAmongAdd(t, q, seen, k);
      KeysAmongAdd(t, q, seen, k);
      assert t.Keys - (remaining - {k}) == seen + {k};
      if Selects(q, k, t[k]) {
        InsertKeepsSorted(rows, Row(k, t[k]));
        rows := Insert(rows, Row(k, t[k]));
      }
      remaining := remaining - {k};
    }
    assert t.Keys - remaining == t.Keys;
    assert KeysAmong(t, q, t.Keys) == set k | k in t && Selects(q, k, t[k]);
  }

  /** What a sorted selection guarantees about each row it returns. */
  lemma SelectedRowFacts(t: Table, q: Query, rows: seq<Row>, i: int)
    requires multiset(rows) == multiset(Matching(t, q)) && 0 <= i < |rows|
    ensures rows[i].key in t && t[rows[i].key] == rows[i].rec && Selects(q, rows[i].key, rows[i].rec)
  {
    assert rows[i] in multiset(rows);
    MatchingMembers(t, q, rows[i]);
  }

  // ---------------------------------------------------------------------
  // Statistics

  /** `SELECT COUNT(*)` of the rows a query selects. */
  function CountWhere(t: Table, q: Query): nat
  {
    |set k | k in t && Selects(q, k, t[k])|
  }

  datatype AlertStats = AlertStats(totalAlerts: nat, pending: nat, sent: nat, acknowledged: nat)

  /**
   * The four counts of the statistics page: the underperforming rows, and
   * those of them a pending, sent or acknowledged list would show. The
   * three lifecycle states partition the underperforming rows.
   */
  function Statistics(t: Table): (s: AlertStats)
    ensures s.totalAlerts == |set k | k in t && t[k].isUnderperforming|
    ensures s.pending == |set k | k in t && IsPendingAlert(t[k])|
    ensures s.sent == |set k | k in t && IsSentAlert(t[k])|
    ensures s.acknowledged == |set k | k in t && IsAcknowledgedAlert(t[k])|
    ensures s.pending + s.sent + s.acknowledged == s.totalAlerts
  {
    var all := set k | k in t && t[k].isUnderperforming;
    var p := set k | k in t && IsPendingAlert(t[k]);
    var s := set k | k in t && IsSentAlert(t[k]);
    var a := set k | k in t && IsAcknowledgedAlert(t[k]);
    assert p * s == {} && (p + s) * a == {};
    assert all == p + s + a;
    AlertStats(|all|, |p|, |s|, |a|)
  }

  /** Each count is the count of the list with that status filter. */
  lemma StatisticsAgreeWithStatusFilters(t: Table)
    ensures Statistics(t).totalAlerts == CountWhere(t, Query(All, None, None))
    ensures Statistics(t).pending == CountWhere(t, Query(Pending, None, None))
    ensures Statistics(t).sent == CountWhere(t, Query(Sent, None, None))
    ensures Statistics(t).acknowledged == CountWhere(t, Query(Acknowledged, None, None))
  {
    assert (set k | k in t && t[k].isUnderperforming) == (set k | k in t && Selects(Query(All, None, None), k, t[k]));
    assert (set k | k in t && IsPendingAlert(t[k])) == (set k | k in t && Selects(Query(Pending, None, None), k, t[k]));
    assert (set k | k in t && IsSentAlert(t[k])) == (set k | k in t && Selects(Query(Sent, None, None), k, t[k]));
    assert (set k | k in t && IsAcknowledgedAlert(t[k])) == (set k | k in t && Selects(Query(Acknowledged, None, None), k, t[k]));
  }

  /** After an unscoped acknowledgement every alert is acknowledged and none is pending or sent. */
  lemma AcknowledgeAllEmptiesQueues(t: Table)
    ensures var s := Statistics(Acknowledge(t, None, None));
      s.pending == 0 && s.sent == 0 && s.acknowledged == s.totalAlerts
  {
    var t' := Acknowledge(t, None, None);
    assert (set k | k in t' && IsPendingAlert(t'[k])) == {};
    assert (set k | k in t' && IsSentAlert(t'[k])) == {};
  }

  /** An unscoped, guarded reset makes every alert pending again. */
  lemma ResetAllMakesEverythingPending(t: Table)
    ensures var s := Statistics(Reset(t, None, None, true));
      s.pending == s.totalAlerts && s.sent == 0 && s.acknowledged == 0
  {
    var t' := Reset(t, None, None, true);
    assert (set k | k in t' && IsSentAlert(t'[k])) == {};
    assert (set k | k in t' && IsAcknowledgedAlert(t'[k])) == {};
  }

  // ---------------------------------------------------------------------
  // The CLI's status column

  /** Acknowledgement dominates sent. */
  function StatusLabel(r: Record): string
  {
    if r.alertAcknowledged then "Acknowledged"
    else if r.alertSent then "Sent"
    else "Pending"
  }

  /** On an alert, the label names exactly the status filter that admits it. */
  lemma StatusLabelMatchesFilters(r: Record)
    requires r.isUnderperforming
    ensures StatusLabel(r) == "Pending" <==> IsPendingAlert(r)
    ensures StatusLabel(r) == "Sent" <==> IsSentAlert(r)
    ensures StatusLabel(r) == "Acknowledged" <==> IsAcknowledgedAlert(r)
  {
  }
}
