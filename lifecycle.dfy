/**
 * The alert lifecycle on the whole table: the WHERE clauses the bulk
 * UPDATE statements use, what each statement does to the table, and the
 * scope-level transitions (reset, acknowledge, mark-sent, re-collection)
 * with the properties they keep.
 */
module Lifecycle {
  import opened Optional
  import opened Records

  type Table = map<Key, Record>

  /** Every row of the table is well formed. */
  predicate TableValid(t: Table)
  {
    forall k | k in t :: WellFormed(t[k])
  }

  /**
   * A WHERE clause of the bulk updates: `pod_code = ?`, `date = ?` and
   * `is_underperforming = 1`, each present or absent.
   */
  datatype Where = Where(podCode: Option<string>, date: Option<string>, underperformingOnly: bool)

  predicate Matches(w: Where, k: Key, r: Record)
  {
    && (w.podCode.Some? ==> k.podCode == w.podCode.value)
    && (w.date.Some? ==> k.date == w.date.value)
    && (w.underperformingOnly ==> r.isUnderperforming)
  }

  /** `cursor.rowcount`: the rows the WHERE clause matched, changed or not. */
  function MatchCount(t: Table, w: Where): nat
  {
    |set k | k in t && Matches(w, k, t[k])|
  }

  function Cleared(r: Record): Record
  {
    r.(alertSent := false, alertAcknowledged := false)
  }

  /** `UPDATE energy_data SET alert_acknowledged = 0, alert_sent = 0 WHERE w`. */
  function ClearWhere(t: Table, w: Where): Table
  {
    map k | k in t :: if Matches(w, k, t[k]) then Cleared(t[k]) else t[k]
  }

  /** `UPDATE energy_data SET alert_acknowledged = 1 WHERE w`. */
  function AcknowledgeWhere(t: Table, w: Where): Table
  {
    map k | k in t :: if Matches(w, k, t[k]) then t[k].(alertAcknowledged := true) else t[k]
  }

  /** `UPDATE energy_data SET alert_sent = 1 WHERE pod_code = ? AND obis_code = ? AND date = ?`. */
  function MarkSentAt(t: Table, k: Key): Table
  {
    if k in t then t[k := t[k].(alertSent := true)] else t
  }

  /** The conjunctive POD / date scope of an operation; an absent or empty argument does not restrict. */
  predicate InScope(k: Key, podCode: Option<string>, date: Option<string>)
  {
    && (Given(podCode) ==> k.podCode == podCode.value)
    && (Given(date) ==> k.date == date.value)
  }

  /**
   * The rows a reset touches: the whole scope; only when neither POD nor
   * date is given and `guardUnscoped` holds, the underperforming rows alone.
   */
  predicate ResetSelects(k: Key, r: Record, podCode: Option<string>, date: Option<string>, guardUnscoped: bool)
  {
    InScope(k, podCode, date) && (guardUnscoped && !Given(podCode) && !Given(date) ==> r.isUnderperforming)
  }

  function Reset(t: Table, podCode: Option<string>, date: Option<string>, guardUnscoped: bool): Table
  {
    map k | k in t :: if ResetSelects(k, t[k], podCode, date, guardUnscoped) then Cleared(t[k]) else t[k]
  }

  function ResetCount(t: Table, podCode: Option<string>, date: Option<string>, guardUnscoped: bool): nat
  {
    |set k | k in t && ResetSelects(k, t[k], podCode, date, guardUnscoped)|
  }

  /** The rows an acknowledgement touches: the underperforming rows of the scope. */
  predicate AcknowledgeSelects(k: Key, r: Record, podCode: Option<string>, date: Option<string>)
  {
    InScope(k, podCode, date) && r.isUnderperforming
  }

  function Acknowledge(t: Table, podCode: Option<string>, date: Option<string>): Table
  {
    map k | k in t :: if AcknowledgeSelects(k, t[k], podCode, date) then t[k].(alertAcknowledged := true) else t[k]
  }

  function AcknowledgeCount(t: Table, podCode: Option<string>, date: Option<string>): nat
  {
    |set k | k in t && AcknowledgeSelects(k, t[k], podCode, date)|
  }

  /** Marking a set of keys sent: the rows present get `alert_sent = 1`, whatever their classification. */
  function MarkSent(t: Table, keys: set<Key>): Table
  {
    map k | k in t :: if k in keys then t[k].(alertSent := true) else t[k]
  }

  /** The `SELECT alert_acknowledged` before a write: false when the key is new. */
  function PriorAcknowledged(t: Table, k: Key): bool
  {
    k in t && t[k].alertAcknowledged
  }

  /** The keys of a list of selected rows. */
  function KeysOf(rows: seq<Row>): (keys: set<Key>)
    ensures forall i | 0 <= i < |rows| :: rows[i].key in keys
    ensures forall k | k in keys :: exists i | 0 <= i < |rows| :: rows[i].key == k
  {
    set i | 0 <= i < |rows| :: rows[i].key
  }

  // ---------------------------------------------------------------------
  // From WHERE clauses to scopes

  /** A WHERE clause that selects exactly the rows of a reset scope performs that reset. */
  lemma ClearWhereIsReset(t: Table, w: Where, podCode: Option<string>, date: Option<string>, guardUnscoped: bool)
    requires forall k, r :: Matches(w, k, r) <==> ResetSelects(k, r, podCode, date, guardUnscoped)
    ensures ClearWhere(t, w) == Reset(t, podCode, date, guardUnscoped)
    ensures MatchCount(t, w) == ResetCount(t, podCode, date, guardUnscoped)
  {
    assert (set k | k in t && Matches(w, k, t[k])) == (set k | k in t && ResetSelects(k, t[k], podCode, date, guardUnscoped));
  }

  /** A WHERE clause that selects exactly the rows of an acknowledgement scope performs it. */
  lemma AcknowledgeWhereIsAcknowledge(t: Table, w: Where, podCode: Option<string>, date: Option<string>)
    requires forall k, r :: Matches(w, k, r) <==> AcknowledgeSelects(k, r, podCode, date)
    ensures AcknowledgeWhere(t, w) == Acknowledge(t, podCode, date)
    ensures MatchCount(t, w) == AcknowledgeCount(t, podCode, date)
  {
    assert (set k | k in t && Matches(w, k, t[k])) == (set k | k in t && AcknowledgeSelects(k, t[k], podCode, date));
  }

  /** Marking keys one at a time, in any order, adds up to marking the set. */
  lemma MarkSentStep(t0: Table, t: Table, keys: set<Key>, k: Key)
    requires t == MarkSent(t0, keys)
    ensures MarkSentAt(t, k) == MarkSent(t0, keys + {k})
  {
  }

  // ---------------------------------------------------------------------
  // Reset

  /** Reset clears both flags on every selected row and changes nothing else. */
  lemma ResetEffect(t: Table, podCode: Option<string>, date: Option<string>, guardUnscoped: bool)
    ensures Reset(t, podCode, date, guardUnscoped).Keys == t.Keys
    ensures forall k | k in t && ResetSelects(k, t[k], podCode, date, guardUnscoped) ::
      var r := Reset(t, podCode, date, guardUnscoped)[k];
      !r.alertSent && !r.alertAcknowledged && r.(alertSent := t[k].alertSent, alertAcknowledged := t[k].alertAcknowledged) == t[k]
    ensures forall k | k in t && !ResetSelects(k, t[k], podCode, date, guardUnscoped) ::
      Reset(t, podCode, date, guardUnscoped)[k] == t[k]
  {
  }

  /** Without the guard, reset selects the whole scope, underperforming or not. */
  lemma UnguardedResetIgnoresClassification(k: Key, r: Record, podCode: Option<string>, date: Option<string>)
    ensures ResetSelects(k, r, podCode, date, false) <==> InScope(k, podCode, date)
  {
  }

  /** The guard makes a difference only to the unscoped reset. */
  lemma GuardOnlyAffectsUnscopedReset(t: Table, podCode: Option<string>, date: Option<string>)
    requires Given(podCode) || Given(date)
    ensures Reset(t, podCode, date, true) == Reset(t, podCode, date, false)
    ensures ResetCount(t, podCode, date, true) == ResetCount(t, podCode, date, false)
  {
    assert (set k | k in t && ResetSelects(k, t[k], podCode, date, true))
        == (set k | k in t && ResetSelects(k, t[k], podCode, date, false));
  }

  /** Resetting twice is resetting once. */
  lemma ResetIdempotent(t: Table, podCode: Option<string>, date: Option<string>, guardUnscoped: bool)
    ensures Reset(Reset(t, podCode, date, guardUnscoped), podCode, date, guardUnscoped) == Reset(t, podCode, date, guardUnscoped)
  {
  }

  /** A reset row is pending again when it is underperforming. */
  lemma ResetReturnsToPending(t: Table, podCode: Option<string>, date: Option<string>, guardUnscoped: bool, k: Key)
    requires k in t && ResetSelects(k, t[k], podCode, date, guardUnscoped) && t[k].isUnderperforming
    ensures IsPendingAlert(Reset(t, podCode, date, guardUnscoped)[k])
  {
  }

  // ---------------------------------------------------------------------
  // Acknowledge

  /** Acknowledge sets the flag exactly on the underperforming rows of the scope and changes nothing else. */
  lemma AcknowledgeEffect(t: Table, podCode: Option<string>, date: Option<string>)
    ensures Acknowledge(t, podCode, date).Keys == t.Keys
    ensures forall k | k in t ::
      var r := Acknowledge(t, podCode, date)[k];
      && (r.alertAcknowledged <==> t[k].alertAcknowledged || AcknowledgeSelects(k, t[k], podCode, date))
      && r.(alertAcknowledged := t[k].alertAcknowledged) == t[k]
    ensures forall k | k in t && !t[k].isUnderperforming :: Acknowledge(t, podCode, date)[k] == t[k]
    ensures forall k | k in t :: Acknowledge(t, podCode, date)[k].alertSent == t[k].alertSent
  {
  }

  lemma AcknowledgeIdempotent(t: Table, podCode: Option<string>, date: Option<string>)
    ensures Acknowledge(Acknowledge(t, podCode, date), podCode, date) == Acknowledge(t, podCode, date)
  {
  }

  /**
   * The affected count counts every selected row, acknowledged before or
   * not: a repeated acknowledgement reports the same count again.
   */
  lemma AcknowledgeCountRepeats(t: Table, podCode: Option<string>, date: Option<string>)
    ensures AcknowledgeCount(Acknowledge(t, podCode, date), podCode, date) == AcknowledgeCount(t, podCode, date)
  {
    var t' := Acknowledge(t, podCode, date);
    assert (set k | k in t' && AcknowledgeSelects(k, t'[k], podCode, date))
        == (set k | k in t && AcknowledgeSelects(k, t[k], podCode, date));
  }

  // ---------------------------------------------------------------------
  // Mark sent

  lemma MarkSentNothingIsNoop(t: Table)
    ensures MarkSent(t, {}) == t
  {
  }

  /** Marking sets `alert_sent` on the listed rows only, leaving every other column alone. */
  lemma MarkSentEffect(t: Table, keys: set<Key>)
    ensures MarkSent(t, keys).Keys == t.Keys
    ensures forall k | k in t :: MarkSent(t, keys)[k].alertSent == (t[k].alertSent || k in keys)
    ensures forall k | k in t :: MarkSent(t, keys)[k].(alertSent := t[k].alertSent) == t[k]
  {
  }

  /** Once every pending row is marked, none is pending. */
  lemma MarkingAllPendingLeavesNonePending(t: Table, keys: set<Key>)
    requires forall k | k in t && IsPendingAlert(t[k]) :: k in keys
    ensures forall k | k in MarkSent(t, keys) :: !IsPendingAlert(MarkSent(t, keys)[k])
  {
  }

  // ---------------------------------------------------------------------
  // Re-collection (INSERT OR REPLACE with carry-forward)

  /** An acknowledged day stays acknowledged, and is never pending, after it is collected again. */
  lemma RecollectionKeepsAcknowledgement(t: Table, k: Key, podName: string, obisDescription: string, kwhPrice: real,
                                         peakPowerKw: real, response: MeteringResponse, weather: Option<Performance.Weather>)
    requires response.aggregatedTimeSeries.Some? && |response.aggregatedTimeSeries.value| > 0
    requires k in t && t[k].alertAcknowledged
    ensures var r := NewRecord(podName, obisDescription, kwhPrice, peakPowerKw, response, weather, PriorAcknowledged(t, k));
      r.alertAcknowledged && !r.alertSent && !IsPendingAlert(r)
  {
  }

  /**
   * Collect a day, acknowledge its POD, collect it again with a new value:
   * the new value is stored, still acknowledged and not sent.
   */
  lemma CollectAcknowledgeRecollect(t: Table, k: Key, podName: string, obisDescription: string, kwhPrice: real,
                                    peakPowerKw: real, first: MeteringResponse, second: MeteringResponse,
                                    weather: Option<Performance.Weather>)
    requires first.aggregatedTimeSeries.Some? && |first.aggregatedTimeSeries.value| > 0
    requires second.aggregatedTimeSeries.Some? && |second.aggregatedTimeSeries.value| > 0
    requires Given(Some(k.podCode))
    requires NewRecord(podName, obisDescription, kwhPrice, peakPowerKw, first, weather, false).isUnderperforming
    ensures
      var t1 := t[k := NewRecord(podName, obisDescription, kwhPrice, peakPowerKw, first, weather, PriorAcknowledged(t, k))];
      var t2 := Acknowledge(t1, Some(k.podCode), None);
      var t3 := t2[k := NewRecord(podName, obisDescription, kwhPrice, peakPowerKw, second, weather, PriorAcknowledged(t2, k))];
      && t3[k].valueKwh == second.aggregatedTimeSeries.value[0].value
      && t3[k].alertAcknowledged && !t3[k].alertSent
  {
    var t1 := t[k := NewRecord(podName, obisDescription, kwhPrice, peakPowerKw, first, weather, PriorAcknowledged(t, k))];
    // The first write's classification does not depend on the carried flag.
    assert t1[k].isUnderperforming == NewRecord(podName, obisDescription, kwhPrice, peakPowerKw, first, weather, false).isUnderperforming;
    assert AcknowledgeSelects(k, t1[k], Some(k.podCode), None);
  }

  // ---------------------------------------------------------------------
  // The store invariant

  lemma ClearWhereKeepsTableValid(t: Table, w: Where)
    requires TableValid(t)
    ensures TableValid(ClearWhere(t, w))
  {
    forall k | k in t {
      WellFormedIgnoresFlags(t[k], false, false);
    }
  }

  lemma AcknowledgeWhereKeepsTableValid(t: Table, w: Where)
    requires TableValid(t)
    ensures TableValid(AcknowledgeWhere(t, w))
  {
    forall k | k in t {
      WellFormedIgnoresFlags(t[k], t[k].alertSent, true);
    }
  }

  lemma MarkSentAtKeepsTableValid(t: Table, k: Key)
    requires TableValid(t)
    ensures TableValid(MarkSentAt(t, k))
  {
    if k in t {
      WellFormedIgnoresFlags(t[k], true, t[k].alertAcknowledged);
    }
  }
}
