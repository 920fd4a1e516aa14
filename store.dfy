/**
 * The `energy_data` table as one mutable store. Each method is one SQL
 * statement the applications issue; UPDATE statements report SQLite's
 * `rowcount`, the number of rows their WHERE clause matched.
 */
module EnergyStore {
  import opened Optional
  import opened Records
  import opened Lifecycle

  class Store {
    var table: Table

    /** Every row is as the collector writes it. */
    ghost predicate Valid()
      reads this
    {
      TableValid(table)
    }

    constructor ()
      ensures table == map[] && Valid()
    {
      table := map[];
    }

    /** `SELECT alert_acknowledged FROM energy_data WHERE <key>`: None when no row has the key. */
    function AcknowledgedFlag(k: Key): (flag: Option<bool>)
      reads this
      ensures flag.Some? <==> k in table
      ensures flag.Some? ==> flag.value == table[k].alertAcknowledged
    {
      if k in table then Some(table[k].alertAcknowledged) else None
    }

    /** `INSERT OR REPLACE`: the row for `k` becomes `rec`, whether or not one existed. */
    method InsertOrReplace(k: Key, rec: Record)
      modifies this
      ensures table == old(table)[k := rec]
      ensures old(Valid()) && WellFormed(rec) ==> Valid()
    {
      table := table[k := rec];
    }

    /** `UPDATE energy_data SET alert_acknowledged = 0, alert_sent = 0 WHERE w`. */
    method ClearFlags(w: Where) returns (rowcount: nat)
      modifies this
      ensures table == ClearWhere(old(table), w)
      ensures rowcount == MatchCount(old(table), w)
      ensures old(Valid()) ==> Valid()
    {
      rowcount := |set k | k in table && Matches(w, k, table[k])|;
      if Valid() {
        ClearWhereKeepsTableValid(table, w);
      }
      table := map k | k in table :: if Matches(w, k, table[k]) then Cleared(table[k]) else table[k];
    }

    /** `UPDATE energy_data SET alert_acknowledged = 1 WHERE w`. */
    method SetAcknowledged(w: Where) returns (rowcount: nat)
      modifies this
      ensures table == AcknowledgeWhere(old(table), w)
      ensures rowcount == MatchCount(old(table), w)
      ensures old(Valid()) ==> Valid()
    {
      rowcount := |set k | k in table && Matches(w, k, table[k])|;
      if Valid() {
        AcknowledgeWhereKeepsTableValid(table, w);
      }
      table := map k | k in table :: if Matches(w, k, table[k]) then table[k].(alertAcknowledged := true) else table[k];
    }

    /** `UPDATE energy_data SET alert_sent = 1 WHERE pod_code = ? AND obis_code = ? AND date = ?`. */
    method SetSent(k: Key) returns (rowcount: nat)
      modifies this
      ensures table == MarkSentAt(old(table), k)
      ensures rowcount == if k in old(table) then 1 else 0
      ensures old(Valid()) ==> Valid()
    {
      if Valid() {
        MarkSentAtKeepsTableValid(table, k);
      }
      if k in table {
        table := table[k := table[k].(alertSent := true)];
        rowcount := 1;
      } else {
        rowcount := 0;
      }
    }
  }
}
