/**
 * The notification history table and `_save_notification_history` (app/notification.py):
 * a record is merged into the row that already has its (log_id, recipient, message) key,
 * or inserted when there is none.
 */
module Notification {
  import opened Wrappers
  import opened Constants
  import opened Records

  /** True when `row` has the reconciliation key (log_id, recipient, message) of `rec`. */
  predicate SameKey(row: NotificationHistory, rec: NotificationHistory) {
    row.logId == rec.logId && row.recipient == rec.recipient && row.message == rec.message
  }

  /** The first stored row with the key of `rec` (`existing.data[0]`), if any. */
  function FindKey(rows: seq<NotificationHistory>, rec: NotificationHistory): (r: Option<nat>)
    ensures r.Some? ==> r.value < |rows| && SameKey(rows[r.value], rec)
    ensures r.Some? ==> forall j :: 0 <= j < r.value ==> !SameKey(rows[j], rec)
    ensures r.None? ==> forall j :: 0 <= j < |rows| ==> !SameKey(rows[j], rec)
  {
    if rows == [] then None
    else if SameKey(rows[0], rec) then Some(0)
    else match FindKey(rows[1..], rec)
      case Some(k) => Some(k + 1)
      case None => None
  }

  /** `db.update(..., [id eq id])`: every row whose id is `id` becomes `row`. */
  function WriteById(rows: seq<NotificationHistory>, id: int, row: NotificationHistory): seq<NotificationHistory>
  {
    seq(|rows|, i requires 0 <= i < |rows| => if rows[i].id == Some(id) then row else rows[i])
  }

  /**
   * The merged row `{**existing_record, **update_data}`: the retry count goes one up from
   * the stored one; status, error text and sending time come from the new record.
   */
  function Merge(existing: NotificationHistory, rec: NotificationHistory, now: string): NotificationHistory
  {
    existing.(retryCount := existing.retryCount + 1, status := rec.status,
              errorMessage := rec.errorMessage, sentAt := Some(now))
  }

  /** Stored rows carry distinct ids below the next id and a log id. */
  ghost predicate StoredRows(rows: seq<NotificationHistory>, nextId: int) {
    && (forall i :: 0 <= i < |rows| ==> rows[i].id.Some? && rows[i].id.value < nextId && rows[i].logId.Some?)
    && (forall i, j :: 0 <= i < j < |rows| ==> rows[i].id != rows[j].id)
  }

  /** No two stored rows share a reconciliation key. */
  ghost predicate UniqueKeys(rows: seq<NotificationHistory>) {
    forall i, j :: 0 <= i < j < |rows| ==> !SameKey(rows[i], rows[j])
  }

  /**
   * The table after saving `rec` at time `now`, as rows and next id: unchanged without a
   * log id or when the store fails; otherwise the row with the record's key is merged, or
   * the record is appended under the next id. At most one row is added, ids stay distinct.
   */
  function Reconcile(rows: seq<NotificationHistory>, nextId: int, online: bool,
                     rec: NotificationHistory, now: string): (r: (seq<NotificationHistory>, int))
    requires StoredRows(rows, nextId)
    ensures StoredRows(r.0, r.1)
    ensures |r.0| == |rows| + (r.1 - nextId) && nextId <= r.1 <= nextId + 1
    ensures |r.0| == |rows| + 1 <==> rec.logId.Some? && online && FindKey(rows, rec).None?
    ensures |r.0| == |rows| + 1 ==> r.0[..|rows|] == rows
  {
    if rec.logId.None? || !online then (rows, nextId)
    else match FindKey(rows, rec)
      case Some(i) => (WriteById(rows, rows[i].id.value, Merge(rows[i], rec, now)), nextId)
      case None => (rows + [rec.(id := Some(nextId), sentAt := Some(now))], nextId + 1)
  }

  /**
   * The table after saving `recs` one after the other at time `now`: each record is
   * reconciled with the table the earlier ones left. Ids stay distinct, and each record
   * adds at most one row.
   */
  function ReconcileAll(rows: seq<NotificationHistory>, nextId: int, online: bool,
                        recs: seq<NotificationHistory>, now: string): (r: (seq<NotificationHistory>, int))
    requires StoredRows(rows, nextId)
    ensures StoredRows(r.0, r.1)
    ensures |r.0| == |rows| + (r.1 - nextId) && nextId <= r.1 <= nextId + |recs|
    ensures !online ==> r == (rows, nextId)
  {
    if recs == [] then (rows, nextId)
    else
      var before := ReconcileAll(rows, nextId, online, recs[..|recs| - 1], now);
      Reconcile(before.0, before.1, online, recs[|recs| - 1], now)
  }

  /** Saving one more record reconciles it with the table the earlier ones left. */
  lemma ReconcileAllStep(rows: seq<NotificationHistory>, nextId: int, online: bool,
                         recs: seq<NotificationHistory>, rec: NotificationHistory, now: string)
    requires StoredRows(rows, nextId)
    ensures var before := ReconcileAll(rows, nextId, online, recs, now);
      ReconcileAll(rows, nextId, online, recs + [rec], now) == Reconcile(before.0, before.1, online, rec, now)
  {
    assert (recs + [rec])[..|recs|] == recs;
  }

  class HistoryStore {
    var rows: seq<NotificationHistory>
    var nextId: int
    /** False when every call to the store raises. */
    var online: bool
    /** Every record handed to `Save`, in order. */
    ghost var requests: seq<NotificationHistory>

    ghost predicate Valid()
      reads this
    {
      StoredRows(rows, nextId) && UniqueKeys(rows)
    }

    constructor (online: bool)
      ensures Valid() && rows == [] && requests == [] && this.online == online
    {
      rows := [];
      nextId := 1;
      this.online := online;
      requests := [];
    }

    /**
     * `_save_notification_history`: stamps `sent_at`, then merges into the row with the
     * same key or inserts. Returns False, and writes nothing, without a log id or when
     * the store fails; no error reaches the caller.
     */
    method Save(rec: NotificationHistory, now: string) returns (saved: bool)
      requires Valid()
      modifies this
      ensures Valid()
      ensures saved == (rec.logId.Some? && online)
      ensures (rows, nextId) == Reconcile(old(rows), old(nextId), online, rec, now)
      ensures online == old(online) && requests == old(requests) + [rec]
    {
      requests := requests + [rec];
      if rec.logId.None? {
        return false;
      }
      if !online {
        return false;
      }
      var stamped := rec.(sentAt := Some(now));
      var existing := FindKey(rows, stamped);
      assert existing == FindKey(rows, rec);
      match existing {
        case Some(i) =>
          var merged := Merge(rows[i], stamped, now);
          ReconcileMergeKeepsKeys(rows, nextId, rec, now);
          rows := WriteById(rows, rows[i].id.value, merged);
        case None =>
          ReconcileInsertKeepsKeys(rows, nextId, rec, now);
          rows := rows + [stamped.(id := Some(nextId))];
          nextId := nextId + 1;
      }
      saved := true;
    }
  }

  /** With distinct ids, writing by the id of row `i` changes row `i` only. */
  lemma {:induction false} WriteByIdChangesOneRow(rows: seq<NotificationHistory>, nextId: int, i: nat, row: NotificationHistory)
    requires StoredRows(rows, nextId) && i < |rows|
    ensures WriteById(rows, rows[i].id.value, row) == rows[i := row]
  {
    var w := WriteById(rows, rows[i].id.value, row);
    forall j | 0 <= j < |rows|
      ensures w[j] == rows[i := row][j]
    {
      if j != i {
        assert rows[j].id != rows[i].id by {
          if j < i {} else {}
        }
      }
    }
  }

  lemma ReconcileMergeKeepsKeys(rows: seq<NotificationHistory>, nextId: int, rec: NotificationHistory, now: string)
    requires StoredRows(rows, nextId) && UniqueKeys(rows)
    requires rec.logId.Some? && FindKey(rows, rec).Some?
    ensures var i := FindKey(rows, rec).value;
      var rows' := WriteById(rows, rows[i].id.value, Merge(rows[i], rec, now));
      StoredRows(rows', nextId) && UniqueKeys(rows')
  {
    var i := FindKey(rows, rec).value;
    WriteByIdChangesOneRow(rows, nextId, i, Merge(rows[i], rec, now));
  }

  lemma ReconcileInsertKeepsKeys(rows: seq<NotificationHistory>, nextId: int, rec: NotificationHistory, now: string)
    requires StoredRows(rows, nextId) && UniqueKeys(rows)
    requires rec.logId.Some? && FindKey(rows, rec).None?
    ensures var rows' := rows + [rec.(id := Some(nextId), sentAt := Some(now))];
      StoredRows(rows', nextId + 1) && UniqueKeys(rows')
  {
  }
}

/** What saving a history record does to the table, stated over `Reconcile`. */
module NotificationFacts {
  import opened Wrappers
  import opened Constants
  import opened Records
  import opened Notification

  /** Number of stored rows with the key of `rec`. */
  function KeyCount(rows: seq<NotificationHistory>, rec: NotificationHistory): nat
  {
    if rows == [] then 0
    else (if SameKey(rows[0], rec) then 1 else 0) + KeyCount(rows[1..], rec)
  }

  lemma {:induction false} KeyCountZero(rows: seq<NotificationHistory>, rec: NotificationHistory)
    ensures KeyCount(rows, rec) == 0 <==> forall j :: 0 <= j < |rows| ==> !SameKey(rows[j], rec)
  {
    if rows != [] {
      KeyCountZero(rows[1..], rec);
      assert forall j :: 1 <= j < |rows| ==> rows[j] == rows[1..][j - 1];
    }
  }

  lemma {:induction false} KeyCountOne(rows: seq<NotificationHistory>, rec: NotificationHistory, i: nat)
    requires i < |rows| && SameKey(rows[i], rec)
    requires forall j :: 0 <= j < |rows| && j != i ==> !SameKey(rows[j], rec)
    ensures KeyCount(rows, rec) == 1
  {
    if i == 0 {
      KeyCountZero(rows[1..], rec);
    } else {
      KeyCountOne(rows[1..], rec, i - 1);
    }
  }

  /** Without a log id, or with the store failing, saving changes nothing. */
  lemma ReconcileWithoutLogIdOrStore(rows: seq<NotificationHistory>, nextId: int, online: bool,
                                     rec: NotificationHistory, now: string)
    requires StoredRows(rows, nextId)
    requires rec.logId.None? || !online
    ensures Reconcile(rows, nextId, online, rec, now) == (rows, nextId)
  {
  }

  /**
   * Saving keeps at most one row per key, and leaves exactly one row with the key of the
   * saved record; it adds a row only when no row had that key.
   */
  lemma {:induction false} ReconcileKeepsOneRowPerKey(rows: seq<NotificationHistory>, nextId: int,
                                                     rec: NotificationHistory, now: string)
    requires StoredRows(rows, nextId) && UniqueKeys(rows) && rec.logId.Some?
    ensures var (rows', nextId') := Reconcile(rows, nextId, true, rec, now);
      && StoredRows(rows', nextId') && UniqueKeys(rows')
      && KeyCount(rows', rec) == 1
      && |rows'| == if FindKey(rows, rec).Some? then |rows| else |rows| + 1
  {
    var (rows', nextId') := Reconcile(rows, nextId, true, rec, now);
    match FindKey(rows, rec)
    case Some(i) =>
      ReconcileMergeKeepsKeys(rows, nextId, rec, now);
      WriteByIdChangesOneRow(rows, nextId, i, Merge(rows[i], rec, now));
      assert rows' == rows[i := Merge(rows[i], rec, now)];
      forall j | 0 <= j < |rows'| && j != i
        ensures !SameKey(rows'[j], rec)
      {
        if j < i {} else {}
      }
      KeyCountOne(rows', rec, i);
    case None =>
      ReconcileInsertKeepsKeys(rows, nextId, rec, now);
      KeyCountOne(rows', rec, |rows|);
  }

  /**
   * Merging into the existing row: its retry count becomes the stored one plus one,
   * whatever the new record's status or retry count; status, error text and sending
   * time come from the new record; id, log id, recipient and message stay; no other
   * row changes.
   */
  lemma ReconcileMerges(rows: seq<NotificationHistory>, nextId: int, rec: NotificationHistory, now: string, i: nat)
    requires StoredRows(rows, nextId) && UniqueKeys(rows) && rec.logId.Some?
    requires i < |rows| && SameKey(rows[i], rec)
    ensures var (rows', nextId') := Reconcile(rows, nextId, true, rec, now);
      && nextId' == nextId && |rows'| == |rows|
      && rows'[i].retryCount == rows[i].retryCount + 1
      && rows'[i].status == rec.status
      && rows'[i].errorMessage == rec.errorMessage
      && rows'[i].sentAt == Some(now)
      && rows'[i].id == rows[i].id && rows'[i].logId == rows[i].logId
      && rows'[i].recipient == rows[i].recipient && rows'[i].message == rows[i].message
      && forall j :: 0 <= j < |rows| && j != i ==> rows'[j] == rows[j]
  {
    var k := FindKey(rows, rec);
    assert k == Some(i) by {
      if k.value < i {
        assert SameKey(rows[k.value], rows[i]);
      }
    }
    WriteByIdChangesOneRow(rows, nextId, i, Merge(rows[i], rec, now));
  }

  /**
   * Inserting when no row has the key: the new row is the record with a fresh id, its own
   * retry count and status, stamped with `now`, appended after the existing rows.
   */
  lemma ReconcileInserts(rows: seq<NotificationHistory>, nextId: int, rec: NotificationHistory, now: string)
    requires StoredRows(rows, nextId) && rec.logId.Some?
    requires forall j :: 0 <= j < |rows| ==> !SameKey(rows[j], rec)
    ensures var (rows', nextId') := Reconcile(rows, nextId, true, rec, now);
      && |rows'| == |rows| + 1 && rows'[..|rows|] == rows
      && var row := rows'[|rows|];
      && row.id == Some(nextId) && nextId' == nextId + 1
      && (forall j :: 0 <= j < |rows| ==> rows[j].id != row.id)
      && row.logId == rec.logId && row.recipient == rec.recipient && row.message == rec.message
      && row.status == rec.status && row.errorMessage == rec.errorMessage
      && row.retryCount == rec.retryCount && row.sentAt == Some(now)
  {
  }

  /**
   * Two saves for the same key leave one row, whose retry count is one more than the first
   * record's and whose status is the second record's.
   */
  lemma SavingTwiceKeepsOneRow(rows: seq<NotificationHistory>, nextId: int,
                               first: NotificationHistory, second: NotificationHistory, now1: string, now2: string)
    requires StoredRows(rows, nextId) && UniqueKeys(rows) && first.logId.Some?
    requires forall j :: 0 <= j < |rows| ==> !SameKey(rows[j], first)
    requires SameKey(second, first)
    ensures var (rows1, nextId1) := Reconcile(rows, nextId, true, first, now1);
      var (rows2, nextId2) := Reconcile(rows1, nextId1, true, second, now2);
      && |rows2| == |rows| + 1 && KeyCount(rows2, first) == 1
      && rows2[|rows|].retryCount == first.retryCount + 1
      && rows2[|rows|].status == second.status
  {
    var (rows1, nextId1) := Reconcile(rows, nextId, true, first, now1);
    ReconcileInserts(rows, nextId, first, now1);
    ReconcileKeepsOneRowPerKey(rows, nextId, first, now1);
    assert SameKey(rows1[|rows|], second);
    ReconcileMerges(rows1, nextId1, second, now2, |rows|);
    ReconcileKeepsOneRowPerKey(rows1, nextId1, second, now2);
    var (rows2, nextId2) := Reconcile(rows1, nextId1, true, second, now2);
    assert KeyCount(rows2, second) == 1;
    assert forall r :: SameKey(r, second) <==> SameKey(r, first);
    KeyCountSameKey(rows2, second, first);
  }

  /** Some stored row has the key of `rec`. */
  predicate HasKey(rows: seq<NotificationHistory>, rec: NotificationHistory) {
    exists j :: 0 <= j < |rows| && SameKey(rows[j], rec)
  }

  /** A key stored before a save is still stored after it, and the saved record's key is stored when it has a log id and the store works. */
  lemma ReconcileKeepsKeys(rows: seq<NotificationHistory>, nextId: int, online: bool,
                           rec: NotificationHistory, now: string, other: NotificationHistory)
    requires StoredRows(rows, nextId)
    ensures var (rows', _) := Reconcile(rows, nextId, online, rec, now);
      && (HasKey(rows, other) ==> HasKey(rows', other))
      && (rec.logId.Some? && online ==> HasKey(rows', rec))
  {
    var (rows', _) := Reconcile(rows, nextId, online, rec, now);
    if rec.logId.Some? && online {
      match FindKey(rows, rec)
      case Some(i) =>
        WriteByIdChangesOneRow(rows, nextId, i, Merge(rows[i], rec, now));
        assert SameKey(rows'[i], rec);
        if HasKey(rows, other) {
          var j :| 0 <= j < |rows| && SameKey(rows[j], other);
          assert SameKey(rows'[j], other);
        }
      case None =>
        assert SameKey(rows'[|rows|], rec);
        if HasKey(rows, other) {
          var j :| 0 <= j < |rows| && SameKey(rows[j], other);
          assert rows'[j] == rows[j];
        }
    }
  }

  /**
   * After a fanout's records are saved one after the other with the store working, every
   * record that has a log id has a row with its key: no call's outcome is lost.
   */
  lemma {:induction false} ReconcileAllKeepsEveryRecord(rows: seq<NotificationHistory>, nextId: int,
                                                       recs: seq<NotificationHistory>, now: string)
    requires StoredRows(rows, nextId)
    ensures var (rows', _) := ReconcileAll(rows, nextId, true, recs, now);
      forall i :: 0 <= i < |recs| && recs[i].logId.Some? ==> HasKey(rows', recs[i])
  {
    if recs != [] {
      var init, last := recs[..|recs| - 1], recs[|recs| - 1];
      ReconcileAllKeepsEveryRecord(rows, nextId, init, now);
      var (before, nextBefore) := ReconcileAll(rows, nextId, true, init, now);
      var (rows', _) := ReconcileAll(rows, nextId, true, recs, now);
      forall i | 0 <= i < |recs| && recs[i].logId.Some?
        ensures HasKey(rows', recs[i])
      {
        ReconcileKeepsKeys(before, nextBefore, true, last, now, recs[i]);
        if i < |recs| - 1 {
          assert recs[i] == init[i];
        }
      }
    }
  }

  lemma {:induction false} KeyCountSameKey(rows: seq<NotificationHistory>, a: NotificationHistory, b: NotificationHistory)
    requires SameKey(a, b)
    ensures KeyCount(rows, a) == KeyCount(rows, b)
  {
    if rows != [] {
      KeyCountSameKey(rows[1..], a, b);
    }
  }
}
