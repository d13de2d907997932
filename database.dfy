/**
 * The log logic of app/database.py: the escalation threshold, the duplicate lookup, the
 * escalation check, and inserting and updating TB_LOGS rows, which may notify the log's
 * employees through `send_message`.
 */
module Database {
  import opened Wrappers
  import opened Text
  import opened Constants
  import opened Records
  import opened Transport
  import Notification
  import opened Messaging

  /** The escalation threshold of a risk level: 5 (normal), 3 (high), 1 (emergency), else 5. */
  function Threshold(riskLevel: int): (n: nat)
    ensures 1 <= n <= 5
    ensures riskLevel == RiskEmergency <==> n == 1
  {
    if riskLevel == RiskLow then 5
    else if riskLevel == RiskHigh then 3
    else if riskLevel == RiskEmergency then 1
    else 5
  }

  /** A higher risk level never needs more occurrences before a notification. */
  lemma ThresholdDecreasesWithRisk(a: int, b: int)
    requires RiskLow <= a <= b <= RiskEmergency
    ensures Threshold(b) <= Threshold(a)
    ensures a < b ==> Threshold(b) < Threshold(a)
  {
  }

  /** True when `row` and `log` report the same problem: same location, function and text. */
  predicate SameTriple(row: Log, log: Log) {
    row.location == log.location && row.func == log.func && row.log == log.log
  }

  /** The first stored row with the triple of `log` (`response.data[0]`), if any. */
  function FindTriple(rows: seq<Log>, log: Log): (r: Option<nat>)
    ensures r.Some? ==> r.value < |rows| && SameTriple(rows[r.value], log)
    ensures r.Some? ==> forall j :: 0 <= j < r.value ==> !SameTriple(rows[j], log)
    ensures r.None? ==> forall j :: 0 <= j < |rows| ==> !SameTriple(rows[j], log)
  {
    if rows == [] then None
    else if SameTriple(rows[0], log) then Some(0)
    else match FindTriple(rows[1..], log)
      case Some(k) => Some(k + 1)
      case None => None
  }

  /**
   * `check_log`: the stored row with the same triple, as a `Log`, or None when there is
   * none or the store fails.
   */
  function CheckLog(rows: seq<Log>, online: bool, log: Log): (r: Option<Log>)
    ensures r.Some? <==> online && exists i :: 0 <= i < |rows| && SameTriple(rows[i], log)
    ensures r.Some? ==> exists i :: 0 <= i < |rows| && r.value == rows[i] && SameTriple(rows[i], log)
                                    && forall j :: 0 <= j < i ==> !SameTriple(rows[j], log)
  {
    if !online then None
    else match FindTriple(rows, log)
      case Some(i) => Some(rows[i])
      case None => None
  }

  /** A stored row that counts toward escalating `log`: same triple and level, count at the threshold. */
  predicate AtThreshold(row: Log, log: Log) {
    SameTriple(row, log) && row.riskLevel == log.riskLevel && row.count >= Threshold(log.riskLevel)
  }

  /**
   * `need_send`: the query filtering on location, function, text, risk level and
   * `count >= threshold` returns some row; False when the store fails. Whenever it holds,
   * `check_log` finds the problem too.
   */
  predicate NeedSend(rows: seq<Log>, online: bool, log: Log)
    ensures NeedSend(rows, online, log) ==> CheckLog(rows, online, log).Some?
  {
    online && exists i :: 0 <= i < |rows| && AtThreshold(rows[i], log)
  }

  /** Every row has a distinct id below the next id. */
  ghost predicate StoredLogs(rows: seq<Log>, nextId: int) {
    && (forall i :: 0 <= i < |rows| ==> rows[i].id.Some? && rows[i].id.value < nextId)
    && (forall i, j :: 0 <= i < j < |rows| ==> rows[i].id != rows[j].id)
  }

  /** No two rows report the same problem. */
  ghost predicate TriplesUnique(rows: seq<Log>) {
    forall i, j :: 0 <= i < j < |rows| ==> !SameTriple(rows[i], rows[j])
  }

  /** `update("TB_LOGS", data, [id eq id])`: every row whose id is `id` becomes `row`. */
  function WriteLogById(rows: seq<Log>, id: int, row: Log): (r: seq<Log>)
    ensures |r| == |rows|
    ensures forall i :: 0 <= i < |rows| ==> r[i] == if rows[i].id == Some(id) then row else rows[i]
  {
    if rows == [] then []
    else WriteLogById(rows[..|rows| - 1], id, row)
         + [if rows[|rows| - 1].id == Some(id) then row else rows[|rows| - 1]]
  }

  /** The TB_LOGS table. */
  class LogStore {
    var rows: seq<Log>
    var nextId: int
    /** False when every call to the store raises. */
    var online: bool

    ghost predicate Valid()
      reads this
    {
      StoredLogs(rows, nextId)
    }

    constructor (online: bool)
      ensures Valid() && rows == [] && nextId == 1 && this.online == online
    {
      rows := [];
      nextId := 1;
      this.online := online;
    }

    /** `insert`: the store assigns the next id; None when the store fails. */
    method Insert(log: Log) returns (id: Option<int>)
      requires Valid()
      modifies this
      ensures Valid() && online == old(online)
      ensures id.Some? <==> online
      ensures online ==> id == Some(old(nextId)) && nextId == old(nextId) + 1
                         && rows == old(rows) + [log.(id := Some(old(nextId)))]
      ensures !online ==> rows == old(rows) && nextId == old(nextId)
    {
      if !online {
        return None;
      }
      rows := rows + [log.(id := Some(nextId))];
      id := Some(nextId);
      nextId := nextId + 1;
    }

    /** `update` filtered on `id`: False when the store fails. */
    method UpdateById(id: int, row: Log) returns (ok: bool)
      requires Valid() && row.id == Some(id)
      modifies this
      ensures Valid() && online == old(online) && nextId == old(nextId)
      ensures ok == online
      ensures rows == if online then WriteLogById(old(rows), id, row) else old(rows)
    {
      if !online {
        return false;
      }
      var written := WriteLogById(rows, id, row);
      assert forall i :: 0 <= i < |rows| ==> written[i].id == rows[i].id;
      rows := written;
      ok := true;
    }
  }

  /** The message `insert_log` sends for an emergency log. */
  function EmergencyMessage(log: Log): Message {
    Message("系統緊急通知", "位置:" + log.location + "\n功能:" + log.func + "\n紀錄:" + log.log, log.employees)
  }

  /** The message `update_log` sends once a log reaches its threshold. */
  function RepeatMessage(log: Log): Message {
    Message("系統通知", "位置:" + log.location + "\n功能:" + log.func + "\n紀錄:" + log.log
                       + "\n次數:" + IntToString(log.count), log.employees)
  }

  /**
   * `insert_log`: stores the log under a new id (its own id is dropped). An emergency log
   * (risk level 3) then triggers exactly one `send_message` under the new id; the result
   * does not depend on how that went. None, and nothing sent, when the store fails.
   */
  method InsertLog(store: LogStore, h: Notification.HistoryStore, t: Network, cfg: Config,
                   directory: seq<EmployeeContact>, log: Log, now: string) returns (id: Option<int>)
    requires store.Valid() && h.Valid()
    modifies store, h, t
    ensures store.Valid() && h.Valid() && store.online == old(store.online)
    ensures id.Some? <==> old(store.online)
    ensures id.Some? ==> id == Some(old(store.nextId))
                         && store.rows == old(store.rows) + [log.(id := id)]
    ensures id.None? ==> store.rows == old(store.rows)
    ensures t.messages == old(t.messages) + (if id.Some? && log.riskLevel == RiskEmergency then [(EmergencyMessage(log), id)] else [])
    ensures !(id.Some? && log.riskLevel == RiskEmergency) ==> unchanged(h, t)
  {
    id := store.Insert(log.(id := None));
    if id.Some? && log.riskLevel == RiskEmergency {
      SendMessage(h, t, cfg, directory, EmergencyMessage(log), id, now);
    }
  }

  /**
   * `update_log`: without an id, nothing is written or sent and the result is None
   * (false). Otherwise the row with that id becomes `log`, and one `send_message` under
   * the id follows exactly when `need_send` holds on the updated table.
   */
  method UpdateLog(store: LogStore, h: Notification.HistoryStore, t: Network, cfg: Config,
                   directory: seq<EmployeeContact>, log: Log, now: string) returns (updated: bool)
    requires store.Valid() && h.Valid()
    modifies store, h, t
    ensures store.Valid() && h.Valid() && store.online == old(store.online) && store.nextId == old(store.nextId)
    ensures log.id.None? ==> !updated && store.rows == old(store.rows) && unchanged(h, t)
    ensures log.id.Some? ==>
      && updated == old(store.online)
      && store.rows == (if updated then WriteLogById(old(store.rows), log.id.value, log) else old(store.rows))
    ensures var sent := log.id.Some? && NeedSend(store.rows, store.online, log);
      && t.messages == old(t.messages) + (if sent then [(RepeatMessage(log), log.id)] else [])
      && (!sent ==> unchanged(h, t))
  {
    if log.id.None? {
      return false;
    }
    updated := store.UpdateById(log.id.value, log);
    if NeedSend(store.rows, store.online, log) {
      SendMessage(h, t, cfg, directory, RepeatMessage(log), log.id, now);
    }
  }

  // ---------------------------------------------------------------------------------
  // Properties

  /** With one row per triple, `check_log` finds the only row that reports the problem. */
  lemma CheckLogUnique(rows: seq<Log>, log: Log, i: nat)
    requires TriplesUnique(rows) && i < |rows| && SameTriple(rows[i], log)
    ensures CheckLog(rows, true, log) == Some(rows[i])
  {
    var r := CheckLog(rows, true, log);
    var k :| 0 <= k < |rows| && r.value == rows[k] && SameTriple(rows[k], log);
    if k != i {
      assert SameTriple(rows[k], rows[i]);
      assert false;
    }
  }

  /**
   * Writing `log` over the row with its id: with one row per triple, `need_send` then
   * holds exactly when the log's count has reached its level's threshold.
   */
  lemma EscalatesIffAtThreshold(rows: seq<Log>, i: nat, log: Log)
    requires TriplesUnique(rows) && i < |rows| && SameTriple(rows[i], log)
    requires log.id.Some? && rows[i].id == log.id
    requires forall j :: 0 <= j < |rows| && j != i ==> rows[j].id != log.id
    ensures NeedSend(WriteLogById(rows, log.id.value, log), true, log) <==> log.count >= Threshold(log.riskLevel)
  {
    var after := WriteLogById(rows, log.id.value, log);
    assert after[i] == log;
    forall j | 0 <= j < |after| && j != i
      ensures !SameTriple(after[j], log)
    {
      assert after[j] == rows[j];
      if j < i {
        assert !SameTriple(rows[j], rows[i]);
      } else {
        assert !SameTriple(rows[i], rows[j]);
      }
    }
    if log.count >= Threshold(log.riskLevel) {
      assert AtThreshold(after[i], log);
    }
    if NeedSend(after, true, log) {
      var j :| 0 <= j < |after| && AtThreshold(after[j], log);
      assert j == i;
    }
  }

  /**
   * Once a problem has reached its threshold, every later occurrence (a higher count on
   * the same row) notifies again.
   */
  lemma EscalationPersists(rows: seq<Log>, i: nat, log: Log, later: Log)
    requires TriplesUnique(rows) && i < |rows| && SameTriple(rows[i], log)
    requires log.id.Some? && rows[i].id == log.id
    requires forall j :: 0 <= j < |rows| && j != i ==> rows[j].id != log.id
    requires NeedSend(WriteLogById(rows, log.id.value, log), true, log)
    requires later == log.(count := later.count) && later.count >= log.count
    ensures NeedSend(WriteLogById(rows, later.id.value, later), true, later)
  {
    EscalatesIffAtThreshold(rows, i, log);
    EscalatesIffAtThreshold(rows, i, later);
  }

  /**
   * `need_send` holds for any stored emergency row: its threshold is one occurrence, so the
   * row itself matches the query, whatever else the table holds.
   */
  lemma EmergencyEscalatesAtOnce(rows: seq<Log>, i: nat)
    requires i < |rows| && rows[i].riskLevel == RiskEmergency && rows[i].count >= 1
    ensures NeedSend(rows, true, rows[i])
  {
    assert AtThreshold(rows[i], rows[i]);
  }
}
