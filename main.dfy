/**
 * The `/logs` endpoint of app/main.py (validation, then create or increment) and the
 * notification history page.
 */
module Api {
  import opened Wrappers
  import Constants
  import opened Records
  import opened Query
  import opened Transport
  import Notification
  import opened Messaging
  import opened Database

  /** The query parameters of `GET /logs`. */
  datatype LogRequest = LogRequest(
    riskLevel: int,
    logType: int,
    location: string,
    func: string,
    log: string,
    employees: seq<string>,
    date: string,
    time: string)

  /** The answer of an endpoint: created, updated with the new count, or an HTTP error status. */
  datatype Response = Created | Updated(count: int) | Rejected(status: int)

  /** The parameter ranges the framework enforces: risk level 0..3, a non-negative type. */
  predicate InRange(req: LogRequest) {
    0 <= req.riskLevel <= 3 && req.logType >= 0
  }

  /** Location, function and log text are all non-empty. */
  predicate Complete(req: LogRequest) {
    req.location != "" && req.func != "" && req.log != ""
  }

  /** The `Log` item `logs()` builds: no id, count 1. */
  function ItemOf(req: LogRequest): (item: Log)
    ensures item.id.None? && item.count == 1
  {
    Log(None, req.riskLevel, req.logType, req.location, req.func, req.log, req.employees, req.date, req.time, 1)
  }

  /** The status `logs()` rejects a request with before touching the store, if any. */
  function Rejection(req: LogRequest): (r: Option<int>)
    ensures r.None? <==> InRange(req) && Complete(req)
  {
    if !InRange(req) then Some(422)
    else if !Complete(req) then Some(400)
    else None
  }

  /**
   * The create branch of `logs()`: `insert_log`, with 500 when the store fails.
   */
  method Create(store: LogStore, h: Notification.HistoryStore, t: Network, cfg: Config,
                directory: seq<EmployeeContact>, item: Log, now: string) returns (resp: Response)
    requires store.Valid() && h.Valid()
    requires TriplesUnique(store.rows) && CheckLog(store.rows, store.online, item).None?
    modifies store, h, t
    ensures store.Valid() && h.Valid() && TriplesUnique(store.rows)
    ensures resp == if old(store.online) then Created else Rejected(500)
    ensures store.rows == if old(store.online) then old(store.rows) + [item.(id := Some(old(store.nextId)))] else old(store.rows)
    ensures t.messages == old(t.messages) + (if old(store.online) && item.riskLevel == Constants.RiskEmergency
                                              then [(EmergencyMessage(item), Some(old(store.nextId)))] else [])
  {
    ghost var before := store.rows;
    var id := InsertLog(store, h, t, cfg, directory, item, now);
    if id.None? {
      return Rejected(500);
    }
    assert forall i :: 0 <= i < |before| ==> !SameTriple(before[i], item);
    assert store.rows[|before|] == item.(id := id);
    resp := Created;
  }

  /**
   * `logs()` with the duplicate branch incrementing the stored row: 422 outside the
   * parameter ranges, 400 for an empty location, function or log, both with nothing
   * touched. A known problem (same location, function and text) has its row rewritten
   * with the request under the row's id and count + 1, answered "updated" with that
   * count; a new problem is inserted with count 1 and answered "created"; a failing store
   * gives 500 and changes no row. The table keeps one row per problem, and an update
   * notifies exactly when the new count reaches the level's threshold.
   */
  method SubmitLog(store: LogStore, h: Notification.HistoryStore, t: Network, cfg: Config,
                   directory: seq<EmployeeContact>, req: LogRequest, now: string) returns (resp: Response)
    requires store.Valid() && h.Valid() && TriplesUnique(store.rows)
    modifies store, h, t
    ensures store.Valid() && h.Valid() && TriplesUnique(store.rows)
    ensures Rejection(req).Some? ==> resp == Rejected(Rejection(req).value) && unchanged(store, h, t)
    ensures Rejection(req).None? && !old(store.online) ==>
      resp == Rejected(500) && store.rows == old(store.rows) && t.messages == old(t.messages)
    ensures Rejection(req).None? ==>
      var item := ItemOf(req);
      match CheckLog(old(store.rows), old(store.online), item)
      case Some(existing) =>
        var row := item.(id := existing.id, count := existing.count + 1);
        && resp == Updated(existing.count + 1)
        && store.rows == WriteLogById(old(store.rows), existing.id.value, row)
        && t.messages == old(t.messages) + (if row.count >= Threshold(row.riskLevel) then [(RepeatMessage(row), row.id)] else [])
      case None =>
        old(store.online) ==>
          && resp == Created
          && store.rows == old(store.rows) + [item.(id := Some(old(store.nextId)))]
          && t.messages == old(t.messages) + (if item.riskLevel == Constants.RiskEmergency then [(EmergencyMessage(item), Some(old(store.nextId)))] else [])
  {
    var rejected := Rejection(req);
    if rejected.Some? {
      return Rejected(rejected.value);
    }
    var item := ItemOf(req);
    var existing := CheckLog(store.rows, store.online, item);
    if existing.None? {
      resp := Create(store, h, t, cfg, directory, item, now);
    } else {
      resp := Increment(store, h, t, cfg, directory, item, existing.value, now);
    }
  }

  /**
   * The duplicate branch of `logs()`, incrementing the stored row: the request's fields
   * under the row's id with count + 1, answered "updated" with that count; a notification
   * follows exactly when the new count reaches the level's threshold.
   */
  method Increment(store: LogStore, h: Notification.HistoryStore, t: Network, cfg: Config,
                   directory: seq<EmployeeContact>, item: Log, existing: Log, now: string) returns (resp: Response)
    requires store.Valid() && h.Valid() && TriplesUnique(store.rows)
    requires CheckLog(store.rows, store.online, item) == Some(existing)
    modifies store, h, t
    ensures store.Valid() && h.Valid() && TriplesUnique(store.rows)
    ensures var row := item.(id := existing.id, count := existing.count + 1);
      && resp == Updated(existing.count + 1)
      && store.rows == WriteLogById(old(store.rows), existing.id.value, row)
      && t.messages == old(t.messages) + (if row.count >= Threshold(row.riskLevel) then [(RepeatMessage(row), row.id)] else [])
  {
    ghost var before := store.rows;
    ghost var i :| 0 <= i < |before| && existing == before[i] && SameTriple(before[i], item);
    var row := item.(id := existing.id, count := existing.count + 1);
    assert SameTriple(before[i], row);
    EscalatesIffAtThreshold(before, i, row);
    var updated := UpdateLog(store, h, t, cfg, directory, row, now);
    assert updated;
    KeepsTriplesUnique(before, i, row);
    resp := Updated(row.count);
  }

  /** Rewriting the row of a problem with a log of the same problem keeps one row per problem. */
  lemma KeepsTriplesUnique(rows: seq<Log>, i: nat, row: Log)
    requires TriplesUnique(rows) && i < |rows| && SameTriple(rows[i], row) && row.id.Some? && rows[i].id == row.id
    requires forall j :: 0 <= j < |rows| && j != i ==> rows[j].id != row.id
    ensures TriplesUnique(WriteLogById(rows, row.id.value, row))
  {
    var after := WriteLogById(rows, row.id.value, row);
    forall a, b | 0 <= a < b < |after|
      ensures !SameTriple(after[a], after[b])
    {
      if a == i {
        assert after[b] == rows[b];
      } else if b == i {
        assert after[a] == rows[a];
      } else {
        assert after[a] == rows[a] && after[b] == rows[b];
      }
    }
  }

  /**
   * `logs()` as written: a duplicate increments the freshly built item, which has no id,
   * so `update_log` returns None and every repeated problem is answered 500 with the
   * table and the history unchanged and nothing sent.
   */
  method SubmitLogAsWritten(store: LogStore, h: Notification.HistoryStore, t: Network, cfg: Config,
                            directory: seq<EmployeeContact>, req: LogRequest, now: string) returns (resp: Response)
    requires store.Valid() && h.Valid() && TriplesUnique(store.rows)
    modifies store, h, t
    ensures store.Valid() && h.Valid() && TriplesUnique(store.rows)
    ensures Rejection(req).Some? ==> resp == Rejected(Rejection(req).value) && unchanged(store, h, t)
    ensures Rejection(req).None? && CheckLog(old(store.rows), old(store.online), ItemOf(req)).Some? ==>
      resp == Rejected(500) && store.rows == old(store.rows) && unchanged(h, t)
    ensures Rejection(req).None? && CheckLog(old(store.rows), old(store.online), ItemOf(req)).None? ==>
      && resp == (if old(store.online) then Created else Rejected(500))
      && store.rows == (if old(store.online) then old(store.rows) + [ItemOf(req).(id := Some(old(store.nextId)))] else old(store.rows))
  {
    var rejected := Rejection(req);
    if rejected.Some? {
      return Rejected(rejected.value);
    }
    var item := ItemOf(req);
    if CheckLog(store.rows, store.online, item).Some? {
      item := item.(count := item.count + 1);
      var updated := UpdateLog(store, h, t, cfg, directory, item, now);
      if !updated {
        return Rejected(500);
      }
      return Updated(item.count);
    }
    resp := Create(store, h, t, cfg, directory, item, now);
  }

  /**
   * `get_notification_history` over the rows its filtered, ordered query selects: 422
   * unless 1 <= limit <= 500 and offset >= 0; 500 when the store fails; otherwise the
   * inclusive range [offset, offset + limit - 1] of those rows, at most `limit` of them.
   */
  function NotificationHistoryPage(rows: seq<NotificationHistory>, online: bool, limit: int, offset: int)
    : (r: Result<seq<NotificationHistory>>)
    ensures r.Failure? <==> !(1 <= limit <= 500 && offset >= 0) || !online
    ensures r.Failure? ==> r.status == if !(1 <= limit <= 500 && offset >= 0) then 422 else 500
    ensures r.Success? ==> |r.value| <= limit && |r.value| == if offset >= |rows| then 0 else Min(limit, |rows| - offset)
    ensures r.Success? ==> forall i :: 0 <= i < |r.value| ==> r.value[i] == rows[offset + i]
  {
    if !(1 <= limit <= 500 && offset >= 0) then Failure(422)
    else if !online then Failure(500)
    else Success(Page(rows, offset, limit))
  }

  /** A page answer: the rows, or an HTTP error status. */
  datatype Result<T> = Success(value: T) | Failure(status: int)
}
