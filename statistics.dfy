/**
 * The counting behind the statistics endpoints of app/main.py: per-key tallies kept in
 * insertion order (a Python dict), the top-10 selection by count, and the per-status
 * counts of the notification history.
 */
module Statistics {
  import opened Wrappers
  import opened Constants
  import opened Records

  // ---------------------------------------------------------------------------------
  // Tallies

  /** The occurrences of `k` in `keys`. */
  function Occurrences<K(==, !new)>(keys: seq<K>, k: K): nat {
    if keys == [] then 0
    else Occurrences(keys[..|keys| - 1], k) + (if keys[|keys| - 1] == k then 1 else 0)
  }

  /** The value a tally holds for `k` (`d.get(k, 0)`). */
  function Count<K(==, !new)>(t: seq<(K, nat)>, k: K): nat {
    if t == [] then 0 else if t[0].0 == k then t[0].1 else Count(t[1..], k)
  }

  /** The sum of a tally's values. */
  function Sum<K>(t: seq<(K, nat)>): nat {
    if t == [] then 0 else t[0].1 + Sum(t[1..])
  }

  /** No key appears twice, as in a dict. */
  predicate DistinctKeys<K(==, !new)>(t: seq<(K, nat)>) {
    forall i, j :: 0 <= i < j < |t| ==> t[i].0 != t[j].0
  }

  /** `d[k] = d.get(k, 0) + 1`: bumps the entry of `k`, or appends `k` with 1. */
  function Bump<K(==, !new)>(t: seq<(K, nat)>, k: K): (r: seq<(K, nat)>)
    ensures Sum(r) == Sum(t) + 1
    ensures forall k' :: Count(r, k') == Count(t, k') + (if k' == k then 1 else 0)
    ensures DistinctKeys(t) ==> DistinctKeys(r)
    ensures forall i :: 0 <= i < |r| ==> r[i].0 == k || exists j :: 0 <= j < |t| && t[j].0 == r[i].0
  {
    if t == [] then [(k, 1)]
    else if t[0].0 == k then [(k, t[0].1 + 1)] + t[1..]
    else
      var rest := Bump(t[1..], k);
      assert DistinctKeys(t) ==> forall i :: 0 <= i < |rest| ==> rest[i].0 != t[0].0;
      [t[0]] + rest
  }

  /** The dict the statistics loops build from `keys`, in first-occurrence order. */
  function TallyOf<K(==, !new)>(keys: seq<K>): seq<(K, nat)> {
    if keys == [] then [] else Bump(TallyOf(keys[..|keys| - 1]), keys[|keys| - 1])
  }

  /**
   * A tally counts every key exactly as often as it occurs, holds each key once, and its
   * values sum to the number of keys.
   */
  lemma {:induction false} TallyCounts<K(!new)>(keys: seq<K>)
    ensures forall k :: Count(TallyOf(keys), k) == Occurrences(keys, k)
    ensures DistinctKeys(TallyOf(keys))
    ensures Sum(TallyOf(keys)) == |keys|
  {
    if keys != [] {
      TallyCounts(keys[..|keys| - 1]);
    }
  }

  /** Every key of a tally occurs among the counted keys. */
  lemma {:induction false} TallyKeysOccur<K(!new)>(keys: seq<K>)
    ensures forall i :: 0 <= i < |TallyOf(keys)| ==> TallyOf(keys)[i].0 in keys
  {
    if keys != [] {
      var init := keys[..|keys| - 1];
      TallyKeysOccur(init);
      forall i | 0 <= i < |TallyOf(keys)|
        ensures TallyOf(keys)[i].0 in keys
      {
        var r := TallyOf(keys);
        if r[i].0 != keys[|keys| - 1] {
          var j :| 0 <= j < |TallyOf(init)| && TallyOf(init)[j].0 == r[i].0;
          assert r[i].0 in init;
        }
      }
    }
  }

  // ---------------------------------------------------------------------------------
  // Top ten

  /** Counts never increase along `t`. */
  predicate Descending<K>(t: seq<(K, nat)>) {
    forall i, j :: 0 <= i < j < |t| ==> t[i].1 >= t[j].1
  }

  /** Places `x` after every entry whose count is at least its own (keeps equal counts in order). */
  function InsertByCount<K>(t: seq<(K, nat)>, x: (K, nat)): (r: seq<(K, nat)>)
    ensures multiset(r) == multiset(t) + multiset{x}
  {
    if t == [] then [x]
    else if t[0].1 >= x.1 then
      assert t == [t[0]] + t[1..];
      [t[0]] + InsertByCount(t[1..], x)
    else [x] + t
  }

  lemma {:induction false} InsertKeepsDescending<K>(t: seq<(K, nat)>, x: (K, nat))
    requires Descending(t)
    ensures Descending(InsertByCount(t, x))
  {
    if t != [] && t[0].1 >= x.1 {
      var rest := InsertByCount(t[1..], x);
      InsertKeepsDescending(t[1..], x);
      forall j | 0 <= j < |rest|
        ensures rest[j].1 <= t[0].1
      {
        assert rest[j] in multiset(rest);
        if rest[j] != x {
          assert rest[j] in multiset(t[1..]);
          var k :| 0 <= k < |t[1..]| && t[1..][k] == rest[j];
          assert t[k + 1] == rest[j];
        }
      }
    }
  }

  /**
   * `sorted(d.items(), key=count, reverse=True)`: a stable sort by count, largest first,
   * inserting the entries one after the other.
   */
  function SortByCount<K>(t: seq<(K, nat)>): (r: seq<(K, nat)>)
    ensures multiset(r) == multiset(t)
    ensures Descending(r)
  {
    if t == [] then []
    else
      assert t == t[..|t| - 1] + [t[|t| - 1]];
      var sorted := SortByCount(t[..|t| - 1]);
      InsertKeepsDescending(sorted, t[|t| - 1]);
      InsertByCount(sorted, t[|t| - 1])
  }

  /** The slice `[:10]` of the sorted entries. */
  function TopTen<K>(t: seq<(K, nat)>): seq<(K, nat)> {
    var s := SortByCount(t);
    s[..Min(10, |s|)]
  }

  /** The sorted entries `[:10]` drops. */
  function Dropped<K>(t: seq<(K, nat)>): seq<(K, nat)> {
    var s := SortByCount(t);
    s[Min(10, |s|)..]
  }

  /**
   * The top ten keeps at most ten entries (all of them when there are at most ten), in
   * descending count; kept and dropped entries together are exactly the tally, and no
   * dropped count exceeds a kept one.
   */
  lemma TopTenSelects<K>(t: seq<(K, nat)>)
    ensures |TopTen(t)| == Min(10, |t|)
    ensures Descending(TopTen(t))
    ensures multiset(TopTen(t)) + multiset(Dropped(t)) == multiset(t)
    ensures forall i, j :: 0 <= i < |TopTen(t)| && 0 <= j < |Dropped(t)| ==> TopTen(t)[i].1 >= Dropped(t)[j].1
  {
    var s := SortByCount(t);
    var n := Min(10, |s|);
    assert |s| == |multiset(s)| == |t|;
    assert s == s[..n] + s[n..];
    forall i, j | 0 <= i < n && 0 <= j < |s| - n
      ensures TopTen(t)[i].1 >= Dropped(t)[j].1
    {
      assert TopTen(t)[i] == s[i] && Dropped(t)[j] == s[n + j];
    }
  }

  // ---------------------------------------------------------------------------------
  // The statistics endpoints

  function RiskLevels(rows: seq<Log>): seq<int>
  {
    seq(|rows|, i requires 0 <= i < |rows| => rows[i].riskLevel)
  }

  function Locations(rows: seq<Log>): seq<string>
  {
    seq(|rows|, i requires 0 <= i < |rows| => rows[i].location)
  }

  function Functions(rows: seq<Log>): seq<string>
  {
    seq(|rows|, i requires 0 <= i < |rows| => rows[i].func)
  }

  function Statuses(rows: seq<NotificationHistory>): seq<Status>
  {
    seq(|rows|, i requires 0 <= i < |rows| => rows[i].status)
  }

  /** The counts `get_logs_statistics` answers with (the period echo is left out). */
  datatype LogStatistics = LogStatistics(
    totalLogs: nat,
    byRiskLevel: seq<(int, nat)>,
    byLocation: seq<(string, nat)>,
    byFunction: seq<(string, nat)>)

  /**
   * `get_logs_statistics` over the rows the date query returned (None when it failed):
   * zero and empty maps without rows; otherwise the number of rows, the per-level tally,
   * whose values add up to that number, and the ten most frequent locations and functions.
   */
  method GetLogsStatistics(result: Option<seq<Log>>) returns (stats: LogStatistics)
    ensures result.None? || result.value == [] ==> stats == LogStatistics(0, [], [], [])
    ensures result.Some? && result.value != [] ==>
      && stats.totalLogs == |result.value|
      && stats.byRiskLevel == TallyOf(RiskLevels(result.value))
      && Sum(stats.byRiskLevel) == stats.totalLogs
      && stats.byLocation == TopTen(TallyOf(Locations(result.value)))
      && stats.byFunction == TopTen(TallyOf(Functions(result.value)))
      && |stats.byLocation| <= 10 && |stats.byFunction| <= 10
  {
    if result.None? || result.value == [] {
      return LogStatistics(0, [], [], []);
    }
    var logs := result.value;
    var byRisk, byLocation, byFunction := TallyLogs(logs);
    TallyCounts(RiskLevels(logs));
    TopTenSelects(byLocation);
    TopTenSelects(byFunction);
    stats := LogStatistics(|logs|, byRisk, TopTen(byLocation), TopTen(byFunction));
  }

  /** The loop of `get_logs_statistics`: one pass filling the three dicts. */
  method TallyLogs(logs: seq<Log>) returns (byRisk: seq<(int, nat)>, byLocation: seq<(string, nat)>,
                                            byFunction: seq<(string, nat)>)
    ensures byRisk == TallyOf(RiskLevels(logs))
    ensures byLocation == TallyOf(Locations(logs))
    ensures byFunction == TallyOf(Functions(logs))
  {
    byRisk, byLocation, byFunction := [], [], [];
    ghost var risks, locations, functions := RiskLevels(logs), Locations(logs), Functions(logs);
    for i := 0 to |logs|
      invariant byRisk == TallyOf(risks[..i])
      invariant byLocation == TallyOf(locations[..i])
      invariant byFunction == TallyOf(functions[..i])
    {
      TallyStep(risks, i);
      TallyStep(locations, i);
      TallyStep(functions, i);
      byRisk := Bump(byRisk, logs[i].riskLevel);
      byLocation := Bump(byLocation, logs[i].location);
      byFunction := Bump(byFunction, logs[i].func);
    }
    assert risks[..|logs|] == risks && locations[..|logs|] == locations && functions[..|logs|] == functions;
  }

  /** Counting one more key bumps its entry. */
  lemma TallyStep<K(!new)>(keys: seq<K>, i: nat)
    requires i < |keys|
    ensures TallyOf(keys[..i + 1]) == Bump(TallyOf(keys[..i]), keys[i])
  {
    assert keys[..i + 1][..i] == keys[..i];
  }

  /** The counts `get_notification_statistics` answers with (channels and the rate left out). */
  datatype NotificationStatistics = NotificationStatistics(
    totalNotifications: nat,
    byStatus: seq<(Status, nat)>,
    successCount: Option<nat>,
    failedCount: Option<nat>)

  /**
   * `get_notification_statistics` over the rows the date query returned: without rows,
   * a zero total and no success or failed count; otherwise the per-status tally, whose
   * values add up to the total, the number of Success rows (the tally's Success entry),
   * and the rest as failed.
   */
  method GetNotificationStatistics(result: Option<seq<NotificationHistory>>) returns (stats: NotificationStatistics)
    ensures result.None? || result.value == [] ==> stats == NotificationStatistics(0, [], None, None)
    ensures result.Some? && result.value != [] ==>
      && stats.totalNotifications == |result.value|
      && stats.byStatus == TallyOf(Statuses(result.value))
      && Sum(stats.byStatus) == stats.totalNotifications
      && stats.successCount == Some(Occurrences(Statuses(result.value), Success))
      && stats.successCount == Some(Count(stats.byStatus, Success))
      && stats.failedCount.Some?
      && stats.successCount.value + stats.failedCount.value == stats.totalNotifications
  {
    if result.None? || result.value == [] {
      return NotificationStatistics(0, [], None, None);
    }
    var notifications := result.value;
    var byStatus, successCount := TallyStatuses(notifications);
    TallyCounts(Statuses(notifications));
    OccurrencesAtMost(Statuses(notifications), Success);
    var total := |notifications|;
    stats := NotificationStatistics(total, byStatus, Some(successCount), Some(total - successCount));
  }

  /** The loop of `get_notification_statistics`: the status dict and the Success counter. */
  method TallyStatuses(notifications: seq<NotificationHistory>) returns (byStatus: seq<(Status, nat)>, successCount: nat)
    ensures byStatus == TallyOf(Statuses(notifications))
    ensures successCount == Occurrences(Statuses(notifications), Success)
  {
    byStatus, successCount := [], 0;
    ghost var statuses := Statuses(notifications);
    for i := 0 to |notifications|
      invariant byStatus == TallyOf(statuses[..i])
      invariant successCount == Occurrences(statuses[..i], Success)
    {
      TallyStep(statuses, i);
      assert statuses[..i + 1][..i] == statuses[..i];
      byStatus := Bump(byStatus, notifications[i].status);
      if notifications[i].status == Success {
        successCount := successCount + 1;
      }
    }
    assert statuses[..|notifications|] == statuses;
  }

  lemma {:induction false} OccurrencesAtMost<K(!new)>(keys: seq<K>, k: K)
    ensures Occurrences(keys, k) <= |keys|
  {
    if keys != [] {
      OccurrencesAtMost(keys[..|keys| - 1], k);
    }
  }
}
