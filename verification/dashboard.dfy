/** The dashboard's metrics over the store's log entries: the day streak and
    the most recent entry. Dates are day numbers; `today` is the current day
    as the clock reports it. */
module Dashboard {
  import opened Wrappers
  import opened Types
  import Seqs
  import Store

  /** Each entry's date, in entry order. */
  function DateList(logs: seq<LogEntry>): (r: seq<int>)
    ensures |r| == |logs|
    ensures forall i :: 0 <= i < |logs| ==> r[i] == logs[i].date
  {
    seq(|logs|, i requires 0 <= i < |logs| => logs[i].date)
  }

  /** The set of days that have at least one entry. */
  function DateSet(logs: seq<LogEntry>): set<int> {
    set l | l in logs :: l.date
  }

  predicate StrictlyAscending(s: seq<int>) {
    forall i, j :: 0 <= i < j < |s| ==> s[i] < s[j]
  }

  function InsertAsc(x: int, s: seq<int>): (r: seq<int>)
    requires StrictlyAscending(s) && x !in s
    ensures StrictlyAscending(r)
    ensures forall y :: y in r <==> y == x || y in s
    ensures |r| == |s| + 1
    ensures r[0] == x || r[0] == s[0]
    decreases |s|
  {
    if |s| == 0 || x < s[0] then [x] + s
    else
      var rest := InsertAsc(x, s[1..]);
      assert s == [s[0]] + s[1..];
      [s[0]] + rest
  }

  /** `.sort()` of distinct day strings: ascending day order. */
  function SortAsc(s: seq<int>): (r: seq<int>)
    requires forall i, j :: 0 <= i < j < |s| ==> s[i] != s[j]
    ensures StrictlyAscending(r)
    ensures forall y :: y in r <==> y in s
    ensures |r| == |s|
    decreases |s|
  {
    if |s| == 0 then []
    else
      assert s == [s[0]] + s[1..];
      InsertAsc(s[0], SortAsc(s[1..]))
  }

  /** The distinct days with an entry, ascending: `[...new Set(dates)].sort()`. */
  function SortedDays(logs: seq<LogEntry>): (r: seq<int>)
    ensures StrictlyAscending(r)
    ensures forall y :: y in r <==> y in DateSet(logs)
    ensures |r| == |DateSet(logs)|
  {
    var dates := Seqs.Distinct(DateList(logs));
    var r := SortAsc(dates);
    forall y
      ensures y in r <==> y in DateSet(logs)
    {
      if y in DateSet(logs) {
        var l :| l in logs && l.date == y;
        var i :| 0 <= i < |logs| && logs[i] == l;
        assert DateList(logs)[i] == y;
      }
      if y in r {
        var i :| 0 <= i < |logs| && DateList(logs)[i] == y;
        assert logs[i] in logs;
      }
    }
    DistinctCard(r, DateSet(logs));
    r
  }

  function DayBack(today: int, j: int): int {
    today - j
  }

  /** The days `today`, `today - 1`, ..., `today - n + 1` all have an entry
      and `today - n` has none: a run of exactly `n` days ending today. */
  predicate RunEndingAt(days: set<int>, today: int, n: nat) {
    && (forall j :: 0 <= j < n ==> DayBack(today, j) in days)
    && DayBack(today, n) !in days
  }

  /** The streak: walking the distinct sorted days from the latest, count
      while each day is `today` minus the count so far. A log dated after
      today stops the walk at once. */
  method Streak(logs: seq<LogEntry>, today: int) returns (streak: nat)
    ensures streak <= |DateSet(logs)|
    ensures (exists l :: l in logs && l.date > today) ==> streak == 0
    ensures (forall l :: l in logs ==> l.date <= today) ==> RunEndingAt(DateSet(logs), today, streak)
  {
    var sorted := SortedDays(logs);
    streak := 0;
    var i := |sorted|;
    while i > 0
      invariant 0 <= i <= |sorted|
      invariant streak == |sorted| - i
      invariant forall k :: i <= k < |sorted| ==> sorted[k] == DayBack(today, |sorted| - 1 - k)
      decreases i
    {
      if sorted[i - 1] == DayBack(today, streak) {
        streak := streak + 1;
        i := i - 1;
      } else {
        break;
      }
    }
    StreakStops(sorted, DateSet(logs), today, i, streak);
    if exists l :: l in logs && l.date > today {
      var l :| l in logs && l.date > today;
      assert l.date in sorted;
    }
  }

  /** Where the walk stops: a day after today in the list leaves the count at
      zero, and otherwise the count is the length of the run ending today. */
  lemma StreakStops(sorted: seq<int>, days: set<int>, today: int, i: nat, streak: nat)
    requires StrictlyAscending(sorted)
    requires forall y :: y in sorted <==> y in days
    requires i <= |sorted| && streak == |sorted| - i
    requires forall k :: i <= k < |sorted| ==> sorted[k] == DayBack(today, |sorted| - 1 - k)
    requires i > 0 ==> sorted[i - 1] != DayBack(today, streak)
    ensures (exists y :: y in sorted && y > today) ==> streak == 0
    ensures (forall y :: y in sorted ==> y <= today) ==>
      RunEndingAt(days, today, streak)
  {
    if exists y :: y in sorted && y > today {
      var y :| y in sorted && y > today;
      var k :| 0 <= k < |sorted| && sorted[k] == y;
      assert sorted[|sorted| - 1] >= y;
    }
    if forall y :: y in sorted ==> y <= today {
      forall j | 0 <= j < streak
        ensures DayBack(today, j) in days
      {
        assert sorted[|sorted| - 1 - j] == DayBack(today, j);
      }
      forall k | 0 <= k < |sorted|
        ensures sorted[k] != DayBack(today, streak)
      {
        if k >= i {
          assert sorted[k] == DayBack(today, |sorted| - 1 - k);
        } else if streak == 0 {
          assert sorted[|sorted| - 1] in sorted;
          assert sorted[|sorted| - 1] != DayBack(today, 0);
        } else {
          assert sorted[i] == DayBack(today, streak) + 1;
        }
      }
    }
  }

  /** A strictly ascending sequence has as many elements as the set it
      enumerates. */
  lemma {:induction false} DistinctCard(s: seq<int>, t: set<int>)
    requires StrictlyAscending(s)
    requires forall y :: y in s <==> y in t
    ensures |t| == |s|
    decreases |s|
  {
    if |s| == 0 {
      assert s == [];
      assert forall y :: y !in t;
      assert t == {};
    } else {
      var last := s[|s| - 1];
      var init := s[..|s| - 1];
      assert last !in init;
      assert forall y :: y in init <==> y in t - {last};
      DistinctCard(init, t - {last});
    }
  }

  /** The most recent entry in insertion order: the last one, if any. */
  function LastLog(logs: seq<LogEntry>): (r: Option<LogEntry>)
    ensures r.None? <==> logs == []
    ensures r.Some? ==> r.value == logs[|logs| - 1]
  {
    if |logs| > 0 then Some(logs[|logs| - 1]) else None
  }

  /** After the store records an entry, the dashboard's last entry is that
      entry, whatever its date or timestamp. */
  lemma LastLogAfterAdd(s: Store.AppState, draft: LogDraft, id: string, now: int)
    ensures var r := Store.AddLog(s, draft, id, now);
      LastLog(r.logEntries) == Some(r.logEntries[|s.logEntries|])
      && LastLog(r.logEntries).value.id == id
  {
  }
}
