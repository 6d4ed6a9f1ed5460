/** The activity heatmap: log entries grouped by day, in order of each day's
    first entry, with the day's entry count and a colour level from the
    day's average anxiety and functionality. */
module ActivityHeatmap {
  import opened Types
  import Seqs
  import Dashboard

  /** Running totals for one day, as the grouping map holds them. */
  datatype DayStats = DayStats(date: int, functionality: real, anxiety: real, count: nat)

  datatype HeatEntry = HeatEntry(date: int, count: nat, level: int)

  function Days(g: seq<DayStats>): (r: seq<int>)
    ensures |r| == |g|
    ensures forall k :: 0 <= k < |g| ==> r[k] == g[k].date
  {
    seq(|g|, k requires 0 <= k < |g| => g[k].date)
  }

  function OnDay(d: int): LogEntry -> bool {
    (l: LogEntry) => l.date == d
  }

  function SameDay(d: int): DayStats -> bool {
    (x: DayStats) => x.date == d
  }

  /** Total functionality of the entries on day `d`. */
  function FunctionalitySum(logs: seq<LogEntry>, d: int): real
    decreases |logs|
  {
    if |logs| == 0 then 0.0
    else
      (if logs[|logs| - 1].date == d then logs[|logs| - 1].functionality else 0.0)
      + FunctionalitySum(logs[..|logs| - 1], d)
  }

  /** Total anxiety of the entries on day `d`. */
  function AnxietySum(logs: seq<LogEntry>, d: int): real
    decreases |logs|
  {
    if |logs| == 0 then 0.0
    else
      (if logs[|logs| - 1].date == d then logs[|logs| - 1].anxiety else 0.0)
      + AnxietySum(logs[..|logs| - 1], d)
  }

  predicate DistinctDays(g: seq<DayStats>) {
    forall i, j :: 0 <= i < j < |g| ==> g[i].date != g[j].date
  }

  /** A day's totals with one more entry. */
  function Add(s: DayStats, l: LogEntry): DayStats {
    DayStats(s.date, s.functionality + l.functionality, s.anxiety + l.anxiety, s.count + 1)
  }

  function Total(g: seq<DayStats>): nat
    decreases |g|
  {
    if |g| == 0 then 0 else g[|g| - 1].count + Total(g[..|g| - 1])
  }

  lemma {:induction false} TotalUpdate(g: seq<DayStats>, k: nat, x: DayStats)
    requires k < |g|
    ensures Total(g[k := x]) == Total(g) - g[k].count + x.count
    decreases |g|
  {
    var n := |g| - 1;
    if k < n {
      assert g[k := x][..n] == g[..n][k := x];
      TotalUpdate(g[..n], k, x);
    } else {
      assert g[k := x][..n] == g[..n];
    }
  }

  /** Folds one entry into the map: the entry's day accumulates it, or is
      appended with a count of one when new; the map's total count grows by
      one. */
  function Step(g: seq<DayStats>, l: LogEntry): (r: seq<DayStats>)
    requires DistinctDays(g)
    ensures DistinctDays(r)
    ensures l.date in Days(g) ==> Days(r) == Days(g)
    ensures l.date !in Days(g) ==> Days(r) == Days(g) + [l.date]
    ensures l.date in Days(g) ==>
      |r| == |g| && forall k :: 0 <= k < |g| ==> r[k] == if g[k].date == l.date then Add(g[k], l) else g[k]
    ensures l.date !in Days(g) ==> r == g + [DayStats(l.date, l.functionality, l.anxiety, 1)]
    ensures Total(r) == Total(g) + 1
  {
    match Seqs.IndexOf(g, SameDay(l.date))
    case Some(k) =>
      var r := g[k := Add(g[k], l)];
      assert Days(r) == Days(g);
      TotalUpdate(g, k, Add(g[k], l));
      r
    case None =>
      var r := g + [DayStats(l.date, l.functionality, l.anxiety, 1)];
      assert Days(r) == Days(g) + [l.date];
      assert r[..|g|] == g;
      r
  }

  /** The grouping map built by visiting the entries in order. */
  function Group(logs: seq<LogEntry>): (g: seq<DayStats>)
    ensures Days(g) == Seqs.Distinct(Dashboard.DateList(logs))
    ensures DistinctDays(g)
    ensures forall d :: d in Days(g) <==> d in Dashboard.DateList(logs)
    decreases |logs|
  {
    if |logs| == 0 then []
    else
      var init := logs[..|logs| - 1];
      assert Dashboard.DateList(logs)[..|logs| - 1] == Dashboard.DateList(init);
      var g0 := Group(init);
      assert forall i :: 0 <= i < |g0| ==> Days(g0)[i] == g0[i].date;
      Step(g0, logs[|logs| - 1])
  }

  /** No entry falls on a day that no entry has. */
  lemma {:induction false} NoEntriesOnDay(logs: seq<LogEntry>, d: int)
    requires d !in Dashboard.DateList(logs)
    ensures Seqs.CountWhere(logs, OnDay(d)) == 0
    ensures FunctionalitySum(logs, d) == 0.0 && AnxietySum(logs, d) == 0.0
    decreases |logs|
  {
    if |logs| > 0 {
      var init := logs[..|logs| - 1];
      assert Dashboard.DateList(logs)[|logs| - 1] == logs[|logs| - 1].date;
      assert Dashboard.DateList(init) == Dashboard.DateList(logs)[..|logs| - 1];
      NoEntriesOnDay(init, d);
    }
  }

  /** Count and totals over `logs + [l]` are those over `logs` plus `l`'s
      share. */
  lemma Snoc(logs: seq<LogEntry>, l: LogEntry, d: int)
    ensures Seqs.CountWhere(logs + [l], OnDay(d)) == (if l.date == d then 1 else 0) + Seqs.CountWhere(logs, OnDay(d))
    ensures FunctionalitySum(logs + [l], d) == (if l.date == d then l.functionality else 0.0) + FunctionalitySum(logs, d)
    ensures AnxietySum(logs + [l], d) == (if l.date == d then l.anxiety else 0.0) + AnxietySum(logs, d)
  {
    assert (logs + [l])[..|logs|] == logs;
  }

  /** A day's entry holds the number of entries on that day (at least one)
      and the totals of their scores. */
  predicate Holds(s: DayStats, logs: seq<LogEntry>) {
    && s.count == Seqs.CountWhere(logs, OnDay(s.date)) && s.count > 0
    && s.functionality == FunctionalitySum(logs, s.date)
    && s.anxiety == AnxietySum(logs, s.date)
  }

  lemma StepHolds(g: seq<DayStats>, logs: seq<LogEntry>, l: LogEntry)
    requires DistinctDays(g)
    requires forall d :: d in Days(g) <==> d in Dashboard.DateList(logs)
    requires forall k :: 0 <= k < |g| ==> Holds(g[k], logs)
    ensures forall k :: 0 <= k < |Step(g, l)| ==> Holds(Step(g, l)[k], logs + [l])
  {
    var r := Step(g, l);
    if l.date !in Days(g) {
      NoEntriesOnDay(logs, l.date);
    }
    forall k | 0 <= k < |r|
      ensures Holds(r[k], logs + [l])
    {
      Snoc(logs, l, r[k].date);
      if k < |g| {
        assert r[k].date == g[k].date;
        assert Days(g)[k] == g[k].date;
      }
    }
  }

  /** Each day of the map holds the number of entries on that day (at least
      one) and the totals of their scores. */
  lemma {:induction false} GroupStats(logs: seq<LogEntry>)
    ensures forall k :: 0 <= k < |Group(logs)| ==> Holds(Group(logs)[k], logs)
    decreases |logs|
  {
    if |logs| > 0 {
      var init := logs[..|logs| - 1];
      var l := logs[|logs| - 1];
      GroupStats(init);
      assert init + [l] == logs;
      StepHolds(Group(init), init, l);
    }
  }

  /** The day counts add up to the number of entries: every entry is counted
      on exactly one day. */
  lemma {:induction false} CountsSumToEntries(logs: seq<LogEntry>)
    ensures Total(Group(logs)) == |logs|
    decreases |logs|
  {
    if |logs| > 0 {
      CountsSumToEntries(logs[..|logs| - 1]);
    }
  }

  /** The colour level: a day with average anxiety above 7 is level 1;
      otherwise average functionality of 8 and up is 4, 6 and up 3, 4 and up
      2, and anything lower 1. Level 0 is never produced. */
  function Level(avgFunctionality: real, avgAnxiety: real): (level: int)
    ensures 1 <= level <= 4
    ensures avgAnxiety > 7.0 ==> level == 1
    ensures avgAnxiety <= 7.0 ==>
      (level == 4 <==> avgFunctionality >= 8.0)
      && (level == 3 <==> 6.0 <= avgFunctionality < 8.0)
      && (level == 2 <==> 4.0 <= avgFunctionality < 6.0)
      && (level == 1 <==> avgFunctionality < 4.0)
  {
    if avgAnxiety > 7.0 then 1
    else if avgFunctionality >= 8.0 then 4
    else if avgFunctionality >= 6.0 then 3
    else if avgFunctionality >= 4.0 then 2
    else 1
  }

  /** A better functionality average never lowers the level. */
  lemma LevelMonotone(f1: real, f2: real, a: real)
    requires f1 <= f2
    ensures Level(f1, a) <= Level(f2, a)
  {
  }

  function Entry(s: DayStats): HeatEntry
    requires s.count > 0
  {
    HeatEntry(s.date, s.count, Level(s.functionality / s.count as real, s.anxiety / s.count as real))
  }

  /** `heatmapData`: one entry per day with an entry, in order of first
      appearance, each with the day's entry count and a level in 1..4. */
  function Heatmap(logs: seq<LogEntry>): (r: seq<HeatEntry>)
    ensures |r| == |Group(logs)|
    ensures forall k :: 0 <= k < |r| ==> r[k].date == Seqs.Distinct(Dashboard.DateList(logs))[k]
    ensures forall k :: 0 <= k < |r| ==> r[k].count == Seqs.CountWhere(logs, OnDay(r[k].date)) && r[k].count > 0
    ensures forall k :: 0 <= k < |r| ==> 1 <= r[k].level <= 4
    ensures forall k :: 0 <= k < |r| ==>
      r[k].level == Level(FunctionalitySum(logs, r[k].date) / r[k].count as real, AnxietySum(logs, r[k].date) / r[k].count as real)
  {
    var g := Group(logs);
    GroupStats(logs);
    assert forall k :: 0 <= k < |g| ==> Holds(g[k], logs);
    seq(|g|, k requires 0 <= k < |g| => Entry(g[k]))
  }
}
