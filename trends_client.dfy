/** The trends page (src/components/trends-client.tsx): the seven-day series
    that records the mood of the first log of each day, and the thirty-day
    count of logs per mood with its chart labels. */
module TrendsClient {
  import opened Types
  import opened JsText

  /** The `{ ecstatic, happy, neutral, sad, anxious }` counters. */
  datatype MoodCounts = MoodCounts(ecstatic: nat, happy: nat, neutral: nat, sad: nat, anxious: nat)
  {
    /** `counts[m]`. */
    function Get(m: Mood): nat
    {
      match m
      case Ecstatic => ecstatic
      case Happy => happy
      case Neutral => neutral
      case Sad => sad
      case Anxious => anxious
    }

    /** `counts[m] = v`: only the counter of `m` changes. */
    function Set(m: Mood, v: nat): (r: MoodCounts)
      ensures r.Get(m) == v
      ensures forall m' :: m' != m ==> r.Get(m') == Get(m')
    {
      match m
      case Ecstatic => this.(ecstatic := v)
      case Happy => this.(happy := v)
      case Neutral => this.(neutral := v)
      case Sad => this.(sad := v)
      case Anxious => this.(anxious := v)
    }

    function Sum(): nat
    {
      ecstatic + happy + neutral + sad + anxious
    }
  }

  const NoCounts: MoodCounts := MoodCounts(0, 0, 0, 0, 0)

  /** `state.moodLogs.filter(log => <same calendar day as d>)`. */
  function LogsOn(logs: seq<MoodLog>, dayOf: Timestamp -> Day, d: Day): (r: seq<MoodLog>)
    ensures forall l :: l in r ==> l in logs && OnDay(l, dayOf, d)
    ensures r == [] <==> forall i :: 0 <= i < |logs| ==> !OnDay(logs[i], dayOf, d)
    ensures r != [] ==> exists i :: (0 <= i < |logs| && r[0] == logs[i] && OnDay(logs[i], dayOf, d)
      && forall j :: 0 <= j < i ==> !OnDay(logs[j], dayOf, d))
  {
    if logs == [] then []
    else
      var rest := LogsOn(logs[1..], dayOf, d);
      assert forall i :: 1 <= i < |logs| ==> logs[i] == logs[1..][i - 1];
      (if OnDay(logs[0], dayOf, d) then [logs[0]] else []) + rest
  }

  /** One point of the weekly series. */
  datatype DayPoint = DayPoint(day: Day, counts: MoodCounts)

  /** The counters of one day: all zero, except a 1 for the mood of the
      day's first log in list order. */
  function DayCounts(logs: seq<MoodLog>, dayOf: Timestamp -> Day, d: Day): (r: MoodCounts)
    ensures forall m :: r.Get(m) <= 1
    ensures (forall i :: 0 <= i < |logs| ==> !OnDay(logs[i], dayOf, d)) <==> r == NoCounts
  {
    var dayLogs := LogsOn(logs, dayOf, d);
    if |dayLogs| > 0 then NoCounts.Set(dayLogs[0].mood, 1) else NoCounts
  }

  /** `weeklyData`: for i = 6 down to 0, the point of the day i days before
      today. */
  method WeeklyData(logs: seq<MoodLog>, dayOf: Timestamp -> Day, today: Day) returns (data: seq<DayPoint>)
    ensures |data| == 7
    ensures forall k :: 0 <= k < 7 ==>
      data[k].day == today - 6 + k && data[k].counts == DayCounts(logs, dayOf, today - 6 + k)
  {
    data := [];
    var i := 6;
    while i >= 0
      invariant -1 <= i <= 6
      invariant |data| == 6 - i
      invariant forall k :: 0 <= k < |data| ==>
        data[k].day == today - 6 + k && data[k].counts == DayCounts(logs, dayOf, today - 6 + k)
    {
      var date := today - i;
      var dayLogs := LogsOn(logs, dayOf, date);
      var moodCounts := NoCounts;
      if |dayLogs| > 0 {
        moodCounts := moodCounts.Set(dayLogs[0].mood, 1);
      }
      assert moodCounts == DayCounts(logs, dayOf, date);
      assert date == today - 6 + |data|;
      data := data + [DayPoint(date, moodCounts)];
      i := i - 1;
    }
  }

  /** Every counter of a day is 0 or 1 and at most one is 1; a day without
      logs is all zeros; a day with logs has its 1 exactly at the mood of the
      first log, in list order, that falls on it. */
  lemma DayCountsFirstOfDay(logs: seq<MoodLog>, dayOf: Timestamp -> Day, d: Day)
    ensures forall m :: DayCounts(logs, dayOf, d).Get(m) <= 1
    ensures DayCounts(logs, dayOf, d).Sum() <= 1
    ensures (forall i :: 0 <= i < |logs| ==> !OnDay(logs[i], dayOf, d)) ==> DayCounts(logs, dayOf, d) == NoCounts
    ensures forall m :: DayCounts(logs, dayOf, d).Get(m) == 1 <==>
      exists i :: (0 <= i < |logs| && OnDay(logs[i], dayOf, d) && logs[i].mood == m
        && forall j :: 0 <= j < i ==> !OnDay(logs[j], dayOf, d))
  {
    var dayLogs := LogsOn(logs, dayOf, d);
    if dayLogs != [] {
      var i :| 0 <= i < |logs| && dayLogs[0] == logs[i] && OnDay(logs[i], dayOf, d)
        && forall j :: 0 <= j < i ==> !OnDay(logs[j], dayOf, d);
      forall m
        ensures DayCounts(logs, dayOf, d).Get(m) == 1 <==>
          exists i' :: (0 <= i' < |logs| && OnDay(logs[i'], dayOf, d) && logs[i'].mood == m
            && forall j :: 0 <= j < i' ==> !OnDay(logs[j], dayOf, d))
      {
        if exists i' :: (0 <= i' < |logs| && OnDay(logs[i'], dayOf, d) && logs[i'].mood == m
            && forall j :: 0 <= j < i' ==> !OnDay(logs[j], dayOf, d)) {
          var i' :| 0 <= i' < |logs| && OnDay(logs[i'], dayOf, d) && logs[i'].mood == m
            && forall j :: 0 <= j < i' ==> !OnDay(logs[j], dayOf, d);
          assert i' == i;
        }
      }
    }
  }

  /** The number of logs with mood `m` dated at or after `cutoff`. */
  function CountSince(logs: seq<MoodLog>, cutoff: Timestamp, m: Mood): (n: nat)
    ensures n <= CountRecent(logs, cutoff)
    ensures (forall i :: 0 <= i < |logs| ==> logs[i].mood != m) ==> n == 0
  {
    if logs == [] then 0
    else
      var last := logs[|logs| - 1];
      CountSince(logs[..|logs| - 1], cutoff, m) + (if last.date >= cutoff && last.mood == m then 1 else 0)
  }

  /** The number of logs dated at or after `cutoff`, whatever their mood. */
  function CountRecent(logs: seq<MoodLog>, cutoff: Timestamp): (n: nat)
    ensures n <= |logs|
  {
    if logs == [] then 0
    else CountRecent(logs[..|logs| - 1], cutoff) + (if logs[|logs| - 1].date >= cutoff then 1 else 0)
  }

  /** The five per-mood counts add up to the number of recent logs, so never
      to more than the number of logs. */
  lemma {:induction false} MonthlyCountsPartition(logs: seq<MoodLog>, cutoff: Timestamp)
    ensures CountSince(logs, cutoff, Ecstatic) + CountSince(logs, cutoff, Happy)
      + CountSince(logs, cutoff, Neutral) + CountSince(logs, cutoff, Sad)
      + CountSince(logs, cutoff, Anxious) == CountRecent(logs, cutoff)
    ensures CountRecent(logs, cutoff) <= |logs|
  {
    if logs != [] {
      MonthlyCountsPartition(logs[..|logs| - 1], cutoff);
    }
  }

  /** The `forEach` of `monthlyData`: one increment per log dated at or after
      the cutoff (thirty days before now). */
  method MonthlyCounts(logs: seq<MoodLog>, cutoff: Timestamp) returns (counts: MoodCounts)
    ensures forall m :: counts.Get(m) == CountSince(logs, cutoff, m)
  {
    counts := NoCounts;
    for i := 0 to |logs|
      invariant forall m :: counts.Get(m) == CountSince(logs[..i], cutoff, m)
    {
      assert logs[..i + 1][..i] == logs[..i];
      if logs[i].date >= cutoff {
        counts := counts.Set(logs[i].mood, counts.Get(logs[i].mood) + 1);
      }
    }
    assert logs[..|logs|] == logs;
  }

  /** One bar of the monthly chart. */
  datatype MonthlyEntry = MonthlyEntry(mood: string, count: nat)

  /** `Object.entries(moodCount)`: each mood's name and counter, in the
      order the counters were declared. */
  function Entries(c: MoodCounts): (r: seq<(string, nat)>)
    ensures |r| == |AllMoods|
    ensures forall k :: 0 <= k < |r| ==> r[k].1 == c.Get(AllMoods[k])
    ensures forall j, k :: 0 <= j < k < |r| ==> r[j].0 != r[k].0
  {
    var r := seq(|AllMoods|, k requires 0 <= k < |AllMoods| => (MoodName(AllMoods[k]), c.Get(AllMoods[k])));
    forall j, k | 0 <= j < k < |r|
      ensures r[j].0 != r[k].0
    {
      MoodNameInjective(AllMoods[j], AllMoods[k]);
    }
    r
  }

  /** The final `map`: five bars, ecstatic to anxious, each labelled with its
      mood's name capitalised and carrying that mood's count. */
  function MonthlyData(c: MoodCounts): (r: seq<MonthlyEntry>)
    ensures |r| == |AllMoods|
    ensures forall k :: 0 <= k < |AllMoods| ==>
      r[k].count == c.Get(AllMoods[k]) && r[k].mood == Capitalize(MoodName(AllMoods[k]))
  {
    var entries := Entries(c);
    seq(|entries|, k requires 0 <= k < |entries| => MonthlyEntry(Capitalize(entries[k].0), entries[k].1))
  }

  /** The labels, spelled out. */
  lemma MonthlyLabels(c: MoodCounts)
    ensures var r := MonthlyData(c);
      r[0].mood == "Ecstatic" && r[1].mood == "Happy" && r[2].mood == "Neutral"
      && r[3].mood == "Sad" && r[4].mood == "Anxious"
  {
    assert Capitalize("ecstatic") == "Ecstatic";
    assert Capitalize("happy") == "Happy";
    assert Capitalize("neutral") == "Neutral";
    assert Capitalize("sad") == "Sad";
    assert Capitalize("anxious") == "Anxious";
  }

  /** `monthlyData` as a whole. */
  method MonthlySummary(logs: seq<MoodLog>, cutoff: Timestamp) returns (data: seq<MonthlyEntry>)
    ensures |data| == 5
    ensures forall k :: 0 <= k < 5 ==>
      data[k].count == CountSince(logs, cutoff, AllMoods[k])
      && data[k].mood == Capitalize(MoodName(AllMoods[k]))
  {
    var counts := MonthlyCounts(logs, cutoff);
    data := MonthlyData(counts);
  }
}
