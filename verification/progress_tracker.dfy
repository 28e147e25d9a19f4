/** The progress tracker's derived figures: overall and per-section
    completion ratios, the capped weekly bars and the estimated score.
    Ratios are exact reals; the current day is a parameter. */
module ProgressTracker {
  import opened Common
  import opened App

  function SumCompleted(ts: seq<Task>): int
  {
    if ts == [] then 0 else ts[0].completed + SumCompleted(ts[1..])
  }

  function SumTarget(ts: seq<Task>): int
  {
    if ts == [] then 0 else ts[0].dailyTarget + SumTarget(ts[1..])
  }

  /** Overall completion in percent: 0 with no tasks; None stands for the
      NaN or Infinity of dividing by a zero target total. */
  function TotalProgress(ts: seq<Task>): (r: Option<real>)
    ensures ts == [] ==> r == Some(0.0)
    ensures r.None? <==> ts != [] && SumTarget(ts) == 0
    ensures r.Some? && ts != [] ==> r.value * SumTarget(ts) as real == SumCompleted(ts) as real * 100.0
  {
    if |ts| > 0 then
      if SumTarget(ts) == 0 then None
      else Some(SumCompleted(ts) as real / SumTarget(ts) as real * 100.0)
    else Some(0.0)
  }

  /** Totals of one section: completed, target and the percentage, which is
      0 when the section has no target. */
  datatype SectionFigures = SectionFigures(section: Section, completed: int, target: int, progress: real)

  function SectionTasks(ts: seq<Task>, s: Section): seq<Task>
  {
    Filter(ts, (t: Task) => t.section == s)
  }

  function SectionProgress(ts: seq<Task>, s: Section): (f: SectionFigures)
    ensures f.section == s
    ensures f.completed == SumCompleted(SectionTasks(ts, s)) && f.target == SumTarget(SectionTasks(ts, s))
    ensures f.target > 0 ==> f.progress * f.target as real == f.completed as real * 100.0
    ensures f.target <= 0 ==> f.progress == 0.0
  {
    var sts := SectionTasks(ts, s);
    var completed := SumCompleted(sts);
    var target := SumTarget(sts);
    SectionFigures(s, completed, target, if target > 0 then completed as real / target as real * 100.0 else 0.0)
  }

  /** getSectionProgress: the four sections in display order. */
  function AllSectionProgress(ts: seq<Task>): (fs: seq<SectionFigures>)
    ensures |fs| == 4
    ensures fs[0].section == Speaking && fs[1].section == Writing
    ensures fs[2].section == Reading && fs[3].section == Listening
  {
    [SectionProgress(ts, Speaking), SectionProgress(ts, Writing),
     SectionProgress(ts, Reading), SectionProgress(ts, Listening)]
  }

  /** Every task belongs to exactly one section, so the section figures add
      up to the overall totals. */
  lemma {:induction false} SectionsPartitionTotals(ts: seq<Task>)
    ensures var fs := AllSectionProgress(ts);
      && fs[0].completed + fs[1].completed + fs[2].completed + fs[3].completed == SumCompleted(ts)
      && fs[0].target + fs[1].target + fs[2].target + fs[3].target == SumTarget(ts)
  {
    if ts != [] {
      SectionsPartitionTotals(ts[1..]);
    }
  }

  /** The four weekly bars: the cap of each week and its daily slope. */
  function WeekCap(week: int): int
    requires 1 <= week <= 4
  {
    match week
    case 1 => 85
    case 2 => 78
    case 3 => 82
    case 4 => 88
  }

  function WeekSlope(week: int): int
    requires 1 <= week <= 4
  {
    match week
    case 1 => 12
    case 2 => 11
    case 3 => 12
    case 4 => 13
  }

  /** The "current" value of a week's bar. Week 1 has no lower guard. */
  function WeeklyCurrent(week: int, currentDay: int): (c: int)
    requires 1 <= week <= 4
    ensures c <= WeekCap(week)
    ensures currentDay > 7 * week ==> c == WeekCap(week)
    ensures week > 1 && currentDay <= 7 * (week - 1) ==> c == 0
    ensures week > 1 || currentDay >= 0 ==> c >= 0
    ensures 7 * (week - 1) < currentDay <= 7 * week ==> c == Min(WeekCap(week), (currentDay - 7 * (week - 1)) * WeekSlope(week))
  {
    var start := 7 * (week - 1);
    if currentDay > 7 * week then WeekCap(week)
    else if week == 1 || currentDay > start then Min(WeekCap(week), (currentDay - start) * WeekSlope(week))
    else 0
  }

  function Min(a: int, b: int): (m: int)
    ensures m <= a && m <= b && (m == a || m == b)
  {
    if a <= b then a else b
  }

  /** A bar never shrinks as the days go by. */
  lemma WeeklyCurrentMonotone(week: int, d1: int, d2: int)
    requires 1 <= week <= 4 && d1 <= d2
    ensures WeeklyCurrent(week, d1) <= WeeklyCurrent(week, d2)
  {
    var start := 7 * (week - 1);
    if d1 > start && d2 <= 7 * week {
      assert (d1 - start) * WeekSlope(week) <= (d2 - start) * WeekSlope(week);
    }
  }

  function LevelBase(level: Level): (b: int)
    ensures b == 55 <==> level == Advanced
    ensures b == 45 <==> level == Intermediate
    ensures b == 35 <==> level == Beginner
  {
    match level
    case Advanced => 55
    case Intermediate => 45
    case Beginner => 35
  }

  /** round(base + progress/100 x 25 + min(15, day x 0.5)); a missing
      progress (NaN) gives no score. */
  function EstimatedScore(level: Level, progress: Option<real>, currentDay: int): (r: Option<int>)
    ensures r.Some? <==> progress.Some?
  {
    if progress.None? then None
    else
      var dayBonus := if 15.0 < currentDay as real * 0.5 then 15.0 else currentDay as real * 0.5;
      Some(RoundReal(LevelBase(level) as real + progress.value / 100.0 * 25.0 + dayBonus))
  }

  /** With progress within [0, 100] and a non-negative day, the estimate lies
      within 40 points above the level's base. */
  lemma EstimatedScoreBounds(level: Level, progress: real, currentDay: int)
    requires 0.0 <= progress <= 100.0 && currentDay >= 0
    ensures var r := EstimatedScore(level, Some(progress), currentDay);
      r.Some? && LevelBase(level) <= r.value <= LevelBase(level) + 40
  {
    var dayBonus := if 15.0 < currentDay as real * 0.5 then 15.0 else currentDay as real * 0.5;
    var x := LevelBase(level) as real + progress / 100.0 * 25.0 + dayBonus;
    assert LevelBase(level) as real <= x <= LevelBase(level) as real + 40.0;
  }

  /** More progress or a later day never lowers the estimate. */
  lemma EstimatedScoreMonotone(level: Level, p1: real, p2: real, d1: int, d2: int)
    requires p1 <= p2 && d1 <= d2
    ensures EstimatedScore(level, Some(p1), d1).value <= EstimatedScore(level, Some(p2), d2).value
  {
    var b1 := if 15.0 < d1 as real * 0.5 then 15.0 else d1 as real * 0.5;
    var b2 := if 15.0 < d2 as real * 0.5 then 15.0 else d2 as real * 0.5;
    var x1 := LevelBase(level) as real + p1 / 100.0 * 25.0 + b1;
    var x2 := LevelBase(level) as real + p2 / 100.0 * 25.0 + b2;
    assert x1 <= x2;
    RoundRealMonotone(x1, x2);
  }

  lemma RoundRealMonotone(x: real, y: real)
    requires x <= y
    ensures RoundReal(x) <= RoundReal(y)
  {
  }
}
