/** The dashboard's derived figures for a given day of the 30-day plan. */
module Dashboard {
  import opened Common
  import opened App

  /** Days left in the plan, never negative. */
  function RemainingDays(currentDay: int): (r: int)
    ensures r >= 0
    ensures currentDay <= 31 ==> r == 31 - currentDay
    ensures currentDay >= 31 ==> r == 0
  {
    if 30 - currentDay + 1 > 0 then 30 - currentDay + 1 else 0
  }

  datatype Phase = Foundation | Accuracy | Timing | Polishing

  function WeekPhase(day: int): Phase
  {
    if day <= 7 then Foundation
    else if day <= 14 then Accuracy
    else if day <= 21 then Timing
    else Polishing
  }

  /** The phase of a week in the milestone list. */
  function PhaseOfWeek(week: int): Phase
    requires 1 <= week <= 4
  {
    match week
    case 1 => Foundation
    case 2 => Accuracy
    case 3 => Timing
    case 4 => Polishing
  }

  datatype MilestoneStatus = Achieved | Current | Upcoming

  /** A week's milestone is achieved once its last day has passed, and
      current while the day lies inside the week. */
  function Milestone(week: int, currentDay: int): (m: MilestoneStatus)
    requires 1 <= week <= 4
    ensures m == Achieved <==> currentDay > 7 * week
    ensures m == Current <==> 7 * (week - 1) < currentDay <= 7 * week
  {
    if currentDay > 7 * week then Achieved
    else if currentDay > (week - 1) * 7 && currentDay <= week * 7 then Current
    else Upcoming
  }

  /** The phase banner and the milestone list agree: during the plan the
      current milestone is the week whose phase the banner shows, and the
      banner's phase is reached in that week only. */
  lemma PhaseMatchesMilestone(currentDay: int, week: int)
    requires 1 <= currentDay <= 28 && 1 <= week <= 4
    ensures Milestone(week, currentDay) == Current <==> WeekPhase(currentDay) == PhaseOfWeek(week)
  {
  }

  /** Items of the daily schedule (the labels are display text). */
  datatype ScheduleItem = WarmUp | RepeatSentence | SummarizeWrittenText | WriteFromDictation | Review

  const Schedule: seq<ScheduleItem> := [WarmUp, RepeatSentence, SummarizeWrittenText, WriteFromDictation, Review]

  /** getDailySchedule: the first max(2, 2 x hours) items. */
  function DailySchedule(dailyHours: int): (r: seq<ScheduleItem>)
    ensures var k := if 2 > 2 * dailyHours then 2 else 2 * dailyHours;
      |r| == (if k < 5 then k else 5)
    ensures r <= Schedule
  {
    var k := if 2 > dailyHours * 2 then 2 else dailyHours * 2;
    Schedule[..if k < |Schedule| then k else |Schedule|]
  }

  /** More hours never shorten the schedule; at least the two first items
      are always there. */
  lemma DailyScheduleGrows(h1: int, h2: int)
    requires h1 <= h2
    ensures DailySchedule(h1) <= DailySchedule(h2)
    ensures [WarmUp, RepeatSentence] <= DailySchedule(h1)
  {
    assert Schedule[..2] == [WarmUp, RepeatSentence];
  }

  /** r is k out of n as a percentage: within [0, 100], exactly 100 when k
      is n, and n times it is 100 k. */
  lemma Percent(r: real, k: nat, n: nat)
    requires 0 < n && k <= n && r == k as real / n as real * 100.0
    ensures 0.0 <= r <= 100.0 && r * n as real == k as real * 100.0
    ensures r == 100.0 <==> k == n
  {
    var nr := n as real;
    assert r * nr == k as real * 100.0;
    assert 0.0 <= k as real <= nr;
    if r > 100.0 {
      MulStrict(100.0, r, nr);
      assert false;
    }
    if r < 0.0 {
      MulStrict(r, 0.0, nr);
      assert false;
    }
    if k == n && r < 100.0 {
      MulStrict(r, 100.0, nr);
      assert false;
    }
    if r == 100.0 {
      assert nr * 100.0 == k as real * 100.0;
    }
  }

  /** k out of n as a percentage. */
  function PercentOf(k: nat, n: nat): (r: real)
    requires 0 < n && k <= n
    ensures 0.0 <= r <= 100.0 && r * n as real == k as real * 100.0
    ensures r == 100.0 <==> k == n
  {
    var x := k as real / n as real * 100.0;
    Percent(x, k, n);
    x
  }

  /** Share of tasks at or above target, in percent; 0 with no tasks. */
  function TodayProgress(ts: seq<Task>): (r: real)
    ensures 0.0 <= r <= 100.0
    ensures ts != [] ==> r * |ts| as real == CompletedCount(ts) as real * 100.0
  {
    if |ts| > 0 then PercentOf(CompletedCount(ts), |ts|) else 0.0
  }

  /** Today's progress reads 100 exactly when every task meets its target. */
  lemma TodayProgressFull(ts: seq<Task>)
    requires ts != []
    ensures TodayProgress(ts) == 100.0 <==> forall i :: 0 <= i < |ts| ==> TargetMet(ts[i])
  {
    assert TodayProgress(ts) == PercentOf(CompletedCount(ts), |ts|);
  }

  function HighPriority(ts: seq<Task>): seq<Task>
  {
    Filter(ts, (t: Task) => t.priority == High)
  }

  function CompletedHighPriority(ts: seq<Task>): seq<Task>
  {
    Filter(HighPriority(ts), (t: Task) => TargetMet(t))
  }

  /** The completed high-priority tasks are high-priority tasks that meet
      their target, and no more than the high-priority ones. */
  lemma CompletedHighPriorityIsSubset(ts: seq<Task>)
    ensures forall t :: t in CompletedHighPriority(ts) <==> t in ts && t.priority == High && TargetMet(t)
    ensures |CompletedHighPriority(ts)| <= |HighPriority(ts)|
  {
    forall t ensures t in CompletedHighPriority(ts) <==> t in ts && t.priority == High && TargetMet(t) {
      FilterMembership(HighPriority(ts), (x: Task) => TargetMet(x), t);
      FilterMembership(ts, (x: Task) => x.priority == High, t);
    }
  }

  /** The streak shown: the day number, capped at 7. */
  function Streak(currentDay: int): (s: int)
    ensures s <= 7 && s <= currentDay && (s == 7 || s == currentDay)
  {
    if currentDay < 7 then currentDay else 7
  }

  /** The estimate: 45 + round(todayProgress x 0.25 x day), computed
      exactly as 45 + round(met x 25 x day / tasks). */
  function DashboardEstimate(ts: seq<Task>, currentDay: int): (e: int)
    ensures ts == [] ==> e == 45
    ensures ts != [] ==> var x := CompletedCount(ts) * 25 * currentDay;
      2 * |ts| * (e - 45) <= 2 * x + |ts| < 2 * |ts| * (e - 45 + 1)
  {
    if |ts| > 0 then 45 + RoundDiv(CompletedCount(ts) * 25 * currentDay, |ts|) else 45
  }

  /** The exact form matches the displayed formula on the rationals. */
  lemma DashboardEstimateAgrees(ts: seq<Task>, currentDay: int)
    requires ts != []
    ensures DashboardEstimate(ts, currentDay) == 45 + RoundReal(TodayProgress(ts) * 0.25 * currentDay as real)
  {
    var k := CompletedCount(ts);
    var p := TodayProgress(ts);
    var x := p * 0.25 * currentDay as real;
    var c := k * 25 * currentDay;
    EstimateArithmetic(p, |ts| as real, k, currentDay);
    RoundDivIsRoundReal(c, |ts|, x);
  }

  /** Scaling a percentage p of k out of n by a quarter of the day gives
      25 k d over n. */
  lemma EstimateArithmetic(p: real, n: real, k: int, d: int)
    requires p * n == k as real * 100.0
    ensures (p * 0.25 * d as real) * n == (k * 25 * d) as real
  {
    var kr, dr := k as real, d as real;
    calc {
      (p * 0.25 * dr) * n;
      (p * n) * 0.25 * dr;
      kr * 100.0 * 0.25 * dr;
      kr * 25.0 * dr;
    }
    assert (k * 25 * d) as real == kr * 25.0 * dr;
  }

}
