/** The application root: the learner profile, the catalogue of tasks generated
    from it, the onboarding gate, and the sidebar's completed count. */
module App {
  import opened Common

  datatype Level = Beginner | Intermediate | Advanced
  datatype Priority = High | Medium | Low
  datatype Section = Speaking | Writing | Reading | Listening

  function PriorityName(p: Priority): string
  {
    match p
    case High => "high"
    case Medium => "medium"
    case Low => "low"
  }

  function SectionName(s: Section): string
  {
    match s
    case Speaking => "speaking"
    case Writing => "writing"
    case Reading => "reading"
    case Listening => "listening"
  }

  /** The learner's configuration; startDate is a millisecond timestamp. */
  datatype StudentProfile = StudentProfile(
    targetScore: int,
    dailyHours: int,
    currentLevel: Level,
    startDate: int,
    completed: bool)

  /** One practice-activity type with its daily goal and progress counter
      (the descriptive text lists of a task are not part of this model). */
  datatype Task = Task(
    id: string,
    name: string,
    priority: Priority,
    section: Section,
    dailyTarget: int,
    completed: int)

  predicate TargetMet(t: Task) { t.completed >= t.dailyTarget }

  /** The multiplier from the target score, in tenths: 1.5 or 1. */
  function BaseTenths(targetScore: int): (m: int)
    ensures m == 15 <==> targetScore >= 70
    ensures m == 10 <==> targetScore < 70
  {
    if targetScore >= 70 then 15 else 10
  }

  /** The multiplier from the daily hours, in tenths: 1.2, 1 or 0.8. */
  function HourTenths(dailyHours: int): (m: int)
    ensures m == 12 <==> dailyHours >= 3
    ensures m == 10 <==> 2 <= dailyHours < 3
    ensures m == 8 <==> dailyHours < 2
  {
    if dailyHours >= 3 then 12 else if dailyHours >= 2 then 10 else 8
  }

  /** Daily target of a task that scales with both multipliers. */
  function BothTarget(count: nat, p: StudentProfile): (t: int)
    ensures 200 * t - 100 <= 2 * count * BaseTenths(p.targetScore) * HourTenths(p.dailyHours) < 200 * t + 100
  {
    RoundDiv(count * BaseTenths(p.targetScore) * HourTenths(p.dailyHours), 100)
  }

  /** Daily target of a task that scales with the base multiplier only. */
  function BaseTarget(count: nat, p: StudentProfile): (t: int)
    ensures 20 * t - 10 <= 2 * count * BaseTenths(p.targetScore) < 20 * t + 10
  {
    RoundDiv(count * BaseTenths(p.targetScore), 10)
  }

  function MakeTask(id: string, name: string, pr: Priority, sec: Section, target: int): Task
  {
    Task(id, name, pr, sec, target, 0)
  }

  /** The eight canonical tasks with their daily targets. Summarize Spoken
      Text is a listening task but, as written, scales with the base
      multiplier only. */
  function InitializeTasks(p: StudentProfile): (ts: seq<Task>)
    ensures |ts| == 8
    ensures forall i :: 0 <= i < |ts| ==> ts[i].completed == 0
  {
    [ MakeTask("repeat-sentence", "Repeat Sentence", High, Speaking, BothTarget(15, p)),
      MakeTask("describe-image", "Describe Image", High, Speaking, BothTarget(8, p)),
      MakeTask("read-aloud", "Read Aloud", High, Speaking, BothTarget(12, p)),
      MakeTask("summarize-written-text", "Summarize Written Text", High, Writing, BaseTarget(3, p)),
      MakeTask("write-essay", "Write Essay", Medium, Writing, BaseTarget(2, p)),
      MakeTask("reading-writing-blanks", "Reading & Writing: Fill Blanks", High, Reading, BaseTarget(5, p)),
      MakeTask("summarize-spoken-text", "Summarize Spoken Text", High, Listening, BaseTarget(3, p)),
      MakeTask("write-from-dictation", "Write From Dictation", High, Listening, BothTarget(10, p)) ]
  }

  /** Ids of the catalogue are pairwise distinct. */
  lemma CatalogueIdsDistinct(p: StudentProfile)
    ensures forall i, j :: 0 <= i < j < |InitializeTasks(p)| ==> InitializeTasks(p)[i].id != InitializeTasks(p)[j].id
  {
    var ts := InitializeTasks(p);
    forall i, j | 0 <= i < j < 8 ensures ts[i].id != ts[j].id {
      assert |ts[i].id| != |ts[j].id| || ts[i].id[0] != ts[j].id[0];
    }
  }

  /** Which multipliers each task uses: the three speaking tasks and Write
      From Dictation use both; the other four use the base multiplier only. */
  lemma CatalogueMultipliers(p: StudentProfile)
    ensures var ts := InitializeTasks(p);
      && ts[0].dailyTarget == RoundDiv(15 * BaseTenths(p.targetScore) * HourTenths(p.dailyHours), 100)
      && ts[1].dailyTarget == RoundDiv(8 * BaseTenths(p.targetScore) * HourTenths(p.dailyHours), 100)
      && ts[2].dailyTarget == RoundDiv(12 * BaseTenths(p.targetScore) * HourTenths(p.dailyHours), 100)
      && ts[3].dailyTarget == RoundDiv(3 * BaseTenths(p.targetScore), 10)
      && ts[4].dailyTarget == RoundDiv(2 * BaseTenths(p.targetScore), 10)
      && ts[5].dailyTarget == RoundDiv(5 * BaseTenths(p.targetScore), 10)
      && ts[6].dailyTarget == RoundDiv(3 * BaseTenths(p.targetScore), 10)
      && ts[7].dailyTarget == RoundDiv(10 * BaseTenths(p.targetScore) * HourTenths(p.dailyHours), 100)
    ensures InitializeTasks(p)[6].section == Listening
  {
  }

  /** The base counts of the catalogue, in catalogue order. */
  const TaskCounts: seq<nat> := [15, 8, 12, 3, 2, 5, 3, 10]

  /** Tasks whose target also scales with the daily hours. */
  predicate UsesHours(i: int)
  {
    i == 0 || i == 1 || i == 2 || i == 7
  }

  /** The target of the i-th catalogue task, from its count. */
  lemma CatalogueTarget(p: StudentProfile, i: int)
    requires 0 <= i < 8
    ensures InitializeTasks(p)[i].dailyTarget ==
      if UsesHours(i) then BothTarget(TaskCounts[i], p) else BaseTarget(TaskCounts[i], p)
  {
    var ts := InitializeTasks(p);
    if i < 4 {
      assert ts[0].dailyTarget == BothTarget(15, p) && ts[1].dailyTarget == BothTarget(8, p);
      assert ts[2].dailyTarget == BothTarget(12, p) && ts[3].dailyTarget == BaseTarget(3, p);
    } else {
      assert ts[4].dailyTarget == BaseTarget(2, p) && ts[5].dailyTarget == BaseTarget(5, p);
      assert ts[6].dailyTarget == BaseTarget(3, p) && ts[7].dailyTarget == BothTarget(10, p);
    }
  }

  /** Targets from the catalogue's counts are positive. */
  lemma TargetsPositive(c: nat, p: StudentProfile)
    requires c >= 2
    ensures BaseTarget(c, p) >= 1
    ensures c >= 8 ==> BothTarget(c, p) >= 1
  {
    RoundDivMonotone(2 * 10, c * BaseTenths(p.targetScore), 10);
    if c >= 8 {
      RoundDivMonotone(8 * 10 * 8, c * BaseTenths(p.targetScore) * HourTenths(p.dailyHours), 100);
    }
  }

  /** Every daily target is positive. */
  lemma CatalogueTargetsPositive(p: StudentProfile)
    ensures forall i :: 0 <= i < |InitializeTasks(p)| ==> InitializeTasks(p)[i].dailyTarget >= 1
  {
    forall i | 0 <= i < 8 ensures InitializeTasks(p)[i].dailyTarget >= 1 {
      CatalogueTarget(p, i);
      assert TaskCounts[i] >= 2 && (UsesHours(i) ==> TaskCounts[i] >= 8);
      TargetsPositive(TaskCounts[i], p);
    }
  }

  /** Both kinds of target grow with the target score and the hours. */
  lemma TargetsMonotone(c: nat, p: StudentProfile, q: StudentProfile)
    requires p.targetScore <= q.targetScore && p.dailyHours <= q.dailyHours
    ensures BothTarget(c, p) <= BothTarget(c, q) && BaseTarget(c, p) <= BaseTarget(c, q)
  {
    var bp, bq := BaseTenths(p.targetScore), BaseTenths(q.targetScore);
    var hp, hq := HourTenths(p.dailyHours), HourTenths(q.dailyHours);
    assert bp * hp <= bq * hq;
    assert c * (bp * hp) <= c * (bq * hq) by { MulLeft(c, bp * hp, bq * hq); }
    assert c * bp * hp == c * (bp * hp) && c * bq * hq == c * (bq * hq);
    RoundDivMonotone(c * bp * hp, c * bq * hq, 100);
    MulLeft(c, bp, bq);
    RoundDivMonotone(c * bp, c * bq, 10);
  }

  /** Raising the target score or the daily hours never lowers any daily
      target. */
  lemma CatalogueMonotone(p: StudentProfile, q: StudentProfile)
    requires p.targetScore <= q.targetScore && p.dailyHours <= q.dailyHours
    ensures forall i :: 0 <= i < 8 ==> InitializeTasks(p)[i].dailyTarget <= InitializeTasks(q)[i].dailyTarget
  {
    forall i | 0 <= i < 8 ensures InitializeTasks(p)[i].dailyTarget <= InitializeTasks(q)[i].dailyTarget {
      CatalogueTarget(p, i);
      CatalogueTarget(q, i);
      TargetsMonotone(TaskCounts[i], p, q);
    }
  }

  lemma MulLeft(c: nat, a: int, b: int)
    requires a <= b
    ensures c * a <= c * b
  {
  }

  /** Worked example: target 70 with 3 hours a day gives Repeat Sentence a
      daily target of round(15 x 1.5 x 1.2) = 27. */
  lemma RepeatSentenceExample(p: StudentProfile)
    requires p.targetScore == 70 && p.dailyHours == 3
    ensures InitializeTasks(p)[0].id == "repeat-sentence" && InitializeTasks(p)[0].dailyTarget == 27
  {
  }

  /** Number of tasks at or above their daily target, shown in the sidebar. */
  function CompletedCount(ts: seq<Task>): (n: nat)
    ensures n <= |ts|
    ensures n == |ts| <==> forall i :: 0 <= i < |ts| ==> TargetMet(ts[i])
  {
    if ts == [] then 0 else (if TargetMet(ts[0]) then 1 else 0) + CompletedCount(ts[1..])
  }

  /** The completed count is the generic count of tasks meeting target. */
  lemma {:induction false} CompletedCountIsCount(ts: seq<Task>)
    ensures CompletedCount(ts) == Count(ts, TargetMet)
  {
    if ts != [] {
      CompletedCountIsCount(ts[1..]);
    }
  }

  datatype View = Onboarding | Dashboard | Tasks | Planner | Vocabulary | Progress | Reference | Mock

  /** Root state: the stored profile (None once reset), the list of tasks and the
      section on screen. */
  class AppState {
    var profile: Option<StudentProfile>
    var tasks: seq<Task>
    var currentSection: View

    /** Mount: a saved profile may or may not exist in local storage. */
    constructor (saved: Option<StudentProfile>)
      ensures profile == saved && tasks == []
      ensures currentSection == (if saved.Some? && saved.value.completed then Dashboard else Onboarding)
    {
      profile := saved;
      tasks := [];
      currentSection := if saved.Some? && saved.value.completed then Dashboard else Onboarding;
    }

    /** The onboarding wizard is shown instead of the app while no completed
        profile is stored. */
    predicate ShowsOnboarding()
      reads this
    {
      profile.None? || !profile.value.completed
    }

    method CompleteOnboarding(p: StudentProfile)
      modifies this
      ensures profile == Some(p.(completed := true))
      ensures tasks == InitializeTasks(p)
      ensures currentSection == Dashboard
      ensures !ShowsOnboarding()
    {
      profile := Some(p.(completed := true));
      currentSection := Dashboard;
      tasks := InitializeTasks(p);
    }

    method ResetProgress()
      modifies this
      ensures profile == None && tasks == [] && currentSection == Onboarding
      ensures ShowsOnboarding()
    {
      profile := None;
      currentSection := Onboarding;
      tasks := [];
    }
  }
}
