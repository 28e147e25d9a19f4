/** Task guide: per-task progress counters with a floor at zero, the
    selected task's copy of its counter, the priority/section filter and the
    daily drill split. */
module TaskGuide {
  import opened Common
  import opened App

  /** One click of + or -: the counter moves by one and never drops below 0. */
  function Bump(t: Task, increment: bool): (u: Task)
    ensures u.id == t.id && u.name == t.name && u.priority == t.priority
    ensures u.section == t.section && u.dailyTarget == t.dailyTarget
    ensures increment ==> u.completed == if t.completed + 1 < 0 then 0 else t.completed + 1
    ensures !increment ==> u.completed == if t.completed <= 0 then 0 else t.completed - 1
  {
    var c := t.completed + (if increment then 1 else -1);
    t.(completed := if c < 0 then 0 else c)
  }

  /** The list of tasks after updateTaskProgress: every entry with the id is
      bumped, every other entry is left as it was. */
  function BumpAll(ts: seq<Task>, taskId: string, increment: bool): (us: seq<Task>)
    ensures |us| == |ts|
    ensures forall i :: 0 <= i < |ts| ==> us[i] == if ts[i].id == taskId then Bump(ts[i], increment) else ts[i]
  {
    seq(|ts|, i requires 0 <= i < |ts| => if ts[i].id == taskId then Bump(ts[i], increment) else ts[i])
  }

  predicate NonNegative(ts: seq<Task>)
  {
    forall i :: 0 <= i < |ts| ==> ts[i].completed >= 0
  }

  /** Decrement undoes increment on any non-negative counter. */
  lemma IncrementThenDecrement(ts: seq<Task>, taskId: string)
    requires NonNegative(ts)
    ensures BumpAll(BumpAll(ts, taskId, true), taskId, false) == ts
  {
    var us := BumpAll(BumpAll(ts, taskId, true), taskId, false);
    forall i | 0 <= i < |ts| ensures us[i] == ts[i] {
      if ts[i].id == taskId {
        assert ts[i].completed >= 0;
      }
    }
  }

  /** Decrement at zero leaves zero. */
  lemma DecrementAtZero(t: Task)
    requires t.completed == 0
    ensures Bump(t, false) == t
  {
  }

  /** Counters stay non-negative under every update. */
  lemma BumpAllKeepsNonNegative(ts: seq<Task>, taskId: string, increment: bool)
    requires NonNegative(ts)
    ensures NonNegative(BumpAll(ts, taskId, increment))
  {
  }

  /** The filter over the list of tasks: 'all' keeps every task, any other value
      keeps those tasks whose priority or section is named by it. */
  predicate FilterMatches(filter: string, t: Task)
  {
    PriorityName(t.priority) == filter || SectionName(t.section) == filter
  }

  function FilteredTasks(ts: seq<Task>, filter: string): (r: seq<Task>)
    ensures filter == "all" ==> r == ts
    ensures filter != "all" ==> forall t :: t in r <==> t in ts && FilterMatches(filter, t)
    ensures filter != "all" ==> forall i :: 0 <= i < |r| ==> FilterMatches(filter, r[i])
  {
    if filter == "all" then ts
    else
      var p := (t: Task) => FilterMatches(filter, t);
      forall t ensures t in Filter(ts, p) <==> t in ts && FilterMatches(filter, t) {
        FilterMembership(ts, p, t);
      }
      Filter(ts, p)
  }

  /** Filtering preserves the relative order of whatever tasks it keeps. */
  lemma FilteredTasksOrder(ts1: seq<Task>, ts2: seq<Task>, filter: string)
    ensures FilteredTasks(ts1 + ts2, filter) == FilteredTasks(ts1, filter) + FilteredTasks(ts2, filter)
  {
    if filter != "all" {
      FilterAppend(ts1, ts2, (t: Task) => FilterMatches(filter, t));
    }
  }

  /** Morning and afternoon drills: ceil(0.4 x target) practices each. */
  function MorningDrill(target: int): (n: int)
    ensures 10 * (n - 1) < 4 * target <= 10 * n
  {
    CeilDiv(4 * target, 10)
  }

  /** Evening drill: floor(0.2 x target) practices. */
  function EveningDrill(target: int): (n: int)
    ensures 10 * n <= 2 * target < 10 * (n + 1)
  {
    FloorDiv(2 * target, 10)
  }

  /** The three drills of the day cover the daily target and overshoot it
      by at most two practices. */
  lemma DrillPlanCoversTarget(target: int)
    ensures target <= 2 * MorningDrill(target) + EveningDrill(target) <= target + 2
  {
  }

  /** The guide's state: the shared task list and the selected task's copy. */
  class Guide {
    var tasks: seq<Task>
    var selectedTask: Option<Task>
    var filter: string
    var showPractice: bool

    /** Mount: the first task, if any, is selected. */
    constructor (ts: seq<Task>)
      ensures tasks == ts && filter == "all" && !showPractice
      ensures selectedTask == if |ts| > 0 then Some(ts[0]) else None
    {
      tasks := ts;
      selectedTask := if |ts| > 0 then Some(ts[0]) else None;
      filter := "all";
      showPractice := false;
    }

    method UpdateTaskProgress(taskId: string, increment: bool)
      modifies this
      ensures tasks == BumpAll(old(tasks), taskId, increment)
      ensures selectedTask == if old(selectedTask).Some? && old(selectedTask).value.id == taskId
        then Some(Bump(old(selectedTask).value, increment)) else old(selectedTask)
      ensures filter == old(filter) && showPractice == old(showPractice)
    {
      tasks := BumpAll(tasks, taskId, increment);
      if selectedTask.Some? && selectedTask.value.id == taskId {
        selectedTask := Some(Bump(selectedTask.value, increment));
      }
    }

    /** A finished practice session adds one to the selected task, whatever
        its score, and closes the session. */
    method HandlePracticeComplete(score: int)
      modifies this
      ensures old(selectedTask).Some? ==>
        && tasks == BumpAll(old(tasks), old(selectedTask).value.id, true)
        && selectedTask == Some(Bump(old(selectedTask).value, true))
        && !showPractice
      ensures old(selectedTask).None? ==>
        tasks == old(tasks) && selectedTask == None && showPractice == old(showPractice)
      ensures filter == old(filter)
    {
      if selectedTask.Some? {
        UpdateTaskProgress(selectedTask.value.id, true);
        showPractice := false;
      }
    }
  }
}
