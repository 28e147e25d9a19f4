/** The study planner: calendar sessions seeded for the coming week when
    nothing is saved, created, edited, deleted and ticked off by id, and
    listed per day in start-time order. Dates are day indices; "today" and
    the creation stamp are parameters. */
module StudyPlanner {
  import opened Common

  /** Session ids: the seeded ones are built from the slot and the date,
      added ones from the date, the start time and a creation stamp. */
  datatype SessionId = MorningId(day: int) | EveningId(day: int) | AddedId(date: int, start: string, stamp: int)

  datatype StudySession = StudySession(
    id: SessionId,
    date: int,
    startTime: string,
    endTime: string,
    tasks: seq<string>,
    completed: bool,
    notes: string)

  /** The fields a new session is created from (everything but its id). */
  datatype SessionDraft = SessionDraft(
    date: int,
    startTime: string,
    endTime: string,
    tasks: seq<string>,
    completed: bool,
    notes: string)

  function MorningSession(day: int, dailyHours: int): (s: StudySession)
    ensures s.date == day && s.startTime == "08:00" && !s.completed && s.notes == []
    ensures s.endTime == (if dailyHours >= 3 then "10:00" else "09:30")
  {
    StudySession(MorningId(day), day, "08:00", if dailyHours >= 3 then "10:00" else "09:30",
      ["Read Aloud", "Repeat Sentence", "Describe Image"], false, [])
  }

  function EveningSession(day: int, dailyHours: int): (s: StudySession)
    ensures s.date == day && !s.completed && s.notes == []
    ensures s.startTime == (if dailyHours >= 3 then "19:00" else "20:00")
    ensures s.endTime == (if dailyHours >= 3 then "21:00" else "21:30")
  {
    StudySession(EveningId(day), day, if dailyHours >= 3 then "19:00" else "20:00",
      if dailyHours >= 3 then "21:00" else "21:30",
      ["Summarize Written Text", "Write Essay", "Mock Test Practice"], false, [])
  }

  /** Sessions seeded for one day. */
  function DayPlan(day: int, dailyHours: int): (ss: seq<StudySession>)
    ensures |ss| == if dailyHours >= 2 then 2 else 1
  {
    (if dailyHours >= 2 then [MorningSession(day, dailyHours)] else []) + [EveningSession(day, dailyHours)]
  }

  /** Sessions seeded for the n days starting at `today`. */
  function SeededPlan(today: int, n: nat, dailyHours: int): (ss: seq<StudySession>)
  {
    if n == 0 then [] else SeededPlan(today, n - 1, dailyHours) + DayPlan(today + n - 1, dailyHours)
  }

  /** What every session of one day's plan looks like. */
  lemma DayPlanMembers(day: int, dailyHours: int, s: StudySession)
    requires s in DayPlan(day, dailyHours)
    ensures !s.completed && s.notes == [] && s.date == day
    ensures s.id == MorningId(day) || s.id == EveningId(day)
  {
    if s != EveningSession(day, dailyHours) {
      assert s == MorningSession(day, dailyHours);
    }
  }

  /** What every seeded session looks like. */
  lemma {:induction false} SeededMember(today: int, n: nat, dailyHours: int, s: StudySession)
    requires s in SeededPlan(today, n, dailyHours)
    ensures !s.completed && s.notes == [] && today <= s.date < today + n
    ensures s.id == MorningId(s.date) || s.id == EveningId(s.date)
  {
    var prev := SeededPlan(today, n - 1, dailyHours);
    if s in prev {
      SeededMember(today, n - 1, dailyHours, s);
    } else {
      DayPlanMembers(today + n - 1, dailyHours, s);
    }
  }

  /** The seeded week has 14 sessions with two or more hours a day and 7
      otherwise; every session is open, without notes, on one of the seven
      days. */
  lemma {:induction false} SeededPlanShape(today: int, n: nat, dailyHours: int)
    ensures |SeededPlan(today, n, dailyHours)| == n * (if dailyHours >= 2 then 2 else 1)
    ensures forall s :: s in SeededPlan(today, n, dailyHours) ==>
      && !s.completed && s.notes == [] && today <= s.date < today + n
      && (s.id == MorningId(s.date) || s.id == EveningId(s.date))
  {
    if n > 0 {
      SeededPlanShape(today, n - 1, dailyHours);
    }
    forall s | s in SeededPlan(today, n, dailyHours)
      ensures !s.completed && s.notes == [] && today <= s.date < today + n
      ensures s.id == MorningId(s.date) || s.id == EveningId(s.date)
    {
      SeededMember(today, n, dailyHours, s);
    }
  }

  /** Every day of the week gets an evening session, and a morning session
      exactly when the learner studies two hours or more. */
  lemma {:induction false} SeededPlanSlots(today: int, n: nat, dailyHours: int, day: int)
    requires today <= day < today + n
    ensures EveningSession(day, dailyHours) in SeededPlan(today, n, dailyHours)
    ensures MorningSession(day, dailyHours) in SeededPlan(today, n, dailyHours) <==> dailyHours >= 2
  {
    if day < today + n - 1 {
      SeededPlanSlots(today, n - 1, dailyHours, day);
    } else {
      MorningAbsentOutside(today, n - 1, dailyHours, day);
    }
  }

  /** A day's morning session appears only on that day's part of the plan. */
  lemma {:induction false} MorningAbsentOutside(today: int, n: nat, dailyHours: int, day: int)
    requires dailyHours < 2 || day < today || day >= today + n
    ensures MorningSession(day, dailyHours) !in SeededPlan(today, n, dailyHours)
  {
    if n > 0 {
      MorningAbsentOutside(today, n - 1, dailyHours, day);
    }
  }

  /** No two seeded sessions share an id. */
  lemma {:induction false} SeededIdsDistinct(today: int, n: nat, dailyHours: int)
    ensures forall i, j :: 0 <= i < j < |SeededPlan(today, n, dailyHours)| ==>
      SeededPlan(today, n, dailyHours)[i].id != SeededPlan(today, n, dailyHours)[j].id
  {
    if n > 0 {
      SeededIdsDistinct(today, n - 1, dailyHours);
      var prev := SeededPlan(today, n - 1, dailyHours);
      var day := DayPlan(today + n - 1, dailyHours);
      var ss := SeededPlan(today, n, dailyHours);
      assert ss == prev + day;
      forall i, j | 0 <= i < j < |ss| ensures ss[i].id != ss[j].id {
        if j < |prev| {
          assert ss[i] == prev[i] && ss[j] == prev[j];
        } else if i < |prev| {
          assert ss[i] in prev;
          SeededMember(today, n - 1, dailyHours, ss[i]);
          DayPlanMembers(today + n - 1, dailyHours, ss[j]);
        } else {
          assert |day| == 2 && ss[i] == day[0] && ss[j] == day[1];
        }
      }
    }
  }

  /** updateSession: every session with the id is replaced by the update. */
  function Updated(ss: seq<StudySession>, u: StudySession): (r: seq<StudySession>)
    ensures |r| == |ss|
    ensures forall i :: 0 <= i < |ss| ==> r[i] == if ss[i].id == u.id then u else ss[i]
  {
    seq(|ss|, i requires 0 <= i < |ss| => if ss[i].id == u.id then u else ss[i])
  }

  /** deleteSession: the sessions with the id are dropped, the rest kept in
      order. */
  function Deleted(ss: seq<StudySession>, id: SessionId): (r: seq<StudySession>)
    ensures forall s :: s in r <==> s in ss && s.id != id
    ensures |r| <= |ss|
  {
    forall s ensures s in Filter(ss, (x: StudySession) => x.id != id) <==> s in ss && s.id != id {
      FilterMembership(ss, (x: StudySession) => x.id != id, s);
    }
    Filter(ss, (x: StudySession) => x.id != id)
  }

  /** toggleSessionComplete: completed flips on the sessions with the id. */
  function Toggled(ss: seq<StudySession>, id: SessionId): (r: seq<StudySession>)
    ensures |r| == |ss|
    ensures forall i :: 0 <= i < |ss| ==> r[i] == if ss[i].id == id then ss[i].(completed := !ss[i].completed) else ss[i]
  {
    seq(|ss|, i requires 0 <= i < |ss| => if ss[i].id == id then ss[i].(completed := !ss[i].completed) else ss[i])
  }

  /** Toggling twice restores the list. */
  lemma ToggleTwice(ss: seq<StudySession>, id: SessionId)
    ensures Toggled(Toggled(ss, id), id) == ss
  {
    var r := Toggled(Toggled(ss, id), id);
    assert forall i :: 0 <= i < |ss| ==> r[i] == ss[i];
  }

  /** Deleting an id removes it for good and leaves the other sessions. */
  lemma DeleteRemovesOnlyId(ss: seq<StudySession>, id: SessionId)
    ensures forall s :: s in ss && s.id != id ==> s in Deleted(ss, id)
    ensures forall s :: s in Deleted(ss, id) ==> s.id != id
  {
  }

  /** Deletion works piecewise, so the kept sessions stay in their order;
      a list without the id is left as it is. */
  lemma DeletedKeepsOrder(a: seq<StudySession>, b: seq<StudySession>, id: SessionId)
    ensures Deleted(a + b, id) == Deleted(a, id) + Deleted(b, id)
    ensures (forall i :: 0 <= i < |a| ==> a[i].id != id) ==> Deleted(a, id) == a
  {
    FilterAppend(a, b, (x: StudySession) => x.id != id);
    if forall i :: 0 <= i < |a| ==> a[i].id != id {
      FilterAll(a, (x: StudySession) => x.id != id);
    }
  }

  /** Lexicographic order of strings ("HH:MM" sorts by time of day). */
  predicate LexLeq(a: string, b: string)
  {
    a == [] || (b != [] && (a[0] < b[0] || (a[0] == b[0] && LexLeq(a[1..], b[1..]))))
  }

  lemma {:induction false} LexTotal(a: string, b: string)
    ensures LexLeq(a, b) || LexLeq(b, a)
  {
    if a != [] && b != [] && a[0] == b[0] {
      LexTotal(a[1..], b[1..]);
    }
  }

  lemma {:induction false} LexTransitive(a: string, b: string, c: string)
    requires LexLeq(a, b) && LexLeq(b, c)
    ensures LexLeq(a, c)
  {
    if a != [] && b != [] && c != [] && a[0] == b[0] && b[0] == c[0] {
      LexTransitive(a[1..], b[1..], c[1..]);
    }
  }

  predicate SortedByStart(ss: seq<StudySession>)
  {
    forall i, j :: 0 <= i < j < |ss| ==> LexLeq(ss[i].startTime, ss[j].startTime)
  }

  lemma {:induction false} LexReflexive(a: string)
    ensures LexLeq(a, a)
  {
    if a != [] {
      LexReflexive(a[1..]);
    }
  }

  /** Insert s after the sessions that start strictly before it, so s lands
      in front of any session with the same start time. */
  function Insert(s: StudySession, ss: seq<StudySession>): (r: seq<StudySession>)
    ensures |r| == |ss| + 1
  {
    if ss == [] then [s]
    else if LexLeq(ss[0].startTime, s.startTime) && ss[0].startTime != s.startTime then [ss[0]] + Insert(s, ss[1..])
    else [s] + ss
  }

  /** Inserting adds exactly the one session. */
  lemma {:induction false} InsertPermutes(s: StudySession, ss: seq<StudySession>)
    ensures multiset(Insert(s, ss)) == multiset(ss) + multiset{s}
  {
    if ss != [] {
      assert ss == [ss[0]] + ss[1..];
      if LexLeq(ss[0].startTime, s.startTime) && ss[0].startTime != s.startTime {
        InsertPermutes(s, ss[1..]);
      }
    }
  }

  /** A lower bound on every start time survives an insertion above it. */
  lemma {:induction false} InsertBounded(s: StudySession, ss: seq<StudySession>, b: string)
    requires LexLeq(b, s.startTime)
    requires forall i :: 0 <= i < |ss| ==> LexLeq(b, ss[i].startTime)
    ensures forall i :: 0 <= i < |Insert(s, ss)| ==> LexLeq(b, Insert(s, ss)[i].startTime)
  {
    if ss != [] && LexLeq(ss[0].startTime, s.startTime) && ss[0].startTime != s.startTime {
      InsertBounded(s, ss[1..], b);
    }
  }

  /** Inserting into a sorted list keeps it sorted. */
  lemma {:induction false} InsertSorted(s: StudySession, ss: seq<StudySession>)
    requires SortedByStart(ss)
    ensures SortedByStart(Insert(s, ss))
  {
    if ss == [] {
    } else if LexLeq(ss[0].startTime, s.startTime) && ss[0].startTime != s.startTime {
      var rest := Insert(s, ss[1..]);
      InsertSorted(s, ss[1..]);
      InsertBounded(s, ss[1..], ss[0].startTime);
      var r := [ss[0]] + rest;
      assert r == Insert(s, ss);
      forall i, j | 0 <= i < j < |r| ensures LexLeq(r[i].startTime, r[j].startTime) {
        if i == 0 {
          assert r[j] == rest[j - 1];
        } else {
          assert r[i] == rest[i - 1] && r[j] == rest[j - 1];
        }
      }
    } else {
      LexTotal(ss[0].startTime, s.startTime);
      LexReflexive(s.startTime);
      assert LexLeq(s.startTime, ss[0].startTime);
      var r := [s] + ss;
      forall i, j | 0 <= i < j < |r| ensures LexLeq(r[i].startTime, r[j].startTime) {
        if i == 0 && j > 1 {
          LexTransitive(s.startTime, ss[0].startTime, ss[j - 1].startTime);
        }
      }
    }
  }

  /** The sessions starting at time k. */
  function StartsAt(k: string): StudySession -> bool
  {
    (x: StudySession) => x.startTime == k
  }

  /** Inserting s puts it in front of the sessions with the same start
      time and leaves their order alone. */
  lemma {:induction false} InsertStable(s: StudySession, ss: seq<StudySession>, k: string)
    ensures Filter(Insert(s, ss), StartsAt(k)) == (if s.startTime == k then [s] else []) + Filter(ss, StartsAt(k))
  {
    if ss == [] {
    } else if LexLeq(ss[0].startTime, s.startTime) && ss[0].startTime != s.startTime {
      InsertStable(s, ss[1..], k);
      assert ss == [ss[0]] + ss[1..];
      FilterAppend([ss[0]], Insert(s, ss[1..]), StartsAt(k));
      FilterAppend([ss[0]], ss[1..], StartsAt(k));
    } else {
      FilterAppend([s], ss, StartsAt(k));
    }
  }

  /** Stable insertion sort by start time. */
  function SortByStart(ss: seq<StudySession>): (r: seq<StudySession>)
    ensures SortedByStart(r)
    ensures multiset(r) == multiset(ss)
  {
    if ss == [] then []
    else
      assert ss == [ss[0]] + ss[1..];
      InsertSorted(ss[0], SortByStart(ss[1..]));
      InsertPermutes(ss[0], SortByStart(ss[1..]));
      Insert(ss[0], SortByStart(ss[1..]))
  }

  /** The sort is stable: the sessions sharing a start time come out in
      the order they went in. */
  lemma {:induction false} SortByStartStable(ss: seq<StudySession>, k: string)
    ensures Filter(SortByStart(ss), StartsAt(k)) == Filter(ss, StartsAt(k))
  {
    if ss != [] {
      SortByStartStable(ss[1..], k);
      InsertStable(ss[0], SortByStart(ss[1..]), k);
      assert ss == [ss[0]] + ss[1..];
      FilterAppend([ss[0]], ss[1..], StartsAt(k));
    }
  }

  /** The sessions on the given date. */
  function OnDate(date: int): StudySession -> bool
  {
    (x: StudySession) => x.date == date
  }

  /** getSessionsForDate: the sessions on the date, sorted by start time. */
  function SessionsForDate(ss: seq<StudySession>, date: int): (r: seq<StudySession>)
    ensures SortedByStart(r)
    ensures forall s :: s in r <==> s in ss && s.date == date
    ensures multiset(r) == multiset(Filter(ss, OnDate(date)))
  {
    var onDate := Filter(ss, OnDate(date));
    forall s ensures s in onDate <==> s in ss && s.date == date {
      FilterMembership(ss, OnDate(date), s);
    }
    var r := SortByStart(onDate);
    assert forall s :: s in r <==> s in multiset(r);
    r
  }

  /** Sessions of the date with the same start time are listed in the
      order the plan holds them. */
  lemma SessionsForDateStable(ss: seq<StudySession>, date: int, k: string)
    ensures Filter(SessionsForDate(ss, date), StartsAt(k)) == Filter(Filter(ss, OnDate(date)), StartsAt(k))
  {
    SortByStartStable(Filter(ss, OnDate(date)), k);
  }

  /** handleTaskToggle in the session form: remove a task that is present,
      append it otherwise. */
  function ToggleTask(tasks: seq<string>, task: string): (r: seq<string>)
    ensures task in tasks ==> task !in r && forall t :: t in r <==> t in tasks && t != task
    ensures task !in tasks ==> r == tasks + [task]
  {
    if task in tasks then
      forall t ensures t in Filter(tasks, (x: string) => x != task) <==> t in tasks && t != task {
        FilterMembership(tasks, (x: string) => x != task, t);
      }
      Filter(tasks, (x: string) => x != task)
    else tasks + [task]
  }

  /** Removing a present task works piecewise, so the other tasks keep
      their order. */
  lemma ToggleTaskKeepsOrder(a: seq<string>, b: seq<string>, task: string)
    requires task in a + b
    ensures ToggleTask(a + b, task) == Filter(a, (x: string) => x != task) + Filter(b, (x: string) => x != task)
    ensures task !in a ==> Filter(a, (x: string) => x != task) == a
  {
    FilterAppend(a, b, (x: string) => x != task);
    if task !in a {
      FilterAll(a, (x: string) => x != task);
    }
  }

  /** Toggling a task twice into a list that lacks it restores the list. */
  lemma ToggleTaskTwice(tasks: seq<string>, task: string)
    requires task !in tasks
    ensures ToggleTask(ToggleTask(tasks, task), task) == tasks
  {
    var p := (x: string) => x != task;
    FilterAppend(tasks, [task], p);
    FilterAll(tasks, p);
  }

  /** The loop of generateWeeklyPlan: seven days, a morning session when
      the learner studies two hours or more, always an evening session. */
  method WeeklyPlan(today: int, dailyHours: int) returns (plan: seq<StudySession>)
    ensures plan == SeededPlan(today, 7, dailyHours)
  {
    plan := [];
    for i := 0 to 7
      invariant plan == SeededPlan(today, i, dailyHours)
    {
      if dailyHours >= 2 {
        plan := plan + [MorningSession(today + i, dailyHours)];
      }
      plan := plan + [EveningSession(today + i, dailyHours)];
    }
  }

  class Planner {
    var sessions: seq<StudySession>

    /** Mount: the saved sessions if any, otherwise the seeded week. */
    constructor (saved: Option<seq<StudySession>>, today: int, dailyHours: int)
      ensures saved.Some? ==> sessions == saved.value
      ensures saved.None? ==> sessions == SeededPlan(today, 7, dailyHours)
    {
      var initial: seq<StudySession>;
      if saved.Some? {
        initial := saved.value;
      } else {
        initial := WeeklyPlan(today, dailyHours);
      }
      sessions := initial;
    }

    /** generateWeeklyPlan replaces the sessions with the seeded week. */
    method GenerateWeeklyPlan(today: int, dailyHours: int)
      modifies this
      ensures sessions == SeededPlan(today, 7, dailyHours)
    {
      sessions := WeeklyPlan(today, dailyHours);
    }

    /** addSession: append the draft with a fresh id; nothing else changes. */
    method AddSession(d: SessionDraft, stamp: int)
      modifies this
      ensures sessions == old(sessions) + [StudySession(AddedId(d.date, d.startTime, stamp), d.date, d.startTime, d.endTime, d.tasks, d.completed, d.notes)]
    {
      sessions := sessions + [StudySession(AddedId(d.date, d.startTime, stamp), d.date, d.startTime, d.endTime, d.tasks, d.completed, d.notes)];
    }

    method UpdateSession(u: StudySession)
      modifies this
      ensures sessions == Updated(old(sessions), u)
    {
      sessions := Updated(sessions, u);
    }

    method DeleteSession(id: SessionId)
      modifies this
      ensures sessions == Deleted(old(sessions), id)
    {
      sessions := Deleted(sessions, id);
    }

    method ToggleSessionComplete(id: SessionId)
      modifies this
      ensures sessions == Toggled(old(sessions), id)
    {
      sessions := Toggled(sessions, id);
    }
  }
}
