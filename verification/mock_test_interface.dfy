/** The full mock test: a (section, task, question) cursor over a fixed table
    of four sections, a one-hour countdown, a log of typed responses, and the
    placeholder four-skill result produced on completion. */
module MockTestInterface {
  import opened Common
  import opened Digits

  datatype TaskSpec = TaskSpec(name: string, count: nat, timePerTask: nat, prepTime: nat)
  datatype SectionSpec = SectionSpec(name: string, duration: nat, tasks: seq<TaskSpec>)

  const Sections: seq<SectionSpec> := [
    SectionSpec("Speaking", 3240, [
      TaskSpec("Read Aloud", 6, 40, 30),
      TaskSpec("Repeat Sentence", 10, 15, 3),
      TaskSpec("Describe Image", 6, 40, 25),
      TaskSpec("Re-tell Lecture", 3, 40, 10),
      TaskSpec("Answer Short Question", 10, 10, 3)]),
    SectionSpec("Writing", 1800, [
      TaskSpec("Summarize Written Text", 2, 600, 0),
      TaskSpec("Write Essay", 1, 1200, 0)]),
    SectionSpec("Reading", 1800, [
      TaskSpec("Multiple Choice (Single)", 2, 120, 0),
      TaskSpec("Multiple Choice (Multiple)", 2, 120, 0),
      TaskSpec("Re-order Paragraphs", 2, 150, 0),
      TaskSpec("Fill in Blanks (Reading)", 4, 90, 0),
      TaskSpec("Fill in Blanks (R&W)", 5, 90, 0)]),
    SectionSpec("Listening", 2700, [
      TaskSpec("Summarize Spoken Text", 2, 600, 0),
      TaskSpec("Multiple Choice (Single)", 2, 90, 0),
      TaskSpec("Fill in Blanks", 2, 60, 0),
      TaskSpec("Highlight Correct Summary", 2, 90, 0),
      TaskSpec("Multiple Choice (Multiple)", 2, 90, 0),
      TaskSpec("Select Missing Word", 2, 60, 0),
      TaskSpec("Highlight Incorrect Words", 2, 90, 0),
      TaskSpec("Write from Dictation", 3, 30, 7)])
  ]

  const TestSeconds: int := 3600

  /** Question counts, per task, per section. */
  type Table = seq<seq<nat>>

  /** The question counts of the table above; the cursor arithmetic works
      on these alone. */
  const Counts: Table := [[6, 10, 6, 3, 10], [2, 1], [2, 2, 2, 4, 5], [2, 2, 2, 2, 2, 2, 2, 3]]

  lemma CountsMatchSections()
    ensures |Counts| == |Sections|
    ensures forall s :: 0 <= s < |Sections| ==> |Counts[s]| == |Sections[s].tasks|
    ensures forall s, t :: 0 <= s < |Sections| && 0 <= t < |Sections[s].tasks| ==> Counts[s][t] == Sections[s].tasks[t].count
  {
    forall s, t | 0 <= s < |Sections| && 0 <= t < |Sections[s].tasks|
      ensures Counts[s][t] == Sections[s].tasks[t].count
    {
      if s == 0 {
      } else if s == 1 {
      } else if s == 2 {
      } else {
      }
    }
  }

  /** There is a section, every section has a task and every task has a
      question. */
  predicate WellFormed(c: Table)
  {
    && |c| >= 1
    && (forall s :: 0 <= s < |c| ==> |c[s]| >= 1)
    && (forall s, t :: 0 <= s < |c| && 0 <= t < |c[s]| ==> c[s][t] >= 1)
  }

  lemma CountsWellFormed()
    ensures WellFormed(Counts)
  {
  }

  /** Position of the cursor. */
  datatype Pos = Pos(section: nat, task: nat, question: nat)

  const Origin: Pos := Pos(0, 0, 0)
  const Last: Pos := Pos(3, 7, 2)

  predicate ValidPos(c: Table, p: Pos)
  {
    p.section < |c| && p.task < |c[p.section]| && p.question < c[p.section][p.task]
  }

  /** The last question of the last task of the last section. */
  function LastOf(c: Table): (p: Pos)
    requires WellFormed(c)
    ensures ValidPos(c, p)
  {
    var s := |c| - 1;
    var t := |c[s]| - 1;
    Pos(s, t, c[s][t] - 1)
  }

  /** nextTask: the next question, else the first question of the next task,
      else the first question of the next section; None means the test is
      complete. */
  function Next(c: Table, p: Pos): Option<Pos>
    requires ValidPos(c, p)
  {
    if p.question < c[p.section][p.task] - 1 then Some(p.(question := p.question + 1))
    else if p.task < |c[p.section]| - 1 then Some(Pos(p.section, p.task + 1, 0))
    else if p.section < |c| - 1 then Some(Pos(p.section + 1, 0, 0))
    else None
  }

  /** previousTask: the mirror of Next; a no-op at the origin. */
  function Prev(c: Table, p: Pos): Pos
    requires WellFormed(c) && ValidPos(c, p)
  {
    if p.question > 0 then p.(question := p.question - 1)
    else if p.task > 0 then Pos(p.section, p.task - 1, c[p.section][p.task - 1] - 1)
    else if p.section > 0 then
      var ls := |c[p.section - 1]| - 1;
      Pos(p.section - 1, ls, c[p.section - 1][ls] - 1)
    else p
  }

  /** Questions in section s before its task t. */
  function TaskStart(c: Table, s: nat, t: nat): nat
    requires s < |c| && t <= |c[s]|
  {
    if t == 0 then 0 else TaskStart(c, s, t - 1) + c[s][t - 1]
  }

  function SectionTotal(c: Table, s: nat): nat
    requires s < |c|
  {
    TaskStart(c, s, |c[s]|)
  }

  /** Questions in the sections before s. */
  function SectionStart(c: Table, s: nat): nat
    requires s <= |c|
  {
    if s == 0 then 0 else SectionStart(c, s - 1) + SectionTotal(c, s - 1)
  }

  /** Total number of questions in the test. */
  function Total(c: Table): nat
  {
    SectionStart(c, |c|)
  }

  /** How many Next calls separate the origin from p. */
  function Rank(c: Table, p: Pos): nat
    requires ValidPos(c, p)
  {
    SectionStart(c, p.section) + TaskStart(c, p.section, p.task) + p.question
  }

  lemma TotalIsSeventy()
    ensures Total(Counts) == 70
    ensures SectionTotal(Counts, 0) == 35 && SectionTotal(Counts, 1) == 3
    ensures SectionTotal(Counts, 2) == 15 && SectionTotal(Counts, 3) == 17
  {
    assert SectionTotal(Counts, 0) == 35;
    assert SectionTotal(Counts, 1) == 3;
    assert SectionTotal(Counts, 2) == 15;
    assert TaskStart(Counts, 3, 4) == 8;
    assert SectionTotal(Counts, 3) == 17;
  }

  lemma {:induction false} TaskStartMonotone(c: Table, s: nat, t: nat, u: nat)
    requires s < |c| && t <= u <= |c[s]|
    ensures TaskStart(c, s, t) <= TaskStart(c, s, u)
    decreases u - t
  {
    if t < u {
      TaskStartMonotone(c, s, t, u - 1);
    }
  }

  lemma {:induction false} SectionStartMonotone(c: Table, s: nat, u: nat)
    requires s <= u <= |c|
    ensures SectionStart(c, s) <= SectionStart(c, u)
    decreases u - s
  {
    if s < u {
      SectionStartMonotone(c, s, u - 1);
    }
  }

  /** Every valid position has a rank below the total. */
  lemma RankBound(c: Table, p: Pos)
    requires ValidPos(c, p)
    ensures Rank(c, p) < Total(c)
  {
    TaskStartMonotone(c, p.section, p.task + 1, |c[p.section]|);
    SectionStartMonotone(c, p.section + 1, |c|);
  }

  /** Next stays inside the table and advances the rank by exactly one. */
  lemma NextAdvances(c: Table, p: Pos)
    requires WellFormed(c) && ValidPos(c, p) && Next(c, p).Some?
    ensures ValidPos(c, Next(c, p).value)
    ensures Rank(c, Next(c, p).value) == Rank(c, p) + 1
  {
    var s, t := p.section, p.task;
    if p.question < c[s][t] - 1 {
    } else if t < |c[s]| - 1 {
      assert TaskStart(c, s, t + 1) == TaskStart(c, s, t) + c[s][t];
    } else {
      assert SectionTotal(c, s) == TaskStart(c, s, t) + c[s][t];
      assert SectionStart(c, s + 1) == SectionStart(c, s) + TaskStart(c, s, t) + c[s][t];
    }
  }

  /** Next completes exactly at the last question of the last section. */
  lemma NextCompletesOnlyAtLast(c: Table, p: Pos)
    requires WellFormed(c) && ValidPos(c, p)
    ensures Next(c, p).None? <==> p == LastOf(c)
  {
  }

  /** Prev stays inside the table, moves the rank back by one, and stays
      put at the origin. */
  lemma PrevValid(c: Table, p: Pos)
    requires WellFormed(c) && ValidPos(c, p)
    ensures ValidPos(c, Prev(c, p))
    ensures p != Origin ==> Rank(c, Prev(c, p)) + 1 == Rank(c, p)
    ensures p == Origin ==> Prev(c, p) == p
  {
    var s, t := p.section, p.task;
    if p.question > 0 {
    } else if t > 0 {
      assert TaskStart(c, s, t) == TaskStart(c, s, t - 1) + c[s][t - 1];
    } else if s > 0 {
      var ls := |c[s - 1]| - 1;
      assert SectionStart(c, s) == SectionStart(c, s - 1) + TaskStart(c, s - 1, ls) + c[s - 1][ls];
    }
  }

  lemma PrevUndoesNext(c: Table, p: Pos)
    requires WellFormed(c) && ValidPos(c, p) && Next(c, p).Some?
    ensures Prev(c, Next(c, p).value) == p
  {
  }

  lemma NextUndoesPrev(c: Table, p: Pos)
    requires WellFormed(c) && ValidPos(c, p) && p != Origin
    ensures Next(c, Prev(c, p)) == Some(p)
  {
    if p.question > 0 {
    } else if p.task > 0 {
      var q := c[p.section][p.task - 1];
      assert Prev(c, p) == Pos(p.section, p.task - 1, q - 1);
    } else {
      var ls := |c[p.section - 1]| - 1;
      var q := c[p.section - 1][ls];
      assert Prev(c, p) == Pos(p.section - 1, ls, q - 1);
    }
  }

  /** Prev undoes Next, and Next undoes Prev away from the origin. */
  lemma PrevNextInverse(c: Table, p: Pos)
    requires WellFormed(c) && ValidPos(c, p)
    ensures Next(c, p).Some? ==> Prev(c, Next(c, p).value) == p
    ensures p != Origin ==> Next(c, Prev(c, p)) == Some(p)
  {
    if Next(c, p).Some? {
      PrevUndoesNext(c, p);
    }
    if p != Origin {
      NextUndoesPrev(c, p);
    }
  }

  /** Applying Next n times; None once the test has completed. */
  function Walk(c: Table, p: Pos, n: nat): (r: Option<Pos>)
    requires WellFormed(c) && ValidPos(c, p)
    ensures r.Some? ==> ValidPos(c, r.value)
    decreases n
  {
    if n == 0 then Some(p)
    else match Next(c, p)
      case None => None
      case Some(q) => NextAdvances(c, p); Walk(c, q, n - 1)
  }

  /** From rank r, n < Total - r steps stay inside the test and reach rank
      r + n. */
  lemma {:induction false} WalkRank(c: Table, p: Pos, n: nat)
    requires WellFormed(c) && ValidPos(c, p) && Rank(c, p) + n < Total(c)
    ensures Walk(c, p, n).Some? && ValidPos(c, Walk(c, p, n).value)
    ensures Rank(c, Walk(c, p, n).value) == Rank(c, p) + n
    decreases n
  {
    if n > 0 {
      var q := Next(c, p);
      if q.None? {
        NextCompletesOnlyAtLast(c, p);
        LastRank(c);
        assert false;
      }
      NextAdvances(c, p);
      WalkRank(c, q.value, n - 1);
    }
  }

  /** The last question has the last rank. */
  lemma LastRank(c: Table)
    requires WellFormed(c)
    ensures Rank(c, LastOf(c)) + 1 == Total(c)
  {
    var s := |c| - 1;
    assert Total(c) == SectionStart(c, s) + TaskStart(c, s, |c[s]| - 1) + c[s][|c[s]| - 1];
  }

  lemma {:induction false} WalkSplit(c: Table, p: Pos, n: nat)
    requires WellFormed(c) && ValidPos(c, p) && Walk(c, p, n).Some?
    ensures Walk(c, p, n + 1) == Next(c, Walk(c, p, n).value)
    decreases n
  {
    if n > 0 {
      NextAdvances(c, p);
      WalkSplit(c, Next(c, p).value, n - 1);
    }
  }

  /** From the origin of the real test, calls 1 to 69 of nextTask move the
      cursor and the 70th completes the test. */
  lemma SeventiethNextCompletes()
    ensures WellFormed(Counts) && ValidPos(Counts, Origin)
    ensures forall k :: 0 <= k < 70 ==> Walk(Counts, Origin, k).Some?
    ensures Walk(Counts, Origin, 69) == Some(Last)
    ensures Next(Counts, Last).None?
    ensures Walk(Counts, Origin, 70).None?
  {
    CountsWellFormed();
    TotalIsSeventy();
    forall k | 0 <= k < 70 ensures Walk(Counts, Origin, k).Some? {
      WalkRank(Counts, Origin, k);
    }
    WalkRank(Counts, Origin, 69);
    var p := Walk(Counts, Origin, 69).value;
    if Next(Counts, p).Some? {
      NextAdvances(Counts, p);
      RankBound(Counts, Next(Counts, p).value);
      assert false;
    }
    NextCompletesOnlyAtLast(Counts, p);
    assert LastOf(Counts) == Last;
    WalkSplit(Counts, Origin, 69);
  }

  /** The four per-skill draws floor(random x 20), each in [0, 20). */
  datatype Draws = Draws(speaking: int, writing: int, reading: int, listening: int)

  predicate DrawsInRange(d: Draws)
  {
    0 <= d.speaking < 20 && 0 <= d.writing < 20 && 0 <= d.reading < 20 && 0 <= d.listening < 20
  }

  datatype MockResult = MockResult(
    overall: int,
    speaking: int,
    writing: int,
    reading: int,
    listening: int,
    date: string,
    duration: int,
    completedTasks: nat)

  /** Overall score: the rounded mean of the four skills. */
  function OverallScore(s: int, w: int, r: int, l: int): (o: int)
    ensures 8 * o - 4 <= 2 * (s + w + r + l) < 8 * o + 4
  {
    RoundDiv(s + w + r + l, 4)
  }

  /** The rounded mean lies between the lowest and the highest skill. */
  lemma OverallBetweenSkills(s: int, w: int, r: int, l: int)
    ensures var o := OverallScore(s, w, r, l);
      var lo := Min(Min(s, w), Min(r, l));
      var hi := Max(Max(s, w), Max(r, l));
      lo <= o <= hi
  {
  }

  function Min(a: int, b: int): int { if a <= b then a else b }
  function Max(a: int, b: int): int { if a >= b then a else b }

  /** handleTestComplete: every skill is 60 plus its draw, the overall lies
      in [60, 79] and the duration is the time used. */
  function TestResult(d: Draws, date: string, timeLeft: int, responses: nat): (r: MockResult)
    requires DrawsInRange(d)
    ensures r.speaking == 60 + d.speaking && r.writing == 60 + d.writing
    ensures r.reading == 60 + d.reading && r.listening == 60 + d.listening
    ensures r.overall == OverallScore(r.speaking, r.writing, r.reading, r.listening)
    ensures 60 <= r.speaking < 80 && 60 <= r.writing < 80 && 60 <= r.reading < 80 && 60 <= r.listening < 80
    ensures 60 <= r.overall <= 79
    ensures r.duration + timeLeft == TestSeconds
    ensures r.completedTasks == responses && r.date == date
  {
    var s, w, rd, l := 60 + d.speaking, 60 + d.writing, 60 + d.reading, 60 + d.listening;
    OverallBetweenSkills(s, w, rd, l);
    MockResult(OverallScore(s, w, rd, l), s, w, rd, l, date, TestSeconds - timeLeft, responses)
  }

  /** The characters String.prototype.trim() strips: ECMAScript white
      space and line terminators. */
  predicate IsTrimmed(c: char)
  {
    c in {'\t', '\n', '\U{000B}', '\U{000C}', '\r', ' ', '\U{00A0}', '\U{1680}',
          '\U{2028}', '\U{2029}', '\U{202F}', '\U{205F}', '\U{3000}', '\U{FEFF}'}
    || '\U{2000}' <= c <= '\U{200A}'
  }

  /** String.prototype.trim() leaves nothing. */
  predicate IsBlank(s: string)
  {
    forall i :: 0 <= i < |s| ==> IsTrimmed(s[i])
  }

  datatype ResponseRecord = ResponseRecord(section: nat, task: nat, question: nat, response: string, timestamp: int)

  /** The response log after nextTask: a record is added only for a
      response that is not blank. */
  function SaveResponse(log: seq<ResponseRecord>, p: Pos, response: string, stamp: int): (r: seq<ResponseRecord>)
    ensures IsBlank(response) ==> r == log
    ensures !IsBlank(response) ==>
      |r| == |log| + 1 && r[..|log|] == log && r[|log|] == ResponseRecord(p.section, p.task, p.question, response, stamp)
  {
    if IsBlank(response) then log
    else log + [ResponseRecord(p.section, p.task, p.question, response, stamp)]
  }

  /** H:MM:SS rendering of the countdown. */
  function FormatTime(seconds: nat): (s: string)
  {
    NatToString(seconds / 3600) + ":" + Field2((seconds % 3600) / 60) + ":" + Field2(seconds % 60)
  }

  /** Where the fields of "a:bb:cc" sit. */
  lemma ClockSlices(a: string, b: string, c: string)
    requires |b| == 2 && |c| == 2
    ensures var s := a + ":" + b + ":" + c;
      var n := |s|;
      n == |a| + 6 && s[n - 3] == ':' && s[n - 6] == ':' && s[..n - 6] == a && s[n - 5..n - 3] == b && s[n - 2..] == c
  {
  }

  /** Hours, minutes and seconds recombine to the seconds they came from. */
  lemma ClockArithmetic(seconds: nat)
    ensures (seconds % 3600) / 60 < 60 && seconds % 60 < 60
    ensures (seconds / 3600) * 3600 + ((seconds % 3600) / 60) * 60 + seconds % 60 == seconds
  {
    var r := seconds % 3600;
    assert (seconds / 3600) * 3600 + r == seconds;
    assert (r / 60) * 60 + r % 60 == r;
    assert r % 60 == seconds % 60;
  }

  /** Reading the rendered clock back gives the seconds it was made from:
      hours, then two-digit minutes below 60, then two-digit seconds. */
  lemma FormatTimeFields(seconds: nat)
    ensures var s := FormatTime(seconds);
      var n := |s|;
      && n >= 7 && s[n - 3] == ':' && s[n - 6] == ':'
      && AllDigits(s[..n - 6]) && AllDigits(s[n - 5..n - 3]) && AllDigits(s[n - 2..])
      && DigitsValue(s[n - 5..n - 3]) < 60 && DigitsValue(s[n - 2..]) < 60
      && DigitsValue(s[..n - 6]) * 3600 + DigitsValue(s[n - 5..n - 3]) * 60 + DigitsValue(s[n - 2..]) == seconds
  {
    var h, m, sec := seconds / 3600, (seconds % 3600) / 60, seconds % 60;
    ClockArithmetic(seconds);
    ClockSlices(NatToString(h), Field2(m), Field2(sec));
    NatToStringRoundTrip(h);
    Field2RoundTrip(m);
    Field2RoundTrip(sec);
  }

  /** Snapshot of the interface's observable state. */
  datatype TestState = TestState(
    cursor: Pos,
    timeLeft: int,
    responses: seq<ResponseRecord>,
    currentResponse: string,
    isRecording: bool,
    finished: bool)

  /** The interface; it is unmounted by its parent once it reports a result,
      so every operation requires that it has not finished yet. */
  class Interface {
    var cursor: Pos
    var timeLeft: int
    var responses: seq<ResponseRecord>
    var currentResponse: string
    var isRecording: bool
    var finished: bool

    ghost predicate Valid()
      reads this
    {
      ValidPos(Counts, cursor) && 0 <= timeLeft <= TestSeconds
    }

    function State(): TestState
      reads this
    {
      TestState(cursor, timeLeft, responses, currentResponse, isRecording, finished)
    }

    constructor ()
      ensures Valid() && cursor == Origin && timeLeft == TestSeconds
      ensures responses == [] && currentResponse == [] && !isRecording && !finished
    {
      cursor := Origin;
      timeLeft := TestSeconds;
      responses := [];
      currentResponse := [];
      isRecording := false;
      finished := false;
    }

    method SetResponse(text: string)
      modifies this
      ensures State() == old(State()).(currentResponse := text)
    {
      currentResponse := text;
    }

    method HandleTestComplete(d: Draws, today: string) returns (result: MockResult)
      requires DrawsInRange(d)
      modifies this
      ensures result == TestResult(d, today, old(timeLeft), |old(responses)|)
      ensures State() == old(State()).(finished := true)
    {
      result := TestResult(d, today, timeLeft, |responses|);
      finished := true;
    }

    /** nextTask: log a non-blank response, advance the cursor or complete
        the test, clear the response buffer. */
    method NextTask(stamp: int, d: Draws, today: string) returns (result: Option<MockResult>)
      requires Valid() && !finished && DrawsInRange(d)
      modifies this
      ensures Valid()
      ensures responses == SaveResponse(old(responses), old(cursor), old(currentResponse), stamp)
      ensures Next(Counts, old(cursor)).Some? ==> cursor == Next(Counts, old(cursor)).value && result.None? && !finished
      ensures Next(Counts, old(cursor)).None? ==>
        && cursor == old(cursor) && finished
        && result == Some(TestResult(d, today, old(timeLeft), |old(responses)|))
      ensures currentResponse == [] && !isRecording && timeLeft == old(timeLeft)
    {
      var saved := SaveResponse(responses, cursor, currentResponse, stamp);
      CountsWellFormed();
      var next := Next(Counts, cursor);
      result := None;
      match next {
        case Some(q) =>
          NextAdvances(Counts, cursor);
          cursor := q;
        case None =>
          var r := HandleTestComplete(d, today);
          result := Some(r);
      }
      responses := saved;
      currentResponse := [];
      isRecording := false;
    }

    method PreviousTask()
      requires Valid() && !finished
      modifies this
      ensures Valid()
      ensures State() == old(State()).(cursor := Prev(Counts, old(cursor)), currentResponse := [], isRecording := false)
    {
      CountsWellFormed();
      PrevValid(Counts, cursor);
      cursor := Prev(Counts, cursor);
      currentResponse := [];
      isRecording := false;
    }

    /** The Start/Stop Recording button of a speaking or listening task. */
    method ToggleRecording()
      requires Valid() && !finished
      modifies this
      ensures Valid()
      ensures State() == old(State()).(isRecording := !old(isRecording))
    {
      isRecording := !isRecording;
    }

    /** One second of the countdown; the last second completes the test. */
    method Tick(d: Draws, today: string) returns (result: Option<MockResult>)
      requires Valid() && !finished && DrawsInRange(d)
      modifies this
      ensures Valid()
      ensures old(timeLeft) > 1 ==> State() == old(State()).(timeLeft := old(timeLeft) - 1) && result.None?
      ensures old(timeLeft) <= 1 ==>
        && State() == old(State()).(timeLeft := 0, finished := true)
        && result == Some(TestResult(d, today, old(timeLeft), |old(responses)|))
    {
      if timeLeft <= 1 {
        var r := HandleTestComplete(d, today);
        result := Some(r);
        timeLeft := 0;
      } else {
        timeLeft := timeLeft - 1;
        result := None;
      }
    }
  }
}
