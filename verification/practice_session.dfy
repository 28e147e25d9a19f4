/** One timed practice attempt: preparation, then recording (or writing),
    then a completed state holding a placeholder score. The one-second timer
    is an explicit Tick; the random quality draw is a parameter. */
module PracticeSession {
  import opened Common

  datatype Phase = Preparation | Recording | Completed

  /** Seconds allowed for the response, per task id (default 40). */
  function RecordingTime(taskType: string): (secs: nat)
    ensures 10 <= secs <= 1200
  {
    match taskType
    case "read-aloud" => 40
    case "repeat-sentence" => 15
    case "describe-image" => 40
    case "retell-lecture" => 40
    case "answer-short-question" => 10
    case "summarize-written-text" => 600
    case "write-essay" => 1200
    case "summarize-spoken-text" => 600
    case "write-from-dictation" => 30
    case _ => 40
  }

  /** Seconds of preparation, per task id (default 30); the three written
      summary and essay tasks have none. */
  function PreparationTime(taskType: string): (secs: nat)
    ensures secs == 0 <==> taskType in {"summarize-written-text", "write-essay", "summarize-spoken-text"}
    ensures secs <= 30
  {
    match taskType
    case "read-aloud" => 30
    case "repeat-sentence" => 3
    case "describe-image" => 25
    case "retell-lecture" => 10
    case "answer-short-question" => 3
    case "summarize-written-text" => 0
    case "write-essay" => 0
    case "summarize-spoken-text" => 0
    case "write-from-dictation" => 7
    case _ => 30
  }

  /** Task difficulty multiplier, in hundredths (unknown ids use 1). */
  function DifficultyHundredths(taskType: string): (m: nat)
    ensures 80 <= m <= 130
  {
    match taskType
    case "read-aloud" => 110
    case "repeat-sentence" => 120
    case "describe-image" => 90
    case "retell-lecture" => 80
    case "answer-short-question" => 130
    case "summarize-written-text" => 90
    case "write-essay" => 80
    case "summarize-spoken-text" => 85
    case "write-from-dictation" => 115
    case _ => 100
  }

  /** Response quality: length/100 capped at 1.2 when text was typed,
      otherwise the random draw spread over [0.6, 1.4). */
  function Quality(responseLength: nat, draw: real): (q: real)
    requires 0.0 <= draw < 1.0
    ensures responseLength > 0 ==> 0.0 < q <= 1.2 && (responseLength <= 120 ==> q * 100.0 == responseLength as real)
    ensures responseLength > 0 && responseLength >= 120 ==> q == 1.2
    ensures responseLength == 0 ==> 0.6 <= q < 1.4 && q == draw * 0.8 + 0.6
  {
    if responseLength > 0 then
      (if 1.2 < responseLength as real / 100.0 then 1.2 else responseLength as real / 100.0)
    else draw * 0.8 + 0.6
  }

  /** Unclamped score: round(60 x difficulty x quality). */
  function RawScore(taskType: string, responseLength: nat, draw: real): int
    requires 0.0 <= draw < 1.0
  {
    RoundReal(60.0 * (DifficultyHundredths(taskType) as real / 100.0) * Quality(responseLength, draw))
  }

  /** The placeholder score, clamped into [30, 90]. */
  function CalculateScore(taskType: string, responseLength: nat, draw: real): (score: int)
    requires 0.0 <= draw < 1.0
    ensures 30 <= score <= 90
    ensures 30 <= RawScore(taskType, responseLength, draw) <= 90 ==> score == RawScore(taskType, responseLength, draw)
    ensures RawScore(taskType, responseLength, draw) < 30 ==> score == 30
    ensures RawScore(taskType, responseLength, draw) > 90 ==> score == 90
  {
    var raw := RawScore(taskType, responseLength, draw);
    if raw > 90 then 90 else if raw < 30 then 30 else raw
  }

  /** A typed response of at least 120 characters scores
      round(72 x difficulty): its score does not depend on the draw. */
  lemma LongResponseIgnoresDraw(taskType: string, len: nat, d1: real, d2: real)
    requires len >= 120 && 0.0 <= d1 < 1.0 && 0.0 <= d2 < 1.0
    ensures CalculateScore(taskType, len, d1) == CalculateScore(taskType, len, d2)
  {
  }

  /** Snapshot of a session's observable state. */
  datatype SessionState = SessionState(
    taskType: string,
    phase: Phase,
    timeLeft: int,
    isRecording: bool,
    response: string,
    score: Option<int>)

  /** The state right after mount (and after Practice Again). */
  function Fresh(taskType: string): (s: SessionState)
    ensures s.phase == Preparation && s.timeLeft == PreparationTime(taskType)
    ensures s.response == [] && s.score == None && !s.isRecording
  {
    SessionState(taskType, Preparation, PreparationTime(taskType), false, [], None)
  }

  /** The session finishes: the phase becomes completed and a score is set. */
  function Finish(s: SessionState, draw: real): (t: SessionState)
    requires 0.0 <= draw < 1.0
    ensures t.phase == Completed && !t.isRecording
    ensures t.score == Some(CalculateScore(s.taskType, |s.response|, draw))
    ensures t.score.Some? && 30 <= t.score.value <= 90
    ensures t.taskType == s.taskType && t.response == s.response && t.timeLeft == s.timeLeft
  {
    s.(phase := Completed, isRecording := false,
       score := Some(CalculateScore(s.taskType, |s.response|, draw)))
  }

  /** One second of the countdown. The interval runs only while time is
      left in preparation or recording; at the last second preparation hands
      over to recording and recording finishes the session. */
  function Step(s: SessionState, draw: real): (t: SessionState)
    requires 0.0 <= draw < 1.0
    ensures s.timeLeft <= 0 || s.phase == Completed ==> t == s
    ensures s.timeLeft > 1 && (s.phase == Preparation || s.phase == Recording) ==> t == s.(timeLeft := s.timeLeft - 1)
    ensures s.timeLeft == 1 && s.phase == Preparation ==>
      t == s.(phase := Recording, timeLeft := RecordingTime(s.taskType))
    ensures s.timeLeft == 1 && s.phase == Recording ==>
      t == Finish(s, draw).(timeLeft := 0) && t.phase == Completed && !t.isRecording
      && t.response == s.response && t.score.Some? && 30 <= t.score.value <= 90
  {
    if s.timeLeft > 0 && (s.phase == Preparation || s.phase == Recording) then
      if s.timeLeft <= 1 then
        if s.phase == Preparation then s.(phase := Recording, timeLeft := RecordingTime(s.taskType))
        else Finish(s, draw).(timeLeft := 0)
      else s.(timeLeft := s.timeLeft - 1)
    else s
  }

  /** Ticking n times with the given draws. */
  function Run(s: SessionState, draws: seq<real>): SessionState
    requires forall i :: 0 <= i < |draws| ==> 0.0 <= draws[i] < 1.0
    decreases |draws|
  {
    if draws == [] then s else Run(Step(s, draws[0]), draws[1..])
  }

  /** The early-start button is offered only to tasks with a preparation
      time. */
  predicate EarlyStartOffered(taskType: string)
  {
    PreparationTime(taskType) > 0
  }

  /** A task without preparation time never leaves the preparation phase:
      its countdown starts at 0, so no tick fires, and no early-start button
      is offered. */
  lemma {:induction false} ZeroPreparationStalls(taskType: string, draws: seq<real>)
    requires PreparationTime(taskType) == 0
    requires forall i :: 0 <= i < |draws| ==> 0.0 <= draws[i] < 1.0
    ensures Run(Fresh(taskType), draws) == Fresh(taskType)
    ensures !EarlyStartOffered(taskType)
    decreases |draws|
  {
    if draws != [] {
      ZeroPreparationStalls(taskType, draws[1..]);
    }
  }

  /** Timers never run negative and the score, once set, stays in range. */
  predicate Sane(s: SessionState)
  {
    s.timeLeft >= 0 && (s.score.Some? ==> 30 <= s.score.value <= 90)
  }

  lemma {:induction false} RunKeepsSane(s: SessionState, draws: seq<real>)
    requires Sane(s)
    requires forall i :: 0 <= i < |draws| ==> 0.0 <= draws[i] < 1.0
    ensures Sane(Run(s, draws))
    decreases |draws|
  {
    if draws != [] {
      RunKeepsSane(Step(s, draws[0]), draws[1..]);
    }
  }

  /** With a preparation time p > 0 the session is recording after exactly
      p ticks, with the full recording time on the clock. */
  lemma {:induction false} PreparationHandsOver(s: SessionState, draws: seq<real>)
    requires s.phase == Preparation && s.timeLeft > 0 && |draws| == s.timeLeft
    requires forall i :: 0 <= i < |draws| ==> 0.0 <= draws[i] < 1.0
    ensures Run(s, draws) == s.(phase := Recording, timeLeft := RecordingTime(s.taskType))
    decreases |draws|
  {
    if s.timeLeft > 1 {
      PreparationHandsOver(s.(timeLeft := s.timeLeft - 1), draws[1..]);
    }
  }

  class Session {
    const taskType: string
    var phase: Phase
    var timeLeft: int
    var isRecording: bool
    var userResponse: string
    var score: Option<int>

    function State(): SessionState
      reads this
    {
      SessionState(taskType, phase, timeLeft, isRecording, userResponse, score)
    }

    /** Mount, including the effect that loads the preparation time. */
    constructor (taskType: string)
      ensures State() == Fresh(taskType)
    {
      this.taskType := taskType;
      phase := Preparation;
      timeLeft := PreparationTime(taskType);
      isRecording := false;
      userResponse := [];
      score := None;
    }

    method Tick(draw: real)
      requires 0.0 <= draw < 1.0
      modifies this
      ensures State() == Step(old(State()), draw)
    {
      if timeLeft > 0 && (phase == Preparation || phase == Recording) {
        if timeLeft <= 1 {
          if phase == Preparation {
            phase := Recording;
            timeLeft := RecordingTime(taskType);
          } else {
            HandleAutoComplete(draw);
            timeLeft := 0;
          }
        } else {
          timeLeft := timeLeft - 1;
        }
      }
    }

    method SetResponse(text: string)
      modifies this
      ensures State() == old(State()).(response := text)
    {
      userResponse := text;
    }

    method StartRecording()
      modifies this
      ensures State() == old(State()).(phase := Recording, isRecording := true, timeLeft := RecordingTime(taskType))
    {
      isRecording := true;
      phase := Recording;
      timeLeft := RecordingTime(taskType);
    }

    method HandleAutoComplete(draw: real)
      requires 0.0 <= draw < 1.0
      modifies this
      ensures State() == Finish(old(State()), draw)
    {
      isRecording := false;
      phase := Completed;
      score := Some(CalculateScore(taskType, |userResponse|, draw));
    }

    /** The stop button behaves as the timer's own completion. */
    method StopRecording(draw: real)
      requires 0.0 <= draw < 1.0
      modifies this
      ensures State() == Finish(old(State()), draw)
    {
      isRecording := false;
      phase := Completed;
      score := Some(CalculateScore(taskType, |userResponse|, draw));
    }

    method ResetSession()
      modifies this
      ensures State() == Fresh(taskType)
    {
      phase := Preparation;
      timeLeft := PreparationTime(taskType);
      isRecording := false;
      userResponse := [];
      score := None;
    }
  }
}
