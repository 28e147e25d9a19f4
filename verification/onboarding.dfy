/** The onboarding wizard: a three-step cursor with Previous and Continue,
    one choice per step, and the profile it hands to the application. */
module Onboarding {
  import opened App

  /** Previous never goes below step 1. */
  function PreviousStep(step: int): (s: int)
    ensures s == if step - 1 < 1 then 1 else step - 1
    ensures 1 <= step <= 3 ==> 1 <= s <= 3 && s <= step
    ensures step == 1 ==> s == 1
  {
    if 1 > step - 1 then 1 else step - 1
  }

  datatype Move = Previous | Continue

  /** A click sequence: Previous always acts, Continue only while a step
      remains (on the last step the button becomes "Start"). */
  function Walk(step: int, moves: seq<Move>): int
    decreases |moves|
  {
    if moves == [] then step
    else match moves[0]
      case Previous => Walk(PreviousStep(step), moves[1..])
      case Continue => Walk(if step < 3 then step + 1 else step, moves[1..])
  }

  /** Whatever the learner clicks, the step stays within 1..3. */
  lemma {:induction false} WalkStaysInRange(step: int, moves: seq<Move>)
    requires 1 <= step <= 3
    ensures 1 <= Walk(step, moves) <= 3
    decreases |moves|
  {
    if moves != [] {
      var next := match moves[0] case Previous => PreviousStep(step) case Continue => if step < 3 then step + 1 else step;
      WalkStaysInRange(next, moves[1..]);
    }
  }

  class Wizard {
    var currentStep: int
    var targetScore: int
    var dailyHours: int
    var currentLevel: Level

    predicate Valid()
      reads this
    {
      1 <= currentStep <= 3
    }

    /** Step 1 with the default choices: 65 points, 2 hours, intermediate. */
    constructor ()
      ensures Valid() && currentStep == 1
      ensures targetScore == 65 && dailyHours == 2 && currentLevel == Intermediate
    {
      currentStep := 1;
      targetScore := 65;
      dailyHours := 2;
      currentLevel := Intermediate;
    }

    method PreviousClicked()
      requires Valid()
      modifies this
      ensures Valid() && currentStep == PreviousStep(old(currentStep))
      ensures targetScore == old(targetScore) && dailyHours == old(dailyHours) && currentLevel == old(currentLevel)
    {
      currentStep := PreviousStep(currentStep);
    }

    /** Continue is offered only before the last step. */
    method ContinueClicked()
      requires Valid() && currentStep < 3
      modifies this
      ensures Valid() && currentStep == old(currentStep) + 1
      ensures targetScore == old(targetScore) && dailyHours == old(dailyHours) && currentLevel == old(currentLevel)
    {
      currentStep := currentStep + 1;
    }

    method SelectTargetScore(score: int)
      modifies this
      ensures targetScore == score
      ensures currentStep == old(currentStep) && dailyHours == old(dailyHours) && currentLevel == old(currentLevel)
    {
      targetScore := score;
    }

    method SelectDailyHours(hours: int)
      modifies this
      ensures dailyHours == hours
      ensures currentStep == old(currentStep) && targetScore == old(targetScore) && currentLevel == old(currentLevel)
    {
      dailyHours := hours;
    }

    method SelectLevel(level: Level)
      modifies this
      ensures currentLevel == level
      ensures currentStep == old(currentStep) && targetScore == old(targetScore) && dailyHours == old(dailyHours)
    {
      currentLevel := level;
    }

    /** handleComplete: the chosen fields, started now, not yet completed
        (the application sets completed when it stores the profile). */
    method HandleComplete(now: int) returns (p: StudentProfile)
      ensures p == StudentProfile(targetScore, dailyHours, currentLevel, now, false)
    {
      p := StudentProfile(targetScore, dailyHours, currentLevel, now, false);
    }
  }
}
