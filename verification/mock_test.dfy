/** The mock-test page: the history of results, the unlock and recommendation
    rules of the four scheduled tests, the score colour and the improvement
    between the last two results. Results reported by the test interface
    carry their total as `overall`, while the page reads `score`; the model
    keeps that: a history entry's score is None when it came from the
    interface. */
module MockTest {
  import opened Common
  import MockTestInterface

  datatype HistoryEntry = HistoryEntry(
    date: string,
    score: Option<int>,
    speaking: int,
    writing: int,
    reading: int,
    listening: int)

  const SeedHistory: seq<HistoryEntry> := [
    HistoryEntry("2025-01-15", Some(58), 62, 55, 60, 54),
    HistoryEntry("2025-01-22", Some(63), 65, 61, 64, 62)
  ]

  /** How the page sees a result from the interface: it has no `score`. */
  function AsHistoryEntry(r: MockTestInterface.MockResult): (e: HistoryEntry)
    ensures e.score.None?
    ensures e.speaking == r.speaking && e.writing == r.writing && e.reading == r.reading && e.listening == r.listening
    ensures e.date == r.date
  {
    HistoryEntry(r.date, None, r.speaking, r.writing, r.reading, r.listening)
  }

  /** Improvement between the last two results: absent with fewer than two
      results, and not a number when either score is missing. */
  datatype Improvement = NoImprovement | Delta(points: int) | NotANumber

  function ScoreImprovement(history: seq<HistoryEntry>): (r: Improvement)
    ensures |history| < 2 <==> r == NoImprovement
    ensures r.Delta? ==>
      && history[|history| - 1].score.Some? && history[|history| - 2].score.Some?
      && r.points == history[|history| - 1].score.value - history[|history| - 2].score.value
    ensures r == NotANumber <==> |history| >= 2 && (history[|history| - 1].score.None? || history[|history| - 2].score.None?)
  {
    if |history| < 2 then NoImprovement
    else
      var latest, previous := history[|history| - 1], history[|history| - 2];
      if latest.score.Some? && previous.score.Some? then Delta(latest.score.value - previous.score.value)
      else NotANumber
  }

  /** After a completed interface run the improvement shown is not a
      number: the new entry has no score. */
  lemma ImprovementAfterInterfaceRun(history: seq<HistoryEntry>, r: MockTestInterface.MockResult)
    requires |history| >= 1
    ensures ScoreImprovement(history + [AsHistoryEntry(r)]) == NotANumber
  {
  }

  /** The history colour of an entry; a missing score compares false with
      every bound, so it is shown red. */
  function EntryBand(e: HistoryEntry, target: int): (b: Band)
    ensures e.score.None? ==> b == Red
    ensures e.score.Some? ==> b == ScoreBand(e.score.value, target)
  {
    if e.score.Some? then ScoreBand(e.score.value, target) else Red
  }

  /** Mock test 1 is always open; tests 2, 3 and 4 open on days 14, 21 and 26. */
  function Available(test: nat, currentDay: int): (open: bool)
    requires 1 <= test <= 4
    ensures test == 1 ==> open
    ensures test == 2 ==> (open <==> currentDay >= 14)
    ensures test == 3 ==> (open <==> currentDay >= 21)
    ensures test == 4 ==> (open <==> currentDay >= 26)
  {
    match test
    case 1 => true
    case 2 => currentDay >= 14
    case 3 => currentDay >= 21
    case 4 => currentDay >= 26
  }

  function Recommended(test: nat, currentDay: int): bool
    requires 1 <= test <= 4
  {
    match test
    case 1 => currentDay <= 3
    case 2 => 14 <= currentDay <= 17
    case 3 => 21 <= currentDay <= 24
    case 4 => currentDay >= 26
  }

  /** A recommended test is always available, and a test once available
      stays available. */
  lemma RecommendedIsAvailable(test: nat, currentDay: int, laterDay: int)
    requires 1 <= test <= 4 && currentDay <= laterDay
    ensures Recommended(test, currentDay) ==> Available(test, currentDay)
    ensures Available(test, currentDay) ==> Available(test, laterDay)
  {
  }

  /** The page; its history lives only in memory. */
  class Page {
    var testHistory: seq<HistoryEntry>
    var showMockInterface: bool
    var selectedMock: Option<nat>

    constructor ()
      ensures testHistory == SeedHistory && !showMockInterface && selectedMock == None
    {
      testHistory := SeedHistory;
      showMockInterface := false;
      selectedMock := None;
    }

    /** handleMockTestComplete: append the result and close the interface. */
    method HandleMockTestComplete(r: MockTestInterface.MockResult)
      modifies this
      ensures testHistory == old(testHistory) + [AsHistoryEntry(r)]
      ensures |testHistory| == |old(testHistory)| + 1 && testHistory[..|old(testHistory)|] == old(testHistory)
      ensures !showMockInterface && selectedMock == None
    {
      testHistory := testHistory + [AsHistoryEntry(r)];
      showMockInterface := false;
      selectedMock := None;
    }
  }
}
