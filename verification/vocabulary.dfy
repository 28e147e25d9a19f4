/** The vocabulary builder: a catalogue of words that are drawn, marked as
    learned or for review, filtered by category and study mode, and reset.
    Time stamps are parameters; the random pick is an index parameter. */
module Vocabulary {
  import opened Common

  datatype Difficulty = Beginner | Intermediate | Advanced
  datatype Mode = Learn | Review | Test

  datatype Word = Word(
    id: string,
    word: string,
    category: string,
    difficulty: Difficulty,
    learned: bool,
    reviewCount: int,
    lastReviewed: string)

  function SeedWord(id: string, word: string, category: string, difficulty: Difficulty): Word
  {
    Word(id, word, category, difficulty, false, 0, "")
  }

  /** The catalogue written when nothing is saved (definitions and example
      sentences are display text and are not modelled). */
  const SeedWords: seq<Word> := [
    SeedWord("1", "analyze", "Academic", Intermediate),
    SeedWord("2", "comprehensive", "Academic", Advanced),
    SeedWord("3", "significant", "Academic", Intermediate),
    SeedWord("4", "collaborate", "Business", Intermediate),
    SeedWord("5", "innovative", "Business", Intermediate),
    SeedWord("6", "hypothesis", "Science", Advanced),
    SeedWord("7", "sustainable", "Science", Intermediate),
    SeedWord("8", "algorithm", "Technology", Advanced),
    SeedWord("9", "interface", "Technology", Intermediate),
    SeedWord("10", "diversity", "Social", Intermediate)
  ]

  /** The seed has ten words with distinct ids, none learned or reviewed. */
  lemma SeedWordsShape()
    ensures |SeedWords| == 10
    ensures forall i, j :: 0 <= i < j < |SeedWords| ==> SeedWords[i].id != SeedWords[j].id
    ensures forall w :: w in SeedWords ==> !w.learned && w.reviewCount == 0 && w.lastReviewed == ""
  {
    var ws := SeedWords;
    forall i, j | 0 <= i < j < |ws| ensures ws[i].id != ws[j].id {
      assert |ws[i].id| != |ws[j].id| || ws[i].id[0] != ws[j].id[0];
    }
  }

  predicate InCategory(category: string, w: Word)
  {
    category == "all" || w.category == category
  }

  /** Review keeps learned words reviewed fewer than five times, learn keeps
      the unlearned ones, test keeps everything. */
  predicate ModeKeeps(mode: Mode, w: Word)
  {
    match mode
    case Review => w.learned && w.reviewCount < 5
    case Learn => !w.learned
    case Test => true
  }

  /** getFilteredWords: the category filter, then the mode filter. */
  function FilteredWords(ws: seq<Word>, category: string, mode: Mode): (r: seq<Word>)
    ensures forall w :: w in r <==> w in ws && InCategory(category, w) && ModeKeeps(mode, w)
    ensures |r| <= |ws|
  {
    var byCategory := if category != "all" then Filter(ws, (w: Word) => w.category == category) else ws;
    var r := if mode == Review then Filter(byCategory, (w: Word) => w.learned && w.reviewCount < 5)
      else if mode == Learn then Filter(byCategory, (w: Word) => !w.learned)
      else byCategory;
    FilteredIsOneFilter(ws, category, mode);
    forall w ensures w in r <==> w in ws && InCategory(category, w) && ModeKeeps(mode, w) {
      FilterMembership(ws, (x: Word) => InCategory(category, x) && ModeKeeps(mode, x), w);
    }
    r
  }

  /** The two filters amount to one order-preserving filter by both
      conditions. */
  lemma FilteredIsOneFilter(ws: seq<Word>, category: string, mode: Mode)
    ensures var byCategory := if category != "all" then Filter(ws, (w: Word) => w.category == category) else ws;
      Filter(ws, (x: Word) => InCategory(category, x) && ModeKeeps(mode, x))
      == if mode == Review then Filter(byCategory, (w: Word) => w.learned && w.reviewCount < 5)
         else if mode == Learn then Filter(byCategory, (w: Word) => !w.learned)
         else byCategory
  {
    var both := (x: Word) => InCategory(category, x) && ModeKeeps(mode, x);
    var cat := (w: Word) => w.category == category;
    var modeP := if mode == Review then (w: Word) => w.learned && w.reviewCount < 5
      else if mode == Learn then (w: Word) => !w.learned
      else (w: Word) => true;
    if category != "all" {
      FilterFilter(ws, cat, modeP, both);
      if mode == Test {
        FilterAll(Filter(ws, cat), modeP);
      }
    } else {
      FilterFilter(ws, (w: Word) => true, modeP, both);
      FilterAll(ws, (w: Word) => true);
      if mode == Test {
        FilterAll(ws, both);
      }
    }
  }

  /** markAsLearned on the word list: the word with the id becomes learned
      and is stamped; every other word is unchanged. */
  function MarkedLearned(ws: seq<Word>, id: string, now: string): (r: seq<Word>)
    ensures |r| == |ws|
    ensures forall i :: 0 <= i < |ws| ==> r[i] == if ws[i].id == id then ws[i].(learned := true, lastReviewed := now) else ws[i]
  {
    seq(|ws|, i requires 0 <= i < |ws| => if ws[i].id == id then ws[i].(learned := true, lastReviewed := now) else ws[i])
  }

  /** markAsNeedReview on the word list: one more review for the id and a
      stamp; learned is untouched. */
  function MarkedForReview(ws: seq<Word>, id: string, now: string): (r: seq<Word>)
    ensures |r| == |ws|
    ensures forall i :: 0 <= i < |ws| ==> r[i] == if ws[i].id == id then ws[i].(reviewCount := ws[i].reviewCount + 1, lastReviewed := now) else ws[i]
  {
    seq(|ws|, i requires 0 <= i < |ws| => if ws[i].id == id then ws[i].(reviewCount := ws[i].reviewCount + 1, lastReviewed := now) else ws[i])
  }

  /** resetProgress on the word list. */
  function ResetWords(ws: seq<Word>): (r: seq<Word>)
    ensures |r| == |ws|
    ensures forall i :: 0 <= i < |ws| ==> r[i] == ws[i].(learned := false, reviewCount := 0, lastReviewed := "")
  {
    seq(|ws|, i requires 0 <= i < |ws| => ws[i].(learned := false, reviewCount := 0, lastReviewed := ""))
  }

  /** A word marked learned leaves the learn queue and, in every category,
      the learn view loses exactly that word's entries. */
  lemma LearnedLeavesLearnQueue(ws: seq<Word>, id: string, now: string, category: string)
    ensures forall w :: w in FilteredWords(MarkedLearned(ws, id, now), category, Learn) ==> w.id != id
    ensures forall w :: w in FilteredWords(ws, category, Learn) && w.id != id ==>
      w in FilteredWords(MarkedLearned(ws, id, now), category, Learn)
  {
    var r := MarkedLearned(ws, id, now);
    forall w | w in FilteredWords(ws, category, Learn) && w.id != id
      ensures w in FilteredWords(r, category, Learn)
    {
      var k :| 0 <= k < |ws| && ws[k] == w;
      assert r[k] == w;
    }
  }

  /** After a reset the learn view of all categories is the whole list, in
      order, and the review view is empty. */
  lemma ResetThenLearnAll(ws: seq<Word>)
    ensures FilteredWords(ResetWords(ws), "all", Learn) == ResetWords(ws)
    ensures FilteredWords(ResetWords(ws), "all", Review) == []
  {
    var r := ResetWords(ws);
    FilteredIsOneFilter(r, "all", Learn);
    FilteredIsOneFilter(r, "all", Review);
    FilterAll(r, (x: Word) => InCategory("all", x) && ModeKeeps(Learn, x));
    assert forall w :: w !in FilteredWords(r, "all", Review);
  }

  /** The distinct values of a list, in order of first appearance. */
  function Distinct(xs: seq<string>): (r: seq<string>)
    ensures forall x :: x in r <==> x in xs
    ensures forall i, j :: 0 <= i < j < |r| ==> r[i] != r[j]
  {
    if xs == [] then []
    else
      var d := Distinct(xs[..|xs| - 1]);
      assert xs == xs[..|xs| - 1] + [xs[|xs| - 1]];
      if xs[|xs| - 1] in d then d else d + [xs[|xs| - 1]]
  }

  /** Distinct keeps first appearances in order: extending the list only
      appends. */
  lemma {:induction false} DistinctExtends(xs: seq<string>, ys: seq<string>)
    ensures Distinct(xs) <= Distinct(xs + ys)
    decreases |ys|
  {
    if ys != [] {
      var zs := xs + ys[..|ys| - 1];
      DistinctExtends(xs, ys[..|ys| - 1]);
      assert (xs + ys)[..|xs + ys| - 1] == zs;
      assert Distinct(zs) <= Distinct(xs + ys);
    } else {
      assert xs + ys == xs;
    }
  }

  function Categories(ws: seq<Word>): seq<string>
  {
    ["all"] + Distinct(seq(|ws|, i requires 0 <= i < |ws| => ws[i].category))
  }

  /** The category menu starts with 'all' and then lists each category of
      the catalogue exactly once. */
  lemma CategoriesShape(ws: seq<Word>)
    ensures Categories(ws)[0] == "all"
    ensures forall c :: c in Categories(ws)[1..] <==> exists w :: w in ws && w.category == c
    ensures forall i, j :: 1 <= i < j < |Categories(ws)| ==> Categories(ws)[i] != Categories(ws)[j]
  {
    var cats := seq(|ws|, i requires 0 <= i < |ws| => ws[i].category);
    assert Categories(ws)[1..] == Distinct(cats);
    forall c ensures c in Distinct(cats) <==> exists w :: w in ws && w.category == c {
      if c in cats {
        var k :| 0 <= k < |cats| && cats[k] == c;
        assert ws[k] in ws;
      }
      if exists w :: w in ws && w.category == c {
        var w :| w in ws && w.category == c;
        var k :| 0 <= k < |ws| && ws[k] == w;
        assert cats[k] == c;
      }
    }
  }

  function LearnedCount(ws: seq<Word>): (n: nat)
    ensures n <= |ws|
    ensures n == |ws| <==> forall i :: 0 <= i < |ws| ==> ws[i].learned
  {
    Count(ws, (w: Word) => w.learned)
  }

  class Builder {
    var words: seq<Word>
    var currentWord: Option<Word>
    var showDefinition: bool
    var selectedCategory: string
    var studyMode: Mode
    var score: int
    var totalQuestions: int

    /** Mount: the saved catalogue if there is one, the seed otherwise. */
    constructor (saved: Option<seq<Word>>)
      ensures words == (if saved.Some? then saved.value else SeedWords)
      ensures currentWord == None && !showDefinition
      ensures selectedCategory == "all" && studyMode == Learn
      ensures score == 0 && totalQuestions == 0
    {
      words := if saved.Some? then saved.value else SeedWords;
      currentWord := None;
      showDefinition := false;
      selectedCategory := "all";
      studyMode := Learn;
      score := 0;
      totalQuestions := 0;
    }

    /** startStudySession: with an empty view nothing changes; otherwise the
        word at the drawn index of the view becomes current, its definition
        is hidden, and in test mode one more question is counted. */
    method StartStudySession(pick: nat)
      requires |FilteredWords(words, selectedCategory, studyMode)| > 0 ==>
        pick < |FilteredWords(words, selectedCategory, studyMode)|
      modifies this
      ensures var view := FilteredWords(old(words), old(selectedCategory), old(studyMode));
        if |view| == 0 then
          && currentWord == old(currentWord) && showDefinition == old(showDefinition)
          && totalQuestions == old(totalQuestions)
        else
          && currentWord == Some(view[pick]) && !showDefinition
          && totalQuestions == old(totalQuestions) + (if old(studyMode) == Test then 1 else 0)
      ensures currentWord.Some? && currentWord != old(currentWord) ==>
        currentWord.value in FilteredWords(words, selectedCategory, studyMode)
      ensures words == old(words) && score == old(score)
      ensures selectedCategory == old(selectedCategory) && studyMode == old(studyMode)
    {
      var filtered := FilteredWords(words, selectedCategory, studyMode);
      if |filtered| > 0 {
        currentWord := Some(filtered[pick]);
        showDefinition := false;
        if studyMode == Test {
          totalQuestions := totalQuestions + 1;
        }
      }
    }

    /** markAsLearned: without a current word nothing changes. */
    method MarkAsLearned(now: string)
      modifies this
      ensures old(currentWord).None? ==> words == old(words) && score == old(score)
      ensures old(currentWord).Some? ==>
        && words == MarkedLearned(old(words), old(currentWord).value.id, now)
        && score == old(score) + (if studyMode == Test then 1 else 0)
      ensures currentWord == old(currentWord) && totalQuestions == old(totalQuestions)
      ensures selectedCategory == old(selectedCategory) && studyMode == old(studyMode)
      ensures showDefinition == old(showDefinition)
    {
      if currentWord.Some? {
        words := MarkedLearned(words, currentWord.value.id, now);
        if studyMode == Test {
          score := score + 1;
        }
      }
    }

    /** markAsNeedReview: without a current word nothing changes. */
    method MarkAsNeedReview(now: string)
      modifies this
      ensures old(currentWord).None? ==> words == old(words)
      ensures old(currentWord).Some? ==> words == MarkedForReview(old(words), old(currentWord).value.id, now)
      ensures currentWord == old(currentWord) && score == old(score) && totalQuestions == old(totalQuestions)
      ensures selectedCategory == old(selectedCategory) && studyMode == old(studyMode)
      ensures showDefinition == old(showDefinition)
    {
      if currentWord.Some? {
        words := MarkedForReview(words, currentWord.value.id, now);
      }
    }

    method ResetProgress()
      modifies this
      ensures words == ResetWords(old(words))
      ensures score == 0 && totalQuestions == 0 && currentWord == None
      ensures selectedCategory == old(selectedCategory) && studyMode == old(studyMode)
      ensures showDefinition == old(showDefinition)
    {
      words := ResetWords(words);
      score := 0;
      totalQuestions := 0;
      currentWord := None;
    }
  }
}
