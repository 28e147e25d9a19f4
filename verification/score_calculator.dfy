/** The score calculator: four skill sliders, their rounded mean, the gap to
    the target and a recommendation for the weakest skill below target. */
module ScoreCalculator {
  import opened Common

  datatype Skill = Speaking | Writing | Reading | Listening

  /** The four skills in the order the record lists them. */
  const Skills: seq<Skill> := [Speaking, Writing, Reading, Listening]

  datatype Scores = Scores(speaking: int, writing: int, reading: int, listening: int)

  const InitialScores := Scores(65, 65, 65, 65)

  function Get(sc: Scores, k: Skill): int
  {
    match k
    case Speaking => sc.speaking
    case Writing => sc.writing
    case Reading => sc.reading
    case Listening => sc.listening
  }

  /** A slider change replaces its own skill and leaves the other three. */
  function SetSkill(sc: Scores, k: Skill, v: int): (r: Scores)
    ensures Get(r, k) == v
    ensures forall j :: j != k ==> Get(r, j) == Get(sc, j)
  {
    match k
    case Speaking => sc.(speaking := v)
    case Writing => sc.(writing := v)
    case Reading => sc.(reading := v)
    case Listening => sc.(listening := v)
  }

  predicate InSliderRange(sc: Scores)
  {
    forall k :: 10 <= Get(sc, k) <= 90
  }

  /** round((s + w + r + l) / 4). */
  function Overall(sc: Scores): (o: int)
    ensures 8 * o <= 2 * (sc.speaking + sc.writing + sc.reading + sc.listening) + 4 < 8 * (o + 1)
  {
    RoundDiv(sc.speaking + sc.writing + sc.reading + sc.listening, 4)
  }

  /** The overall score lies between the lowest and the highest skill, so
      sliders within [10, 90] give an overall within [10, 90]. */
  lemma OverallWithinSkills(sc: Scores, lo: int, hi: int)
    requires forall k :: lo <= Get(sc, k) <= hi
    ensures lo <= Overall(sc) <= hi
  {
    assert Get(sc, Speaking) == sc.speaking && Get(sc, Writing) == sc.writing;
    assert Get(sc, Reading) == sc.reading && Get(sc, Listening) == sc.listening;
  }

  lemma OverallInSliderRange(sc: Scores)
    requires InSliderRange(sc)
    ensures 10 <= Overall(sc) <= 90
  {
    OverallWithinSkills(sc, 10, 90);
  }

  /** Points still missing to the target, never negative. */
  function Gap(target: int, overall: int): (g: int)
    ensures g >= 0 && g >= target - overall
    ensures overall >= target <==> g == 0
    ensures overall < target ==> overall + g == target
  {
    if 0 > target - overall then 0 else target - overall
  }

  /** Position i holds the first occurrence of the smallest score. */
  predicate FirstMinAt(ks: seq<Skill>, sc: Scores, i: int)
  {
    && 0 <= i < |ks|
    && (forall j :: 0 <= j < i ==> Get(sc, ks[j]) > Get(sc, ks[i]))
    && (forall j :: i <= j < |ks| ==> Get(sc, ks[i]) <= Get(sc, ks[j]))
  }

  /** The first element of the list with the smallest score: what a stable
      ascending sort puts in front. */
  function FirstMin(ks: seq<Skill>, sc: Scores): (r: Option<Skill>)
    ensures r.Some? <==> ks != []
    ensures r.Some? ==> exists i :: FirstMinAt(ks, sc, i) && ks[i] == r.value
  {
    if ks == [] then None
    else
      var rest := FirstMin(ks[1..], sc);
      if rest.None? || Get(sc, ks[0]) <= Get(sc, rest.value) then
        assert FirstMinAt(ks, sc, 0);
        Some(ks[0])
      else
        var i :| FirstMinAt(ks[1..], sc, i) && ks[1..][i] == rest.value;
        assert FirstMinAt(ks, sc, i + 1);
        rest
  }

  /** The skills below target, in record order. */
  function WeakAreas(sc: Scores, target: int): (ws: seq<Skill>)
    ensures forall k :: k in ws <==> Get(sc, k) < target
  {
    var ws := Filter(Skills, (k: Skill) => Get(sc, k) < target);
    forall k ensures k in ws <==> Get(sc, k) < target {
      FilterMembership(Skills, (x: Skill) => Get(sc, x) < target, k);
      assert Skills[SkillIndex(k)] == k;
    }
    ws
  }

  /** getRecommendations: None stands for the fixed "Excellent" message. */
  function Weakest(sc: Scores, target: int): Option<Skill>
  {
    FirstMin(WeakAreas(sc, target), sc)
  }

  /** The first minimum is no larger than any listed skill. */
  lemma FirstMinLeast(ks: seq<Skill>, sc: Scores, i: int, k: Skill)
    requires FirstMinAt(ks, sc, i) && k in ks
    ensures Get(sc, ks[i]) <= Get(sc, k)
  {
    var m :| 0 <= m < |ks| && ks[m] == k;
  }

  /** In a list in record order, the first minimum precedes every skill
      that ties with it. */
  lemma FirstMinEarliest(ks: seq<Skill>, sc: Scores, i: int, k: Skill)
    requires FirstMinAt(ks, sc, i) && k in ks && Get(sc, k) == Get(sc, ks[i])
    requires forall a, b :: 0 <= a < b < |ks| ==> SkillIndex(ks[a]) < SkillIndex(ks[b])
    ensures SkillIndex(ks[i]) <= SkillIndex(k)
  {
    var m :| 0 <= m < |ks| && ks[m] == k;
    if m < i {
      assert false;
    }
  }

  /** The recommendation is "Excellent" exactly when no skill is below
      target; otherwise it names a skill below target that no skill below
      target undercuts, and no skill earlier in record order ties with
      it. */
  lemma WeakestSpec(sc: Scores, target: int)
    ensures Weakest(sc, target).None? <==> forall k :: Get(sc, k) >= target
    ensures Weakest(sc, target).Some? ==>
      var w := Weakest(sc, target).value;
      && Get(sc, w) < target
      && (forall k :: Get(sc, k) < target ==> Get(sc, w) <= Get(sc, k))
      && (forall k :: Get(sc, k) == Get(sc, w) ==> SkillIndex(w) <= SkillIndex(k))
  {
    var ws := WeakAreas(sc, target);
    var r := FirstMin(ws, sc);
    assert Weakest(sc, target) == r;
    if r.Some? {
      var w := r.value;
      var i :| FirstMinAt(ws, sc, i) && ws[i] == w;
      WeakAreasOrdered(sc, target);
      forall k | Get(sc, k) < target ensures Get(sc, w) <= Get(sc, k) {
        FirstMinLeast(ws, sc, i, k);
      }
      forall k | Get(sc, k) == Get(sc, w) ensures SkillIndex(w) <= SkillIndex(k) {
        FirstMinEarliest(ws, sc, i, k);
      }
    } else {
      forall k ensures Get(sc, k) >= target {
        if Get(sc, k) < target {
          assert false;
        }
      }
    }
  }

  function SkillIndex(k: Skill): (i: nat)
    ensures i < 4 && Skills[i] == k
  {
    match k
    case Speaking => 0
    case Writing => 1
    case Reading => 2
    case Listening => 3
  }

  /** The weak areas keep the record order. */
  lemma WeakAreasOrdered(sc: Scores, target: int)
    ensures var ws := WeakAreas(sc, target);
      forall i, j :: 0 <= i < j < |ws| ==> SkillIndex(ws[i]) < SkillIndex(ws[j])
  {
    FilterKeepsOrder(Skills, (k: Skill) => Get(sc, k) < target, (k: Skill) => SkillIndex(k));
  }
}
