/** Shared vocabulary of the study app model: optional values, the rounding
    rules the views use on exact rationals, the day counter derived from the
    profile's start date, the three-band score colour, and order-preserving
    filtering of record lists. */
module Common {

  datatype Option<+T> = None | Some(value: T)

  /** Round-half-up of the rational n/d, the way Math.round treats a value
      whose fractional part is exactly one half. */
  function RoundDiv(n: int, d: int): (r: int)
    requires d > 0
    ensures 2 * d * r <= 2 * n + d < 2 * d * (r + 1)
  {
    (2 * n + d) / (2 * d)
  }

  /** Smallest integer at or above the rational n/d (Math.ceil). */
  function CeilDiv(n: int, d: int): (r: int)
    requires d > 0
    ensures d * (r - 1) < n <= d * r
  {
    -((-n) / d)
  }

  /** Largest integer at or below the rational n/d (Math.floor). */
  function FloorDiv(n: int, d: int): (r: int)
    requires d > 0
    ensures d * r <= n < d * (r + 1)
  {
    n / d
  }

  lemma RoundDivMonotone(n1: int, n2: int, d: int)
    requires d > 0 && n1 <= n2
    ensures RoundDiv(n1, d) <= RoundDiv(n2, d)
  {
    var r1, r2 := RoundDiv(n1, d), RoundDiv(n2, d);
    if r2 < r1 {
      MulLeInt(r2 + 1, r1, 2 * d);
      assert false;
    }
  }

  lemma MulLeInt(a: int, b: int, k: int)
    requires a <= b && k > 0
    ensures k * a <= k * b
  {
  }

  /** Round-half-up of a real number. */
  function RoundReal(x: real): (r: int)
    ensures r as real - 0.5 <= x < r as real + 0.5
  {
    (x + 0.5).Floor
  }
  /** Rounding a quotient of integers agrees with rounding the exact
      rational. */
  lemma RoundDivIsRoundReal(c: int, n: int, x: real)
    requires n > 0 && x * n as real == c as real
    ensures RoundDiv(c, n) == RoundReal(x)
  {
    var e := RoundDiv(c, n);
    var nr := n as real;
    if x < e as real - 0.5 {
      MulStrict(x, e as real - 0.5, nr);
      assert false;
    }
    if x >= e as real + 0.5 {
      MulWeak(e as real + 0.5, x, nr);
      assert false;
    }
  }

  lemma MulStrict(a: real, b: real, n: real)
    requires a < b && n > 0.0
    ensures a * n < b * n
  {
  }

  lemma MulWeak(a: real, b: real, n: real)
    requires a <= b && n > 0.0
    ensures a * n <= b * n
  {
  }



  const MsPerDay: int := 86400000

  /** Day number of the 30-day plan: the elapsed milliseconds since the
      profile's start date, divided by one day and rounded up. */
  function DayNumber(elapsedMs: int): (day: int)
    ensures (day - 1) * MsPerDay < elapsedMs <= day * MsPerDay
  {
    CeilDiv(elapsedMs, MsPerDay)
  }

  /** The colour band a score falls in relative to the learner's target. */
  datatype Band = Green | Yellow | Red

  function ScoreBand(score: int, target: int): (b: Band)
    ensures b == Green <==> score >= target
    ensures b == Yellow <==> target - 5 <= score < target
    ensures b == Red <==> score < target - 5
  {
    if score >= target then Green
    else if score >= target - 5 then Yellow
    else Red
  }

  /** Array.prototype.filter: the elements satisfying p, in their order. */
  function Filter<T>(s: seq<T>, p: T -> bool): (r: seq<T>)
    ensures |r| <= |s|
    ensures forall i :: 0 <= i < |r| ==> p(r[i])
  {
    if s == [] then []
    else if p(s[0]) then [s[0]] + Filter(s[1..], p)
    else Filter(s[1..], p)
  }

  lemma {:induction false} FilterMembership<T>(s: seq<T>, p: T -> bool, x: T)
    ensures x in Filter(s, p) <==> x in s && p(x)
  {
    if s != [] {
      FilterMembership(s[1..], p, x);
      assert s == [s[0]] + s[1..];
    }
  }

  /** Filtering distributes over concatenation, so the kept elements keep
      their relative order. */
  lemma {:induction false} FilterAppend<T>(s1: seq<T>, s2: seq<T>, p: T -> bool)
    ensures Filter(s1 + s2, p) == Filter(s1, p) + Filter(s2, p)
  {
    if s1 == [] {
      assert s1 + s2 == s2;
    } else {
      FilterAppend(s1[1..], s2, p);
      var s := s1 + s2;
      assert s != [] && s[0] == s1[0] && s[1..] == s1[1..] + s2;
      if p(s1[0]) {
        calc {
          Filter(s, p);
          [s1[0]] + Filter(s1[1..] + s2, p);
          [s1[0]] + (Filter(s1[1..], p) + Filter(s2, p));
          ([s1[0]] + Filter(s1[1..], p)) + Filter(s2, p);
        }
      }
    }
  }

  /** A predicate that holds of every element keeps the whole list. */
  lemma {:induction false} FilterAll<T>(s: seq<T>, p: T -> bool)
    requires forall i :: 0 <= i < |s| ==> p(s[i])
    ensures Filter(s, p) == s
  {
    if s != [] {
      FilterAll(s[1..], p);
    }
  }

  /** Two successive filters keep what both predicates accept. */
  lemma {:induction false} FilterFilter<T>(s: seq<T>, p: T -> bool, q: T -> bool, pq: T -> bool)
    requires forall x :: pq(x) == (p(x) && q(x))
    ensures Filter(Filter(s, p), q) == Filter(s, pq)
  {
    if s != [] {
      FilterFilter(s[1..], p, q, pq);
    }
  }

  /** Filtering a list whose keys strictly increase keeps them increasing. */
  lemma {:induction false} FilterKeepsOrder<T>(s: seq<T>, p: T -> bool, key: T -> int)
    requires forall i, j :: 0 <= i < j < |s| ==> key(s[i]) < key(s[j])
    ensures forall i, j :: 0 <= i < j < |Filter(s, p)| ==> key(Filter(s, p)[i]) < key(Filter(s, p)[j])
  {
    if s != [] {
      FilterKeepsOrder(s[1..], p, key);
      var rest := Filter(s[1..], p);
      assert forall i, j :: 0 <= i < j < |rest| ==> key(rest[i]) < key(rest[j]);
      forall x | x in rest ensures key(s[0]) < key(x) {
        FilterMembership(s[1..], p, x);
        var k :| 0 <= k < |s[1..]| && s[1..][k] == x;
        assert s[k + 1] == x;
      }
      if p(s[0]) {
        var r := [s[0]] + rest;
        assert Filter(s, p) == r;
        forall i, j | 0 <= i < j < |r| ensures key(r[i]) < key(r[j]) {
          if i == 0 {
            assert r[j] in rest;
          } else {
            assert r[i] == rest[i - 1] && r[j] == rest[j - 1];
            assert key(rest[i - 1]) < key(rest[j - 1]);
          }
        }
      }
    }
  }

  /** Number of elements satisfying p. */
  function Count<T>(s: seq<T>, p: T -> bool): (n: nat)
    ensures n == |Filter(s, p)|
    ensures n <= |s|
    ensures n == |s| <==> forall i :: 0 <= i < |s| ==> p(s[i])
    ensures n == 0 <==> forall i :: 0 <= i < |s| ==> !p(s[i])
  {
    if s == [] then 0
    else (if p(s[0]) then 1 else 0) + Count(s[1..], p)
  }
}
