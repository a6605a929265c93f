/** The figures the profile page derives from the loaded session list. */
module Profile {
  import opened Wrappers
  import opened Types
  import opened Sequences

  /** `s.score || 0`: a missing or zero score counts as 0. */
  function ScoreOrZero(score: Option<int>): (r: int)
    ensures score.Some? ==> r == score.value
    ensures score.None? ==> r == 0
  {
    match score
    case Some(v) => v
    case None => 0
  }

  /** `sessions.length`. */
  function TotalInterviews(ss: seq<Session>): (r: nat)
    ensures r == |ss|
  {
    |ss|
  }

  /** The reduction `acc + (s.score || 0)` from 0, left to right. */
  function ScoreSum(ss: seq<Session>): (r: int)
    ensures (forall i :: 0 <= i < |ss| ==> ss[i].score.None?) ==> r == 0
  {
    if |ss| == 0 then 0 else ScoreSum(ss[..|ss| - 1]) + ScoreOrZero(ss[|ss| - 1].score)
  }

  /** The sum splits over a concatenation. */
  lemma {:induction false} ScoreSumAppend(a: seq<Session>, b: seq<Session>)
    ensures ScoreSum(a + b) == ScoreSum(a) + ScoreSum(b)
  {
    if |b| > 0 {
      assert (a + b)[..|a + b| - 1] == a + b[..|b| - 1];
      ScoreSumAppend(a, b[..|b| - 1]);
    } else {
      assert a + b == a;
    }
  }

  /** The page's average, exactly: the score sum over the count, or 0 with no
      sessions. */
  function AverageScore(ss: seq<Session>): (r: real)
    ensures |ss| == 0 ==> r == 0.0
    ensures |ss| > 0 ==> r * (|ss| as real) == ScoreSum(ss) as real
  {
    if TotalInterviews(ss) > 0 then ScoreSum(ss) as real / TotalInterviews(ss) as real else 0.0
  }

  /** `Math.max(...sessions.map(s => s.score || 0))` over a non-empty list. */
  function MaxScore(ss: seq<Session>): (r: int)
    requires |ss| > 0
    ensures forall i :: 0 <= i < |ss| ==> ScoreOrZero(ss[i].score) <= r
    ensures exists i :: 0 <= i < |ss| && ScoreOrZero(ss[i].score) == r
  {
    if |ss| == 1 then ScoreOrZero(ss[0].score)
    else
      var rest := MaxScore(ss[1..]);
      assert forall i :: 1 <= i < |ss| ==> ss[i] == ss[1..][i - 1];
      var here := ScoreOrZero(ss[0].score);
      if here >= rest then here else rest
  }

  /** `bestScore`: 0 for no sessions, otherwise the largest score-or-0. */
  function BestScore(ss: seq<Session>): (r: int)
    ensures |ss| == 0 ==> r == 0
    ensures forall i :: 0 <= i < |ss| ==> ScoreOrZero(ss[i].score) <= r
    ensures |ss| > 0 ==> exists i :: 0 <= i < |ss| && ScoreOrZero(ss[i].score) == r
  {
    if TotalInterviews(ss) > 0 then MaxScore(ss) else 0
  }

  /** No session adds more than the best score to the sum. */
  lemma {:induction false} ScoreSumAtMost(ss: seq<Session>, bound: int)
    requires forall i :: 0 <= i < |ss| ==> ScoreOrZero(ss[i].score) <= bound
    ensures ScoreSum(ss) <= |ss| * bound
  {
    if |ss| > 0 {
      var init := ss[..|ss| - 1];
      ScoreSumAtMost(init, bound);
      assert ScoreSum(ss) == ScoreSum(init) + ScoreOrZero(ss[|ss| - 1].score);
      assert |init| * bound + bound == |ss| * bound;
    }
  }

  /** The average never exceeds the best score. */
  lemma AverageAtMostBest(ss: seq<Session>)
    ensures AverageScore(ss) <= BestScore(ss) as real
  {
    if |ss| > 0 {
      ScoreSumAtMost(ss, BestScore(ss));
      QuotientAtMost(ScoreSum(ss), BestScore(ss), |ss|);
    }
  }

  /** `a / n <= b` whenever `a <= b * n` and `n` is positive. */
  lemma QuotientAtMost(a: int, b: int, n: int)
    requires n > 0 && a <= n * b
    ensures a as real / n as real <= b as real
  {
    var q := a as real / n as real;
    assert q * n as real == a as real;
    assert (n * b) as real == n as real * b as real;
  }

  /** `sessions.map(s => s.specialty)`. */
  function Specialties(ss: seq<Session>): (r: seq<string>)
    ensures |r| == |ss|
    ensures forall i :: 0 <= i < |ss| ==> r[i] == ss[i].specialty
  {
    if |ss| == 0 then [] else Specialties(ss[..|ss| - 1]) + [ss[|ss| - 1].specialty]
  }

  /** `uniqueSpecialties`: `[...new Set(specialties)]`. */
  function UniqueSpecialties(ss: seq<Session>): (r: seq<string>)
    ensures |r| <= |ss|
    ensures |r| == 0 <==> |ss| == 0
  {
    DedupEmpty(Specialties(ss));
    Dedup(Specialties(ss))
  }

  /** Every specialty practised appears, once, and in order of first occurrence. */
  lemma UniqueSpecialtiesSpec(ss: seq<Session>)
    ensures forall i :: 0 <= i < |ss| ==> ss[i].specialty in UniqueSpecialties(ss)
    ensures forall x :: x in UniqueSpecialties(ss) <==> x in Specialties(ss)
    ensures NoDuplicates(UniqueSpecialties(ss))
    ensures forall i, j :: 0 <= i < j < |UniqueSpecialties(ss)| ==>
              FirstIndex(Specialties(ss), UniqueSpecialties(ss)[i]) < FirstIndex(Specialties(ss), UniqueSpecialties(ss)[j])
  {
    var specs := Specialties(ss);
    DedupFirstOccurrenceOrder(specs);
    assert forall i :: 0 <= i < |ss| ==> specs[i] in Dedup(specs);
  }

  /** The chips under "Practiced Specialties": the first at most five. */
  function SpecialtyChips(ss: seq<Session>): (r: seq<string>)
    ensures r <= UniqueSpecialties(ss)
    ensures |r| == if |UniqueSpecialties(ss)| < 5 then |UniqueSpecialties(ss)| else 5
    ensures |UniqueSpecialties(ss)| <= 5 ==> r == UniqueSpecialties(ss)
  {
    Take(UniqueSpecialties(ss), 5)
  }

  /** The "First Interview" achievement is lit exactly when some interview was
      done, which is exactly when some specialty was practised. */
  function FirstInterviewUnlocked(ss: seq<Session>): (r: bool)
    ensures r <==> |ss| > 0
    ensures r <==> |UniqueSpecialties(ss)| > 0
  {
    DedupEmpty(Specialties(ss));
    TotalInterviews(ss) > 0
  }
}
