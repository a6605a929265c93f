/** The figures the dashboard page derives from the loaded session list. */
module Dashboard {
  import opened Wrappers
  import opened Types
  import opened Sequences
  import Profile
  import SeedData

  // ---------------------------------------------------------------------
  // Newest-first ordering: `data.sort((a, b) => date(b) - date(a))`, a
  // stable sort (the language guarantees stability) on the loaded array.

  ghost predicate NewestFirstOrdered(ss: seq<Session>)
  {
    forall i, j :: 0 <= i < j < |ss| ==> ss[i].date >= ss[j].date
  }

  /** `x` placed after every element of `sorted` that is at least as new. */
  function InsertByDate(sorted: seq<Session>, x: Session): (r: seq<Session>)
    ensures |r| == |sorted| + 1
  {
    if |sorted| == 0 || sorted[|sorted| - 1].date >= x.date then sorted + [x]
    else InsertByDate(sorted[..|sorted| - 1], x) + [sorted[|sorted| - 1]]
  }

  /** The stable newest-first ordering of `ss`, by insertion. */
  function NewestFirst(ss: seq<Session>): (r: seq<Session>)
    ensures |r| == |ss|
  {
    if |ss| == 0 then [] else InsertByDate(NewestFirst(ss[..|ss| - 1]), ss[|ss| - 1])
  }

  lemma {:induction false} InsertByDatePermutes(sorted: seq<Session>, x: Session)
    ensures multiset(InsertByDate(sorted, x)) == multiset(sorted) + multiset{x}
  {
    if |sorted| > 0 && sorted[|sorted| - 1].date < x.date {
      var init := sorted[..|sorted| - 1];
      assert sorted == init + [sorted[|sorted| - 1]];
      InsertByDatePermutes(init, x);
    }
  }

  lemma {:induction false} InsertByDateOrdered(sorted: seq<Session>, x: Session)
    requires NewestFirstOrdered(sorted)
    ensures NewestFirstOrdered(InsertByDate(sorted, x))
  {
    if |sorted| > 0 && sorted[|sorted| - 1].date < x.date {
      var init := sorted[..|sorted| - 1];
      var last := sorted[|sorted| - 1];
      assert sorted == init + [last];
      InsertByDateOrdered(init, x);
      InsertByDatePermutes(init, x);
      var r := InsertByDate(init, x);
      forall k | 0 <= k < |r| ensures r[k].date >= last.date {
        assert r[k] in multiset(r);
        if r[k] != x {
          assert r[k] in multiset(init);
          var m :| 0 <= m < |init| && init[m] == r[k];
          assert sorted[m] == r[k];
        }
      }
      assert InsertByDate(sorted, x) == r + [last];
    }
  }

  /** The ordering is newest first and loses or adds no session. */
  lemma {:induction false} NewestFirstIsSortedPermutation(ss: seq<Session>)
    ensures NewestFirstOrdered(NewestFirst(ss))
    ensures multiset(NewestFirst(ss)) == multiset(ss)
  {
    if |ss| > 0 {
      var init := ss[..|ss| - 1];
      assert ss == init + [ss[|ss| - 1]];
      NewestFirstIsSortedPermutation(init);
      InsertByDateOrdered(NewestFirst(init), ss[|ss| - 1]);
      InsertByDatePermutes(NewestFirst(init), ss[|ss| - 1]);
    }
  }

  /** The sessions of `ss` dated `d`, in their order in `ss`. */
  function DatedAt(ss: seq<Session>, d: int): (r: seq<Session>)
    ensures |r| <= |ss|
  {
    if |ss| == 0 then []
    else DatedAt(ss[..|ss| - 1], d) + (if ss[|ss| - 1].date == d then [ss[|ss| - 1]] else [])
  }

  lemma {:induction false} DatedAtAppend(a: seq<Session>, b: seq<Session>, d: int)
    ensures DatedAt(a + b, d) == DatedAt(a, d) + DatedAt(b, d)
  {
    if |b| == 0 {
      assert a + b == a;
    } else {
      assert (a + b)[..|a + b| - 1] == a + b[..|b| - 1];
      DatedAtAppend(a, b[..|b| - 1], d);
    }
  }

  lemma {:induction false} InsertByDateStable(sorted: seq<Session>, x: Session, d: int)
    ensures DatedAt(InsertByDate(sorted, x), d) == DatedAt(sorted + [x], d)
  {
    if |sorted| == 0 || sorted[|sorted| - 1].date >= x.date {
    } else {
      var init := sorted[..|sorted| - 1];
      var last := sorted[|sorted| - 1];
      assert sorted == init + [last];
      InsertByDateStable(init, x, d);
      DatedAtAppend(InsertByDate(init, x), [last], d);
      DatedAtAppend(init + [x], [last], d);
      DatedAtAppend(init, [x], d);
      DatedAtAppend(init, [last], d);
      DatedAtAppend(sorted, [x], d);
      assert last.date < x.date;
    }
  }

  /** Stability: sessions with equal dates keep their relative order. */
  lemma {:induction false} NewestFirstIsStable(ss: seq<Session>, d: int)
    ensures DatedAt(NewestFirst(ss), d) == DatedAt(ss, d)
  {
    if |ss| > 0 {
      var init := ss[..|ss| - 1];
      var last := ss[|ss| - 1];
      NewestFirstIsStable(init, d);
      InsertByDateStable(NewestFirst(init), last, d);
      DatedAtAppend(NewestFirst(init), [last], d);
      assert [last][..0] == [];
    }
  }

  /** A list already newest first is left as it is. */
  lemma {:induction false} NewestFirstOfOrdered(ss: seq<Session>)
    requires NewestFirstOrdered(ss)
    ensures NewestFirst(ss) == ss
  {
    if |ss| > 0 {
      var init := ss[..|ss| - 1];
      assert ss == init + [ss[|ss| - 1]];
      NewestFirstOfOrdered(init);
      if |init| > 0 {
        assert init[|init| - 1].date >= ss[|ss| - 1].date;
      }
    }
  }

  /** The seeds are already newest first, so sorting the seed array itself
      (which the loader hands out when nothing is persisted) does not reorder it. */
  lemma SeedsAlreadyNewestFirst(loadTime: int)
    ensures NewestFirst(SeedData.SeedSessions(loadTime)) == SeedData.SeedSessions(loadTime)
  {
    NewestFirstOfOrdered(SeedData.SeedSessions(loadTime));
  }

  lemma NewestFirstPrefix(s: seq<Session>, i: nat)
    requires i < |s|
    ensures NewestFirst(s[..i + 1]) == InsertByDate(NewestFirst(s[..i]), s[i])
  {
    assert s[..i + 1][..i] == s[..i];
  }

  /** Where `InsertByDate` puts `key`: after the sessions at least as new,
      before the strictly older tail. */
  lemma {:induction false} InsertByDateAt(sorted: seq<Session>, key: Session, j: nat)
    requires j <= |sorted|
    requires j == 0 || sorted[j - 1].date >= key.date
    requires forall k :: j <= k < |sorted| ==> sorted[k].date < key.date
    ensures InsertByDate(sorted, key) == sorted[..j] + [key] + sorted[j..]
    decreases |sorted|
  {
    if j < |sorted| {
      var init := sorted[..|sorted| - 1];
      InsertByDateAt(init, key, j);
      assert init[..j] == sorted[..j];
      assert init[j..] + [sorted[|sorted| - 1]] == sorted[j..];
    } else {
      assert sorted[..j] == sorted;
    }
  }

  /** The inner `while` loop of one insertion step: every strictly older
      session of the prefix `a[..i]` moves one place right, opening the gap `j`. */
  method ShiftOlder(a: array<Session>, i: nat, key: Session) returns (j: nat)
    requires i < a.Length
    modifies a
    ensures j <= i
    ensures forall k :: 0 <= k < j ==> a[k] == old(a[k])
    ensures forall k :: j < k <= i ==> a[k] == old(a[k - 1])
    ensures forall k :: i < k < a.Length ==> a[k] == old(a[k])
    ensures j == 0 || old(a[j - 1]).date >= key.date
    ensures forall k :: j <= k < i ==> old(a[k]).date < key.date
  {
    j := i;
    while j > 0 && a[j - 1].date < key.date
      invariant 0 <= j <= i
      invariant forall k :: 0 <= k < j ==> a[k] == old(a[k])
      invariant forall k :: j < k <= i ==> a[k] == old(a[k - 1])
      invariant forall k :: i < k < a.Length ==> a[k] == old(a[k])
      invariant forall k :: j <= k < i ==> old(a[k]).date < key.date
    {
      a[j] := a[j - 1];
      j := j - 1;
    }
  }

  /** One insertion step: `a[i]` moves left past every strictly older session
      of the sorted prefix `a[..i]`. */
  method InsertIntoPrefix(a: array<Session>, i: nat)
    requires i < a.Length
    modifies a
    ensures a[..i + 1] == InsertByDate(old(a[..i]), old(a[i]))
    ensures a[i + 1..] == old(a[i + 1..])
  {
    ghost var sorted := a[..i];
    var key := a[i];
    var j := ShiftOlder(a, i, key);
    a[j] := key;
    InsertByDateAt(sorted, key, j);
    assert a[..i + 1] == sorted[..j] + [key] + sorted[j..];
  }

  /** The in-place sort, as an insertion sort. */
  method SortNewestFirst(a: array<Session>)
    modifies a
    ensures a[..] == NewestFirst(old(a[..]))
  {
    ghost var input := a[..];
    var i := 0;
    while i < a.Length
      invariant 0 <= i <= a.Length
      invariant a[..i] == NewestFirst(input[..i])
      invariant a[i..] == input[i..]
    {
      InsertIntoPrefix(a, i);
      NewestFirstPrefix(input, i);
      assert input[i..][0] == input[i];
      assert a[i + 1..] == input[i + 1..];
      i := i + 1;
    }
    assert input[..a.Length] == input;
  }

  // ---------------------------------------------------------------------
  // The score chart.

  datatype ChartPoint = ChartPoint(date: int, score: Option<int>)

  function Points(ss: seq<Session>): (r: seq<ChartPoint>)
    ensures |r| == |ss|
    ensures forall k :: 0 <= k < |ss| ==> r[k] == ChartPoint(ss[k].date, ss[k].score)
  {
    if |ss| == 0 then [] else Points(ss[..|ss| - 1]) + [ChartPoint(ss[|ss| - 1].date, ss[|ss| - 1].score)]
  }

  function Reverse<T>(s: seq<T>): (r: seq<T>)
    ensures |r| == |s|
    ensures forall k :: 0 <= k < |s| ==> r[k] == s[|s| - 1 - k]
  {
    if |s| == 0 then [] else [s[|s| - 1]] + Reverse(s[..|s| - 1])
  }

  /** `scoreChartData`: `map`, `reverse`, then `slice(-10)`, or nothing for no sessions. */
  function ScoreChartData(ss: seq<Session>): (r: seq<ChartPoint>)
    ensures |ss| == 0 ==> r == []
    ensures |r| == if |ss| < 10 then |ss| else 10
    ensures forall k :: 0 <= k < |r| ==> r[k] == ChartPoint(ss[|r| - 1 - k].date, ss[|r| - 1 - k].score)
  {
    if |ss| > 0 then
      var reversed := Reverse(Points(ss));
      var from := if |reversed| < 10 then 0 else |reversed| - 10;
      reversed[from..]
    else []
  }

  /** On the newest-first list, the chart shows the latest sessions from the
      oldest of them to the newest. */
  lemma ChartRunsOldestToNewest(ss: seq<Session>)
    requires NewestFirstOrdered(ss)
    ensures forall k, m :: 0 <= k < m < |ScoreChartData(ss)| ==> ScoreChartData(ss)[k].date <= ScoreChartData(ss)[m].date
    ensures forall k :: 0 <= k < |ScoreChartData(ss)| ==>
              forall j :: |ScoreChartData(ss)| <= j < |ss| ==> ss[j].date <= ScoreChartData(ss)[k].date
  {
  }

  // ---------------------------------------------------------------------
  // Scores by specialty.

  /** Sum of score-or-0 over the sessions of specialty `k`. */
  function TotalFor(ss: seq<Session>, k: string): int
  {
    if |ss| == 0 then 0
    else TotalFor(ss[..|ss| - 1], k) + (if ss[|ss| - 1].specialty == k then Profile.ScoreOrZero(ss[|ss| - 1].score) else 0)
  }

  /** Number of sessions of specialty `k`. */
  function CountFor(ss: seq<Session>, k: string): nat
  {
    if |ss| == 0 then 0
    else CountFor(ss[..|ss| - 1], k) + (if ss[|ss| - 1].specialty == k then 1 else 0)
  }

  lemma {:induction false} CountForAbsent(ss: seq<Session>, k: string)
    requires k !in Profile.Specialties(ss)
    ensures CountFor(ss, k) == 0
  {
    if |ss| > 0 {
      var init := ss[..|ss| - 1];
      assert Profile.Specialties(ss) == Profile.Specialties(init) + [ss[|ss| - 1].specialty];
      CountForAbsent(init, k);
    }
  }

  /** A specialty's running total and count, as the dictionary holds them. */
  datatype Tally = Tally(totalScore: int, count: nat)

  /** One entry of `specialtyScoreData`, before the average is rounded. */
  datatype SpecialtyScore = SpecialtyScore(specialty: string, totalScore: int, count: nat)

  function CountSum(r: seq<SpecialtyScore>): nat
  {
    if |r| == 0 then 0 else CountSum(r[..|r| - 1]) + r[|r| - 1].count
  }

  /** Sum over the keys `ks` of the number of sessions of that specialty. */
  function CountsOver(ss: seq<Session>, ks: seq<string>): nat
  {
    if |ks| == 0 then 0 else CountsOver(ss, ks[..|ks| - 1]) + CountFor(ss, ks[|ks| - 1])
  }

  /** How many of `ks` equal `k`: one or none when `ks` has no repeats. */
  lemma {:induction false} CountsOverSnoc(ss: seq<Session>, x: Session, ks: seq<string>)
    requires NoDuplicates(ks)
    ensures CountsOver(ss + [x], ks) == CountsOver(ss, ks) + (if x.specialty in ks then 1 else 0)
  {
    var ss' := ss + [x];
    assert ss'[..|ss'| - 1] == ss;
    if |ks| > 0 {
      var init := ks[..|ks| - 1];
      CountsOverSnoc(ss, x, init);
      assert x.specialty in ks <==> x.specialty in init || x.specialty == ks[|ks| - 1];
      if x.specialty == ks[|ks| - 1] {
        assert x.specialty !in init;
      }
    }
  }

  lemma CountsOverAppendKey(ss: seq<Session>, ks: seq<string>, k: string)
    ensures CountsOver(ss, ks + [k]) == CountsOver(ss, ks) + CountFor(ss, k)
  {
    assert (ks + [k])[..|ks + [k]| - 1] == ks;
  }

  /** Every session is counted under exactly one specialty. */
  lemma {:induction false} CountsCoverAllSessions(ss: seq<Session>)
    ensures CountsOver(ss, Profile.UniqueSpecialties(ss)) == |ss|
  {
    if |ss| > 0 {
      var init := ss[..|ss| - 1];
      var x := ss[|ss| - 1];
      assert ss == init + [x];
      assert Profile.Specialties(ss) == Profile.Specialties(init) + [x.specialty];
      CountsCoverAllSessions(init);
      var keys := Profile.UniqueSpecialties(init);
      CountsOverSnoc(init, x, keys);
      DedupSnoc(Profile.Specialties(init), x.specialty);
      if x.specialty !in keys {
        CountsOverAppendKey(ss, keys, x.specialty);
        CountForAbsent(init, x.specialty);
      }
    }
  }

  /** The dictionary `scores` holds, for each of its keys, that specialty's
      running total and count over `done`; `keys` lists its keys in the order
      they were first added. */
  ghost predicate TalliesOf(done: seq<Session>, scores: map<string, Tally>, keys: seq<string>)
  {
    && keys == Profile.UniqueSpecialties(done)
    && (forall k :: k in scores <==> k in keys)
    && (forall k :: k in scores ==> scores[k] == Tally(TotalFor(done, k), CountFor(done, k)))
  }

  /** The `forEach` loop: create a specialty's entry when it is first seen,
      then add the session's score-or-0 and one to its count. */
  method TallyBySpecialty(ss: seq<Session>) returns (scores: map<string, Tally>, keys: seq<string>)
    ensures TalliesOf(ss, scores, keys)
  {
    scores := map[];
    keys := [];
    var i := 0;
    while i < |ss|
      invariant 0 <= i <= |ss|
      invariant TalliesOf(ss[..i], scores, keys)
    {
      var s := ss[i];
      scores, keys := AddSession(ss[..i], s, scores, keys);
      assert ss[..i + 1] == ss[..i] + [s];
      i := i + 1;
    }
    assert ss[..i] == ss;
  }

  /** The body of the `forEach` loop for one session `s`. */
  method AddSession(done: seq<Session>, s: Session, scores: map<string, Tally>, keys: seq<string>)
    returns (scores': map<string, Tally>, keys': seq<string>)
    requires TalliesOf(done, scores, keys)
    ensures TalliesOf(done + [s], scores', keys')
  {
    scores', keys' := scores, keys;
    if s.specialty !in scores' {
      TallyAdvanceNew(done, s, scores, keys);
      scores' := scores'[s.specialty := Tally(0, 0)];
      keys' := keys' + [s.specialty];
    } else {
      TallyAdvanceKnown(done, s, scores, keys);
    }
    var t := scores'[s.specialty];
    scores' := scores'[s.specialty := Tally(t.totalScore + Profile.ScoreOrZero(s.score), t.count + 1)];
  }

  /** A session of a specialty not seen before: its entry opens at zero and
      its key joins the end of the order. */
  lemma TallyAdvanceNew(done: seq<Session>, s: Session, scores: map<string, Tally>, keys: seq<string>)
    requires TalliesOf(done, scores, keys)
    requires s.specialty !in scores
    ensures var started := scores[s.specialty := Tally(0, 0)];
            var t := started[s.specialty];
            TalliesOf(done + [s], started[s.specialty := Tally(t.totalScore + Profile.ScoreOrZero(s.score), t.count + 1)],
                      keys + [s.specialty])
  {
    UniqueSpecialtiesSnoc(done, s);
    CountForAbsent(done, s.specialty);
    TotalForAbsent(done, s.specialty);
    TallyValuesAdvance(done, s, scores[s.specialty := Tally(0, 0)], Tally(0, 0));
  }

  /** A session of a specialty already seen: only that key's tally changes. */
  lemma TallyAdvanceKnown(done: seq<Session>, s: Session, scores: map<string, Tally>, keys: seq<string>)
    requires TalliesOf(done, scores, keys)
    requires s.specialty in scores
    ensures var t := scores[s.specialty];
            TalliesOf(done + [s], scores[s.specialty := Tally(t.totalScore + Profile.ScoreOrZero(s.score), t.count + 1)], keys)
  {
    var t := scores[s.specialty];
    var scores' := scores[s.specialty := Tally(t.totalScore + Profile.ScoreOrZero(s.score), t.count + 1)];
    assert s.specialty in keys;
    KnownSpecialtyKeepsOrder(done, s, keys);
    TallyValuesAdvance(done, s, scores, t);
    assert forall k :: k in scores' <==> k in keys;
  }

  lemma KnownSpecialtyKeepsOrder(done: seq<Session>, s: Session, keys: seq<string>)
    requires keys == Profile.UniqueSpecialties(done)
    requires s.specialty in keys
    ensures keys == Profile.UniqueSpecialties(done + [s])
  {
    UniqueSpecialtiesSnoc(done, s);
  }

  /** Adding `s` to its specialty's tally `base` keeps every tally equal to
      the totals and counts over the sessions seen. */
  lemma TallyValuesAdvance(done: seq<Session>, s: Session, scores: map<string, Tally>, base: Tally)
    requires forall k :: k in scores ==> scores[k] == Tally(TotalFor(done, k), CountFor(done, k))
    requires base == Tally(TotalFor(done, s.specialty), CountFor(done, s.specialty))
    ensures var scores' := scores[s.specialty := Tally(base.totalScore + Profile.ScoreOrZero(s.score), base.count + 1)];
            forall k :: k in scores' ==> scores'[k] == Tally(TotalFor(done + [s], k), CountFor(done + [s], k))
  {
    var scores' := scores[s.specialty := Tally(base.totalScore + Profile.ScoreOrZero(s.score), base.count + 1)];
    forall k | k in scores' ensures scores'[k] == Tally(TotalFor(done + [s], k), CountFor(done + [s], k)) {
      TalliesSnoc(done, s, k);
    }
  }

  /** A new specialty joins the end of the key order; a known one changes nothing. */
  lemma UniqueSpecialtiesSnoc(done: seq<Session>, s: Session)
    ensures Profile.UniqueSpecialties(done + [s]) ==
            if s.specialty in Profile.Specialties(done) then Profile.UniqueSpecialties(done)
            else Profile.UniqueSpecialties(done) + [s.specialty]
  {
    assert (done + [s])[..|done|] == done;
    assert Profile.Specialties(done + [s]) == Profile.Specialties(done) + [s.specialty];
    DedupSnoc(Profile.Specialties(done), s.specialty);
  }

  /** One more session adds its score-or-0 and one to its own specialty only. */
  lemma TalliesSnoc(done: seq<Session>, s: Session, k: string)
    ensures TotalFor(done + [s], k) == TotalFor(done, k) + (if s.specialty == k then Profile.ScoreOrZero(s.score) else 0)
    ensures CountFor(done + [s], k) == CountFor(done, k) + (if s.specialty == k then 1 else 0)
  {
    assert (done + [s])[..|done|] == done;
  }

  lemma {:induction false} TotalForAbsent(ss: seq<Session>, k: string)
    requires k !in Profile.Specialties(ss)
    ensures TotalFor(ss, k) == 0
  {
    if |ss| > 0 {
      var init := ss[..|ss| - 1];
      assert Profile.Specialties(ss) == Profile.Specialties(init) + [ss[|ss| - 1].specialty];
      TotalForAbsent(init, k);
    }
  }

  /** `Object.entries(specialtyScores).map(...)`: one entry per key, in key order. */
  method Entries(ss: seq<Session>, scores: map<string, Tally>, keys: seq<string>) returns (r: seq<SpecialtyScore>)
    requires forall k :: k in keys ==> k in scores && scores[k] == Tally(TotalFor(ss, k), CountFor(ss, k))
    ensures |r| == |keys|
    ensures forall m :: 0 <= m < |r| ==> r[m] == SpecialtyScore(keys[m], TotalFor(ss, keys[m]), CountFor(ss, keys[m]))
    ensures CountSum(r) == CountsOver(ss, keys)
  {
    r := [];
    var j := 0;
    while j < |keys|
      invariant 0 <= j <= |keys|
      invariant |r| == j
      invariant forall m :: 0 <= m < j ==> r[m] == SpecialtyScore(keys[m], TotalFor(ss, keys[m]), CountFor(ss, keys[m]))
      invariant CountSum(r) == CountsOver(ss, keys[..j])
    {
      var k := keys[j];
      var entry := SpecialtyScore(k, scores[k].totalScore, scores[k].count);
      CountsOverAppendKey(ss, keys[..j], k);
      CountSumSnoc(r, entry);
      assert keys[..j + 1] == keys[..j] + [k];
      r := r + [entry];
      j := j + 1;
    }
    assert keys[..j] == keys;
  }

  lemma CountSumSnoc(r: seq<SpecialtyScore>, e: SpecialtyScore)
    ensures CountSum(r + [e]) == CountSum(r) + e.count
  {
    assert (r + [e])[..|r|] == r;
  }

  /** `specialtyScoreData`, before each average is rounded: nothing for no
      sessions, otherwise one entry per distinct specialty in order of first
      occurrence, with that specialty's score total and session count. */
  method SpecialtyScoreData(ss: seq<Session>) returns (r: seq<SpecialtyScore>)
    ensures |r| == 0 <==> |ss| == 0
    ensures |r| == |Profile.UniqueSpecialties(ss)|
    ensures forall i :: 0 <= i < |r| ==> r[i].specialty == Profile.UniqueSpecialties(ss)[i]
    ensures forall i :: 0 <= i < |r| ==>
              r[i].totalScore == TotalFor(ss, r[i].specialty) && r[i].count == CountFor(ss, r[i].specialty)
    ensures CountSum(r) == |ss|
  {
    if |ss| == 0 {
      return [];
    }
    var scores, keys := TallyBySpecialty(ss);
    r := Entries(ss, scores, keys);
    CountsCoverAllSessions(ss);
    DedupEmpty(Profile.Specialties(ss));
  }

  // ---------------------------------------------------------------------
  // The session history table.

  /** The rows of the history table: the first at most five sessions. */
  function HistoryRows(ss: seq<Session>): (r: seq<Session>)
    ensures r <= ss
    ensures |r| == if |ss| < 5 then |ss| else 5
    ensures |ss| <= 5 ==> r == ss
  {
    Take(ss, 5)
  }

  datatype BadgeVariant = Default | Secondary | Destructive

  /** JavaScript truthiness of an optional number: present and not zero. */
  predicate Truthy(score: Option<int>)
  {
    score.Some? && score.value != 0
  }

  /** The score badge: `score && score >= 7 ? 'default' : score && score >= 4 ? 'secondary' : 'destructive'`. */
  function ScoreBadge(score: Option<int>): (r: BadgeVariant)
    ensures r == Default <==> score.Some? && score.value >= 7
    ensures r == Secondary <==> score.Some? && 4 <= score.value < 7
    ensures r == Destructive <==> score.None? || score.value < 4
  {
    if Truthy(score) && score.value >= 7 then Default
    else if Truthy(score) && score.value >= 4 then Secondary
    else Destructive
  }

  function BadgeRank(b: BadgeVariant): nat
  {
    match b
    case Destructive => 0
    case Secondary => 1
    case Default => 2
  }

  /** A higher score never gets a lower badge. */
  lemma ScoreBadgeMonotone(a: int, b: int)
    requires a <= b
    ensures BadgeRank(ScoreBadge(Some(a))) <= BadgeRank(ScoreBadge(Some(b)))
  {
  }
}
