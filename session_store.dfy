/** The session store: persisted sessions and feedback in two local-storage
    buckets, read back together with a built-in seed data set.
    The `mockview-sessions` bucket is the field `sessions`, the
    `mockview-feedbacks` bucket the field `feedbacks`; both hold
    already-decoded values. */
module SessionStore {
  import opened Wrappers
  import opened Types
  import Decimal
  import opened SeedData

  /** The ids of a list of sessions. */
  function SessionIds(ss: seq<Session>): set<string>
  {
    set i | 0 <= i < |ss| :: ss[i].id
  }

  /** `i` is the position of the first session in `ss` whose id is `id`. */
  ghost predicate IsFirstWithId(ss: seq<Session>, i: int, id: string)
  {
    0 <= i < |ss| && ss[i].id == id && forall j :: 0 <= j < i ==> ss[j].id != id
  }

  /** `ss.find(s => s.id === id)`. */
  function FindSession(ss: seq<Session>, id: string): (r: Option<Session>)
    ensures r.None? <==> id !in SessionIds(ss)
    ensures r.Some? ==> r.value.id == id
    ensures r.Some? ==> exists i :: IsFirstWithId(ss, i, id) && ss[i] == r.value
  {
    if |ss| == 0 then None
    else if ss[0].id == id then
      assert IsFirstWithId(ss, 0, id);
      Some(ss[0])
    else
      var r := FindSession(ss[1..], id);
      assert SessionIds(ss) == {ss[0].id} + SessionIds(ss[1..]) by {
        forall x | x in SessionIds(ss) ensures x in {ss[0].id} + SessionIds(ss[1..]) {
          var i :| 0 <= i < |ss| && ss[i].id == x;
          if i > 0 { assert ss[1..][i - 1].id == x; }
        }
      }
      assert r.Some? ==> exists i :: IsFirstWithId(ss, i, id) && ss[i] == r.value by {
        if r.Some? {
          var k :| IsFirstWithId(ss[1..], k, id) && ss[1..][k] == r.value;
          assert IsFirstWithId(ss, k + 1, id);
        }
      }
      r
  }

  /** A search through two lists in turn finds in the first list when it can. */
  lemma {:induction false} FindSessionConcat(a: seq<Session>, b: seq<Session>, id: string)
    ensures FindSession(a + b, id) == if FindSession(a, id).Some? then FindSession(a, id) else FindSession(b, id)
  {
    if |a| > 0 {
      assert (a + b)[1..] == a[1..] + b;
      FindSessionConcat(a[1..], b, id);
    } else {
      assert a + b == b;
    }
  }

  /** `Object.keys(mockFeedbacks).find(key => mockFeedbacks[key].sessionId === sessionId)`,
      answered with the record under the key found. */
  function FindSeedFeedback(fs: seq<Feedback>, sessionId: string): (r: Option<Feedback>)
    ensures r.None? <==> forall i :: 0 <= i < |fs| ==> fs[i].sessionId != sessionId
    ensures r.Some? ==> r.value in fs && r.value.sessionId == sessionId
  {
    if |fs| == 0 then None
    else if fs[0].sessionId == sessionId then Some(fs[0])
    else
      var r := FindSeedFeedback(fs[1..], sessionId);
      assert forall i :: 1 <= i < |fs| ==> fs[i] == fs[1..][i - 1];
      r
  }

  /** The id `saveSession` gives a session saved when the clock read `clock`. */
  function SessionIdAt(clock: nat): (id: string)
    ensures |id| > |"session-"| && id[..|"session-"|] == "session-"
  {
    "session-" + Decimal.NatToString(clock)
  }

  /** The feedback shell `saveSession` writes: no evaluation yet, the full transcript. */
  function FeedbackShell(sessionId: string, clock: nat, transcript: seq<TranscriptItem>): (f: Feedback)
    ensures f.sessionId == sessionId && f.transcript == transcript
    ensures f.score == 0 && f.strengths == "" && f.weaknesses == "" && f.improvementTips == ""
    ensures f.id == "feedback-" + Decimal.NatToString(clock)
  {
    Feedback("feedback-" + Decimal.NatToString(clock), sessionId, 0, "", "", "", transcript)
  }

  /** Distinct clock readings give distinct session ids. */
  lemma SessionIdAtInjective(c1: nat, c2: nat)
    requires SessionIdAt(c1) == SessionIdAt(c2)
    ensures c1 == c2
  {
    Decimal.PrefixedInjective("session-", c1, c2);
  }

  /** A clock reading other than 1, 2 or 3 gives an id that no seed session has;
      readings 1, 2 and 3 give exactly the seed ids. */
  lemma SessionIdAtAvoidsSeeds(clock: nat, loadTime: int)
    ensures SessionIdAt(clock) in SessionIds(SeedSessions(loadTime)) <==> 1 <= clock <= 3
  {
    var seeds := SeedSessions(loadTime);
    assert seeds[0].id == SessionIdAt(1) && seeds[1].id == SessionIdAt(2) && seeds[2].id == SessionIdAt(3);
    if SessionIdAt(clock) in SessionIds(seeds) {
      var i :| 0 <= i < 3 && seeds[i].id == SessionIdAt(clock);
      SessionIdAtInjective(clock, i + 1);
    }
  }

  /** A search of feedback records that belong, position by position, to a
      list of sessions finds one exactly for the ids of those sessions. */
  lemma {:induction false} FindFeedbackOfSessions(fs: seq<Feedback>, ss: seq<Session>, id: string)
    requires |fs| == |ss|
    requires forall i :: 0 <= i < |fs| ==> fs[i].sessionId == ss[i].id
    ensures FindSeedFeedback(fs, id).Some? <==> id in SessionIds(ss)
  {
    if id in SessionIds(ss) {
      var i :| 0 <= i < |ss| && ss[i].id == id;
      assert fs[i].sessionId == id;
    } else {
      forall i | 0 <= i < |fs| ensures fs[i].sessionId != id {
        assert fs[i].sessionId == ss[i].id;
      }
    }
  }

  /** The seed sessions are exactly the sessions that have seed feedback. */
  lemma SeedFeedbackMatchesSeedSessions(loadTime: int, id: string)
    ensures FindSeedFeedback(SeedFeedbacks(loadTime), id).Some? <==> id in SessionIds(SeedSessions(loadTime))
  {
    SeedFeedbackSessionIds(loadTime);
    FindFeedbackOfSessions(SeedFeedbacks(loadTime), SeedSessions(loadTime), id);
  }

  /** Local storage as the two buckets hold it, with the seed data fixed when
      the module was loaded at `loadTime`. */
  class Store {
    const loadTime: int
    /** The seed feedback records, `SeedFeedbacks(loadTime)`. */
    const seedFeedbacks: seq<Feedback>
    var sessions: seq<Session>
    var feedbacks: map<string, Feedback>

    /** The store over whatever the buckets already hold. */
    constructor (loadTime: int, sessions: seq<Session>, feedbacks: map<string, Feedback>)
      ensures this.loadTime == loadTime && this.sessions == sessions && this.feedbacks == feedbacks
      ensures seedFeedbacks == SeedFeedbacks(loadTime)
      ensures SeedsMatch()
      ensures sessions == [] && feedbacks == map[] ==> Valid()
    {
      this.loadTime := loadTime;
      this.seedFeedbacks := SeedFeedbacks(loadTime);
      SeedFeedbackSessionIds(loadTime);
      this.sessions := sessions;
      this.feedbacks := feedbacks;
    }

    /** Seed feedback `i` belongs to seed session `i`. */
    ghost predicate SeedsMatch()
    {
      && |seedFeedbacks| == 3
      && (forall i :: 0 <= i < 3 ==> seedFeedbacks[i].sessionId == SeedSessions(loadTime)[i].id)
    }

    /** The seeds match, and, as only `saveSession` ever writes the buckets,
        every persisted feedback is filed under its own session id and the
        feedback keys are exactly the ids of the persisted sessions. */
    ghost predicate Valid()
      reads this
    {
      && SeedsMatch()
      && (forall k :: k in feedbacks ==> feedbacks[k].sessionId == k)
      && feedbacks.Keys == SessionIds(sessions)
    }

    /** `getSessions()`: the seeds, then every persisted session in storage order. */
    function GetSessions(): (r: seq<Session>)
      reads this
      ensures |r| == 3 + |sessions|
      ensures r[..3] == SeedSessions(loadTime) && r[3..] == sessions
      ensures sessions == [] ==> r == SeedSessions(loadTime)
    {
      SeedSessions(loadTime) + sessions
    }

    /** `getSession(id)`: the first session with that id, seeds searched first. */
    function GetSession(id: string): (r: Option<Session>)
      reads this
      ensures r.None? <==> id !in SessionIds(SeedSessions(loadTime)) && id !in SessionIds(sessions)
      ensures r.Some? ==> r.value.id == id && r.value in GetSessions()
      ensures id in SessionIds(SeedSessions(loadTime)) ==> r == FindSession(SeedSessions(loadTime), id)
      ensures id !in SessionIds(SeedSessions(loadTime)) ==> r == FindSession(sessions, id)
    {
      FindSessionConcat(SeedSessions(loadTime), sessions, id);
      var r := FindSession(GetSessions(), id);
      assert r.Some? ==> r.value in GetSessions() by {
        if r.Some? {
          var i :| IsFirstWithId(GetSessions(), i, id) && GetSessions()[i] == r.value;
        }
      }
      r
    }

    /** `getFeedback(sessionId)`: a seed record for that session wins; otherwise
        the persisted entry under that key, if any. */
    function GetFeedback(sessionId: string): (r: Option<Feedback>)
      reads this
      ensures FindSeedFeedback(seedFeedbacks, sessionId).Some? ==>
                r.Some? && r.value in seedFeedbacks && r.value.sessionId == sessionId
      ensures FindSeedFeedback(seedFeedbacks, sessionId).None? ==>
                (r.Some? <==> sessionId in feedbacks) && (r.Some? ==> r.value == feedbacks[sessionId])
      ensures Valid() ==> (r.Some? <==> GetSession(sessionId).Some?)
      ensures Valid() && r.Some? ==> r.value.sessionId == sessionId
    {
      assert Valid() ==> (FindSeedFeedback(seedFeedbacks, sessionId).Some? <==> sessionId in SessionIds(SeedSessions(loadTime))) by {
        if Valid() {
          FindFeedbackOfSessions(seedFeedbacks, SeedSessions(loadTime), sessionId);
        }
      }
      match FindSeedFeedback(seedFeedbacks, sessionId)
      case Some(f) => Some(f)
      case None => if sessionId in feedbacks then Some(feedbacks[sessionId]) else None
    }

    /** `saveSession(draft, transcript)`. `sessionClock` and `feedbackClock` are
        the two separate readings of the clock, for the session id and for the
        feedback id. The session is appended, the feedback shell is written
        under the session id (replacing any entry already there), and the
        session id is returned. */
    method SaveSession(draft: SessionDraft, transcript: seq<TranscriptItem>, sessionClock: nat, feedbackClock: nat)
      returns (sessionId: string)
      modifies this
      ensures sessionId == SessionIdAt(sessionClock)
      ensures sessions == old(sessions) + [WithId(draft, sessionId)]
      ensures feedbacks == old(feedbacks)[sessionId := FeedbackShell(sessionId, feedbackClock, transcript)]
      ensures old(Valid()) ==> Valid()
      ensures SeedsMatch() && sessionId !in SessionIds(old(GetSessions())) ==>
                GetSession(sessionId) == Some(WithId(draft, sessionId)) &&
                GetFeedback(sessionId) == Some(FeedbackShell(sessionId, feedbackClock, transcript))
    {
      sessionId := SessionIdAt(sessionClock);
      var newSession := WithId(draft, sessionId);
      var newFeedback := FeedbackShell(sessionId, feedbackClock, transcript);
      ghost var before := sessions;
      sessions := sessions + [newSession];
      feedbacks := feedbacks[sessionId := newFeedback];
      SessionIdsConcat(before, [newSession]);
      SessionIdsSingleton(newSession);
      SessionIdsConcat(SeedSessions(loadTime), before);
      if sessionId !in SessionIds(SeedSessions(loadTime) + before) {
        FindSessionConcat(before, [newSession], sessionId);
        if SeedsMatch() {
          FindFeedbackOfSessions(seedFeedbacks, SeedSessions(loadTime), sessionId);
        }
      }
    }
  }

  lemma SessionIdsSingleton(s: Session)
    ensures SessionIds([s]) == {s.id}
  {
    assert [s][0].id == s.id;
  }

  /** The ids of two lists together are the ids of each. */
  lemma SessionIdsConcat(a: seq<Session>, b: seq<Session>)
    ensures SessionIds(a + b) == SessionIds(a) + SessionIds(b)
  {
    forall x | x in SessionIds(a + b) ensures x in SessionIds(a) + SessionIds(b) {
      var i :| 0 <= i < |a + b| && (a + b)[i].id == x;
      if i < |a| { assert a[i].id == x; } else { assert b[i - |a|].id == x; }
    }
    forall x | x in SessionIds(a) + SessionIds(b) ensures x in SessionIds(a + b) {
      if x in SessionIds(a) {
        var i :| 0 <= i < |a| && a[i].id == x;
        assert (a + b)[i].id == x;
      } else {
        var i :| 0 <= i < |b| && b[i].id == x;
        assert (a + b)[|a| + i].id == x;
      }
    }
  }

  /** Two saves in the same millisecond into empty storage: both sessions are
      listed under one id, a lookup by that id finds the first, and the
      feedback entry is the second's shell. */
  method SameMillisecondSaves(store: Store, first: SessionDraft, second: SessionDraft,
                              t1: seq<TranscriptItem>, t2: seq<TranscriptItem>, clock: nat)
    returns (listed: seq<Session>, found: Option<Session>, feedback: Option<Feedback>)
    requires store.SeedsMatch() && store.sessions == [] && store.feedbacks == map[]
    requires clock > 3
    modifies store
    ensures |listed| == 5 && listed[3].id == listed[4].id == SessionIdAt(clock)
    ensures found == Some(WithId(first, SessionIdAt(clock)))
    ensures feedback.Some? && feedback.value.transcript == t2
  {
    var id1 := store.SaveSession(first, t1, clock, clock);
    var id2 := store.SaveSession(second, t2, clock, clock);
    listed := store.GetSessions();
    SessionIdAtAvoidsSeeds(clock, store.loadTime);
    FindSessionConcat([WithId(first, id1)], [WithId(second, id2)], id1);
    assert store.sessions == [WithId(first, id1)] + [WithId(second, id2)];
    found := store.GetSession(id1);
    FindFeedbackOfSessions(store.seedFeedbacks, SeedSessions(store.loadTime), id2);
    feedback := store.GetFeedback(id2);
  }
}
