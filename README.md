# Mockview AI interview practice: the session store, actions and derived figures

This project models the core of a mock-interview web application in Dafny
and proves properties of that model:

- **The session store** (`src/lib/data.ts`) keeps three built-in seed
  sessions, each with a seed feedback record. It also keeps two local-storage
  buckets, one of saved sessions and one of feedback records keyed by session
  id. `getSessions`, `getSession` and `getFeedback` read the store, and
  `saveSession` appends a session and files a feedback shell for it.
  - Modules: `SeedData` (the seeds, dated from the moment `loadTime` the data
    module was loaded) and `SessionStore` (the class `Store`, whose fields are
    the two buckets).
- **The server actions** (`src/app/actions.ts`) wrap the three generation
  flows. Two of them replace a failure with a fixed fallback; the third passes
  the failure on.
  - Module: `Actions`. Each flow is a function from its input to
    `Result<output, FlowError>`.
- **The profile figures** (`src/app/profile/page.tsx`): the interview count,
  the average and best score, the distinct specialties, the specialty chips
  and the "First Interview" achievement.
  - Module: `Profile`, with `Sequences` for the order-keeping de-duplication
    that `[...new Set(...)]` performs.
- **The dashboard figures** (`src/app/dashboard/page.tsx`): the stable
  newest-first sort on the loaded array, the ten-point score chart window, the
  per-specialty totals and counts, the five-row history table and the score
  badge.
  - Module: `Dashboard`. The sort is an in-place insertion sort on an `array`,
    proved equal to a functional insertion sort that is proved sorted, a
    permutation and stable. The `forEach` aggregation is a loop over a map
    together with the order in which its keys were added.
- **The Answer Buddy form** (`src/components/AnswerBuddyForm.tsx`): its
  validation rules, the trial gate, and the trials-used counter it writes to
  storage.
  - Module: `AnswerBuddy`, the class `AnswerBuddyForm`.
- **The sign-up page** (`src/app/signup/page.tsx`): its validation rules, the
  mapping from an authentication error code to a field and a message, and the
  notices and redirect of a submission.
  - Module: `SignUp`, the class `SignUpPage`.

Shared modules:

- `Wrappers`: `Option` and `Result`.
- `Types`: the session, feedback and transcript records.
- `Decimal`: decimal rendering of numbers, as used for `${Date.now()}` and
  `.toString()`, proved injective.

Conventions:

- **Time, dates and scores.** Dates and timestamps are epoch milliseconds
  (`int`). Scores are integers.
- **Outside inputs as parameters.** These values become parameters:
  - each reading of `Date.now()` in `saveSession` is supplied as a `nat`;
  - whether a user is signed in;
  - what each authentication call did;
  - the email check of the validation library.

Facts about the code that the model states as they are:

- **Session ids are not unique.** `saveSession` builds the id from the
  millisecond clock (`src/lib/data.ts:87`), so two saves in one millisecond
  share an id. Clock readings 1, 2 and 3 give the seed ids
  (`SessionStore.SessionIdAtAvoidsSeeds`).
  `SessionStore.SameMillisecondSaves` shows what follows:
  - both sessions are listed;
  - a lookup finds the first;
  - the feedback entry is the second's.
- **Order of `getSessions`.** The code returns the seeds and then the saved
  sessions in storage order (`src/lib/data.ts:60`), and `Store.GetSessions`
  states exactly that.
- **Feedback score range.** The feedback flow's output schema only asks for
  a score from 1 to 10 (`src/ai/flows/provide-personalized-feedback.ts:18`).
  Nothing checks it. `Actions.GetPersonalizedFeedbackAction` passes a
  successful score on unchanged, and only the fallback is fixed (at 5).
- **Score of a new session.** `saveSession` copies whatever score the
  caller's draft carries (`{...session, id}`, `src/lib/data.ts:89-92`), and so
  does `Types.WithId`. The feedback shell it files has score 0.

## Model

| member | source | states |
|---|---|---|
| SeedData.SeedSessions | src/lib/data.ts:10-14 | exactly three seed sessions; ids, roles, specialties and scores 8, 6, 9 as in the seed array, dated at load time, one day earlier and two days earlier |
| SeedData.SeedFeedbacks | src/lib/data.ts:16-55 | three seed feedback records, in key order |
| SeedData.SeedFeedbackSessionIds | src/lib/data.ts:16-55 | seed feedback record i belongs to seed session i |
| SessionStore.FindSession | src/lib/data.ts:66 | `find` by id: none exactly when no session has the id; otherwise a session with that id, and the first such in the list |
| SessionStore.FindSessionConcat | src/lib/data.ts:60-66 | a search of the seeds followed by the saved sessions finds among the seeds when it can, and only otherwise among the saved ones |
| SessionStore.FindSeedFeedback | src/lib/data.ts:71-73 | the key search over the seed record: none exactly when no record has that sessionId; otherwise a record of the set with that sessionId |
| SessionStore.FindFeedbackOfSessions | src/lib/data.ts:69-74 | when record i belongs to session i, a record is found for an id exactly when the id is one of those sessions' ids |
| SessionStore.SeedFeedbackMatchesSeedSessions | src/lib/data.ts:10-74 | seed feedback exists for an id exactly when it is a seed session id |
| SessionStore.SessionIdAt | src/lib/data.ts:87 | the session id is "session-" followed by the clock reading |
| SessionStore.FeedbackShell | src/lib/data.ts:94-102 | the shell belongs to the given session, carries the whole transcript, has score 0 and empty texts, and its id is "feedback-" followed by the clock reading |
| Types.WithId | src/lib/data.ts:89-92 | `{...session, id}`: the given id, and role, specialty, date and score copied from the draft |
| SessionStore.SessionIdAtInjective | src/lib/data.ts:87 | different clock readings give different session ids |
| SessionStore.SessionIdAtAvoidsSeeds | src/lib/data.ts:87 | a generated id equals a seed id exactly when the clock reads 1, 2 or 3 |
| SessionStore.Store.constructor | src/lib/data.ts:3-55 | the store over the given buckets, with the seed feedback of the load time; seeds consistent; with empty buckets the store invariant holds |
| SessionStore.Store.GetSessions | src/lib/data.ts:57-62 | the three seeds, then every saved session in storage order; just the seeds when nothing is saved; reads only, so repeated calls agree |
| SessionStore.Store.GetSession | src/lib/data.ts:64-67 | none exactly when neither seeds nor saved sessions have the id; a seed id is answered from the seeds, any other from the saved sessions; a result has the id and is listed by GetSessions |
| SessionStore.Store.GetFeedback | src/lib/data.ts:69-84 | seed feedback for the session wins; otherwise the saved entry under that key, none when absent (inherited object keys aside, see below); under the invariant, feedback exists exactly when the session does, and belongs to it |
| SessionStore.Store.SaveSession | src/lib/data.ts:86-117 | returns "session-"+clock; appends exactly the draft with that id and changes no earlier session; writes the shell (score 0, empty texts, the transcript unchanged) under that id and changes no other key; keeps the invariant; for a fresh id, GetSession and GetFeedback return the new session and its shell |
| SessionStore.SameMillisecondSaves | src/lib/data.ts:86-117 | two saves with one clock reading list two sessions under one id; the lookup finds the first and the feedback is the second's shell |
| Decimal.NatToString | src/lib/data.ts:87 | the decimal rendering: non-empty, digits only, one digit exactly below 10, last digit the value mod 10 |
| Decimal.IntToString | src/components/AnswerBuddyForm.tsx:60 | non-empty; starts with '-' exactly for negative values |
| Decimal.NatToStringInjective | src/lib/data.ts:87 | equal renderings come from equal numbers |
| Decimal.IntToStringInjective | src/components/AnswerBuddyForm.tsx:60 | equal renderings come from equal numbers, signs included |
| Actions.GetInterviewQuestionsAction | src/app/actions.ts:11-27 | the flow's result unchanged on success; on failure the fixed list of exactly five questions |
| Actions.QuestionsFallbackIsFixed | src/app/actions.ts:15-25 | the questions fallback is the same whatever the flow, the input or the error |
| Actions.GetPersonalizedFeedbackAction | src/app/actions.ts:29-45 | the flow's evaluation unchanged on success; on failure the fixed evaluation with score 5 |
| Actions.FeedbackFallbackIsFixed | src/app/actions.ts:33-44 | the feedback fallback is the same whatever the flow, the input or the error |
| Actions.GetInterviewAnswerAction | src/app/actions.ts:47-50 | no fallback: fails exactly when the flow fails, with its error; otherwise the flow's answer |
| Sequences.Dedup | src/app/profile/page.tsx:41 | `[...new Set(s)]`: the same elements, none repeated, no longer than the input |
| Sequences.DedupFirstOccurrenceOrder | src/app/profile/page.tsx:41 | the de-duplicated elements are in order of first occurrence |
| Sequences.Take | src/app/dashboard/page.tsx:210 | `slice(0, n)`: a prefix of length min(n, length) |
| Profile.ScoreOrZero | src/app/profile/page.tsx:34 | `score \|\| 0`: the score when present, 0 when missing |
| Profile.TotalInterviews | src/app/profile/page.tsx:32 | the number of sessions |
| Profile.ScoreSum | src/app/profile/page.tsx:34 | the left-to-right sum of score-or-0; 0 when no session has a score |
| Profile.ScoreSumAppend | src/app/profile/page.tsx:34 | the score sum of a concatenation is the sum of the parts' sums |
| Profile.AverageScore | src/app/profile/page.tsx:33-35 | 0 with no sessions; otherwise average times count equals the score sum |
| Profile.MaxScore | src/app/profile/page.tsx:38 | at least every session's score-or-0, and equal to one of them |
| Profile.BestScore | src/app/profile/page.tsx:37-39 | 0 with no sessions; otherwise the largest score-or-0 |
| Profile.ScoreSumAtMost | src/app/profile/page.tsx:34 | a bound on every score bounds the sum by count times bound |
| Profile.AverageAtMostBest | src/app/profile/page.tsx:33-39 | the average score never exceeds the best score |
| Profile.Specialties | src/app/profile/page.tsx:41 | one specialty per session, position by position |
| Profile.UniqueSpecialties | src/app/profile/page.tsx:41 | `[...new Set(specialties)]`: no more entries than sessions, and empty exactly when there are none (its members, uniqueness and order are stated by UniqueSpecialtiesSpec) |
| Profile.UniqueSpecialtiesSpec | src/app/profile/page.tsx:41 | every practised specialty appears, exactly the practised ones, each once, in order of first occurrence |
| Profile.SpecialtyChips | src/app/profile/page.tsx:141 | the chips are the first min(5, count) distinct specialties, all of them when there are at most five |
| Profile.FirstInterviewUnlocked | src/app/profile/page.tsx:159 | lit exactly when there is a session, and exactly when some specialty was practised |
| Dashboard.InsertByDate | src/app/dashboard/page.tsx:61 | one insertion step of the ordering: one element longer |
| Dashboard.NewestFirst | src/app/dashboard/page.tsx:61 | the sorted list has the input's length |
| Dashboard.InsertByDatePermutes | src/app/dashboard/page.tsx:61 | an insertion adds exactly the new element |
| Dashboard.InsertByDateOrdered | src/app/dashboard/page.tsx:61 | inserting into a newest-first list keeps it newest first |
| Dashboard.NewestFirstIsSortedPermutation | src/app/dashboard/page.tsx:61 | the sort result is newest first and a permutation of the input |
| Dashboard.InsertByDateStable | src/app/dashboard/page.tsx:61 | an insertion keeps the relative order of equal dates |
| Dashboard.NewestFirstIsStable | src/app/dashboard/page.tsx:61 | sessions with the same date keep their relative order (the sort is stable) |
| Dashboard.NewestFirstOfOrdered | src/app/dashboard/page.tsx:61 | a list already newest first is left unchanged |
| Dashboard.SeedsAlreadyNewestFirst | src/app/dashboard/page.tsx:60-61 | sorting the seed array itself leaves it unchanged |
| Dashboard.NewestFirstPrefix | src/app/dashboard/page.tsx:61 | sorting one more element is one more insertion |
| Dashboard.InsertByDateAt | src/app/dashboard/page.tsx:61 | the insertion point is after the sessions at least as new and before the strictly older tail |
| Dashboard.ShiftOlder | src/app/dashboard/page.tsx:61 | the shifting loop moves every strictly older prefix element one place right and stops at the insertion gap, changing nothing else |
| Dashboard.InsertIntoPrefix | src/app/dashboard/page.tsx:61 | one in-place insertion step equals the functional insertion; the rest of the array is unchanged |
| Dashboard.SortNewestFirst | src/app/dashboard/page.tsx:61 | the array is sorted in place into exactly the stable newest-first order of its old contents |
| Dashboard.Points | src/app/dashboard/page.tsx:67-71 | one point per session, with its date and score, position by position |
| Dashboard.Reverse | src/app/dashboard/page.tsx:72 | same length, element k is element length-1-k of the input |
| Dashboard.ScoreChartData | src/app/dashboard/page.tsx:67-72 | empty with no sessions; min(10, count) points; point k is session count'-1-k, the window reversed |
| Dashboard.ChartRunsOldestToNewest | src/app/dashboard/page.tsx:67-72 | over a newest-first list the chart runs oldest to newest and shows the newest ten sessions |
| Dashboard.CountsOverSnoc | src/app/dashboard/page.tsx:78-84 | one more session adds one to the count over distinct keys exactly when its specialty is among them |
| Dashboard.CountsCoverAllSessions | src/app/dashboard/page.tsx:77-84 | the counts over the distinct specialties add up to the number of sessions |
| Dashboard.TallyBySpecialty | src/app/dashboard/page.tsx:77-84 | after the loop each key holds its specialty's score-or-0 total and session count, and the keys were added in order of first occurrence |
| Dashboard.AddSession | src/app/dashboard/page.tsx:79-83 | one loop iteration keeps the tallies equal to the totals and counts over the sessions seen |
| Dashboard.TallyAdvanceNew | src/app/dashboard/page.tsx:79-83 | a new specialty's entry opens at zero, receives the session, and its key joins the end |
| Dashboard.TallyAdvanceKnown | src/app/dashboard/page.tsx:82-83 | a known specialty's tally alone grows by the session's score-or-0 and one |
| Dashboard.TallyValuesAdvance | src/app/dashboard/page.tsx:82-83 | adding a session to its own tally keeps every tally equal to the totals and counts over the sessions seen |
| Dashboard.UniqueSpecialtiesSnoc | src/app/dashboard/page.tsx:79-81 | a new specialty joins the end of the key order; a known one leaves it unchanged |
| Dashboard.TalliesSnoc | src/app/dashboard/page.tsx:82-83 | one more session changes only its own specialty's total and count |
| Dashboard.CountForAbsent | src/app/dashboard/page.tsx:79-80 | a specialty not yet seen has count 0 |
| Dashboard.TotalForAbsent | src/app/dashboard/page.tsx:79-80 | a specialty not yet seen has total 0 |
| Dashboard.Entries | src/app/dashboard/page.tsx:86-89 | one entry per key, in key order, with that key's total and count; the counts add up to the counts over the keys |
| Dashboard.SpecialtyScoreData | src/app/dashboard/page.tsx:74-90 | empty exactly with no sessions; one entry per distinct specialty in order of first occurrence, each with its score total and session count; the counts add up to the number of sessions |
| Dashboard.HistoryRows | src/app/dashboard/page.tsx:210 | the first min(5, count) sessions of the list, all of them when there are at most five |
| Dashboard.ScoreBadge | src/app/dashboard/page.tsx:218 | default exactly for a score of at least 7, secondary exactly for 4 to 6, destructive exactly for a missing score or one below 4 (0 included) |
| Dashboard.ScoreBadgeMonotone | src/app/dashboard/page.tsx:218 | a higher score never gets a lower badge |
| AnswerBuddy.ValidateAnswerForm | src/components/AnswerBuddyForm.tsx:27-31 | valid exactly when the job description has at least 50 characters, the question at least 10, and a level is picked; a valid form becomes the answer input; for an invalid one each rule's message is reported exactly when that rule is broken, and nothing else |
| AnswerBuddy.TrialsExhausted | src/components/AnswerBuddyForm.tsx:49 | an absent trial count never blocks; a present one blocks exactly when it is at most 0 |
| AnswerBuddy.TrialsUsedAfter | src/components/AnswerBuddyForm.tsx:58-60 | the counter text `(3 - (trialsLeft - 1))`, negative exactly when more than four trials were left |
| AnswerBuddy.TrialsUsedAfterCountsOneMore | src/components/AnswerBuddyForm.tsx:58-60 | with used of three trials gone, the counter records used + 1 |
| AnswerBuddy.TrialsUsedAfterInjective | src/components/AnswerBuddyForm.tsx:58-60 | different numbers of trials left write different counters |
| AnswerBuddy.AnswerBuddyForm.constructor | src/components/AnswerBuddyForm.tsx:36 | no result shown; the storage entry as found; no trial-end call yet |
| AnswerBuddy.AnswerBuddyForm.OnSubmit | src/components/AnswerBuddyForm.tsx:48-62 | trials left defined and at most 0: one onTrialEnd call, nothing else changes; otherwise the result is cleared, then set to the answer; the counter is written exactly when trials left is defined and no user is signed in; a failing action leaves the result cleared and writes no counter |
| AnswerBuddy.AnswerBuddyForm.HandleSubmit | src/components/AnswerBuddyForm.tsx:27-67 | an invalid form reports its messages and changes nothing; a valid one is submitted as its answer input |
| SignUp.ValidateSignUp | src/app/signup/page.tsx:26-30 | valid exactly when the name has at least 2 characters, the email is accepted and the password has at least 6; each rule's message is reported exactly when that rule is broken |
| SignUp.FailureReport | src/app/signup/page.tsx:73-83 | email-already-in-use and invalid-email set their messages on the email field, weak-password on the password field; any other or no code keeps the generic message and sets no field; a field is set exactly for the three known codes |
| SignUp.SignUpPage.OnSubmit | src/app/signup/page.tsx:57-91 | success of both calls: the welcome notice and one push to /dashboard, no field error; a failure of either: no redirect, one destructive "Sign Up Failed" notice whose description is the chosen message, and that message set on the chosen field |

## Left out

- Rendering: markup, animation, charts and the date labels are presentation.
  The model stops at the data handed to them.
- Floating point: the division in the average, and the `toFixed(1)` and
  `parseFloat` rounding of both averages. `Profile.AverageScore` is the exact
  quotient as a `real`, and `Dashboard.SpecialtyScoreData` returns each
  specialty's total and count instead of a rounded average.
- Date parsing and formatting: an ISO date string is represented by its
  instant in milliseconds. The seed dates are the load time less whole days in
  milliseconds, which ignores daylight-saving changes. The transcript
  timestamps use the same load time.
- Storage encoding: `localStorage` and `JSON.parse`/`JSON.stringify` are
  represented by already-decoded bucket fields. Corrupt stored JSON, which
  would throw, is not modelled. An absent bucket is the same as an empty one.
  For session ids the two are read alike. An inherited object key is the
  exception, see the next line.
- SessionStore.Store.GetFeedback: the saved feedback bucket is a plain
  object, so `feedbacks[sessionId]` finds inherited properties too. With the
  bucket present, an id such as `constructor`, `toString` or `__proto__`
  yields the inherited value, where the model answers `None`. For those ids
  the contract's "feedback exists exactly when the session does" does not hold
  of the program. Ids are route parameters, so a hand-written address can
  reach this.
- SessionStore.Store: the seed array that `getSessions` hands out when
  nothing is saved is the module's own array, so the dashboard's in-place sort
  reorders the seed data itself. The model sorts a separate copy.
  `Dashboard.SeedsAlreadyNewestFirst` shows that this sort changes nothing.
- Dashboard.TallyBySpecialty: a JavaScript object used as a dictionary has
  two details the model leaves out:
  - inherited keys such as `constructor`;
  - integer-like keys listed before other keys.
  The model's dictionary is a map with keys in insertion order. Specialties
  come from a fixed list of names.
- The generation flows, their prompts and the model call are oracles: a
  flow's validated output or its error. The logging of errors is left out.
- Authentication: account creation, the profile update, the signed-in user
  and the redirect plumbing are represented by their outcomes as parameters.
  The email format check of the validation library is the parameter
  `emailWellFormed`. The page's redirect of an already signed-in user is not
  modelled.
- String lengths: the validation rules count UTF-16 code units. The model
  counts Dafny characters, which is the same for text within the Basic
  Multilingual Plane.
- Numbers: scores and trial counts are integers. Fractional scores and
  `NaN` are not modelled. The two clock readings in `saveSession` are
  independent parameters, so nothing assumes that the clock only moves
  forward.
- The promised feedback score range (1–10) and the question/answer
  alternation of transcripts are not modelled. The code never checks either.
- The other UI files (other forms whose schemas are purely declarative,
  settings, learning page, layouts, providers) are not part of this model.
