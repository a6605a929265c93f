/** The records of the session store: interview sessions, their feedback and
    the transcript a feedback carries. Dates and timestamps are epoch
    milliseconds; an ISO-8601 date string is represented by its instant. */
module Types {
  import opened Wrappers

  datatype ItemKind = Question | Answer

  /** One line of an interview dialogue. */
  datatype TranscriptItem = TranscriptItem(kind: ItemKind, content: string, timestamp: int)

  /** A completed interview, with its score when one was given. */
  datatype Session = Session(id: string, role: string, specialty: string, date: int, score: Option<int>)

  /** A session before the store has given it an id (`Omit<InterviewSession, 'id'>`). */
  datatype SessionDraft = SessionDraft(role: string, specialty: string, date: int, score: Option<int>)

  /** The evaluation of one session, joined to it by `sessionId`. */
  datatype Feedback = Feedback(
    id: string,
    sessionId: string,
    score: int,
    strengths: string,
    weaknesses: string,
    improvementTips: string,
    transcript: seq<TranscriptItem>)

  /** `{...draft, id}`: every field of the draft, and the given id. */
  function WithId(draft: SessionDraft, id: string): (s: Session)
    ensures s.id == id
    ensures s.role == draft.role && s.specialty == draft.specialty
    ensures s.date == draft.date && s.score == draft.score
  {
    Session(id, draft.role, draft.specialty, draft.date, draft.score)
  }
}
