/** The built-in seed data set: three sessions and their feedback records,
    dated relative to the moment `loadTime` at which the data module was loaded. */
module SeedData {
  import opened Wrappers
  import opened Types

  const DayMs: int := 86400000

  /** The seed sessions, dated today, yesterday and two days before the
      moment `loadTime` at which the module was loaded. */
  function SeedSessions(loadTime: int): (r: seq<Session>)
    ensures |r| == 3
  {
    [ Session("session-1", "Frontend Engineer", "React", loadTime, Some(8)),
      Session("session-2", "Backend Engineer", "Node.js", loadTime - DayMs, Some(6)),
      Session("session-3", "Data Scientist", "Python", loadTime - 2 * DayMs, Some(9)) ]
  }

  /** The seed feedback records, in the key order of the seed record
      (`session-1`, `session-2`, `session-3`); every key is the record's
      own `sessionId`. */
  function SeedFeedbacks(loadTime: int): (r: seq<Feedback>)
    ensures |r| == 3
  {
    [SeedFeedback1(loadTime), SeedFeedback2(loadTime), SeedFeedback3(loadTime)]
  }

  function SeedFeedback1(loadTime: int): Feedback
  {
    Feedback("feedback-1", "session-1", 8, Seed1Strengths, Seed1Weaknesses, Seed1Tips,
      [ TranscriptItem(Question, Seed1Question1, loadTime - 100000),
        TranscriptItem(Answer, Seed1Answer1, loadTime - 80000),
        TranscriptItem(Question, Seed1Question2, loadTime - 60000),
        TranscriptItem(Answer, Seed1Answer2, loadTime - 30000) ])
  }

  function SeedFeedback2(loadTime: int): Feedback
  {
    Feedback("feedback-2", "session-2", 6, Seed2Strengths, Seed2Weaknesses, Seed2Tips,
      [ TranscriptItem(Question, Seed2Question1, loadTime - 100000),
        TranscriptItem(Answer, Seed2Answer1, loadTime - 80000) ])
  }

  function SeedFeedback3(loadTime: int): Feedback
  {
    Feedback("feedback-3", "session-3", 9, Seed3Strengths, Seed3Weaknesses, Seed3Tips,
      [ TranscriptItem(Question, Seed3Question1, loadTime - 100000),
        TranscriptItem(Answer, Seed3Answer1, loadTime - 80000) ])
  }

  // The seed prose. Named constants keep the verifier from expanding
  // these literals where their content does not matter.
  const Seed1Strengths: string := "Excellent problem-solving skills and clear communication. Your explanation of the React component lifecycle was thorough and accurate."
  const Seed1Weaknesses: string := "Could provide more depth on state management solutions for large-scale applications. The answer on testing strategies was a bit generic."
  const Seed1Tips: string := "1. Deep dive into advanced state management libraries like Redux Toolkit or Zustand. 2. Practice writing unit and integration tests for React components. 3. Try to articulate trade-offs when discussing technical choices."
  const Seed1Question1: string := "Can you explain the virtual DOM in React?"
  const Seed1Answer1: string := "The virtual DOM is a programming concept where a virtual representation of a UI is kept in memory and synced with the \"real\" DOM. This reconciliation process is what makes React efficient."
  const Seed1Question2: string := "What are React Hooks?"
  const Seed1Answer2: string := "Hooks are functions that let you \"hook into\" React state and lifecycle features from function components. They allow you to use state and other React features without writing a class."
  const Seed2Strengths: string := "Good understanding of RESTful API principles. Showed ability to write clean, asynchronous code using async/await."
  const Seed2Weaknesses: string := "Struggled with database schema design for a complex scenario. The system design question revealed gaps in understanding scalability."
  const Seed2Tips: string := "1. Review database normalization forms. 2. Study common system design patterns for scaling web services. 3. Practice explaining architectural decisions with clear diagrams and reasoning."
  const Seed2Question1: string := "How would you handle authentication in a Node.js application?"
  const Seed2Answer1: string := "I would use JWTs. After a user logs in, the server would generate a token and send it to the client. The client then sends this token in the Authorization header for subsequent requests."
  const Seed3Strengths: string := "Deep knowledge of machine learning algorithms and statistical concepts. The code written for the data processing task was efficient and well-documented."
  const Seed3Weaknesses: string := "Could be more concise when explaining complex models. A bit of hesitation when discussing deployment and MLOps."
  const Seed3Tips: string := "1. Practice the STAR method to structure your answers. 2. Research common MLOps tools and workflows. 3. Prepare a 1-minute and a 5-minute explanation for your key projects."
  const Seed3Question1: string := "What is the difference between classification and regression?"
  const Seed3Answer1: string := "Classification is for predicting a discrete class label, like \"spam\" or \"not spam\". Regression is for predicting a continuous quantity, like the price of a house."

  /** Seed feedback `i` belongs to seed session `i`. */
  lemma SeedFeedbackSessionIds(loadTime: int)
    ensures forall i :: 0 <= i < 3 ==> SeedFeedbacks(loadTime)[i].sessionId == SeedSessions(loadTime)[i].id
  {
  }
}
