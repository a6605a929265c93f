/** The server actions: the only entry points the pages call to reach the
    three generation flows. A flow is an oracle from its input to either its
    validated output or the error it throws; prompts, the model call and
    output-schema validation all happen inside it. */
module Actions {
  import opened Wrappers

  datatype QuestionsInput = QuestionsInput(
    role: string, experienceLevel: string, specialty: string, topic: string, targetCompany: Option<string>)
  datatype QuestionsOutput = QuestionsOutput(questions: seq<string>)

  datatype FeedbackInput = FeedbackInput(
    interviewTranscript: string, userRole: string, experienceLevel: string,
    technicalSpecialty: string, targetCompany: Option<string>)
  /** The flow's output schema. The score's 1 to 10 range is only a hint to
      the model, so nothing here restricts it. */
  datatype FeedbackOutput = FeedbackOutput(
    score: int, strengths: string, weaknesses: string,
    communicationAnalysis: string, improvementTips: string)

  datatype AnswerInput = AnswerInput(jobDescription: string, interviewQuestion: string, experienceLevel: string)
  datatype AnswerOutput = AnswerOutput(answer: string, keyPoints: seq<string>, deliveryTips: string)

  /** Whatever a flow throws: no output from the model, a schema violation,
      a network error. */
  datatype FlowError = FlowError(message: string)

  type QuestionsFlow = QuestionsInput -> Result<QuestionsOutput, FlowError>
  type FeedbackFlow = FeedbackInput -> Result<FeedbackOutput, FlowError>
  type AnswerFlow = AnswerInput -> Result<AnswerOutput, FlowError>

  const FallbackQuestion1: string := "Tell me about a challenging project you worked on."
  const FallbackQuestion2: string := "Explain a complex technical concept to a non-technical person."
  const FallbackQuestion3: string := "How do you handle disagreements with your team members?"
  const FallbackQuestion4: string := "Where do you see yourself in 5 years?"
  const FallbackQuestion5: string := "What are your salary expectations?"

  /** The questions returned when generation fails. */
  const FallbackQuestions: QuestionsOutput :=
    QuestionsOutput([FallbackQuestion1, FallbackQuestion2, FallbackQuestion3, FallbackQuestion4, FallbackQuestion5])

  const FallbackStrengths: string := "Good effort on the interview. You showed a willingness to tackle tough questions."
  const FallbackWeaknesses: string := "Some answers could have been more structured. It seems there are some gaps in foundational knowledge in certain areas."
  const FallbackCommunication: string := "Communication was generally clear, but sometimes you seemed unsure. Try to project more confidence in your answers."
  const FallbackTips: string := "1. Review the fundamentals of your specialty. 2. Practice explaining your thought process out loud. 3. Use the STAR method for behavioral questions."

  /** The neutral evaluation returned when generation fails. */
  const FallbackFeedback: FeedbackOutput :=
    FeedbackOutput(5, FallbackStrengths, FallbackWeaknesses, FallbackCommunication, FallbackTips)

  /** `getInterviewQuestionsAction`: the flow's questions, or the five fixed
      questions when the flow throws. */
  function GetInterviewQuestionsAction(flow: QuestionsFlow, input: QuestionsInput): (r: QuestionsOutput)
    ensures flow(input).Success? ==> r == flow(input).value
    ensures flow(input).Failure? ==> r == FallbackQuestions
    ensures flow(input).Failure? ==> |r.questions| == 5 && r.questions[0] == FallbackQuestion1 && r.questions[4] == FallbackQuestion5
  {
    match flow(input)
    case Success(result) => result
    case Failure(_) => FallbackQuestions
  }

  /** `getPersonalizedFeedbackAction`: the flow's evaluation, or the fixed
      score-5 evaluation when the flow throws. */
  function GetPersonalizedFeedbackAction(flow: FeedbackFlow, input: FeedbackInput): (r: FeedbackOutput)
    ensures flow(input).Success? ==> r == flow(input).value
    ensures flow(input).Failure? ==> r == FallbackFeedback && r.score == 5
  {
    match flow(input)
    case Success(result) => result
    case Failure(_) => FallbackFeedback
  }

  /** `getInterviewAnswerAction`: no fallback, so a failure reaches the caller. */
  function GetInterviewAnswerAction(flow: AnswerFlow, input: AnswerInput): (r: Result<AnswerOutput, FlowError>)
    ensures r.Failure? <==> flow(input).Failure?
    ensures r.Success? ==> r.value == flow(input).value
    ensures r.Failure? ==> r.error == flow(input).error
  {
    var result := flow(input);
    result
  }

  /** The questions fallback does not depend on the flow, the input or the error. */
  lemma QuestionsFallbackIsFixed(f1: QuestionsFlow, i1: QuestionsInput, f2: QuestionsFlow, i2: QuestionsInput)
    requires f1(i1).Failure? && f2(i2).Failure?
    ensures GetInterviewQuestionsAction(f1, i1) == GetInterviewQuestionsAction(f2, i2)
  {
  }

  /** The feedback fallback does not depend on the flow, the input or the error. */
  lemma FeedbackFallbackIsFixed(f1: FeedbackFlow, i1: FeedbackInput, f2: FeedbackFlow, i2: FeedbackInput)
    requires f1(i1).Failure? && f2(i2).Failure?
    ensures GetPersonalizedFeedbackAction(f1, i1) == GetPersonalizedFeedbackAction(f2, i2)
  {
  }
}
