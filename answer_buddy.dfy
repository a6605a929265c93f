/** The Answer Buddy form: three validated fields, a trial gate for visitors
    who are not signed in, and a trials-used counter kept in local storage. */
module AnswerBuddy {
  import opened Wrappers
  import Decimal
  import opened Actions

  /** The form as filled in; no experience level until one is picked. */
  datatype AnswerFormValues = AnswerFormValues(
    jobDescription: string, interviewQuestion: string, experienceLevel: Option<string>)

  datatype AnswerField = JobDescription | InterviewQuestion | ExperienceLevel

  /** A validation message shown under one field. */
  datatype FieldError = FieldError(field: AnswerField, message: string)

  const JobDescriptionMinLength: nat := 50
  const InterviewQuestionMinLength: nat := 10

  const JobDescriptionMessage: string := "Job description must be at least 50 characters."
  const InterviewQuestionMessage: string := "Interview question must be at least 10 characters."
  const ExperienceLevelMessage: string := "Please select an experience level."

  /** The form schema: every field is checked and every broken rule reported,
      in field order; only a form that breaks none reaches `onSubmit`. */
  function ValidateAnswerForm(values: AnswerFormValues): (r: Result<AnswerInput, seq<FieldError>>)
    ensures r.Success? <==>
              |values.jobDescription| >= JobDescriptionMinLength &&
              |values.interviewQuestion| >= InterviewQuestionMinLength &&
              values.experienceLevel.Some?
    ensures r.Success? ==>
              r.value == AnswerInput(values.jobDescription, values.interviewQuestion, values.experienceLevel.value)
    ensures r.Failure? ==>
              && (FieldError(JobDescription, JobDescriptionMessage) in r.error <==> |values.jobDescription| < JobDescriptionMinLength)
              && (FieldError(InterviewQuestion, InterviewQuestionMessage) in r.error <==> |values.interviewQuestion| < InterviewQuestionMinLength)
              && (FieldError(ExperienceLevel, ExperienceLevelMessage) in r.error <==> values.experienceLevel.None?)
              && |r.error| <= 3
    ensures r.Failure? ==> forall i :: 0 <= i < |r.error| ==>
              r.error[i] in [FieldError(JobDescription, JobDescriptionMessage),
                             FieldError(InterviewQuestion, InterviewQuestionMessage),
                             FieldError(ExperienceLevel, ExperienceLevelMessage)]
  {
    var errors :=
      (if |values.jobDescription| < JobDescriptionMinLength then [FieldError(JobDescription, JobDescriptionMessage)] else []) +
      (if |values.interviewQuestion| < InterviewQuestionMinLength then [FieldError(InterviewQuestion, InterviewQuestionMessage)] else []) +
      (if values.experienceLevel.None? then [FieldError(ExperienceLevel, ExperienceLevelMessage)] else []);
    if |errors| == 0 then
      Success(AnswerInput(values.jobDescription, values.interviewQuestion, values.experienceLevel.value))
    else
      Failure(errors)
  }

  /** The number of trials a visitor has without signing in. */
  const TrialLimit: int := 3

  /** The counter text written after an answer while `trialsLeft` trials were left:
      `(3 - (trialsLeft - 1)).toString()`. */
  function TrialsUsedAfter(trialsLeft: int): (r: string)
    ensures |r| >= 1 && (trialsLeft > TrialLimit + 1 <==> r[0] == '-')
  {
    Decimal.IntToString(TrialLimit - (trialsLeft - 1))
  }

  /** With `trialsLeft` the number of unused trials out of three, the counter
      records one trial more than had been used. */
  lemma TrialsUsedAfterCountsOneMore(used: nat)
    requires used < 3
    ensures TrialsUsedAfter(TrialLimit - used) == Decimal.NatToString(used + 1)
  {
    assert TrialLimit - ((TrialLimit - used) - 1) == used + 1;
  }

  /** Different numbers of trials left are recorded as different counters. */
  lemma TrialsUsedAfterInjective(a: int, b: int)
    requires TrialsUsedAfter(a) == TrialsUsedAfter(b)
    ensures a == b
  {
    var x, y := TrialLimit - (a - 1), TrialLimit - (b - 1);
    assert Decimal.IntToString(x) == Decimal.IntToString(y);
    Decimal.IntToStringInjective(x, y);
  }

  /** The trial gate: only a defined, non-positive number of trials left blocks. */
  predicate TrialsExhausted(trialsLeft: Option<int>): (r: bool)
    ensures trialsLeft.None? ==> !r
    ensures trialsLeft.Some? ==> (r <==> trialsLeft.value <= 0)
  {
    trialsLeft.Some? && trialsLeft.value <= 0
  }

  /** The form component's state: the shown answer, and the
      `mockview-trials-used` storage entry together with the number of times
      the page's `onTrialEnd` has been called, which belong to its surroundings. */
  class AnswerBuddyForm {
    var result: Option<AnswerOutput>
    var trialsUsed: Option<string>
    var trialEndCalls: nat

    constructor (trialsUsed: Option<string>)
      ensures result.None? && this.trialsUsed == trialsUsed && trialEndCalls == 0
    {
      result := None;
      this.trialsUsed := trialsUsed;
      trialEndCalls := 0;
    }

    /** `onSubmit`, for validated `values`. `trialsLeft` is the optional
        property, `signedIn` whether a user is signed in and `flow` the answer
        generator. A thrown error, which ends the handler before the counter
        is written, is returned. */
    method OnSubmit(values: AnswerInput, trialsLeft: Option<int>, signedIn: bool, flow: AnswerFlow)
      returns (thrown: Option<FlowError>)
      modifies this
      ensures TrialsExhausted(trialsLeft) ==>
                && trialEndCalls == old(trialEndCalls) + 1
                && result == old(result) && trialsUsed == old(trialsUsed)
                && thrown.None?
      ensures !TrialsExhausted(trialsLeft) && flow(values).Failure? ==>
                && result.None? && trialsUsed == old(trialsUsed)
                && trialEndCalls == old(trialEndCalls)
                && thrown == Some(flow(values).error)
      ensures !TrialsExhausted(trialsLeft) && flow(values).Success? ==>
                && result == Some(flow(values).value)
                && trialsUsed == (if trialsLeft.Some? && !signedIn then Some(TrialsUsedAfter(trialsLeft.value)) else old(trialsUsed))
                && trialEndCalls == old(trialEndCalls)
                && thrown.None?
    {
      if TrialsExhausted(trialsLeft) {
        trialEndCalls := trialEndCalls + 1;
        return None;
      }
      result := None;
      var response := GetInterviewAnswerAction(flow, values);
      if response.Failure? {
        return Some(response.error);
      }
      result := Some(response.value);
      if trialsLeft.Some? && !signedIn {
        var newTrialCount := trialsLeft.value - 1;
        trialsUsed := Some(Decimal.IntToString(TrialLimit - newTrialCount));
      }
      thrown := None;
    }

    /** `handleSubmit(onSubmit)`: a form that breaks a rule shows its messages
        and changes nothing; a valid one goes to `onSubmit`. */
    method HandleSubmit(values: AnswerFormValues, trialsLeft: Option<int>, signedIn: bool, flow: AnswerFlow)
      returns (errors: seq<FieldError>, thrown: Option<FlowError>)
      modifies this
      ensures ValidateAnswerForm(values).Failure? ==>
                errors == ValidateAnswerForm(values).error && thrown.None? &&
                result == old(result) && trialsUsed == old(trialsUsed) && trialEndCalls == old(trialEndCalls)
      ensures ValidateAnswerForm(values).Success? ==> (
                errors == [] &&
                var input := ValidateAnswerForm(values).value;
                if TrialsExhausted(trialsLeft) then
                  trialEndCalls == old(trialEndCalls) + 1 && result == old(result) && trialsUsed == old(trialsUsed) && thrown.None?
                else if flow(input).Failure? then
                  result.None? && trialsUsed == old(trialsUsed) && trialEndCalls == old(trialEndCalls) && thrown == Some(flow(input).error)
                else
                  result == Some(flow(input).value) && trialEndCalls == old(trialEndCalls) && thrown.None? &&
                  trialsUsed == (if trialsLeft.Some? && !signedIn then Some(TrialsUsedAfter(trialsLeft.value)) else old(trialsUsed)))
    {
      var checked := ValidateAnswerForm(values);
      if checked.Failure? {
        return checked.error, None;
      }
      errors := [];
      thrown := OnSubmit(checked.value, trialsLeft, signedIn, flow);
    }
  }
}
