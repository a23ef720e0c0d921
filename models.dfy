/**
 * The shapes of the records the service moves around: the per-question
 * record the model returns, the question record the service stores and
 * reports, and the three extraction statuses.
 */
module Models {
  import opened Common

  /** One solution step: an explanation and the output it produces. */
  datatype Step = Step(explanation: string, output: string)

  /** A question as the model's structured response gives it: four separate choice fields. */
  datatype RawQuestion = RawQuestion(
    id: string,
    question: string,
    assertion: string,
    reason: string,
    passage: string,
    a: string,
    b: string,
    c: string,
    d: string,
    finalAnswer: string,
    solution: seq<Step>,
    topic: string,
    subTopic: string,
    questionType: string,
    allocatedMarks: int,
    referenceExam: string)

  datatype Solution = Solution(steps: seq<Step>)

  /** A question as it is stored in the result artifact and reported by the status endpoint. */
  datatype Question = Question(
    id: string,
    question: string,
    passage: string,
    assertion: string,
    reason: string,
    choices: seq<string>,
    solution: Solution,
    finalAnswer: string,
    topic: string,
    subTopic: string,
    questionType: string,
    allocatedMarks: int,
    referenceExam: string)

  datatype Status = InProgress | Completed | Failed {
    /** The wire value of the status. */
    function Value(): string {
      match this
      case InProgress => "in_progress"
      case Completed => "completed"
      case Failed => "failed"
    }

    predicate IsTerminal() {
      this != InProgress
    }
  }

  /** `StatusEnum(value)`: the status with that wire value, if any (the conversion at app/api/endpoints/questions.py:131). */
  function StatusFromValue(s: string): (r: Option<Status>)
    ensures r.Some? ==> r.value.Value() == s
  {
    if s == "in_progress" then Some(InProgress)
    else if s == "completed" then Some(Completed)
    else if s == "failed" then Some(Failed)
    else None
  }

  /** Every status has a distinct wire value, from which it is recovered. */
  lemma StatusValueRoundTrip(s: Status)
    ensures StatusFromValue(s.Value()) == Some(s)
  {
  }
}
