/**
 * The record shapes of the widget: questions, answers, solutions, the
 * configuration, the feedback record, the wizard step and the display mode,
 * and the response of the mock question service.
 */
module WidgetTypes {
  import opened Wrappers

  /** An `Answer.timestamp`: an opaque instant (a `Date` in the source) supplied by the caller. */
  type Timestamp = int

  /** The four rendering kinds of a question. */
  datatype QuestionType = TextChoices | ImageChoices | FreeText | Numeric

  /** `label` is a reserved word in Dafny, hence `labelText` here and in Answer. */
  datatype QuestionOption = QuestionOption(id: string, labelText: string, image: Option<string>)

  /** Optional bounds on an answer; nothing in the store enforces them. */
  datatype Validation = Validation(min: Option<int>, max: Option<int>, pattern: Option<string>)

  datatype Question = Question(
    id: string,
    kind: QuestionType,
    title: string,
    description: Option<string>,
    options: Option<seq<QuestionOption>>,
    required: bool,
    validation: Option<Validation>)

  /** An answer's scalar value: `string | number`. */
  datatype AnswerValue = Str(s: string) | Num(n: int)

  datatype Answer = Answer(questionId: string, value: AnswerValue, labelText: Option<string>, timestamp: Timestamp)

  /**
   * The declared priority type names low, medium and high only; the solution
   * synthesis casts the string 'critical' into it, so the model carries all four.
   */
  datatype Priority = Low | Medium | High | Critical

  datatype Solution = Solution(id: string, title: string, description: string, steps: seq<string>, priority: Priority)

  /**
   * The configuration record. `companyName` is not part of the declared
   * interface but is present in the store's initial value, so it is carried here
   * and the declared partial type does not name it.
   */
  datatype WidgetConfig = WidgetConfig(
    primaryColor: string,
    secondaryColor: string,
    fontFamily: string,
    fontSize: string,
    companyName: Option<string>,
    logoUrl: Option<string>,
    maxQuestionsBeforeSolution: int)

  /** `Partial<WidgetConfig>`: None stands for a field the partial record leaves out. */
  datatype ConfigPatch = ConfigPatch(
    primaryColor: Option<string>,
    secondaryColor: Option<string>,
    fontFamily: Option<string>,
    fontSize: Option<string>,
    logoUrl: Option<string>,
    maxQuestionsBeforeSolution: Option<int>)

  /** The feedback record; `helpful` is `boolean | null`, with None for null. */
  datatype Feedback = Feedback(helpful: Option<bool>, rating: Option<int>, comment: Option<string>)

  /**
   * `Partial<feedback>`: the outer Option says whether a field is present; for
   * `helpful`, the inner Option is the `boolean | null` value itself.
   */
  datatype FeedbackPatch = FeedbackPatch(helpful: Option<Option<bool>>, rating: Option<int>, comment: Option<string>)

  datatype Step = ProblemStep | QuestionsStep | ReviewStep | SolutionStep | FeedbackStep

  datatype DisplayMode = Sequential | Batch

  datatype MockApiResponse = MockApiResponse(questions: seq<Question>, solutionReady: bool, solution: Option<Solution>)
}
