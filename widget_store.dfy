/**
 * The widget's state container: the wizard state as fields of one object,
 * its actions as methods that reassign those fields, and the mock service
 * calls run synchronously.
 */
module WidgetStore {
  import opened Wrappers
  import opened WidgetTypes
  import opened AnswerTable
  import opened WidgetViews
  import opened Patches
  import MockApi

  const DefaultConfig := WidgetConfig("#9333ea", "#f1f5f9", "Inter, sans-serif", "16px",
                                      Some("eGain"), Some("/placeholder.svg"), 3)

  /** The feedback record `{ helpful: null }`. */
  const InitialFeedback := Feedback(None, None, None)

  class Store {
    var currentStep: Step
    var problemDescription: string
    var currentQuestions: seq<Question>
    var answers: seq<Answer>
    var currentSolution: Option<Solution>
    var feedback: Feedback
    var displayMode: DisplayMode
    var isOpen: bool
    var config: WidgetConfig

    /** The store's invariant: at most one answer per question id. */
    ghost predicate Valid()
      reads this
    {
      UniqueIds(answers)
    }

    constructor ()
      ensures Valid()
      ensures currentStep == ProblemStep && problemDescription == ""
      ensures currentQuestions == [] && answers == []
      ensures currentSolution == None && feedback == InitialFeedback
      ensures displayMode == Sequential && !isOpen
      ensures config == DefaultConfig
    {
      currentStep := ProblemStep;
      problemDescription := "";
      currentQuestions := [];
      answers := [];
      currentSolution := None;
      feedback := InitialFeedback;
      displayMode := Sequential;
      isOpen := false;
      config := DefaultConfig;
    }

    method SetProblemDescription(description: string)
      modifies this`problemDescription
      ensures problemDescription == description
    {
      problemDescription := description;
    }

    method SetCurrentQuestions(questions: seq<Question>)
      modifies this`currentQuestions
      ensures currentQuestions == questions
    {
      currentQuestions := questions;
    }

    /** Upsert by question id; the table stays free of duplicate ids. */
    method AddAnswer(answer: Answer)
      modifies this`answers
      ensures answers == Upsert(old(answers), answer)
      ensures Find(answers, answer.questionId) == Some(answer)
      ensures forall id :: id != answer.questionId ==> Find(answers, id) == Find(old(answers), id)
      ensures old(Valid()) ==> Valid()
    {
      var existingIndex := FindIndex(answers, answer.questionId);
      if existingIndex >= 0 {
        answers := answers[existingIndex := answer];
      } else {
        answers := answers + [answer];
      }
      forall id {
        FindAfterUpsert(old(answers), answer, id);
      }
    }

    /** `addAnswer` of a new record stamped with the caller-supplied time `now`. */
    method UpdateAnswer(questionId: string, value: AnswerValue, labelText: Option<string>, now: Timestamp)
      modifies this`answers
      ensures answers == Upsert(old(answers), Answer(questionId, value, labelText, now))
      ensures Find(answers, questionId) == Some(Answer(questionId, value, labelText, now))
      ensures old(Valid()) ==> Valid()
    {
      AddAnswer(Answer(questionId, value, labelText, now));
    }

    method RemoveAnswer(questionId: string)
      modifies this`answers
      ensures answers == Remove(old(answers), questionId)
      ensures !HasAnswer(answers, questionId)
      ensures old(Valid()) ==> Valid()
    {
      if Valid() {
        RemoveKeepsUnique(answers, questionId);
      }
      answers := Remove(answers, questionId);
    }

    method SetCurrentSolution(solution: Option<Solution>)
      modifies this`currentSolution
      ensures currentSolution == solution
    {
      currentSolution := solution;
    }

    method SetFeedback(patch: FeedbackPatch)
      modifies this`feedback
      ensures feedback == MergeFeedback(old(feedback), patch)
    {
      feedback := MergeFeedback(feedback, patch);
    }

    method SetCurrentStep(step: Step)
      modifies this`currentStep
      ensures currentStep == step
    {
      currentStep := step;
    }

    method SetDisplayMode(mode: DisplayMode)
      modifies this`displayMode
      ensures displayMode == mode
    {
      displayMode := mode;
    }

    method UpdateConfig(patch: ConfigPatch)
      modifies this`config
      ensures config == MergeConfig(old(config), patch)
    {
      config := MergeConfig(config, patch);
    }

    /** Clears the wizard; configuration, display mode and visibility are kept. */
    method Reset()
      modifies this`currentStep, this`problemDescription, this`currentQuestions,
               this`answers, this`currentSolution, this`feedback
      ensures Valid()
      ensures currentStep == ProblemStep && problemDescription == ""
      ensures currentQuestions == [] && answers == []
      ensures currentSolution == None && feedback == InitialFeedback
      ensures config == old(config) && displayMode == old(displayMode) && isOpen == old(isOpen)
      ensures CurrentQuestionIndex(displayMode, currentQuestions, answers) == -1
    {
      currentStep := ProblemStep;
      problemDescription := "";
      currentQuestions := [];
      answers := [];
      currentSolution := None;
      feedback := InitialFeedback;
    }

    method ToggleOpen()
      modifies this`isOpen
      ensures isOpen == !old(isOpen)
    {
      isOpen := !isOpen;
    }

    /** The mock question service on the current answers; it changes no state. */
    method FetchNextQuestions() returns (response: MockApiResponse)
      ensures response == MockApi.FetchNextQuestions(answers)
      ensures response.solutionReady <==> |answers| >= 2
    {
      response := MockApi.FetchNextQuestions(answers);
    }

    /** `addAnswer` once the simulated delay has passed. */
    method SaveAnswer(answer: Answer)
      modifies this`answers
      ensures answers == Upsert(old(answers), answer)
      ensures old(Valid()) ==> Valid()
    {
      AddAnswer(answer);
    }

    /** `setFeedback` of a whole feedback record once the simulated delay has passed. */
    method SaveFeedback(data: Feedback)
      modifies this`feedback
      ensures feedback == MergeFeedback(old(feedback), FeedbackAsPatch(data))
      ensures feedback.helpful == data.helpful
    {
      SetFeedback(FeedbackAsPatch(data));
    }
  }

  /**
   * A fresh store that saves a critical urgency and a refund-policy inquiry
   * and then fetches the next questions receives a critical refund solution.
   */
  method RefundCriticalScenario(at: Timestamp) returns (response: MockApiResponse)
    ensures response.solutionReady
    ensures response.solution.Some?
    ensures response.solution.value.priority == Critical
    ensures response.solution.value.title == "Refund Policy Information"
  {
    var store := new Store();
    var urgency := Answer("urgency", Str("critical"), None, at);
    var policy := Answer("policy-inquiry", Str("refund-policy"), None, at);
    store.SaveAnswer(urgency);
    store.SaveAnswer(policy);
    MockApi.RefundCriticalAfterSaves([], urgency, policy);
    response := store.FetchNextQuestions();
  }

  /** With a single answer the service reports no solution. */
  method TooFewAnswersScenario(answer: Answer) returns (response: MockApiResponse)
    ensures !response.solutionReady && response.solution == None
  {
    var store := new Store();
    store.SaveAnswer(answer);
    response := store.FetchNextQuestions();
  }

  /**
   * The service's solution threshold (two answers) is not the configured one:
   * under the initial configuration (three) two answers already yield a
   * solution while the store's own view says none can be shown yet.
   */
  lemma ServiceReadyBeforeConfiguredThreshold(answers: seq<Answer>)
    requires |answers| == 2
    ensures MockApi.FetchNextQuestions(answers).solutionReady
    ensures !CanShowSolution(answers, DefaultConfig)
  {
  }

  /** A threshold set through `updateConfig` is the one readiness is measured against. */
  lemma ThresholdFromUpdatedConfig(answers: seq<Answer>, config: WidgetConfig, patch: ConfigPatch)
    requires patch.maxQuestionsBeforeSolution.Some?
    ensures CanShowSolution(answers, MergeConfig(config, patch)) <==> |answers| >= patch.maxQuestionsBeforeSolution.value
  {
  }
}
