/**
 * The store's computed views, as functions of the state fields they read:
 * the answered and unanswered questions, solution readiness and the index of
 * the question to present next.
 */
module WidgetViews {
  import opened WidgetTypes
  import opened SeqUtil
  import opened AnswerTable

  /** The questions that some answer refers to, in question order. */
  function AnsweredQuestions(questions: seq<Question>, answers: seq<Answer>): (r: seq<Question>)
    ensures forall i :: 0 <= i < |r| ==> r[i] in questions && HasAnswer(answers, r[i].id)
    ensures forall i :: 0 <= i < |questions| && HasAnswer(answers, questions[i].id) ==> questions[i] in r
  {
    Filter(questions, (q: Question) => HasAnswer(answers, q.id))
  }

  /** The questions no answer refers to, in question order. */
  function UnansweredQuestions(questions: seq<Question>, answers: seq<Answer>): (r: seq<Question>)
    ensures forall i :: 0 <= i < |r| ==> r[i] in questions && !HasAnswer(answers, r[i].id)
    ensures forall i :: 0 <= i < |questions| && !HasAnswer(answers, questions[i].id) ==> questions[i] in r
  {
    Filter(questions, (q: Question) => !HasAnswer(answers, q.id))
  }

  /** Whether enough answers exist to show a solution: a count, not a check of which questions. */
  function CanShowSolution(answers: seq<Answer>, config: WidgetConfig): (r: bool)
    ensures UniqueIds(answers) ==> (r <==> |Ids(answers)| >= config.maxQuestionsBeforeSolution)
  {
    UniqueIdsCount(answers);
    |answers| >= config.maxQuestionsBeforeSolution
  }

  /**
   * The index (into the unanswered questions) of the question to present: 0 in
   * sequential mode while some question is unanswered, -1 otherwise.
   */
  function CurrentQuestionIndex(mode: DisplayMode, questions: seq<Question>, answers: seq<Answer>): (r: int)
    ensures r == 0 || r == -1
    ensures r == 0 <==> mode == Sequential && exists i :: 0 <= i < |questions| && !HasAnswer(answers, questions[i].id)
  {
    if mode == Sequential then
      var unanswered := UnansweredQuestions(questions, answers);
      assert |unanswered| > 0 ==> unanswered[0] in questions;
      if |unanswered| > 0 then 0 else -1
    else -1
  }

  /**
   * The answered and unanswered questions split the question list: both keep
   * its order and together hold each of its entries exactly once.
   */
  lemma ViewsPartition(questions: seq<Question>, answers: seq<Answer>)
    ensures IsSubsequence(AnsweredQuestions(questions, answers), questions)
    ensures IsSubsequence(UnansweredQuestions(questions, answers), questions)
    ensures multiset(AnsweredQuestions(questions, answers)) + multiset(UnansweredQuestions(questions, answers))
         == multiset(questions)
    ensures |AnsweredQuestions(questions, answers)| + |UnansweredQuestions(questions, answers)| == |questions|
    ensures forall q :: q in questions ==>
      (q in AnsweredQuestions(questions, answers) <==> q !in UnansweredQuestions(questions, answers))
  {
    var p := (q: Question) => HasAnswer(answers, q.id);
    var np := (q: Question) => !HasAnswer(answers, q.id);
    FilterIsSubsequence(questions, p);
    FilterIsSubsequence(questions, np);
    FilterPartition(questions, p, np);
  }

  /** Answering an already answered question again never changes readiness. */
  lemma CanShowSolutionIgnoresReanswers(answers: seq<Answer>, a: Answer, config: WidgetConfig)
    requires HasAnswer(answers, a.questionId)
    ensures CanShowSolution(Upsert(answers, a), config) == CanShowSolution(answers, config)
  {
    UpsertLength(answers, a);
  }

  /** Answering a new question can only make a solution showable, never hide it. */
  lemma CanShowSolutionMonotone(answers: seq<Answer>, a: Answer, config: WidgetConfig)
    ensures CanShowSolution(answers, config) ==> CanShowSolution(Upsert(answers, a), config)
    ensures !HasAnswer(answers, a.questionId) && |answers| + 1 == config.maxQuestionsBeforeSolution ==>
      CanShowSolution(Upsert(answers, a), config)
  {
    UpsertLength(answers, a);
  }
}
