/**
 * The mock question service behind `fetchNextQuestions`, without its delay:
 * a fixed question set and a solution chosen by a decision table over the
 * values of the `policy-inquiry` and `urgency` answers.
 */
module MockApi {
  import opened Wrappers
  import opened WidgetTypes
  import opened AnswerTable

  function Choice(id: string, text: string): QuestionOption {
    QuestionOption(id, text, None)
  }

  function ImageChoice(id: string, text: string, image: string): QuestionOption {
    QuestionOption(id, text, Some(image))
  }

  /** The five questions every call returns, whatever has been answered. */
  const MockQuestions: seq<Question> := [
    Question("service-type", TextChoices, "What type of service are you inquiring about?", None,
      Some([Choice("technical-support", "Technical Support"),
            Choice("billing-inquiry", "Billing Inquiry"),
            Choice("account-management", "Account Management"),
            Choice("product-information", "Product Information")]), true, None),
    Question("issue-category", ImageChoices, "Which category best describes your issue?", None,
      Some([ImageChoice("hardware", "Hardware", "/hardware-icon.svg"),
            ImageChoice("software", "Software", "/software-icon.svg"),
            ImageChoice("network", "Network", "/network-icon.svg"),
            ImageChoice("performance", "Performance", "/performance-icon.svg")]), true, None),
    Question("urgency", TextChoices, "How urgent is this issue?", None,
      Some([Choice("low", "Low - Can wait a few days"),
            Choice("medium", "Medium - Need resolution this week"),
            Choice("high", "High - Need resolution today"),
            Choice("critical", "Critical - Immediate attention required")]), true, None),
    Question("policy-inquiry", TextChoices, "Are you asking about a specific company policy?", None,
      Some([Choice("refund-policy", "Refund Policy"),
            Choice("warranty-policy", "Warranty Policy"),
            Choice("support-policy", "Support Policy"),
            Choice("service-level", "Service Level Agreement")]), true, None),
    Question("additional-info", FreeText, "Please provide any additional details about your inquiry:", None,
      None, false, None)
  ]

  /** The answer count at which a solution is synthesised: a literal, not the configured threshold. */
  const SolutionAnswerCount := 2

  const SolutionId := "solution-1"
  const SolutionDescription := "Based on your inquiry, here is the relevant information:"

  /** The title and steps of a solution, as selected by the policy answer. */
  datatype Template = Template(title: string, steps: seq<string>)

  const DefaultTemplate := Template("Company Policy Information", [])

  // The step lists are opaque per branch: only which list is chosen matters.
  const RefundSteps: seq<string> := ["return-window", "original-packaging", "proof-of-purchase", "processing-time"]
  const WarrantySteps: seq<string> := ["standard-warranty", "extended-coverage", "coverage-details", "service-process"]
  const SupportSteps: seq<string> := ["round-the-clock", "response-times", "support-channels", "escalation"]
  const ServiceLevelSteps: seq<string> := ["uptime", "response-commitments", "compensation", "monitoring"]

  /** The value of the first answer for `id`, if any (`find(...)?.value`). */
  function ValueOf(answers: seq<Answer>, id: string): (v: Option<AnswerValue>)
    ensures v.Some? <==> HasAnswer(answers, id)
    ensures v.Some? ==>
      exists i :: 0 <= i < |answers| && answers[i].questionId == id && answers[i].value == v.value
                  && (forall j :: 0 <= j < i ==> answers[j].questionId != id)
  {
    match Find(answers, id)
    case Some(a) => Some(a.value)
    case None => None
  }

  /** The if-chain on the `policy-inquiry` value; strict equality, so a number never matches. */
  function PolicyTemplate(policy: Option<AnswerValue>): (t: Template)
    ensures t == Lookup(PolicyTable, policy, DefaultTemplate)
  {
    if policy == Some(Str("refund-policy")) then Template("Refund Policy Information", RefundSteps)
    else if policy == Some(Str("warranty-policy")) then Template("Warranty Policy Information", WarrantySteps)
    else if policy == Some(Str("support-policy")) then Template("Support Policy Information", SupportSteps)
    else if policy == Some(Str("service-level")) then Template("Service Level Agreement (SLA)", ServiceLevelSteps)
    else DefaultTemplate
  }

  /** The priority adjustment on the `urgency` value: medium unless critical or high. */
  function UrgencyPriority(urgency: Option<AnswerValue>): (p: Priority)
    ensures p == Lookup(PriorityTable, urgency, Medium)
    ensures p != Low
  {
    if urgency == Some(Str("critical")) then Critical
    else if urgency == Some(Str("high")) then High
    else Medium
  }

  function FetchNextQuestions(answers: seq<Answer>): (r: MockApiResponse)
    ensures r.questions == MockQuestions
    ensures r.solutionReady <==> |answers| >= SolutionAnswerCount
    ensures r.solution.Some? <==> r.solutionReady
    ensures r.solution.Some? ==>
      && r.solution.value.id == SolutionId
      && r.solution.value.description == SolutionDescription
      && r.solution.value.priority != Low
  {
    var solutionReady := |answers| >= SolutionAnswerCount;
    var solution :=
      if solutionReady then
        var urgency := ValueOf(answers, "urgency");
        var template := PolicyTemplate(ValueOf(answers, "policy-inquiry"));
        Some(Solution(SolutionId, template.title, SolutionDescription, template.steps, UrgencyPriority(urgency)))
      else None;
    MockApiResponse(MockQuestions, solutionReady, solution)
  }

  // ----- The decision table, stated as explicit lookup tables -----

  const PolicyTable: map<string, Template> := map[
    "refund-policy" := Template("Refund Policy Information", RefundSteps),
    "warranty-policy" := Template("Warranty Policy Information", WarrantySteps),
    "support-policy" := Template("Support Policy Information", SupportSteps),
    "service-level" := Template("Service Level Agreement (SLA)", ServiceLevelSteps)
  ]

  const PriorityTable: map<string, Priority> := map["critical" := Critical, "high" := High]

  /** A table lookup with a default, for an answer value that may be absent. */
  function Lookup<V>(table: map<string, V>, value: Option<AnswerValue>, default: V): V {
    if value.Some? && value.value.Str? && value.value.s in table then table[value.value.s] else default
  }

  /** The synthesized solution, once ready, is read off the two tables. */
  lemma SolutionFromTables(answers: seq<Answer>)
    requires |answers| >= SolutionAnswerCount
    ensures FetchNextQuestions(answers).solution == Some(Solution(
      SolutionId,
      Lookup(PolicyTable, ValueOf(answers, "policy-inquiry"), DefaultTemplate).title,
      SolutionDescription,
      Lookup(PolicyTable, ValueOf(answers, "policy-inquiry"), DefaultTemplate).steps,
      Lookup(PriorityTable, ValueOf(answers, "urgency"), Medium)))
  {
  }

  /** Only the answers for `urgency` and `policy-inquiry`, and the count, decide the response. */
  lemma ResponseDependsOnTwoAnswers(a1: seq<Answer>, a2: seq<Answer>)
    requires (|a1| >= SolutionAnswerCount) == (|a2| >= SolutionAnswerCount)
    requires ValueOf(a1, "urgency") == ValueOf(a2, "urgency")
    requires ValueOf(a1, "policy-inquiry") == ValueOf(a2, "policy-inquiry")
    ensures FetchNextQuestions(a1) == FetchNextQuestions(a2)
  {
  }

  /** The questions carry pairwise distinct ids. */
  lemma MockQuestionIdsDistinct()
    ensures forall i, j :: 0 <= i < j < |MockQuestions| ==> MockQuestions[i].id != MockQuestions[j].id
  {
  }

  /** Two answers for distinct questions mean at least two entries. */
  lemma TwoIdsTwoEntries(answers: seq<Answer>, id1: string, id2: string)
    requires id1 != id2 && HasAnswer(answers, id1) && HasAnswer(answers, id2)
    ensures |answers| >= 2
  {
    var i := FindIndex(answers, id1);
    var j := FindIndex(answers, id2);
    assert i != j;
  }

  /**
   * Saving `urgency = critical` and then `policy-inquiry = refund-policy`, on
   * top of any earlier answers, yields a critical refund-policy solution.
   */
  lemma RefundCriticalAfterSaves(answers: seq<Answer>, urgency: Answer, policy: Answer)
    requires urgency.questionId == "urgency" && urgency.value == Str("critical")
    requires policy.questionId == "policy-inquiry" && policy.value == Str("refund-policy")
    ensures var r := FetchNextQuestions(Upsert(Upsert(answers, urgency), policy));
      && r.solutionReady
      && r.solution.Some?
      && r.solution.value.priority == Critical
      && r.solution.value.title == "Refund Policy Information"
      && r.solution.value.steps == RefundSteps
  {
    var first := Upsert(answers, urgency);
    var both := Upsert(first, policy);
    FindAfterUpsert(answers, urgency, "urgency");
    FindAfterUpsert(first, policy, "urgency");
    FindAfterUpsert(first, policy, "policy-inquiry");
    TwoIdsTwoEntries(both, "urgency", "policy-inquiry");
  }
}
