# Guidance widget state container, in Dafny

This project models the in-iframe state container of an embeddable
customer-guidance widget. The container drives a linear wizard: problem
description, then clarifying questions, then a solution, then feedback.
It holds the wizard state, offers computed views of it, and offers actions
that change it. It also offers three mock service calls that return canned
questions and a canned solution.

- `WidgetTypes` (`widget_types.dfy`) holds the record shapes as datatypes:
  questions, answers, solutions, configuration, feedback, wizard step,
  display mode and the mock service response. A partial record is a datatype
  of `Option` fields. An answer value is `Str(string) | Num(int)`. A
  timestamp is an opaque integer that the caller supplies.
- `SeqUtil` (`seq_util.dfy`) holds the order-preserving `Filter` that the views
  and `removeAnswer` use, and the subsequence relation used to state order.
- `AnswerTable` (`answer_table.dfy`) treats the answer list as a table keyed by
  question id. It holds `findIndex`, `find` and `some`, the upsert done by
  `addAnswer`, and the filter done by `removeAnswer`. The lemmas prove that ids
  stay unique, that the last write for an id wins, and that removal keeps order.
- `WidgetViews` (`widget_views.dfy`) holds the computed views, written as
  functions of the state fields they read.
- `Patches` (`patches.dfy`) holds the shallow merges behind `setFeedback` and
  `updateConfig`.
- `MockApi` (`mock_api.dfy`) holds `fetchNextQuestions` as a pure function of
  the answer list. Its solution decision is also stated as two explicit lookup
  tables, and the contracts of the two deciding functions equate each with
  its table.
- `WidgetStore` (`widget_store.dfy`) holds the store itself: class `Store`,
  whose fields are the state. Every method modifies only the fields it
  reassigns; its frame says so field by field (`modifies this`answers`). Its
  `ensures` state each new field value in terms of the old state. The
  invariant `Valid()` (unique answer ids) holds after the constructor, and
  every answer mutator preserves it.

Facts about the source that the model keeps:

- `reset` clears only step, problem text, questions, answers, solution and
  feedback. It leaves `config`, `displayMode` and `isOpen` untouched.
- `Solution.priority` is declared as low, medium or high. The solution
  synthesis still produces `critical`, through a cast. So `Priority` has four
  constructors. The contract of `MockApi.FetchNextQuestions` states that `Low` is never
  produced.
- `fetchNextQuestions` synthesises a solution once there are two answers. This
  is a literal, not `config.maxQuestionsBeforeSolution`, whose initial value is
  three. `ServiceReadyBeforeConfiguredThreshold` proves that, under the initial
  configuration, two answers give a solution while `canShowSolution` is still
  false.
- The store's initial configuration carries a `companyName` that the
  configuration type does not declare. The model keeps it. The declared
  partial type does not name it.

## Model

| member | source | states |
|---|---|---|
| `SeqUtil.Filter` | src/stores/widget.ts:36-38 | the result holds exactly those elements of the input that satisfy the predicate, and is no longer than the input |
| `SeqUtil.FilterIsSubsequence` | src/stores/widget.ts:36-38 | a filter result is a subsequence of its input, so relative order is kept |
| `SeqUtil.FilterPartition` | src/stores/widget.ts:35-45 | filtering by a predicate and by its negation splits the input: the multisets add up to the input's, and so do the lengths |
| `SeqUtil.FilterKeepsAll` | src/stores/widget.ts:86 | a filter that rejects no element returns its input unchanged |
| `AnswerTable.HasAnswer` | src/stores/widget.ts:37 | some answer carries the id exactly when the id is in the set of answered question ids |
| `AnswerTable.UniqueIdsCount` | src/stores/widget.ts:67-74 | in a table with unique ids, the number of entries equals the number of distinct answered questions |
| `AnswerTable.FindIndex` | src/stores/widget.ts:68 | the result is -1 exactly when no answer has the id; otherwise it is the first index whose answer has the id |
| `AnswerTable.Find` | src/stores/widget.ts:195-196 | an answer is found exactly when some answer has the id, and the one found is the first answer in the list that carries that id |
| `AnswerTable.FindInUnique` | src/stores/widget.ts:67-74 | in a table with unique ids, looking up an entry's id returns that entry |
| `AnswerTable.Upsert` | src/stores/widget.ts:67-74 | a new id is appended; an existing id is replaced at its index, with the length unchanged and every other entry untouched; the id is present afterwards; unique ids stay unique |
| `AnswerTable.FindAfterUpsert` | src/stores/widget.ts:67-74 | after adding `a`, the lookup for `a.questionId` gives exactly `a` (the last write wins), and the lookup for every other id is unchanged |
| `AnswerTable.UpsertLength` | src/stores/widget.ts:67-74 | adding grows the table by one exactly when the id is new, and otherwise keeps its length |
| `AnswerTable.UpsertKeepsIds` | src/stores/widget.ts:67-74 | ids already answered stay answered after any upsert |
| `AnswerTable.AddAllUnique` | src/stores/widget.ts:67-74 | any sequence of `addAnswer` calls keeps the table free of duplicate ids |
| `AnswerTable.AddAllLastWins` | src/stores/widget.ts:67-74 | after a sequence of `addAnswer` calls, the entry for an id is the last answer given for it, or the earlier entry if no call named it |
| `AnswerTable.Remove` | src/stores/widget.ts:85-87 | afterwards no answer carries the id; every remaining answer was in the list; every answer for another id remains |
| `AnswerTable.FilterKeepsUnique` | src/stores/widget.ts:85-87 | filtering a table with unique ids keeps the ids unique |
| `AnswerTable.RemoveKeepsUnique` | src/stores/widget.ts:85-87 | `removeAnswer` keeps the ids unique |
| `AnswerTable.RemoveKeepsOrder` | src/stores/widget.ts:85-87 | the remaining answers keep their original relative order |
| `AnswerTable.RemoveAbsent` | src/stores/widget.ts:85-87 | removing an id that has no answer leaves the list unchanged |
| `AnswerTable.RemoveLength` | src/stores/widget.ts:85-87 | with unique ids, removal drops exactly one entry when the id is present and none otherwise |
| `WidgetViews.AnsweredQuestions` | src/stores/widget.ts:35-39 | holds exactly those questions of the list for which some answer has the question's id |
| `WidgetViews.UnansweredQuestions` | src/stores/widget.ts:41-45 | holds exactly those questions of the list for which no answer has the question's id |
| `WidgetViews.ViewsPartition` | src/stores/widget.ts:35-45 | both views are order-preserving subsequences of the question list; together they hold each of its entries once (as multisets and as lengths); each question is in exactly one of them |
| `WidgetViews.CurrentQuestionIndex` | src/stores/widget.ts:51-56 | the result is 0 or -1, and it is 0 exactly when the mode is sequential and some question is unanswered; batch mode always gives -1 |
| `WidgetViews.CanShowSolution` | src/stores/widget.ts:47-49 | in a table with unique ids, readiness holds exactly when the number of distinct answered questions reaches the configured threshold |
| `WidgetViews.CanShowSolutionIgnoresReanswers` | src/stores/widget.ts:47-49 | answering an already answered question again never changes readiness, because readiness counts answers and does not look at which questions they answer |
| `WidgetViews.CanShowSolutionMonotone` | src/stores/widget.ts:47-49 | adding an answer never turns readiness off; a new answer that reaches the threshold turns it on |
| `Patches.MergeFeedback` | src/stores/widget.ts:93-95 | each field the partial feedback carries (`helpful`, `rating`, `comment`) overwrites; each field it leaves out keeps its old value |
| `Patches.MergeConfig` | src/stores/widget.ts:105-107 | each of the six patchable fields (both colours, font family, font size, logo, threshold) is overwritten when present and kept when absent; the undeclared company name is never touched |
| `Patches.MergeEmptyIsIdentity` | src/stores/widget.ts:93-107 | merging an empty partial feedback or config record changes nothing |
| `Patches.MergeCompose` | src/stores/widget.ts:93-107 | two merges in a row equal one merge of the composed partial records, where the later field wins |
| `Patches.MergeIdempotent` | src/stores/widget.ts:93-107 | merging the same partial record twice equals merging it once |
| `Patches.SavedFeedback` | src/stores/widget.ts:264-267 | saving feedback sets `helpful` outright; a rating or comment left unset in the saved record keeps its earlier value |
| `MockApi.ValueOf` | src/stores/widget.ts:195-196 | a value is reported exactly when some answer has the id, and it is the value of the first answer for that id |
| `MockApi.PolicyTemplate` | src/stores/widget.ts:198-236 | the policy if-chain equals a lookup in the policy table, with the default title and no steps for any other value, including numbers |
| `MockApi.UrgencyPriority` | src/stores/widget.ts:201-240 | the urgency adjustment equals a lookup in the priority table (critical or high when the answer says so, medium otherwise), and is never low |
| `MockApi.FetchNextQuestions` | src/stores/widget.ts:126-256 | the questions are always the fixed five; `solutionReady` holds exactly when there are at least 2 answers; a solution is present exactly when ready, with the fixed id and description, and its priority is never low |
| `MockApi.SolutionFromTables` | src/stores/widget.ts:188-248 | once ready, the solution's title and steps come from the policy table and its priority from the priority table |
| `MockApi.ResponseDependsOnTwoAnswers` | src/stores/widget.ts:188-248 | two answer lists on the same side of the count, with the same `urgency` and `policy-inquiry` values, get the same response |
| `MockApi.MockQuestionIdsDistinct` | src/stores/widget.ts:131-186 | the five questions carry distinct ids |
| `MockApi.RefundCriticalAfterSaves` | src/stores/widget.ts:188-262 | saving urgency `critical`, then policy `refund-policy`, on top of any answers, gives a ready solution titled "Refund Policy Information" with critical priority and the refund steps |
| `WidgetStore.Store.constructor` | src/stores/widget.ts:14-32 | the initial state: step `problem`, empty text, questions and answers, no solution, `{helpful: null}`, sequential, closed, and the default configuration |
| `WidgetStore.Store.SetProblemDescription` | src/stores/widget.ts:59-61 | sets the problem text and no other field |
| `WidgetStore.Store.SetCurrentQuestions` | src/stores/widget.ts:63-65 | sets the question list and no other field |
| `WidgetStore.Store.AddAnswer` | src/stores/widget.ts:67-74 | the answers become the upsert of the old answers; the new entry is found for its id; other lookups are unchanged; the unique-id invariant is kept; no other field changes |
| `WidgetStore.Store.UpdateAnswer` | src/stores/widget.ts:76-83 | `addAnswer` of the answer built from the id, value, label and caller-supplied time |
| `WidgetStore.Store.RemoveAnswer` | src/stores/widget.ts:85-87 | the answers become the filtered old answers; no answer for the id remains; the invariant is kept |
| `WidgetStore.Store.SetCurrentSolution` | src/stores/widget.ts:89-91 | sets the solution and no other field |
| `WidgetStore.Store.SetFeedback` | src/stores/widget.ts:93-95 | the feedback becomes the shallow merge of the old feedback with the partial record |
| `WidgetStore.Store.SetCurrentStep` | src/stores/widget.ts:97-99 | sets the step (any step, from any step) and no other field |
| `WidgetStore.Store.SetDisplayMode` | src/stores/widget.ts:101-103 | sets the display mode and no other field |
| `WidgetStore.Store.UpdateConfig` | src/stores/widget.ts:105-110 | the configuration becomes the shallow merge of the old one with the partial record |
| `WidgetStore.Store.Reset` | src/stores/widget.ts:112-119 | step `problem`, empty text, no questions, no answers, no solution, feedback `{helpful: null}`; configuration, display mode and visibility unchanged |
| `WidgetStore.Store.ToggleOpen` | src/stores/widget.ts:121-123 | flips visibility and changes no other field |
| `WidgetStore.Store.FetchNextQuestions` | src/stores/widget.ts:126-256 | changes no state and returns the mock response for the current answers, ready exactly when there are at least 2 |
| `WidgetStore.Store.SaveAnswer` | src/stores/widget.ts:258-262 | the same state change as `addAnswer` |
| `WidgetStore.Store.SaveFeedback` | src/stores/widget.ts:264-269 | the feedback becomes the merge with the saved record, so `helpful` equals the saved value |
| `WidgetStore.RefundCriticalScenario` | src/stores/widget.ts:188-262 | a fresh store that saves urgency `critical` and policy `refund-policy` and then fetches gets a critical "Refund Policy Information" solution |
| `WidgetStore.TooFewAnswersScenario` | src/stores/widget.ts:188-191 | with one saved answer the response is not ready and has no solution |
| `WidgetStore.ServiceReadyBeforeConfiguredThreshold` | src/stores/widget.ts:188 | two answers make the service ready while `canShowSolution` under the initial threshold of three is false |
| `WidgetStore.ThresholdFromUpdatedConfig` | src/stores/widget.ts:47-49 | after `updateConfig` sets the threshold, readiness means exactly that the answer count reaches the new threshold |

## Left out

- The embed loader (`public/widget.js`) is not part of this model. It builds
  DOM nodes, styles the iframe and exchanges window messages. Its only logic
  outside DOM work is the `isLoaded` guard (public/widget.js:25-28) and a
  show/hide toggle over `style.display`, and these mean nothing without a
  DOM.
- The simulated latency of `fetchNextQuestions`, `saveAnswer` and
  `saveFeedback` is left out. There is no timer, so these calls run
  synchronously. No call can fail, and none can be cancelled.
- The reactivity framework (refs, computed caching, store definition) and the
  console logging are left out. The computed views are functions of the
  fields they read.
- `new Date()` in `updateAnswer` is a `now` parameter supplied by the caller.
- The solution step texts are opaque tags, one list per policy branch. Only
  which list is chosen is modelled.
- Numbers are integers. Fractional, NaN or infinite thresholds, ratings,
  validation bounds and numeric answers are not modelled.
- A partial record whose field is present but explicitly `undefined` is
  modelled as leaving that field out. In the source, such a field would
  overwrite.
- Question validation (`min`, `max`, `pattern`) and option lists are carried
  as data. Nothing in the store checks answers against them.
- `addAnswer`, `removeAnswer`, `reset`, `setCurrentQuestions` and
  `setCurrentSolution`: in-place update and aliasing are not captured. The
  source works on shared arrays and objects. `addAnswer` changes the live
  answers array in place, while `removeAnswer` and `reset` install new
  arrays. So code that holds the old array sees an `addAnswer` but not a
  `removeAnswer` or `reset`. The two setters store the caller's own array or
  object. The model's fields are values, so none of this sharing shows.
- `Patches.MergeConfig`: keys that an `updateConfig` argument carries beyond
  the six declared ones, `companyName` or `widgetUrl` among them, are not
  modelled. The spread at src/stores/widget.ts:106 copies every own key of
  the argument, so such a key would overwrite or add a configuration entry.
  The model's partial record holds only the declared fields.
- The state fields are public in the source, so any caller can reassign them
  directly. The model's fields are public too. `Valid()` is guaranteed only
  for states reached through the store's own methods.
