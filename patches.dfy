/**
 * The shallow merges behind `setFeedback` and `updateConfig`: every field the
 * partial record carries overwrites, every field it leaves out keeps its value.
 */
module Patches {
  import opened Wrappers
  import opened WidgetTypes

  /** One field of a spread `{ ...current, ...patch }`. */
  function Override<T>(current: T, patch: Option<T>): T {
    patch.GetOr(current)
  }

  /** An optional field, or a patch field, followed by another: the later one wins where present. */
  function Later<T>(first: Option<T>, second: Option<T>): Option<T> {
    if second.Some? then second else first
  }

  const EmptyFeedbackPatch := FeedbackPatch(None, None, None)

  const EmptyConfigPatch := ConfigPatch(None, None, None, None, None, None)

  /** `{ ...f, ...p }`: each field the patch carries overwrites, each it leaves out keeps its value. */
  function MergeFeedback(f: Feedback, p: FeedbackPatch): (r: Feedback)
    ensures p.helpful.Some? ==> r.helpful == p.helpful.value
    ensures p.helpful.None? ==> r.helpful == f.helpful
    ensures p.rating.Some? ==> r.rating == p.rating
    ensures p.rating.None? ==> r.rating == f.rating
    ensures p.comment.Some? ==> r.comment == p.comment
    ensures p.comment.None? ==> r.comment == f.comment
  {
    Feedback(Override(f.helpful, p.helpful), Later(f.rating, p.rating), Later(f.comment, p.comment))
  }

  /**
   * `{ ...c, ...p }`: each field the patch carries overwrites, each it leaves
   * out keeps its value; the undeclared company name is never touched.
   */
  function MergeConfig(c: WidgetConfig, p: ConfigPatch): (r: WidgetConfig)
    ensures p.primaryColor.Some? ==> r.primaryColor == p.primaryColor.value
    ensures p.primaryColor.None? ==> r.primaryColor == c.primaryColor
    ensures p.secondaryColor.Some? ==> r.secondaryColor == p.secondaryColor.value
    ensures p.secondaryColor.None? ==> r.secondaryColor == c.secondaryColor
    ensures p.fontFamily.Some? ==> r.fontFamily == p.fontFamily.value
    ensures p.fontFamily.None? ==> r.fontFamily == c.fontFamily
    ensures p.fontSize.Some? ==> r.fontSize == p.fontSize.value
    ensures p.fontSize.None? ==> r.fontSize == c.fontSize
    ensures p.logoUrl.Some? ==> r.logoUrl == p.logoUrl
    ensures p.logoUrl.None? ==> r.logoUrl == c.logoUrl
    ensures p.maxQuestionsBeforeSolution.Some? ==>
      r.maxQuestionsBeforeSolution == p.maxQuestionsBeforeSolution.value
    ensures p.maxQuestionsBeforeSolution.None? ==>
      r.maxQuestionsBeforeSolution == c.maxQuestionsBeforeSolution
    ensures r.companyName == c.companyName
  {
    WidgetConfig(
      Override(c.primaryColor, p.primaryColor),
      Override(c.secondaryColor, p.secondaryColor),
      Override(c.fontFamily, p.fontFamily),
      Override(c.fontSize, p.fontSize),
      c.companyName,
      Later(c.logoUrl, p.logoUrl),
      Override(c.maxQuestionsBeforeSolution, p.maxQuestionsBeforeSolution))
  }

  /**
   * A whole feedback record passed to `setFeedback` (as `saveFeedback` does):
   * `helpful` is always present; `rating` and `comment` only when they are set.
   */
  function FeedbackAsPatch(f: Feedback): FeedbackPatch {
    FeedbackPatch(Some(f.helpful), f.rating, f.comment)
  }

  function ComposeFeedbackPatches(p: FeedbackPatch, q: FeedbackPatch): FeedbackPatch {
    FeedbackPatch(Later(p.helpful, q.helpful), Later(p.rating, q.rating), Later(p.comment, q.comment))
  }

  function ComposeConfigPatches(p: ConfigPatch, q: ConfigPatch): ConfigPatch {
    ConfigPatch(
      Later(p.primaryColor, q.primaryColor),
      Later(p.secondaryColor, q.secondaryColor),
      Later(p.fontFamily, q.fontFamily),
      Later(p.fontSize, q.fontSize),
      Later(p.logoUrl, q.logoUrl),
      Later(p.maxQuestionsBeforeSolution, q.maxQuestionsBeforeSolution))
  }

  /** Merging an empty partial record changes nothing. */
  lemma MergeEmptyIsIdentity(f: Feedback, c: WidgetConfig)
    ensures MergeFeedback(f, EmptyFeedbackPatch) == f
    ensures MergeConfig(c, EmptyConfigPatch) == c
  {
  }

  /** Two merges in a row are one merge of the composed partial records. */
  lemma MergeCompose(f: Feedback, c: WidgetConfig, p: FeedbackPatch, q: FeedbackPatch, cp: ConfigPatch, cq: ConfigPatch)
    ensures MergeFeedback(MergeFeedback(f, p), q) == MergeFeedback(f, ComposeFeedbackPatches(p, q))
    ensures MergeConfig(MergeConfig(c, cp), cq) == MergeConfig(c, ComposeConfigPatches(cp, cq))
  {
  }

  /** Merging the same partial record twice is merging it once. */
  lemma MergeIdempotent(f: Feedback, c: WidgetConfig, p: FeedbackPatch, cp: ConfigPatch)
    ensures MergeFeedback(MergeFeedback(f, p), p) == MergeFeedback(f, p)
    ensures MergeConfig(MergeConfig(c, cp), cp) == MergeConfig(c, cp)
  {
  }

  /**
   * Saving a whole feedback record sets `helpful` outright but is still a
   * merge: a rating or comment the record leaves unset keeps its earlier value.
   */
  lemma SavedFeedback(previous: Feedback, f: Feedback)
    ensures MergeFeedback(previous, FeedbackAsPatch(f)).helpful == f.helpful
    ensures MergeFeedback(previous, FeedbackAsPatch(f)).rating == if f.rating.Some? then f.rating else previous.rating
    ensures MergeFeedback(previous, FeedbackAsPatch(f)).comment == if f.comment.Some? then f.comment else previous.comment
    ensures f.rating.Some? && f.comment.Some? ==> MergeFeedback(previous, FeedbackAsPatch(f)) == f
  {
  }
}
