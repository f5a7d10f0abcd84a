/**
 * What the summary section shows once a selection is complete: the label the
 * user identified, and either advice for a negative core emotion or a thank-you
 * note. Only the choice of label and message is modelled, not the markup.
 */
module Summary {
  import opened Wrappers
  import opened EmotionWheel

  /** The page's selection record; each field is `null` (None) or a label. */
  datatype Selection = Selection(core: Option<string>, middle: Option<string>, outer: Option<string>)

  const NoSelection := Selection(None, None, None)

  /** The message shown under the identified label. */
  datatype Message = Suggestion(emotion: string, text: string) | ThankYou(text: string)

  const ThankYouText := "Thank you for exploring your emotions!"

  datatype SummaryView = SummaryView(identified: Option<string>, message: Message)

  /** JavaScript truthiness of a field: `null` and "" are false. */
  predicate Truthy(v: Option<string>)
  {
    v.Some? && v.value != ""
  }

  /**
   * The label the summary reports: `outer || middle || core`, the deepest
   * field holding a non-empty label, falling back to `core` as it is.
   */
  function FinalLabel(sel: Selection): (r: Option<string>)
    ensures r == sel.outer || r == sel.middle || r == sel.core
    ensures Truthy(r) <==> Truthy(sel.outer) || Truthy(sel.middle) || Truthy(sel.core)
    ensures Truthy(sel.outer) ==> r == sel.outer
    ensures Truthy(sel.middle) ==> r == sel.outer || r == sel.middle
    ensures !Truthy(sel.outer) && !Truthy(sel.middle) ==> r == sel.core
  {
    if Truthy(sel.outer) then sel.outer
    else if Truthy(sel.middle) then sel.middle
    else sel.core
  }

  /**
   * The message for a core label: advice exactly when the label is a key of
   * the advice table, and then that key's text; the thank-you note otherwise.
   */
  function AdviceFor(core: Option<string>): (m: Message)
    ensures m.Suggestion? <==> core.Some? && core.value in NegativeAdvice
    ensures m.Suggestion? ==> m.emotion == core.value && m.text == NegativeAdvice[core.value]
    ensures m.ThankYou? ==> m.text == ThankYouText
  {
    AdviceKeysAreCoreLabels();
    if core.Some? && core.value in NegativeAdvice && NegativeAdvice[core.value] != "" then
      Suggestion(core.value, NegativeAdvice[core.value])
    else
      ThankYou(ThankYouText)
  }

  /** Everything the summary section displays for a selection. */
  function SummaryFor(sel: Selection): (v: SummaryView)
    ensures v.identified == FinalLabel(sel)
    ensures v.message.Suggestion? <==> sel.core.Some? && sel.core.value in NegativeAdvice
    ensures v.message.Suggestion? ==> v.message.emotion == sel.core.value && v.message.text == NegativeAdvice[sel.core.value]
    ensures v.message.ThankYou? ==> v.message.text == ThankYouText
  {
    SummaryView(FinalLabel(sel), AdviceFor(sel.core))
  }

  /** After a full top-down choice from the tree, the summary names the outer label. */
  lemma CompletePathIdentifiesOuter(c: string, m: string, o: string)
    requires c in CoreLabels && m in Lookup(Middle, c) && o in Lookup(Outer, m)
    ensures SummaryFor(Selection(Some(c), Some(m), Some(o))) == SummaryView(Some(o), AdviceFor(Some(c)))
  {
    TreeExhaustive();
    LabelsNonEmpty();
  }

  /** "Joy" and "Surprise" get the thank-you note; each negative core label gets its advice. */
  lemma AdvicePresence()
    ensures AdviceFor(Some("Joy")) == ThankYou(ThankYouText) && AdviceFor(Some("Surprise")) == ThankYou(ThankYouText)
    ensures AdviceFor(None) == ThankYou(ThankYouText)
    ensures AdviceFor(Some("Fear")) == Suggestion("Fear", "Try grounding techniques like mindful breathing or meditation.")
  {
  }
}
