/**
 * The fixed three-layer emotion tree and the advice table keyed by the
 * negative core emotions, as read-only configuration, plus the in-place sort
 * of the core list that runs once when the page script loads.
 */
module EmotionWheel {
  import opened StringOrder

  /** The core (innermost) layer, in the order it is declared. */
  const CoreLabels: seq<string> := ["Joy", "Fear", "Anger", "Surprise", "Sadness", "Disgust"]

  /** The core layer after the startup sort. */
  const SortedCoreLabels: seq<string> := ["Anger", "Disgust", "Fear", "Joy", "Sadness", "Surprise"]

  /** The middle layer: the labels offered under each core label. */
  const Middle: map<string, seq<string>> := map[
    "Joy" := ["Happy", "Cheerful"],
    "Fear" := ["Anxious", "Insecure"],
    "Anger" := ["Frustrated", "Irritated"],
    "Surprise" := ["Amazed", "Startled"],
    "Sadness" := ["Gloomy", "Depressed"],
    "Disgust" := ["Disdain", "Loathing"]
  ]

  /** The outer layer: the labels offered under each middle label. */
  const Outer: map<string, seq<string>> := map[
    "Happy" := ["Ecstatic", "Elated"],
    "Cheerful" := ["Bright", "Upbeat"],
    "Anxious" := ["Worried", "Nervous"],
    "Insecure" := ["Vulnerable", "Uneasy"],
    "Frustrated" := ["Resentful", "Enraged"],
    "Irritated" := ["Annoyed", "Agitated"],
    "Amazed" := ["Awestruck", "Astounded"],
    "Startled" := ["Shocked", "Alarmed"],
    "Gloomy" := ["Disheartened", "Melancholy"],
    "Depressed" := ["Hopeless", "Despairing"],
    "Disdain" := ["Scornful", "Contemptuous"],
    "Loathing" := ["Repelled", "Sickened"]
  ]

  /** Advice for the core emotions the page treats as negative. */
  const NegativeAdvice: map<string, string> := map[
    "Fear" := "Try grounding techniques like mindful breathing or meditation.",
    "Anger" := "Consider deep breathing exercises or a brief walk to cool down.",
    "Sadness" := "Try journaling or talking with a trusted friend.",
    "Disgust" := "Focus on what\U{2019}s triggering your aversion and reframe the situation; consider professional support if needed."
  ]

  /**
   * The labels the page renders as the options under `key`: the layer's list,
   * or nothing when `key` has no entry (the container is cleared first, and
   * drawing buttons from the missing list then fails).
   */
  function Lookup(layer: map<string, seq<string>>, key: string): (r: seq<string>)
    ensures key in layer ==> r == layer[key]
    ensures key !in layer ==> r == []
  {
    if key in layer then layer[key] else []
  }

  /**
   * The tree is exhaustive: the middle layer has an entry for exactly the
   * core labels, every label listed there has an outer entry, and every list
   * holds two labels.
   */
  lemma TreeExhaustive()
    ensures forall c | c in CoreLabels :: c in Middle && |Middle[c]| == 2
    ensures forall c | c in Middle :: c in CoreLabels
    ensures forall c, m | c in Middle && m in Middle[c] :: m in Outer && |Outer[m]| == 2
  {
  }

  /** No label of any layer is the empty string (which JavaScript treats as false). */
  lemma LabelsNonEmpty()
    ensures forall c | c in CoreLabels :: c != ""
    ensures forall c, m | c in Middle && m in Middle[c] :: m != ""
    ensures forall m, o | m in Outer && o in Outer[m] :: o != ""
  {
  }

  /** The core list has no repeats. */
  lemma CoreLabelsDistinct()
    ensures forall i, j | 0 <= i < j < |CoreLabels| :: CoreLabels[i] != CoreLabels[j]
  {
  }

  /** The two labels of each middle and outer list differ. */
  lemma ListsDistinct()
    ensures forall c, i, j | c in Middle && 0 <= i < j < |Middle[c]| :: Middle[c][i] != Middle[c][j]
    ensures forall m, i, j | m in Outer && 0 <= i < j < |Outer[m]| :: Outer[m][i] != Outer[m][j]
  {
  }

  /** A middle label is listed under exactly one core label. */
  lemma MiddleParentUnique()
    ensures forall c1, c2, m | c1 in Middle && c2 in Middle && m in Middle[c1] && m in Middle[c2] :: c1 == c2
  {
  }

  /** An outer label is listed under exactly one middle label. */
  lemma OuterParentUnique()
    ensures forall m1, m2, o | m1 in Outer && m2 in Outer && o in Outer[m1] && o in Outer[m2] :: m1 == m2
  {
  }

  /**
   * Labels are unique within their layer: the core list has no repeats, the
   * two labels of each list differ, and a middle (outer) label is listed
   * under exactly one core (middle) label.
   */
  lemma LabelsUnique()
    ensures forall i, j | 0 <= i < j < |CoreLabels| :: CoreLabels[i] != CoreLabels[j]
    ensures forall c, i, j | c in Middle && 0 <= i < j < |Middle[c]| :: Middle[c][i] != Middle[c][j]
    ensures forall m, i, j | m in Outer && 0 <= i < j < |Outer[m]| :: Outer[m][i] != Outer[m][j]
    ensures forall c1, c2, m | c1 in Middle && c2 in Middle && m in Middle[c1] && m in Middle[c2] :: c1 == c2
    ensures forall m1, m2, o | m1 in Outer && m2 in Outer && o in Outer[m1] && o in Outer[m2] :: m1 == m2
  {
    CoreLabelsDistinct();
    ListsDistinct();
    MiddleParentUnique();
    OuterParentUnique();
  }

  /**
   * Advice is keyed by core labels only; "Joy" and "Surprise" have none, and
   * every advice text is non-empty.
   */
  lemma AdviceKeysAreCoreLabels()
    ensures forall c | c in NegativeAdvice :: c in CoreLabels && NegativeAdvice[c] != ""
    ensures "Joy" !in NegativeAdvice && "Surprise" !in NegativeAdvice
  {
  }

  /** The sorted core list is in order and holds exactly the six declared labels. */
  lemma SortedCoreLabelsCorrect()
    ensures Sorted(SortedCoreLabels)
    ensures multiset(SortedCoreLabels) == multiset(CoreLabels)
  {
    SortedCoreLabelsInOrder();
    SortedCoreLabelsPermutation();
  }

  lemma SortedCoreLabelsInOrder()
    ensures Sorted(SortedCoreLabels)
  {
    assert LessEq("Anger", "Disgust");
    assert LessEq("Disgust", "Fear");
    assert LessEq("Fear", "Joy");
    assert LessEq("Joy", "Sadness");
    assert LessEq("Sadness", "Surprise");
  }

  lemma SortedCoreLabelsPermutation()
    ensures multiset(SortedCoreLabels) == multiset(CoreLabels)
  {
  }

  /**
   * The startup sort of the core list: copies the declared labels into an
   * array, sorts it in place, and returns its contents, which are exactly
   * SortedCoreLabels.
   */
  method SortCoreLabels() returns (core: seq<string>)
    ensures Sorted(core)
    ensures multiset(core) == multiset(CoreLabels)
    ensures core == SortedCoreLabels
  {
    var a := new string[|CoreLabels|](i requires 0 <= i < |CoreLabels| => CoreLabels[i]);
    assert a[..] == CoreLabels;
    SortInPlace(a);
    core := a[..];
    SortedCoreLabelsCorrect();
    SortedUnique(core, SortedCoreLabels);
  }
}
