/**
 * The page's three-step selection wizard: the selection record, the four
 * breadcrumb buttons, which sections are shown, the option lists currently
 * drawn in each step's container, and the summary text.
 *
 * PageState and the functions on it say what each handler does to the page;
 * the class EmotionWizard holds that state in fields and a `disabled` array
 * and its methods are proved to perform exactly those transitions.
 */
module Wizard {
  import opened Wrappers
  import opened EmotionWheel
  import opened Summary

  /** The four sections of the page: the three steps and the summary. */
  datatype Section = Step1 | Step2 | Step3 | SummarySection

  /** The argument of the breadcrumb update: a step number or a name such as "summary". */
  datatype CrumbArg = Number(n: int) | Text(name: string)

  /** How many breadcrumb buttons, counted from the first, an update leaves enabled. */
  function EnabledCount(step: CrumbArg): nat
  {
    match step
    case Number(n) => if n == 1 then 1 else if n == 2 then 2 else if n == 3 then 3 else 0
    case Text(name) => if name == "summary" then 4 else 0
  }

  /** The `disabled` flags of the buttons for step 1, step 2, step 3 and summary after an update. */
  function CrumbsFor(step: CrumbArg): (d: seq<bool>)
    ensures |d| == 4
    ensures forall i | 0 <= i < 4 :: !d[i] <==> i < EnabledCount(step)
  {
    seq(4, i => i >= EnabledCount(step))
  }

  /** The breadcrumb argument each section is reached with. */
  function CrumbOf(s: Section): CrumbArg
  {
    match s
    case Step1 => Number(1)
    case Step2 => Number(2)
    case Step3 => Number(3)
    case SummarySection => Text("summary")
  }

  /** The observable state of the page. */
  datatype PageState = PageState(
    sel: Selection,
    disabled: seq<bool>,          // bc-step-1, bc-step-2, bc-step-3, bc-summary
    visible: set<Section>,
    pie: seq<string>,             // slices drawn for step 1
    middleButtons: seq<string>,   // buttons drawn for step 2
    outerButtons: seq<string>,    // buttons drawn for step 3
    shown: Option<SummaryView>)   // summary text; None when both summary elements are empty

  /** The selection field a step writes: 1 core, 2 middle, 3 outer. */
  function Chosen(sel: Selection, step: int): Option<string>
  {
    if step == 1 then sel.core else if step == 2 then sel.middle else if step == 3 then sel.outer else None
  }

  /** Whether the handler for `step` runs to its end: drawing the next options fails when the label has no entry. */
  predicate Completes(step: int, option: string)
  {
    (step == 1 ==> option in Middle) && (step == 2 ==> option in Outer)
  }

  /**
   * The page after `option` is chosen at `step`. Steps 1, 2 and 3 record the
   * label in their own field only, move the breadcrumb on, swap the shown
   * section for the next one, and draw the next options (steps 1 and 2) or
   * the summary (step 3). Any other step changes nothing.
   */
  function AfterSelection(p: PageState, step: int, option: string): (r: PageState)
    ensures !(1 <= step <= 3) ==> r == p
    ensures 1 <= step <= 3 ==> Chosen(r.sel, step) == Some(option)
    ensures forall k | 1 <= k <= 3 && k != step :: Chosen(r.sel, k) == Chosen(p.sel, k)
    ensures step == 1 ==> r.disabled == CrumbsFor(Number(2)) && r.middleButtons == Lookup(Middle, option)
    ensures step == 2 ==> r.disabled == CrumbsFor(Number(3)) && r.outerButtons == Lookup(Outer, option)
    ensures step == 3 ==> r.disabled == CrumbsFor(Text("summary")) && r.shown == Some(SummaryFor(r.sel))
    ensures 1 <= step <= 3 ==> r.pie == p.pie
    ensures step == 1 ==> r.visible == p.visible - {Step1} + {Step2}
    ensures step == 2 ==> r.visible == p.visible - {Step2} + {Step3}
    ensures step == 3 ==> r.visible == p.visible - {Step3} + {SummarySection}
    ensures step != 1 ==> r.middleButtons == p.middleButtons
    ensures step != 2 ==> r.outerButtons == p.outerButtons
    ensures step != 3 ==> r.shown == p.shown
  {
    if step == 1 then
      p.(sel := p.sel.(core := Some(option)),
         disabled := CrumbsFor(Number(2)),
         visible := p.visible - {Step1} + {Step2},
         middleButtons := Lookup(Middle, option))
    else if step == 2 then
      p.(sel := p.sel.(middle := Some(option)),
         disabled := CrumbsFor(Number(3)),
         visible := p.visible - {Step2} + {Step3},
         outerButtons := Lookup(Outer, option))
    else if step == 3 then
      var sel := p.sel.(outer := Some(option));
      p.(sel := sel,
         disabled := CrumbsFor(Text("summary")),
         visible := p.visible - {Step3} + {SummarySection},
         shown := Some(SummaryFor(sel)))
    else
      p
  }

  /**
   * The page after a restart: the selection is cleared, the breadcrumb is back
   * at step 1, the summary is hidden and emptied, step 1 is shown and the pie
   * is redrawn from the core list, whatever the page was before.
   */
  function Restarted(p: PageState, coreOrder: seq<string>): (r: PageState)
    ensures r.sel == NoSelection && r.disabled == CrumbsFor(Number(1)) && r.shown == None
    ensures Step1 in r.visible && SummarySection !in r.visible && r.pie == coreOrder
    ensures r.visible - {Step1} == p.visible - {Step1, SummarySection}
    ensures r.middleButtons == p.middleButtons && r.outerButtons == p.outerButtons
  {
    p.(sel := NoSelection,
       disabled := CrumbsFor(Number(1)),
       visible := p.visible - {SummarySection} + {Step1},
       pie := coreOrder,
       shown := None)
  }

  /** The page once loaded: step 1 alone shown with the pie drawn, nothing chosen. */
  function Initial(coreOrder: seq<string>): (p: PageState)
    ensures p.sel == NoSelection && p.shown == None
    ensures p.visible == {Step1} && p.pie == coreOrder
    ensures p.disabled == CrumbsFor(Number(1))
    ensures p.middleButtons == [] && p.outerButtons == []
  {
    PageState(NoSelection, CrumbsFor(Number(1)), {Step1}, coreOrder, [], [], None)
  }

  /** The number of the step each section belongs to; the summary comes fourth. */
  function Index(s: Section): nat
  {
    match s
    case Step1 => 1
    case Step2 => 2
    case Step3 => 3
    case SummarySection => 4
  }

  function Next(s: Section): Section
  {
    match s
    case Step1 => Step2
    case Step2 => Step3
    case Step3 => SummarySection
    case SummarySection => SummarySection
  }

  /**
   * The first `depth` fields are filled top-down along the tree and the rest
   * are empty: a core label, a middle label offered under it, an outer label
   * offered under that.
   */
  predicate ChosenDownTo(sel: Selection, depth: nat)
  {
    && (depth >= 1 <==> sel.core.Some?)
    && (depth >= 2 <==> sel.middle.Some?)
    && (depth >= 3 <==> sel.outer.Some?)
    && (sel.core.Some? ==> sel.core.value in CoreLabels)
    && (sel.middle.Some? ==> sel.middle.value in Lookup(Middle, sel.core.value))
    && (sel.outer.Some? ==> sel.outer.value in Lookup(Outer, sel.middle.value))
  }

  /**
   * The page stands at section `s` of the wizard: only that section is shown,
   * the fields before it are chosen down the tree, the breadcrumb enables the
   * steps up to it, the section offers the options the tree lists for the
   * previous choice, and the summary text is there exactly at the summary.
   */
  predicate AtStage(p: PageState, s: Section)
  {
    && p.visible == {s}
    && ChosenDownTo(p.sel, Index(s) - 1)
    && p.disabled == CrumbsFor(CrumbOf(s))
    && (s == Step1 ==> forall c | c in p.pie :: c in CoreLabels)
    && (s == Step2 ==> p.middleButtons == Lookup(Middle, p.sel.core.value))
    && (s == Step3 ==> p.outerButtons == Lookup(Outer, p.sel.middle.value))
    && p.shown == (if s == SummarySection then Some(SummaryFor(p.sel)) else None)
  }

  /** A user can click `option` for `step`: its section is shown and the option is drawn there. */
  predicate Clickable(p: PageState, step: int, option: string)
  {
    || (step == 1 && Step1 in p.visible && option in p.pie)
    || (step == 2 && Step2 in p.visible && option in p.middleButtons)
    || (step == 3 && Step3 in p.visible && option in p.outerButtons)
  }

  /** Loading the page puts it at step 1. */
  lemma InitialAtStep1(coreOrder: seq<string>)
    requires forall c | c in coreOrder :: c in CoreLabels
    ensures AtStage(Initial(coreOrder), Step1)
    ensures Restarted(Initial(coreOrder), coreOrder) == Initial(coreOrder)
  {
  }

  /**
   * The wizard is linear: at every stage a click is possible only on the
   * shown step, never at the summary, and it moves the page to the next
   * stage with the next options drawn from the tree.
   */
  lemma ClickAdvances(p: PageState, s: Section, step: int, option: string)
    requires AtStage(p, s) && Clickable(p, step, option)
    ensures s != SummarySection && step == Index(s)
    ensures Completes(step, option)
    ensures AtStage(AfterSelection(p, step, option), Next(s))
  {
    TreeExhaustive();
  }

  /**
   * Three clicks from a freshly loaded page, each on an offered label, reach
   * the summary, which names the label chosen in step 3 and gives the advice
   * for the core label chosen in step 1.
   */
  lemma ThreeChoices(coreOrder: seq<string>, c: string, m: string, o: string)
    requires forall x | x in coreOrder :: x in CoreLabels
    requires c in coreOrder && m in Lookup(Middle, c) && o in Lookup(Outer, m)
    ensures var p3 := AfterSelection(AfterSelection(AfterSelection(Initial(coreOrder), 1, c), 2, m), 3, o);
      AtStage(p3, SummarySection) && p3.shown == Some(SummaryView(Some(o), AdviceFor(Some(c))))
  {
    var p0 := Initial(coreOrder);
    InitialAtStep1(coreOrder);
    ClickAdvances(p0, Step1, 1, c);
    var p1 := AfterSelection(p0, 1, c);
    ClickAdvances(p1, Step2, 2, m);
    var p2 := AfterSelection(p1, 2, m);
    ClickAdvances(p2, Step3, 3, o);
    CompletePathIdentifiesOuter(c, m, o);
  }

  /** Restarting twice leaves the page as restarting once. */
  lemma RestartIdempotent(p: PageState, coreOrder: seq<string>)
    ensures Restarted(Restarted(p, coreOrder), coreOrder) == Restarted(p, coreOrder)
  {
  }

  /** Restarting from step 1 or from the summary puts the page back at step 1. */
  lemma RestartReturnsToStep1(p: PageState, coreOrder: seq<string>)
    requires p.visible <= {Step1, SummarySection}
    requires forall c | c in coreOrder :: c in CoreLabels
    ensures AtStage(Restarted(p, coreOrder), Step1)
  {
    assert Restarted(p, coreOrder).visible == {Step1};
  }

  /**
   * Restarting from step 3 hides only the summary, so the old step-3 buttons
   * stay shown beside step 1. A click on one of them runs step 3 with nothing
   * chosen for core and middle: the summary names that outer label and,
   * core being null, shows the thank-you note.
   */
  lemma StaleOuterClick(p: PageState, coreOrder: seq<string>, o: string)
    requires AtStage(p, Step3) && o in p.outerButtons
    ensures Clickable(Restarted(p, coreOrder), 3, o)
    ensures AfterSelection(Restarted(p, coreOrder), 3, o).sel == Selection(None, None, Some(o))
    ensures AfterSelection(Restarted(p, coreOrder), 3, o).shown == Some(SummaryView(Some(o), ThankYou(ThankYouText)))
  {
    LabelsNonEmpty();
  }

  /** The page's mutable state, updated in place by the event handlers. */
  class EmotionWizard {
    var core: Option<string>
    var middle: Option<string>
    var outer: Option<string>
    /** The `disabled` flags of bc-step-1, bc-step-2, bc-step-3 and bc-summary. */
    const disabled: array<bool>
    var visible: set<Section>
    var pie: seq<string>
    var middleButtons: seq<string>
    var outerButtons: seq<string>
    var shown: Option<SummaryView>
    /** The core list as sorted at load; step 1 is always drawn from it. */
    const coreOrder: seq<string>

    ghost predicate Valid()
      reads this
    {
      disabled.Length == 4
    }

    /** The abstract page these fields hold. */
    ghost function State(): PageState
      reads this, disabled
    {
      PageState(Selection(core, middle, outer), disabled[..], visible, pie, middleButtons, outerButtons, shown)
    }

    /** Loading the script (which sorts the core list) and then initialising the page. */
    constructor ()
      ensures Valid() && fresh(disabled)
      ensures coreOrder == SortedCoreLabels
      ensures State() == Initial(coreOrder)
    {
      var sorted := SortCoreLabels();
      coreOrder := sorted;
      core, middle, outer := None, None, None;
      disabled := new bool[4];
      visible := {Step1};
      pie := sorted;
      middleButtons, outerButtons := [], [];
      shown := None;
      new;
      UpdateBreadcrumb(Number(1));
    }

    /**
     * Disables all four breadcrumb buttons, then enables the first one, two
     * or three for step 1, 2 or 3, and all four for "summary"; any other
     * argument leaves all four disabled.
     */
    method UpdateBreadcrumb(step: CrumbArg)
      requires Valid()
      modifies disabled
      ensures Valid()
      ensures disabled[..] == CrumbsFor(step)
    {
      disabled[0] := true;
      disabled[1] := true;
      disabled[2] := true;
      disabled[3] := true;
      if step == Number(1) {
        disabled[0] := false;
      } else if step == Number(2) {
        disabled[0] := false;
        disabled[1] := false;
      } else if step == Number(3) {
        disabled[0] := false;
        disabled[1] := false;
        disabled[2] := false;
      } else if step == Text("summary") {
        disabled[0] := false;
        disabled[1] := false;
        disabled[2] := false;
        disabled[3] := false;
      }
      assert disabled[..] == CrumbsFor(step);
    }

    /** Shows the summary for the current selection. */
    method DisplaySummary()
      modifies this`shown
      ensures shown == Some(SummaryFor(Selection(core, middle, outer)))
    {
      var sel := Selection(core, middle, outer);
      shown := Some(SummaryView(FinalLabel(sel), AdviceFor(core)));
    }

    /**
     * The handler for choosing `option` at `step`. `completed` is false when
     * the handler stops part-way, because the next layer has no entry for
     * `option`; what it changed before that point stays changed.
     */
    method HandleSelection(step: int, option: string) returns (completed: bool)
      requires Valid()
      modifies this, disabled
      ensures Valid()
      ensures State() == AfterSelection(old(State()), step, option)
      ensures completed == Completes(step, option)
    {
      completed := true;
      if step == 1 {
        core := Some(option);
        UpdateBreadcrumb(Number(2));
        visible := visible - {Step1} + {Step2};
        middleButtons := [];
        if option in Middle {
          middleButtons := Middle[option];
        } else {
          completed := false;
        }
      } else if step == 2 {
        middle := Some(option);
        UpdateBreadcrumb(Number(3));
        visible := visible - {Step2} + {Step3};
        outerButtons := [];
        if option in Outer {
          outerButtons := Outer[option];
        } else {
          completed := false;
        }
      } else if step == 3 {
        outer := Some(option);
        UpdateBreadcrumb(Text("summary"));
        visible := visible - {Step3} + {SummarySection};
        DisplaySummary();
      }
    }

    /** The restart handler. */
    method RestartApp()
      requires Valid()
      modifies this, disabled
      ensures Valid()
      ensures State() == Restarted(old(State()), coreOrder)
    {
      core, middle, outer := None, None, None;
      UpdateBreadcrumb(Number(1));
      visible := visible - {SummarySection} + {Step1};
      shown := None;
      pie := coreOrder;
    }
  }

  /**
   * One session on a freshly loaded page: the user picks `c` in the pie, `m`
   * among the middle buttons and `o` among the outer buttons. The summary then
   * names `o` and carries the advice for `c`.
   */
  method IdentifyEmotion(c: string, m: string, o: string) returns (view: SummaryView)
    requires c in CoreLabels && m in Lookup(Middle, c) && o in Lookup(Outer, m)
    ensures view.identified == Some(o)
    ensures view.message == AdviceFor(Some(c))
  {
    var w := new EmotionWizard();
    SortedCoreLabelsCorrect();
    assert c in multiset(w.coreOrder);
    ThreeChoices(w.coreOrder, c, m, o);
    var done := w.HandleSelection(1, c);
    done := w.HandleSelection(2, m);
    done := w.HandleSelection(3, o);
    view := w.shown.value;
  }
}
