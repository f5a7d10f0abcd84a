# Emotion wheel selection wizard — a Dafny model

This project models the core of the EmotionIdentifier page script (`js/script.js`). That core is a three-step wizard over a fixed emotion tree. In step 1 the user picks a core emotion from a pie chart. In step 2 they pick a middle emotion listed under it, and in step 3 an outer emotion listed under that. A summary then names the identified emotion. For the negative core emotions it gives a piece of advice; for the others it shows a thank-you note. A breadcrumb of four buttons shows how far the user has come, and a restart button starts over.

Modules:

- `Wrappers` (`wrappers.dfy`): `Option`, standing for JavaScript's `null` or a present label.
- `StringOrder` (`string_order.dfy`): the order JavaScript's comparator-less `sort()` puts strings in. This file proves that order is total, antisymmetric and transitive, and proves that a sorted permutation is unique. It also holds the in-place insertion sort on an `array<string>`.
- `EmotionWheel` (`emotion_wheel.dfy`): the core list, the middle and outer layers as maps, and the advice table. It also has lemmas that the tree is exhaustive, and the startup sort of the core list.
- `Summary` (`summary.dfy`): the selection record, plus the label and message the summary shows.
- `Wizard` (`wizard.dfy`): the page state as a value (`PageState`) and the transition functions for choosing, restarting and loading. It also holds the stage invariant (`AtStage`) that clicking preserves. The class `EmotionWizard` keeps the same state in fields and a four-element `disabled` array, and its handlers are proved to perform exactly those transitions.

Behaviour of the page script that the model keeps:

- The handler does not check that the chosen label is one the current step offers. The model keeps the handler total. Only drawing the next options can fail: step 1 fails when the label has no middle entry, step 2 when it has no outer entry. In that case the handler stops after its earlier writes (`completed == false`, empty button list).
- A step number other than 1, 2 or 3 changes nothing.
- Step 3 can run before steps 1 and 2: a restart from step 3 leaves its buttons shown (js/script.js:327), and a click there computes the summary with `core` and `middle` still null (`StaleOuterClick`). The fallback `outer || middle || core` is modelled as written.
- That the selection is filled top-down is not enforced by the code. It holds only while users click what is shown, which is stated as `AtStage` and proved preserved by `ClickAdvances`.
- Restarting hides only the summary section and shows step 1; it does not hide steps 2 or 3. So the page is back at a single shown step 1 only when restarted from step 1 or the summary (`RestartReturnsToStep1`).

## Model

| member | source | states |
|---|---|---|
| StringOrder.LessEqTotal | js/script.js:106 | any two strings are comparable in the default sort order |
| StringOrder.LessEqAntisymmetric | js/script.js:106 | two strings each sorting no later than the other are equal |
| StringOrder.LessEqTransitive | js/script.js:106 | the default sort order is transitive |
| StringOrder.LessEqReflexive | js/script.js:106 | every string sorts no later than itself |
| StringOrder.SortedHeadLeast | js/script.js:106 | the first element of a sorted list sorts no later than any other element |
| StringOrder.SortedUnique | js/script.js:106 | two sorted lists that are permutations of each other are equal, so the sort's result does not depend on the algorithm |
| StringOrder.SortInPlace | js/script.js:106 | the array is sorted in place into ascending order and stays a permutation of its old contents |
| EmotionWheel.TreeExhaustive | js/script.js:22-50 | every core label has a middle entry and every middle key is a core label; every label listed in the middle layer has an outer entry; every list holds two labels |
| EmotionWheel.LabelsUnique | js/script.js:22-50 | labels are unique within their layer: the core list has no repeats, the two labels of each list differ, a middle label is listed under exactly one core label and an outer label under exactly one middle label |
| EmotionWheel.LabelsNonEmpty | js/script.js:22-50 | no label of any layer is the empty string |
| EmotionWheel.AdviceKeysAreCoreLabels | js/script.js:54-61 | every advice key is a core label with a non-empty text; "Joy" and "Surprise" have no advice |
| EmotionWheel.SortedCoreLabelsCorrect | js/script.js:24 | the list Anger, Disgust, Fear, Joy, Sadness, Surprise is sorted and a permutation of the declared core list |
| EmotionWheel.SortCoreLabels | js/script.js:106 | the startup sort leaves the core list sorted, a permutation of the original six labels, and equal to Anger, Disgust, Fear, Joy, Sadness, Surprise |
| EmotionWheel.Lookup | js/script.js:236-246 | the options drawn under a label are the layer's list for it, or none when the layer has no entry (the container is cleared before drawing fails); used at js/script.js:257 and 264 |
| Summary.FinalLabel | js/script.js:277-278 | the identified label is one of the three fields; it is a non-empty label exactly when some field is; a set outer label always wins, a set middle label loses only to the outer one, and when neither holds a non-empty label the result is `core` as it is |
| Summary.SummaryFor | js/script.js:276-290 | the summary names FinalLabel of the selection, and shows advice exactly when the core label is an advice key, naming that core label and carrying the key's text; otherwise the thank-you note with its fixed text |
| Summary.AdviceFor | js/script.js:282-290 | advice is shown exactly when the core label is a key of the advice table, and it is that key's text; otherwise the thank-you note, with its fixed text, is shown |
| Summary.CompletePathIdentifiesOuter | js/script.js:276-290 | for any core, middle and outer label chosen down the tree, the summary names the outer label and carries the core label's advice |
| Summary.AdvicePresence | js/script.js:54-61 | "Joy", "Surprise" and an empty core get the thank-you note; "Fear" gets its grounding advice |
| Wizard.CrumbsFor | js/script.js:298-320 | after a breadcrumb update exactly the first EnabledCount(step) of the four buttons are enabled: 1, 2, 3 for steps 1, 2, 3, all four for "summary", none otherwise |
| Wizard.AfterSelection | js/script.js:249-273 | steps 1, 2 and 3 write only their own field (core, middle, outer) and leave the other two alone; the breadcrumb moves to step k+1, or to "summary" after step 3; step k's section is hidden and the next one shown; the next options are the middle list (after step 1) or the outer list (after step 2) of the chosen label, and the other button list is untouched; step 3 sets the summary text and only step 3 changes it; any other step changes nothing |
| Wizard.Initial | js/script.js:346-356 | the loaded page shows step 1 alone with the pie drawn from the core list, the breadcrumb at step 1, nothing chosen, no buttons and no summary text |
| Wizard.Restarted | js/script.js:323-333 | whatever the prior page, the selection is empty, the breadcrumb is at step 1, the summary is hidden and emptied, step 1 is shown with the pie drawn from the core list, no other section's visibility changes, and the step 2 and step 3 buttons stay as they were |
| Wizard.InitialAtStep1 | js/script.js:346-356 | the loaded page stands at step 1, and restarting it changes nothing |
| Wizard.ClickAdvances | js/script.js:249-273 | at every stage only the shown step can be clicked, nothing at the summary; a click on an offered label never fails and moves the page to the next stage, with the fields chosen top-down along the tree |
| Wizard.ThreeChoices | js/script.js:249-290 | three clicks on offered labels from a freshly loaded page reach the summary, which names the step-3 label and gives the advice for the step-1 label |
| Wizard.RestartIdempotent | js/script.js:323-327 | restarting twice gives the same page as restarting once |
| Wizard.RestartReturnsToStep1 | js/script.js:323-333 | restarting from step 1 or from the summary puts the page back at step 1 with nothing chosen |
| Wizard.StaleOuterClick | js/script.js:323-333 | after a restart from step 3 the old step-3 buttons stay clickable; a click runs step 3 with core and middle null, and the summary names that outer label with the thank-you note |
| Wizard.EmotionWizard.constructor | js/script.js:346-356 | loading sorts the core list and initialises the page to the initial state: step 1 shown, the pie drawn in sorted order, the breadcrumb at step 1, nothing chosen |
| Wizard.EmotionWizard.UpdateBreadcrumb | js/script.js:298-320 | the four `disabled` flags become CrumbsFor(step): all disabled except the first one, two or three for step 1, 2 or 3, and all four for "summary"; any other argument leaves all four disabled |
| Wizard.EmotionWizard.DisplaySummary | js/script.js:276-291 | the summary shown is the final label and the advice for the current selection |
| Wizard.EmotionWizard.HandleSelection | js/script.js:249-273 | the new page is AfterSelection of the old page; the handler completes unless the next layer has no entry for the label |
| Wizard.EmotionWizard.RestartApp | js/script.js:323-333 | the new page is Restarted of the old page, with the pie redrawn from the sorted core list |
| Wizard.IdentifyEmotion | js/script.js:249-290 | a session on a freshly loaded page, choosing a core label, a middle label under it and an outer label under that, ends with a summary naming the outer label and carrying the core label's advice |

## Left out

- The SVG pie chart (`renderPieChart`, `addArcLabel`, `describeArc`, `polarToCartesian`) is DOM construction plus floating-point trigonometry. The model keeps only which core labels the pie offers, in order.
- `getRandomPastelColor` and `colorMap` are left out: they depend on randomness, HSL strings and browser storage.
- All `localStorage` writes and `clear()` are left out: they are persistence I/O, and nothing in the core reads them back.
- DOM plumbing is left out: element lookups, the markup and text of the summary, and event-listener wiring. Sections are an abstract enum. A click is modelled as the `Clickable` condition: the step's section is shown and the label is drawn there.
- The page's HTML is not part of this model. Before `init` runs, the step 2 and step 3 containers and the summary elements are taken to be empty.
- Breadcrumb back-navigation is not modelled, because the breadcrumb buttons have no click handler.
- Summary.AdviceFor: models the advice table as a plain map. The source indexes a plain JavaScript object, so a core label naming an inherited property (such as "constructor") would also read as present. No label in the tree does.
- StringOrder.SortInPlace: the browser's own sort algorithm is not modelled; an insertion sort stands in for it. By `SortedUnique`, every sort that leaves the array sorted and a permutation of its input gives the same array.
- Characters are compared as Unicode scalar values, not UTF-16 code units. The two orders agree on the ASCII labels used here.
