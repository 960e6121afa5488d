# Editor state machines of the Eclipse Java UI, modelled in Dafny

This project models three small stateful pieces of the Eclipse JDT UI plug-ins. The Eclipse host objects
they use are replaced by plain values.

- **Content-assist category cycling** (`content_assist.dfy`, module `ContentAssist`). This is the
  `ContentAssistProcessor` that asks the registered completion-proposal categories for proposals. During
  one assist session it cycles through the "default mix" and then each separate-command category, one
  per invocation. A category is a record `(name, sortOrder, included, separateCommand, partitions with
  computers)`. What a category's proposal computers return is a parameter. The assistant's messages
  are modelled by their arguments, not by their text.
- **Current-line highlighter** (`line_painter.dfy`, module `LinePainting`). This is the `LinePainter`
  that gives the caret's line a highlight background and asks the widget to redraw the old and the new
  line when the caret changes lines. The styled-text widget is reduced to its line starts, character
  count, caret, background colour, set of line-background listeners and a log of redraw requests.
- **Rename participant** (`rename_participant.dfy`, module `RenameParticipant`). This is the example
  `MyRenameTypeParticipant`: one text change per `*.special` file and one replace edit per match of the
  renamed type's simple name. It skips files that another participant already changes. The text search
  is the sequence of matches it reports. "Another participant already has a text change for this file"
  is the set `changedByOthers`.

`sequences.dfy` (module `Sequences`) holds the order-preserving filter used for the category lists and
for removing `&` from names. `wrappers.dfy` holds `Option`, which stands for Java's `null`.

Each stateful class is a Dafny `class` with the source's fields. Each method's postcondition gives the
new value of every field it may change. This holds for the painter, for the processor and the assistant
it drives, and for the collector's changes and the returned composite. The pure parts (the category
lists, labels, the grouping of matches per file) are functions, and lemmas prove what the source
promises about them.

## Model

| member | source | states |
|---|---|---|
| `ContentAssist.SortByOrderCorrect` | org.eclipse.jdt.ui/ui/org/eclipse/jdt/internal/ui/text/java/ContentAssistProcessor.java:65-69 | sorting by the sort-order comparator gives an ascending list that is a permutation of its input and is stable: categories with equal sort order keep their relative order |
| `ContentAssist.DefaultCategoriesSpec` | org.eclipse.jdt.ui/ui/org/eclipse/jdt/internal/ui/text/java/ContentAssistProcessor.java:293-300 | the default mix holds exactly the included categories that have computers for the partition, each as often as in the registry, in registry order |
| `ContentAssist.SeparateCategoriesSpec` | org.eclipse.jdt.ui/ui/org/eclipse/jdt/internal/ui/text/java/ContentAssistProcessor.java:302-309 | the separate categories are exactly the separate-command categories with computers (with multiplicity), ascending by sort order, ties in registry order |
| `ContentAssist.CategoryIteration` | org.eclipse.jdt.ui/ui/org/eclipse/jdt/internal/ui/text/java/ContentAssistProcessor.java:285-291 | the iteration sequence is the default mix followed by one singleton list per separate category, so its length is 1 + their number (never 0) |
| `ContentAssist.SelectionCycle` | org.eclipse.jdt.ui/ui/org/eclipse/jdt/internal/ui/text/java/ContentAssistProcessor.java:277-282 | the k-th invocation of a session consults the default mix when k mod (n+1) = 0 and otherwise the single separate category number k mod (n+1), so the invocations cycle |
| `ContentAssist.StripAmpersands` | org.eclipse.jdt.ui/ui/org/eclipse/jdt/internal/ui/text/java/ContentAssistProcessor.java:334-336 | the label text of a category contains no `&`, and a name without `&` is returned unchanged |
| `ContentAssist.StripAmpersandsSpec` | org.eclipse.jdt.ui/ui/org/eclipse/jdt/internal/ui/text/java/ContentAssistProcessor.java:334-336 | removing `&` keeps every other character, as often as it occurs and in its order, and removing again changes nothing |
| `ContentAssist.CategoryLabel` | org.eclipse.jdt.ui/ui/org/eclipse/jdt/internal/ui/text/java/ContentAssistProcessor.java:327-332 | the label is the default label iff the repetition is 0 modulo the sequence length; any other label contains no `&` |
| `ContentAssist.LabelNamesSelection` | org.eclipse.jdt.ui/ui/org/eclipse/jdt/internal/ui/text/java/ContentAssistProcessor.java:327-336 | the default label goes with the default mix; any other label is the `&`-free name of the one separate category consulted at that repetition |
| `ContentAssist.CollectedOrigin` | org.eclipse.jdt.ui/ui/org/eclipse/jdt/internal/ui/text/java/ContentAssistProcessor.java:147-154 | a proposal is collected iff some consulted category computed it |
| `ContentAssist.ContentAssistProcessor.constructor` | org.eclipse.jdt.ui/ui/org/eclipse/jdt/internal/ui/text/java/ContentAssistProcessor.java:71-87 | a new processor is outside a session (repetition -1, no iteration, no gesture) and keeps the registry, the partition and the assistant |
| `ContentAssist.ContentAssistProcessor.SetCompletionProposalAutoActivationCharacters` | org.eclipse.jdt.ui/ui/org/eclipse/jdt/internal/ui/text/java/ContentAssistProcessor.java:216-225 | the getter returns the array last given to the setter |
| `ContentAssist.ContentAssistProcessor.GetDefaultCategories` | org.eclipse.jdt.ui/ui/org/eclipse/jdt/internal/ui/text/java/ContentAssistProcessor.java:293-300 | the loop builds exactly the default mix |
| `ContentAssist.ContentAssistProcessor.GetSeparateCategories` | org.eclipse.jdt.ui/ui/org/eclipse/jdt/internal/ui/text/java/ContentAssistProcessor.java:302-309 | the loop and the sort build exactly the sorted separate categories |
| `ContentAssist.ContentAssistProcessor.GetCategoryIteration` | org.eclipse.jdt.ui/ui/org/eclipse/jdt/internal/ui/text/java/ContentAssistProcessor.java:285-291 | the loop builds exactly the iteration sequence |
| `ContentAssist.ContentAssistProcessor.AssistSessionStarted` | org.eclipse.jdt.ui/ui/org/eclipse/jdt/internal/ui/text/java/ContentAssistProcessor.java:93-108 | for this processor: the iteration is set, repetition becomes 0, and cycling mode and the empty list are on iff the sequence has more than one element; with cycling on, the message names the current and next labels and the gesture. Events of another processor change nothing |
| `ContentAssist.ContentAssistProcessor.AssistSessionEnded` | org.eclipse.jdt.ui/ui/org/eclipse/jdt/internal/ui/text/java/ContentAssistProcessor.java:113-122 | for this processor: iteration and gesture are dropped, repetition becomes -1, and cycling mode and the empty list are off. Events of another processor change nothing |
| `ContentAssist.ContentAssistProcessor.GetCategories` | org.eclipse.jdt.ui/ui/org/eclipse/jdt/internal/ui/text/java/ContentAssistProcessor.java:273-283 | outside a session: the whole registry, with nothing changed. Inside: the element at repetition mod size, the iteration and empty messages for that repetition, and repetition increased by exactly 1 |
| `ContentAssist.ContentAssistProcessor.CollectProposals` | org.eclipse.jdt.ui/ui/org/eclipse/jdt/internal/ui/text/java/ContentAssistProcessor.java:147-154 | the proposals are the concatenation of what each selected category computes, in category order; inside a session repetition increases by 1 and the assistant's iteration and empty messages are set for the old repetition, outside it the assistant is unchanged |
| `ContentAssist.ContentAssistProcessor.ComputeCompletionProposals` | org.eclipse.jdt.ui/ui/org/eclipse/jdt/internal/ui/text/java/ContentAssistProcessor.java:130-167 | the result is the collected proposals unchanged, because the default filter and sort return their input; repetition and the assistant's messages change as in `CollectProposals` |
| `ContentAssist.ContentAssistProcessor.ComputeContextInformation` | org.eclipse.jdt.ui/ui/org/eclipse/jdt/internal/ui/text/java/ContentAssistProcessor.java:172-208 | the result is the collected context information unchanged, through the same category selection, with the same effect on repetition and the assistant's messages |
| `LinePainting.CaretLineStart` | org.eclipse.jdt.ui/ui/org/eclipse/jdt/internal/ui/javaeditor/LinePainter.java:67-73 | after clamping the caret to the character count, the line start looked up is the last line start not after it |
| `LinePainting.SameLineSameStart` | org.eclipse.jdt.ui/ui/org/eclipse/jdt/internal/ui/javaeditor/LinePainter.java:72-79 | two carets within one line give the same line start, so a second look-up with the caret on the same line reports the same line |
| `LinePainting.HighlightRedraw` | org.eclipse.jdt.ui/ui/org/eclipse/jdt/internal/ui/javaeditor/LinePainter.java:97-111 | an end at or beyond the character count counts as -1. With -1 the redraw is full-width at the line start, or rejected when that start lies outside the text. Otherwise it is the range from the start to the end; a redraw is full-width iff the normalised end is -1 |
| `LinePainting.RecordedLineRedrawn` | org.eclipse.jdt.ui/ui/org/eclipse/jdt/internal/ui/javaeditor/LinePainter.java:92-111 | a recorded line whose start lies in the text is always redrawn, and a range redraw then covers a non-empty part of the text |
| `LinePainting.LinePainter.constructor` | org.eclipse.jdt.ui/ui/org/eclipse/jdt/internal/ui/javaeditor/LinePainter.java:28-40 | a new painter is inactive, with every offset and both line entries -1 |
| `LinePainting.LinePainter.SetHighlightColor` | org.eclipse.jdt.ui/ui/org/eclipse/jdt/internal/ui/javaeditor/LinePainter.java:42-44 | the highlight colour is the one given |
| `LinePainting.LinePainter.LineGetBackground` | org.eclipse.jdt.ui/ui/org/eclipse/jdt/internal/ui/javaeditor/LinePainter.java:49-62 | the line gets the highlight colour iff the painter is active and lineOffset ≤ caret ≤ lineOffset + line length; otherwise it gets the widget background; with no widget the event is left unchanged |
| `LinePainting.LinePainter.IsSameLine` | org.eclipse.jdt.ui/ui/org/eclipse/jdt/internal/ui/javaeditor/LinePainter.java:64-80 | records the line of the clamped caret and its start; the result is true iff that start equals the one recorded last time, and the new start is recorded |
| `LinePainting.LinePainter.UpdateHighlightLine` | org.eclipse.jdt.ui/ui/org/eclipse/jdt/internal/ui/javaeditor/LinePainter.java:82-90 | entry 0 becomes the current line start; entry 1 becomes the next line's start, or -1 when there is no next line |
| `LinePainting.LinePainter.DrawHighlightLine` | org.eclipse.jdt.ui/ui/org/eclipse/jdt/internal/ui/javaeditor/LinePainter.java:97-111 | entry 1 is forgotten (-1) when at or beyond the character count, and exactly the redraw described by `HighlightRedraw` is requested |
| `LinePainting.LinePainter.ClearHighlightLine` | org.eclipse.jdt.ui/ui/org/eclipse/jdt/internal/ui/javaeditor/LinePainter.java:92-95 | redraws the recorded line only when its start is within the character count; otherwise nothing changes |
| `LinePainting.LinePainter.Deactivate` | org.eclipse.jdt.ui/ui/org/eclipse/jdt/internal/ui/javaeditor/LinePainter.java:116-123 | an active painter becomes inactive, is removed from the widget's listeners and redraws the recorded line only if asked; an inactive one changes nothing, so a second call is a no-op |
| `LinePainting.LinePainter.Dispose` | org.eclipse.jdt.ui/ui/org/eclipse/jdt/internal/ui/javaeditor/LinePainter.java:128-130 | the widget reference is dropped, after which background queries set nothing |
| `LinePainting.LinePainter.MoveHighlight` | org.eclipse.jdt.ui/ui/org/eclipse/jdt/internal/ui/javaeditor/LinePainter.java:142-150 | redraws the old line if one was recorded and starts within the text, records the caret's line, redraws it, and neither redraw is rejected |
| `LinePainting.LinePainter.Paint` | org.eclipse.jdt.ui/ui/org/eclipse/jdt/internal/ui/javaeditor/LinePainter.java:135-151 | the painter becomes active and registers as a listener only on the inactive-to-active step; the recorded line number and start are those of the clamped caret; it redraws only when the caret's line start changed, and then the redraws are as in `MoveHighlight`, with the new line's end the start of the caret's next line |
| `RenameParticipant.GroupedSpec` | org.eclipse.jdt.ui.tests/examples/org/eclipse/jdt/ui/examples/MyRenameTypeParticipant.java:104-124 | after the search, there is an entry for exactly the files with a match that no other participant changes, holding one replace edit per match in that file, in match order |
| `RenameParticipant.NothingCollected` | org.eclipse.jdt.ui.tests/examples/org/eclipse/jdt/ui/examples/MyRenameTypeParticipant.java:104-127 | nothing is collected iff every matched file is already changed by another participant |
| `RenameParticipant.SearchCollector.ChangeFor` | org.eclipse.jdt.ui.tests/examples/org/eclipse/jdt/ui/examples/MyRenameTypeParticipant.java:107-117 | the file's existing change is reused with the map untouched; otherwise a fresh, empty change named after the file is put in the map under that file |
| `RenameParticipant.SearchCollector.AddEditFor` | org.eclipse.jdt.ui.tests/examples/org/eclipse/jdt/ui/examples/MyRenameTypeParticipant.java:118-121 | the file's change gets exactly one more replace edit (match offset, match length, new name) and one edit group holding it; other files' changes are untouched |
| `RenameParticipant.SearchCollector.AcceptPatternMatch` | org.eclipse.jdt.ui.tests/examples/org/eclipse/jdt/ui/examples/MyRenameTypeParticipant.java:105-122 | a match in a file without an entry that another participant changes is declined and changes nothing. Otherwise it is accepted, the file's change is created on the first accepted match and reused after that without asking again, and exactly one edit is appended |
| `RenameParticipant.Search` | org.eclipse.jdt.ui.tests/examples/org/eclipse/jdt/ui/examples/MyRenameTypeParticipant.java:124 | feeding the matches to the collector, and skipping a file after it declined a match there, leaves the per-file edits described by `GroupedSpec` in fresh change objects |
| `RenameParticipant.AddAll` | org.eclipse.jdt.ui.tests/examples/org/eclipse/jdt/ui/examples/MyRenameTypeParticipant.java:129-133 | the composite receives every change of the map exactly once |
| `RenameParticipant.MyRenameTypeParticipant.Initialize` | org.eclipse.jdt.ui.tests/examples/org/eclipse/jdt/ui/examples/MyRenameTypeParticipant.java:74-78 | stores the element as the renamed type and returns true |
| `RenameParticipant.MyRenameTypeParticipant.CheckConditions` | org.eclipse.jdt.ui.tests/examples/org/eclipse/jdt/ui/examples/MyRenameTypeParticipant.java:85-88 | returns a fresh status with no entries (OK) |
| `RenameParticipant.MyRenameTypeParticipant.CreateChange` | org.eclipse.jdt.ui.tests/examples/org/eclipse/jdt/ui/examples/MyRenameTypeParticipant.java:90-134 | null iff nothing was collected. Otherwise a fresh composite with one fresh change per collected file, each file once, named after its file, holding exactly that file's edits and one "Update type reference" edit group per edit |

## Left out

- `ContentAssist.SortByOrderCorrect`: compares sort orders mathematically. `ORDER_COMPARATOR` subtracts two Java `int`s, which can overflow and misorder categories whose sort orders are more than 2^31 apart. The model assumes sort orders stay in a range where the subtraction does not overflow.
- `ContentAssist.ContentAssistProcessor.GetCategories`: `repetition` is an unbounded integer. In the source `fRepetition` is a Java `int`. After 2^31 invocations in one session it would wrap to a negative value, the remainder would be a negative index, and the list lookup would throw. The model does not capture this wrap-around.
- `Collections.sort` is JDK code and is not part of this model. It is modelled as a stable insertion sort (`SortByOrder`). Any stable sort ascending by sort order gives the same list, and `SortByOrderCorrect` proves those three properties of it.
- Progress monitors (`createProgressMonitor`, `SubProgressMonitor`, task names) and the invocation context (`createContext`) carry no logic of the processor and are left out.
- The text of the assistant's messages (`MessageFormat`, `JavaTextMessages`) is left out. The messages are modelled by their arguments: the current label, the gesture and the next label.
- `getIterationGesture` and `getContentAssistCommand` query the workbench's binding and command services. The active key bindings are the parameter `activeTriggers`, and the choice between "press" and "click" is `IterationGesture`.
- `getContextInformationAutoActivationCharacters`, `getErrorMessage` and `getContextInformationValidator` only return `null` and are not modelled.
- What a category computes (`computeCompletionProposals`, `computeContextInformation` of the category) is foreign code: the parameter `compute`.
- `LinePainting.LinePainter.Paint` and `Deactivate` require a widget. After `dispose` the source would throw a `NullPointerException` there, which is not modelled.
- SWT geometry (`getLocationAtOffset`, `getClientArea`, `getLineHeight`) is left out. A full-width redraw is recorded by the offset whose location it uses. The widget rejects an offset outside `[0, charCount]` with an `IllegalArgumentException`, which is modelled as `DrawHighlightLine` returning false.
- Actual repainting and listener callbacks are left out. Redraws are appended to a log, and listener registration is membership of a set.
- `setPositionManager` does nothing and is not modelled. `Paint` ignores its `reason`, as the source does.
- `getName` of the participant returns a constant and is not modelled.
- The search scope (the project, the `*.special` file pattern) and the pattern built from the type's simple name are left out. The search is the given sequence of matches, and the new name is a parameter.
- The internals of `TextFileChange`, `MultiTextEdit` and `CompositeChange` are left out. A change keeps its edits (the children of its root `MultiTextEdit`) and its edit groups as sequences, and a composite keeps its children as a sequence.
- `HashMap.values()` iteration order is unspecified. `AddAll` picks the files in an arbitrary order, and only the set of children and their uniqueness are stated.
