# The Decider: a verified model of its wheel decider

The Decider is a small mobile app. The user builds a list of options, or loads a
preset category, and spins a wheel that picks one of them. It also has a
Truth-or-Dare wheel. Nearly all of the app is screen code. This project models
the rules underneath that code:

- **Wheel** (`wheel.dfy`, from `components/spinning-wheel.tsx`): the wheel is
  split into N equal coloured segments. The target angle of a spin is drawn from
  two random numbers. When the wheel stops, the option under the fixed pointer is
  taken from the end of the list, because the wheel turns while the pointer
  stays still. Segment labels are truncated. The spin effect is a class with two
  steps. The first step records the target angle and the option list it
  captures. The second step rests the wheel and resolves the winner from that
  captured list.
- **Decision** (`decision.dfy`, from `components/decision-maker.tsx`): the
  option list of `{id, text}` entries supports add, remove, clear and load from
  a category. The flags `isSpinning`, `selectedOption` and `showResult` form a
  small state machine, and a spin needs at least two options. Two whole spin
  rounds wire this state to the wheel.
- **Categories** (`categories.dfy`, from `components/category-manager.tsx`): the
  preset list supports replace-by-id, append and delete. The draft option list
  of a new category and the copy of the category being edited are both edited
  here.
- **TruthOrDare** (`truth_or_dare.dfy`, from `components/truth-or-dare.tsx`):
  the fixed `["Truth", "Dare"]` wheel. Its result selects a mode and a random
  question of that mode.
- Helpers: `Text` (`text.dfy`) holds trimming. `Lists` (`lists.dfy`) holds the
  order-preserving filter behind every remove handler. `Optional`
  (`optional.dfy`) models `null`.

Angles are exact `real`s in degrees. `Math.random()` results, `Date.now()`
readings and the success of a storage write are all method parameters. Where
the source reads the clock once per entry of a list it builds, the model takes
one reading per entry (`stamps`). A storage write is split at its `await`: the
part before it and the part after it are separate methods, so other handlers
can run while the write is pending.

The source never clamps the winner index. The model does not clamp it either.
Instead, `Wheel.WinnerIndex` proves that the index is always in `[0, N-1]` for
any angle `a >= 0`.

## Model

| member | source | states |
|---|---|---|
| `Text.Trim` | components/decision-maker.tsx:50 | the trimmed text is the input with an all-whitespace prefix and an all-whitespace suffix cut off, and it starts and ends with a non-space character (or is empty) |
| `Text.IsBlank` | components/decision-maker.tsx:46 | the "blank after trimming" guard holds exactly when every character of the input is whitespace |
| `Lists.Filter` | components/decision-maker.tsx:59 | the result holds exactly the elements that pass the test, every one of them drawn from the input, and is no longer than the input |
| `Lists.FilterAppend` | components/category-manager.tsx:97 | filtering distributes over concatenation, so survivors keep their relative order |
| `Lists.FilterKeepsAll` | components/category-manager.tsx:163 | a filter that rejects nothing returns the list unchanged |
| `Lists.FilterIdempotent` | components/category-manager.tsx:97 | filtering twice with the same test equals filtering once |
| `Wheel.PaletteDistinct` | components/spinning-wheel.tsx:32-45 | the twelve palette colours are pairwise different |
| `Wheel.TargetAngle` | components/spinning-wheel.tsx:49-50 | for random numbers in `[0,1)` the target is in `[1080, 2880)`: at least 3 full turns and under 8 (the "3-5 rotations" comment understates this) |
| `Wheel.Normalize` | components/spinning-wheel.tsx:62 | `a % 360` for `a >= 0` lies in `[0,360)` and differs from `a` by whole turns |
| `Wheel.NormalizePeriodic` | components/spinning-wheel.tsx:62 | adding `k` whole turns leaves the normalized angle unchanged |
| `Wheel.WinnerIndex` | components/spinning-wheel.tsx:62-64 | without any clamp, `floor((a mod 360)/(360/N))` lies in `[0, N-1]` for every `N >= 1` and `a >= 0` |
| `Wheel.Resolve` | components/spinning-wheel.tsx:62-65 | a winner exists exactly when the list is non-empty (`undefined` otherwise), and it is an element of the list |
| `Wheel.ResolvePeriodic` | components/spinning-wheel.tsx:62 | angles a whole number of turns apart select the same option |
| `Wheel.ResolveInSegment` | components/spinning-wheel.tsx:62-65 | a wheel that stops with its normalized angle inside partition segment `i` selects option `N-1-i` (the reversal) |
| `Wheel.ResolveReversedEnds` | components/spinning-wheel.tsx:64-65 | a normalized angle in `[0, 360/N)` selects the last option, and one in `[360-360/N, 360)` selects the first |
| `Wheel.FourOptionExample` | components/spinning-wheel.tsx:62-65 | with Pizza/Rice/Noodles/Burger, 45 degrees selects Burger, 135 selects Noodles and 359 selects Pizza |
| `Wheel.SegmentAngle` | components/spinning-wheel.tsx:75 | each segment's width is positive and at most one turn |
| `Wheel.SegmentsFillTurn` | components/spinning-wheel.tsx:75 | N segments of width `360/N` fill exactly one turn |
| `Wheel.Partition` | components/spinning-wheel.tsx:73-83 | one segment per option, in list order; an empty list gives no segments |
| `Wheel.PartitionAngle` | components/spinning-wheel.tsx:77 | segment `i` starts at `i * 360/N` |
| `Wheel.PartitionColor` | components/spinning-wheel.tsx:81 | segment `i` takes colour `colors[i mod 12]` |
| `Wheel.PartitionGeometry` | components/spinning-wheel.tsx:75-87 | the first segment starts at 0, each segment ends where the next starts, and the last ends at 360 |
| `Wheel.PartitionCovers` | components/spinning-wheel.tsx:64 | a normalized angle lies in segment `i` exactly when `floor(x / segmentAngle) = i`, so each angle lies in exactly one segment |
| `Wheel.PartitionColorsDistinct` | components/spinning-wheel.tsx:81 | any two segments fewer than 12 positions apart have different colours |
| `Wheel.LargeArcFlag` | components/spinning-wheel.tsx:95 | the flag is 0 or 1, and it is 1 exactly when there is one option (an arc over 180 degrees) |
| `Wheel.Label` | components/spinning-wheel.tsx:124 | a label of at most 10 characters is shown unchanged; a longer one becomes its first 10 characters plus "..." (13 characters); nothing shown is longer than 13 |
| `Wheel.SpinningWheel.constructor` | components/spinning-wheel.tsx:29-30 | the wheel starts at angle 0 with no animation running |
| `Wheel.SpinningWheel.SpinningChanged` | components/spinning-wheel.tsx:47-58 | when `spinning` becomes true, the ref takes the target angle and the running animation captures the current options; when it becomes false, nothing changes |
| `Wheel.SpinningWheel.AnimationFinished` | components/spinning-wheel.tsx:58-67 | the wheel rests at the target, and the winner is resolved from the captured options, not the current ones; it is one of them |
| `Decision.Texts` | components/decision-maker.tsx:214 | the wheel receives the option texts, one per entry and in list order |
| `Decision.RemoveById` | components/decision-maker.tsx:58-60 | no entry carrying the id survives, and every other entry does |
| `Decision.RemoveByIdAppend` | components/decision-maker.tsx:59 | removal distributes over concatenation, so the remaining entries keep their order |
| `Decision.RemoveAbsentId` | components/decision-maker.tsx:59 | removing an id that no entry carries leaves the list unchanged |
| `Decision.RemoveByIdKeepsIncreasing` | components/decision-maker.tsx:58-60 | removal keeps strictly increasing ids strictly increasing |
| `Decision.FromTexts` | components/decision-maker.tsx:93-96 | loading a category makes one entry per text, in order, and entry `i` gets id `Date.now() + i` with the clock read for that entry |
| `Decision.FromTextsRoundTrip` | components/decision-maker.tsx:92-97 | reading the texts back gives the category's texts, and while the clock does not go back the ids strictly increase (so they are distinct) |
| `Decision.ClockBackSharesId` | components/decision-maker.tsx:94 | a clock that goes back by one millisecond between two entries gives them the same id |
| `Decision.DecisionMaker.constructor` | components/decision-maker.tsx:34-42 | the screen starts with no options, no result, not spinning and no modal |
| `Decision.DecisionMaker.SetNewOption` | components/decision-maker.tsx:133-134 | typing replaces the input text and nothing else |
| `Decision.DecisionMaker.HandleAddOption` | components/decision-maker.tsx:45-56 | blank input changes nothing; otherwise exactly one entry (stamp, trimmed text) is appended after the unchanged old list and the input is cleared; increasing ids stay increasing when the stamp exceeds them |
| `Decision.DecisionMaker.HandleRemoveOption` | components/decision-maker.tsx:58-60 | the list loses every entry with the id and keeps the rest in order; no flag changes |
| `Decision.DecisionMaker.WheelVisible` | components/decision-maker.tsx:211 | the wheel shows only from 2 options on; a shown wheel has one segment per option and none wider than half a turn |
| `Decision.TruthOrDarePresetAgrees` | components/decision-maker.tsx:17-30 | the decision screen's Truth-or-Dare list and the fourth preset of the category list hold the same 12 texts in the same order |
| `Decision.DecisionMaker.HandleSpin` | components/decision-maker.tsx:62-67 | with fewer than 2 options no state changes; otherwise spinning starts, the old result is cleared and the result modal closes |
| `Decision.DecisionMaker.PressWheel` | components/spinning-wheel.tsx:133 | a press starts a spin only when none is running and the list has at least 2 options |
| `Decision.DecisionMaker.StopSpinning` | components/spinning-wheel.tsx:59 | the wheel's `setSpinning(false)` only clears `isSpinning` |
| `Decision.DecisionMaker.HandleSpinComplete` | components/decision-maker.tsx:69-78 | the result is recorded, spinning stops and the result modal opens; the invariant "spinning implies no result and no modal" is kept |
| `Decision.DecisionMaker.HandleCategorySelect` | components/decision-maker.tsx:92-99 | the list becomes the category's texts in order, each with its own clock reading plus its index as id, increasing while the clock does not go back, and the category modal closes |
| `Decision.DecisionMaker.UseTruthOrDare` | components/decision-maker.tsx:115-125 | the title letters load the 12 Truth-or-Dare texts in order, with ids built as in `handleCategorySelect`, so the wheel becomes visible |
| `Decision.DecisionMaker.ClearAll` | components/decision-maker.tsx:156-165 | the list becomes empty and the wheel is hidden |
| `Decision.DecisionMaker.CloseResult` | components/decision-maker.tsx:247-254 | the result modal closes and the result is kept |
| `Decision.DecisionMaker.SetShowCategories` | components/decision-maker.tsx:260-275 | the category modal opens or closes and nothing else changes |
| `Decision.SpinRound` | components/decision-maker.tsx:211-219 | a press with at least 2 options, while no spin is running, ends with the result equal to the resolution of the option texts at the drawn angle; that result is one of the options, spinning has stopped and the result modal is open; any other press changes no flag |
| `Decision.SpinRoundWithRemoval` | components/spinning-wheel.tsx:47-70 | an option removed while the wheel turns does not affect the result: the winner comes from the list as it was when the spin started |
| `Categories.DefaultCategories` | components/category-manager.tsx:12-46 | there are four presets with ids "1" to "4", and each has a non-empty option list |
| `Categories.DefaultCategoriesDistinct` | components/category-manager.tsx:12-46 | the preset ids are distinct |
| `Categories.Ids` | components/category-manager.tsx:360 | the category ids in list order |
| `Categories.ReplaceById` | components/category-manager.tsx:78-80 | same length and order; every category with the edited id is replaced and every other is unchanged |
| `Categories.ReplaceByIdKeepsIds` | components/category-manager.tsx:78-80 | saving never changes the sequence of ids |
| `Categories.ReplaceByIdIdempotent` | components/category-manager.tsx:78-80 | saving twice equals saving once, and saving a category whose id is absent changes nothing |
| `Categories.RemoveCategory` | components/category-manager.tsx:134 | no category with the id survives, and every other does |
| `Categories.RemoveCategoryAppend` | components/category-manager.tsx:134 | deletion keeps the remaining categories in their original order |
| `Categories.RemoveText` | components/category-manager.tsx:96-98 | every occurrence of the text (duplicates included) is removed, and exactly the other texts remain |
| `Categories.RemoveTextAppend` | components/category-manager.tsx:97 | removing a text keeps the other texts in their original order |
| `Categories.RemoveAbsentText` | components/category-manager.tsx:163 | removing a text that is not present changes nothing |
| `Categories.CategoryManager.constructor` | components/category-manager.tsx:53-59 | the manager starts with the default presets, no edit in progress and an empty draft |
| `Categories.CategoryManager.CurrentScreen` | components/category-manager.tsx:336-342 | the edit screen shows exactly when editing with a copy present; otherwise the add screen shows exactly when it is open |
| `Categories.CategoryManager.HandleSaveCategory` | components/category-manager.tsx:77-82 | up to the `await`, the list takes the edited copy by id and the editor stays open |
| `Categories.CategoryManager.SaveFinished` | components/category-manager.tsx:83-87 | once the write settles, success closes the editor and drops the copy; failure leaves `isEditing` and the copy as they were; the list is untouched |
| `Categories.CategoryManager.SaveEditing` | components/category-manager.tsx:213 | Save starts writing the copy under edit, if there is one |
| `Categories.SaveRound` | components/category-manager.tsx:76-88 | Save followed by the settled write: the list holds the copy, and the edit screen closes exactly on success |
| `Categories.SaveWithEditPending` | components/category-manager.tsx:76-88 | an option added while the write is pending never reaches the list; success then discards it with the copy, and failure keeps it only in the open copy |
| `Categories.CategoryManager.SetNewOption` | components/category-manager.tsx:224 | typing replaces the option input and nothing else |
| `Categories.CategoryManager.SetNewCategoryName` | components/category-manager.tsx:327 | typing replaces the name input and nothing else |
| `Categories.CategoryManager.HandleAddNewOption` | components/category-manager.tsx:90-94 | blank input changes nothing; otherwise the trimmed text is appended to the draft options and the input is cleared |
| `Categories.CategoryManager.HandleRemoveNewOption` | components/category-manager.tsx:96-98 | the draft loses every occurrence of the text and keeps the rest in order |
| `Categories.CategoryManager.OpenAddCategory` | components/category-manager.tsx:350 | the add screen opens and nothing else changes |
| `Categories.CategoryManager.CancelAddCategory` | components/category-manager.tsx:256-262 | the add screen closes and the draft name and options are discarded |
| `Categories.CategoryManager.HandleAddCategory` | components/category-manager.tsx:100-120 | a blank name changes nothing; otherwise one category (new id, trimmed name, draft options) is appended after the unchanged list, and the draft and add screen are reset whatever the storage result |
| `Categories.CategoryManager.ConfirmDelete` | components/category-manager.tsx:131-141 | the confirmed delete removes every category with the id and keeps the rest in order |
| `Categories.CategoryManager.StartEditing` | components/category-manager.tsx:368-371 | the edit screen opens on a copy of the category |
| `Categories.CategoryManager.CancelEditing` | components/category-manager.tsx:175-178 | the editor closes and the list is untouched |
| `Categories.CategoryManager.RenameEditing` | components/category-manager.tsx:240-242 | only the copy's name changes, and only when a copy exists |
| `Categories.CategoryManager.HandleAddOption` | components/category-manager.tsx:147-156 | with no copy or blank input nothing changes; otherwise the trimmed text is appended to the copy's options and its id and name stay |
| `Categories.CategoryManager.HandleRemoveOption` | components/category-manager.tsx:158-166 | with no copy nothing changes; otherwise every equal option is removed from the copy and its id and name stay |
| `TruthOrDare.RandomIndex` | components/truth-or-dare.tsx:42 | `floor(r * length)` for `r` in `[0,1)` is a valid index |
| `TruthOrDare.Draw` | components/truth-or-dare.tsx:39-50 | the mode is truth exactly for the wheel result "Truth"; the question is entry `floor(r*10)` of that mode's list |
| `TruthOrDare.WheelOutcome` | components/truth-or-dare.tsx:63 | on the `["Truth","Dare"]` wheel, a normalized angle in `[0,180)` yields "Dare" and one in `[180,360)` yields "Truth" |
| `TruthOrDare.TruthOrDareGame.constructor` | components/truth-or-dare.tsx:34-37 | the game starts not spinning, with no result, question or mode |
| `TruthOrDare.TruthOrDareGame.HandleSpinComplete` | components/truth-or-dare.tsx:39-50 | the result is recorded; "Truth" gives mode truth with truth question `floor(r*10)`, and anything else gives mode dare with that dare question; the question always belongs to the mode's list |
| `TruthOrDare.TruthOrDareGame.HandleSpinStart` | components/truth-or-dare.tsx:52-56 | result, question and mode reset to null, and `spinning` is untouched |
| `TruthOrDare.TruthOrDareGame.PressWheel` | components/spinning-wheel.tsx:133 | pressing the wheel resets the result only when no spin is running |
| `TruthOrDare.TruthOrDareGame.PressSpinButton` | components/truth-or-dare.tsx:84 | the Spin button sets `spinning` only when it was false, and touches nothing else |
| `TruthOrDare.TruthOrDareGame.StopSpinning` | components/truth-or-dare.tsx:66 | the wheel's `setSpinning(false)` only clears `spinning` |
| `TruthOrDare.SpinRound` | components/truth-or-dare.tsx:62-89 | a full spin ends not spinning, with a mode and a question from that mode's list; the mode is truth exactly when the stopping angle is in the second half-turn |

## Left out

- Storage: loading categories from AsyncStorage and the JSON encoding are left out (components/category-manager.tsx:62-74). The outcome of the edit screen's write is the `saved` parameter of `SaveFinished`, the part of `handleSaveCategory` after its `await`. The add and delete handlers change the state only before their `await`, so they are modelled as one step and update the list whatever the write does. Overlapping writes, and the order in which they reach storage, are not modelled.
- The delete confirmation dialog is left out. Only its Delete branch is modelled, as `ConfirmDelete`; Cancel changes nothing.
- These are platform calls and timers, so they are left out: sharing (`Share.share` and its message), the Lottie overlay with its 2-second `setTimeout`, and `Keyboard.dismiss`.
- The animation timing is left out: the 4000 ms duration and the cubic ease-out. Only the animation's endpoint is modelled (`rotation` rests at the target angle).
- The SVG path and text coordinates (cosine and sine of segment angles), font sizes and all rendering are left out. This is floating-point presentation.
- Floating-point rounding is left out. Angles are exact reals, so the edge case where `a % 360 / (360/N)` rounds up to N cannot arise in the model.
- `Wheel.Normalize`, `Wheel.WinnerIndex`, `Wheel.Resolve`: negative angles are excluded (`requires 0 <= a`). Every target angle the source draws is at least 1080 degrees.
- `Text.Trim`: the whitespace set is space, tab, line feed and carriage return, not the full Unicode set of JavaScript's `String.prototype.trim`. String lengths count Dafny characters rather than UTF-16 code units.
- `Wheel.Label`: the 10-character cut counts Dafny characters, while `length` and `substring(0, 10)` count UTF-16 code units. A label with characters outside the Basic Multilingual Plane (emoji) is therefore cut at a different place, and the source can split a surrogate pair.
- `Decision.DecisionMaker`: the `showTruthOrDare` flag is left out. The source never sets it to true; it only closes its modal (components/decision-maker.tsx:37, 280-295).
- Ids are `Date.now()` readings passed in as parameters, and the model assumes nothing about clock order: increasing ids are promised only under the stated conditions. `HandleAddOption` keeps ids increasing only when the reading exceeds every existing id. `FromTexts` (and so `HandleCategorySelect` and `UseTruthOrDare`) keeps them increasing only while the readings do not go back; `ClockBackSharesId` shows two entries sharing an id otherwise. A category loaded while the clock stands at T takes ids T to T+N-1, so an option added less than N milliseconds later can share an id, and then removal drops both entries (`RemoveById` removes every match).
- `Wheel.SpinningWheel.SpinningChanged`: a restart while an animation is running (`requires spinning ==> !animating`) is not modelled. In the source, a second `Animated.timing(...).start` on the same value stops the first animation, whose callback still runs with its own captured options. None of the modelled flows start a spin while one is running.
- The two `SpinRound` methods do not model the parent re-rendering, or the wheel unmounting, mid-spin. The one exception is the removal in `SpinRoundWithRemoval`.
- `app/_layout.tsx` and `components/decision-maker.styles.ts` hold theme wiring and styling only, so they are not modelled.
