# RHRE3 editor core in Dafny

This project models the core of the Rhythm Heaven Remix Editor 3 (RHRE3) timeline editor and proves properties of that model. It covers:

- **Click occupations.** These are the states of a pointer gesture:
  - moving the playback start or the music start, each with a one-shot `final` value and an undo/redo pair;
  - rubber-band selection;
  - dragging a selection: its extents, the frozen `by lazy` answers, the one-time reorder of the entity list, the rigid move around the anchor entity, and the placement and delete-zone rules;
  - resizing a tempo or time-signature tracker.
- **The tap-along tempo estimator.** It auto-resets after a 5 s pause and keeps at most 4096 taps. Duplicate timestamps are rejected. The estimate is the mean of the per-interval BPMs, with the population standard deviation of the intervals in milliseconds.
- **The place and remove entity actions**, with their undo and redo.
- **The presentation-mode overlay:** `m:ss` time labels, change-only label updates, and the progress clamp.
- **The `*`/game-id substitution** used when loading and saving a game definition, with the language code, the verbatim ids and the `baseBpmRules` default.
- **The `Pattern` and `RandomCue` datamodels:** duration, repitchability and the entity they create.
- **`ShakeEntity`'s membership** in the remix's list of playing shake entities.

How the model represents the system:

- Entities are values `Entity(id, kind, bounds)`. Identity (Kotlin's `===`) is the `id`.
- The remix (`Track.Remix`) is a class whose fields the operations update in place.
- Kotlin `Float`s are reals. Where NaN matters (the one-shot `final` value, `remixSec` of a tap, a `0/0` progress), a `Float` is `NaN | Num(real)`.
- Calls into code outside the core are parameters. These are `sqrt`, `MathHelper.snapToNearest`, the wall clock, the pointer position, and `beatsToSeconds`/`tempoAt`/`swingAt`.

The model reproduces the source's quirks:

- `Playback.redo` guards with `final == Float.NaN`. That comparison is always false, so redo always writes. `Music.redo` uses the working `final != final` test instead.
- The `by lazy` values of a selection drag are frozen at their first read. The extents `left`/`right`/`top`/`bottom` are read live.
- At capacity, a duplicate tap still evicts the oldest record and adds nothing.
- `secondsToText` truncates the minutes toward zero, and shows a negative remainder as "00".

Modules:

- `Values`: Option, Result, Float, rounding.
- `Track`: rectangles, entities, the remix.
- `Decimal`: how Kotlin prints an `Int`.
- `ClickOccupation`, `Tapalong`, `EntityActions`, `PresentationMode`, `GameMapper`, `Datamodel` and `ShakeEntity`: one module per source file or pair of files.

## Model

| member | source | states |
|---|---|---|
| ClickOccupation.LeftOf | core/src/main/kotlin/io/github/chrislo27/rhre3/editor/ClickOccupation.kt:143-144 | None exactly for an empty selection; otherwise the least `x` of the selection, attained by a selected entity |
| ClickOccupation.RightOf | core/src/main/kotlin/io/github/chrislo27/rhre3/editor/ClickOccupation.kt:145-149 | None exactly for an empty selection; otherwise the greatest `x + width`, attained by a selected entity |
| ClickOccupation.TopOf | core/src/main/kotlin/io/github/chrislo27/rhre3/editor/ClickOccupation.kt:150-154 | None exactly for an empty selection; otherwise the greatest `y + height`, attained by a selected entity |
| ClickOccupation.BottomOf | core/src/main/kotlin/io/github/chrislo27/rhre3/editor/ClickOccupation.kt:155-156 | None exactly for an empty selection; otherwise the least `y`, attained by a selected entity |
| ClickOccupation.BottomSpecialMeaning | core/src/main/kotlin/io/github/chrislo27/rhre3/editor/ClickOccupation.kt:135-141 | freshly read, `isBottomSpecial` holds iff the selection is empty or every entity on its lowest row (within the float tolerance) is special |
| ClickOccupation.InDeleteZone | core/src/main/kotlin/io/github/chrislo27/rhre3/editor/ClickOccupation.kt:234-240 | None for an empty selection; Some(true) iff some selected entity lies below -1.5 (bottom special) or -0.5 (otherwise) |
| ClickOccupation.CountEndRemix | core/src/main/kotlin/io/github/chrislo27/rhre3/editor/ClickOccupation.kt:224-225 | the count is how often `EndRemix` occurs among the entities' classes; it is at most the list length and zero iff no end marker is present |
| ClickOccupation.DuplicateEndRemix | core/src/main/kotlin/io/github/chrislo27/rhre3/editor/ClickOccupation.kt:224-225 | the count exceeds one iff two distinct positions of the list hold an end marker |
| ClickOccupation.PlacementValid | core/src/main/kotlin/io/github/chrislo27/rhre3/editor/ClickOccupation.kt:217-232 | None for an empty selection; Some(true) iff the selection is clear of the delete zone, not above `trackCount`, free of the end-marker conflict, overlaps no unselected entity and, when stretching, no two selected entities overlap |
| ClickOccupation.SelectedLastIsPermutation | core/src/main/kotlin/io/github/chrislo27/rhre3/editor/ClickOccupation.kt:203-209 | the first-move reorder is a permutation of the entity list |
| ClickOccupation.SelectedLastIsSorted | core/src/main/kotlin/io/github/chrislo27/rhre3/editor/ClickOccupation.kt:203-209 | after the reorder no selected entity precedes an unselected one |
| ClickOccupation.SelectedLastIsStable | core/src/main/kotlin/io/github/chrislo27/rhre3/editor/ClickOccupation.kt:203-209 | the reorder keeps the original order within the selected and within the unselected entities |
| ClickOccupation.SelectedLastKeepsDistinct | core/src/main/kotlin/io/github/chrislo27/rhre3/editor/ClickOccupation.kt:203-209 | the reorder never duplicates an entity |
| ClickOccupation.MoveSelectionKeepsShape | core/src/main/kotlin/io/github/chrislo27/rhre3/editor/ClickOccupation.kt:182-198 | `setFirstPosition` keeps the length, identities, kinds, widths and heights, and leaves entities outside the selection untouched |
| ClickOccupation.MoveSelectionIsRigid | core/src/main/kotlin/io/github/chrislo27/rhre3/editor/ClickOccupation.kt:182-198 | the anchor lands at `(x, y)` and every selected entity keeps its offset from the anchor |
| ClickOccupation.Playback.constructor | core/src/main/kotlin/io/github/chrislo27/rhre3/editor/ClickOccupation.kt:36-38 | `old` captures the playback start; `final` starts as NaN and the drag is unfinished |
| ClickOccupation.Playback.SetFinal | core/src/main/kotlin/io/github/chrislo27/rhre3/editor/ClickOccupation.kt:38-44 | the first assignment stores the value; once a number is stored, another one fails and changes nothing |
| ClickOccupation.Playback.Redo | core/src/main/kotlin/io/github/chrislo27/rhre3/editor/ClickOccupation.kt:46-50 | succeeds for any `final`, NaN included, and writes it to `playbackStart` |
| ClickOccupation.Playback.Undo | core/src/main/kotlin/io/github/chrislo27/rhre3/editor/ClickOccupation.kt:52-54 | `playbackStart` is the value captured at construction |
| ClickOccupation.Music.constructor | core/src/main/kotlin/io/github/chrislo27/rhre3/editor/ClickOccupation.kt:59-61 | `old` captures the music start; `final` starts as NaN |
| ClickOccupation.Music.SetFinal | core/src/main/kotlin/io/github/chrislo27/rhre3/editor/ClickOccupation.kt:61-67 | the first assignment stores the value; a later one fails and changes nothing |
| ClickOccupation.Music.Redo | core/src/main/kotlin/io/github/chrislo27/rhre3/editor/ClickOccupation.kt:69-73 | fails iff `final` is NaN, and then changes nothing; otherwise writes `final` to `musicStartSec` |
| ClickOccupation.Music.Undo | core/src/main/kotlin/io/github/chrislo27/rhre3/editor/ClickOccupation.kt:75-77 | `musicStartSec` is the value captured at construction |
| ClickOccupation.CreatingSelection.constructor | core/src/main/kotlin/io/github/chrislo27/rhre3/editor/ClickOccupation.kt:80-83 | the start point and the old selection are kept, the rectangle is empty |
| ClickOccupation.CreatingSelection.UpdateRectangle | core/src/main/kotlin/io/github/chrislo27/rhre3/editor/ClickOccupation.kt:85-108 | width and height are non-negative and the rectangle spans from the smaller to the larger of start and pointer on each axis, in all four drag directions |
| ClickOccupation.CopyBounds | core/src/main/kotlin/io/github/chrislo27/rhre3/editor/ClickOccupation.kt:123-124 | the map holds the bounds of every selected entity keyed by identity, and only selected identities of the remix |
| ClickOccupation.SelectionDrag.constructor | core/src/main/kotlin/io/github/chrislo27/rhre3/editor/ClickOccupation.kt:112-131 | captures the arguments, `isNewOrCopy`, `isStretching` and the old bounds; every lazy value is still unread |
| ClickOccupation.SelectionDrag.IsAllSpecial | core/src/main/kotlin/io/github/chrislo27/rhre3/editor/ClickOccupation.kt:132-134 | the first read computes "every selected entity is special" and freezes it; later reads return the frozen value |
| ClickOccupation.SelectionDrag.IsBottomSpecial | core/src/main/kotlin/io/github/chrislo27/rhre3/editor/ClickOccupation.kt:135-141 | the first read computes the bottom-row rule (reading `isAllSpecial`) and freezes it; later reads return the frozen value |
| ClickOccupation.SelectionDrag.Width | core/src/main/kotlin/io/github/chrislo27/rhre3/editor/ClickOccupation.kt:158-160 | the first successful read is `right - left` and is frozen; an empty selection is the "Nothing in selection" error and freezes nothing |
| ClickOccupation.SelectionDrag.Height | core/src/main/kotlin/io/github/chrislo27/rhre3/editor/ClickOccupation.kt:161-163 | the first successful read is `top - bottom` rounded half up and is frozen; an empty selection is an error |
| ClickOccupation.SelectionDrag.SetFirstPosition | core/src/main/kotlin/io/github/chrislo27/rhre3/editor/ClickOccupation.kt:182-198 | the entity list becomes `MoveSelection` of the old one, so the anchor moves to `(x, y)` and the selection follows rigidly |
| ClickOccupation.SelectionDrag.MoveSelectionToEnd | core/src/main/kotlin/io/github/chrislo27/rhre3/editor/ClickOccupation.kt:201-210 | the entity list becomes the stable partition with unselected entities first, keeping the drag's invariant |
| ClickOccupation.SelectionDrag.SetPositionRelativeToMouse | core/src/main/kotlin/io/github/chrislo27/rhre3/editor/ClickOccupation.kt:200-215 | only the first call reorders; the anchor goes to the snapped x and to y rounded half up when `intY` holds |
| ClickOccupation.SelectionDrag.IsInDeleteZone | core/src/main/kotlin/io/github/chrislo27/rhre3/editor/ClickOccupation.kt:234-240 | the answer is `InDeleteZone` under the frozen `isBottomSpecial` |
| ClickOccupation.SelectionDrag.IsPlacementValid | core/src/main/kotlin/io/github/chrislo27/rhre3/editor/ClickOccupation.kt:217-232 | the answer is `PlacementValid` of the current remix under the frozen `isBottomSpecial` and `isStretching` |
| ClickOccupation.Normalized | core/src/main/kotlin/io/github/chrislo27/rhre3/editor/ClickOccupation.kt:255-260 | the normalized width is non-negative and the span runs from the smaller to the larger of the two edges |
| ClickOccupation.NormalizedIdempotent | core/src/main/kotlin/io/github/chrislo27/rhre3/editor/ClickOccupation.kt:255-260 | normalizing twice equals normalizing once |
| ClickOccupation.ResizedTo | core/src/main/kotlin/io/github/chrislo27/rhre3/editor/ClickOccupation.kt:272-285 | the width is non-negative; `beat = min(fixed, p)` and `beat + width = max(fixed, p)`, where `fixed` is `endBeat` for a left drag and `beat` for a right drag |
| ClickOccupation.NoConflicts | core/src/main/kotlin/io/github/chrislo27/rhre3/editor/ClickOccupation.kt:262-270 | true iff no tracker other than the resized one overlaps the span or starts at exactly `beat` |
| ClickOccupation.TrackerResize.constructor | core/src/main/kotlin/io/github/chrislo27/rhre3/editor/ClickOccupation.kt:244-251 | `beat`, `width` and `text` start as the tracker's own |
| ClickOccupation.TrackerResize.NormalizeWidth | core/src/main/kotlin/io/github/chrislo27/rhre3/editor/ClickOccupation.kt:255-260 | the new `(beat, width)` is `Normalized` of the old |
| ClickOccupation.TrackerResize.IsPlacementValid | core/src/main/kotlin/io/github/chrislo27/rhre3/editor/ClickOccupation.kt:262-270 | true iff no other tracker of the container conflicts with the current span |
| ClickOccupation.TrackerResize.UpdatePosition | core/src/main/kotlin/io/github/chrislo27/rhre3/editor/ClickOccupation.kt:272-285 | the new span depends on `newPos` and the unchanged tracker only, with the min/max characterisation |
| ClickOccupation.OverlapScenarioBlocked | core/src/main/kotlin/io/github/chrislo27/rhre3/editor/ClickOccupation.kt:227-230 | an entity dragged to overlap an unselected one is refused |
| ClickOccupation.OverlapScenarioFits | core/src/main/kotlin/io/github/chrislo27/rhre3/editor/ClickOccupation.kt:227-230 | an entity dragged next to others without overlap is accepted |
| ClickOccupation.DeleteZoneThresholds | core/src/main/kotlin/io/github/chrislo27/rhre3/editor/ClickOccupation.kt:234-240 | the two thresholds -1.5 and -0.5 apply on either side |
| ClickOccupation.EndRemixScenarioSingle | core/src/main/kotlin/io/github/chrislo27/rhre3/editor/ClickOccupation.kt:224-225 | dragging the only end marker is accepted |
| ClickOccupation.EndRemixScenarioDuplicate | core/src/main/kotlin/io/github/chrislo27/rhre3/editor/ClickOccupation.kt:224-225 | with two end markers in the remix, dragging one is refused |
| Tapalong.Evicted | core/src/main/kotlin/io/github/chrislo27/rhre3/editor/stage/TapalongStage.kt:206-208 | fewer than 4096 records remain, they are the newest ones, and nothing is dropped below capacity |
| Tapalong.EvictedSorted | core/src/main/kotlin/io/github/chrislo27/rhre3/editor/stage/TapalongStage.kt:206-208 | eviction keeps the records sorted |
| Tapalong.InsertBySec | core/src/main/kotlin/io/github/chrislo27/rhre3/editor/stage/TapalongStage.kt:212-218 | adding a record with a new timestamp and sorting by `sec` yields a strictly sorted permutation of the records plus the new one |
| Tapalong.AfterTap | core/src/main/kotlin/io/github/chrislo27/rhre3/editor/stage/TapalongStage.kt:206-218 | the records stay strictly sorted and at most 4096; a duplicate timestamp leaves exactly the evicted list; otherwise the evicted list plus the new record |
| Tapalong.TapIsRecorded | core/src/main/kotlin/io/github/chrislo27/rhre3/editor/stage/TapalongStage.kt:210-213 | after a tap some record has the tap's time, and every record that survived eviction remains |
| Tapalong.DeltasPositive | core/src/main/kotlin/io/github/chrislo27/rhre3/editor/stage/TapalongStage.kt:218-219 | in sorted records every delta between neighbours is positive |
| Tapalong.SteadyTempo | core/src/main/kotlin/io/github/chrislo27/rhre3/editor/stage/TapalongStage.kt:220-222 | equal intervals `d` give a mean BPM of `60 / d` |
| Tapalong.SteadyVariance | core/src/main/kotlin/io/github/chrislo27/rhre3/editor/stage/TapalongStage.kt:221-223 | equal intervals give zero variance |
| Tapalong.SteadyTaps | core/src/main/kotlin/io/github/chrislo27/rhre3/editor/stage/TapalongStage.kt:217-231 | steady taps `d` apart give tempo `60 / d` and no spread |
| Tapalong.SteadySpread | core/src/main/kotlin/io/github/chrislo27/rhre3/editor/stage/TapalongStage.kt:217-231 | for evenly spaced taps and any `sqrt` with `sqrt(0) = 0`, the stored deviation `sqrt(variance) * 1000` is 0 and the tempo is 60 over the spacing |
| Tapalong.HalfSecondTaps | core/src/main/kotlin/io/github/chrislo27/rhre3/editor/stage/TapalongStage.kt:225-228 | taps half a second apart read as 120 BPM |
| Tapalong.TempoLabel | core/src/main/kotlin/io/github/chrislo27/rhre3/editor/stage/TapalongStage.kt:236-248 | "0" with no records, the localized first-tap text with one, the rounded tempo otherwise |
| Tapalong.TapalongStage.constructor | core/src/main/kotlin/io/github/chrislo27/rhre3/editor/stage/TapalongStage.kt:30-45 | no records, zero tempo and spread, the clock reading as the last tap time, timekeeper 0 and label "0" |
| Tapalong.TapalongStage.AdvanceTimekeeper | core/src/main/kotlin/io/github/chrislo27/rhre3/editor/stage/TapalongStage.kt:257-258 | the timekeeper grows by the frame's delta time |
| Tapalong.TapalongStage.UpdateLabels | core/src/main/kotlin/io/github/chrislo27/rhre3/editor/stage/TapalongStage.kt:236-248 | the label is `TempoLabel` of the current records and tempo |
| Tapalong.TapalongStage.Reset | core/src/main/kotlin/io/github/chrislo27/rhre3/editor/stage/TapalongStage.kt:250-255 | no records, zero tempo and spread, label "0" |
| Tapalong.TapalongStage.EvictOldest | core/src/main/kotlin/io/github/chrislo27/rhre3/editor/stage/TapalongStage.kt:206-208 | the records become `Evicted` of the old ones and stay sorted |
| Tapalong.TapalongStage.AddTap | core/src/main/kotlin/io/github/chrislo27/rhre3/editor/stage/TapalongStage.kt:206-213 | the records become `AfterTap` of the old ones |
| Tapalong.TapalongStage.UpdateStatistics | core/src/main/kotlin/io/github/chrislo27/rhre3/editor/stage/TapalongStage.kt:217-231 | with two or more records, the tempo is the mean BPM and the spread 1000 times the square root of the deltas' population variance; otherwise both are unchanged |
| Tapalong.TapalongStage.Record | core/src/main/kotlin/io/github/chrislo27/rhre3/editor/stage/TapalongStage.kt:210-233 | the records, statistics, last-tap time and label after the auto-reset check |
| Tapalong.TapalongStage.Tap | core/src/main/kotlin/io/github/chrislo27/rhre3/editor/stage/TapalongStage.kt:201-234 | an auto-reset when due, then `AfterTap` at the timekeeper's time with `remixSec` from the play state; statistics and label as above; the last-tap time is always updated; the sorted, bounded invariant is kept; evenly spaced records leave a deviation of 0 |
| EntityActions.RemoveAll | core/src/main/kotlin/io/github/chrislo27/rhre3/editor/action/EntityPlaceAction.kt:16 | the result holds exactly the entities whose identity is not listed |
| EntityActions.RestoreEffect | core/src/main/kotlin/io/github/chrislo27/rhre3/editor/action/EntityRemoveAction.kt:15-19 | restoring keeps length, identities and kinds, gives the `i`-th listed entity `oldPos[i]` and leaves unlisted entities unchanged |
| EntityActions.EntityPlaceAction.constructor | core/src/main/kotlin/io/github/chrislo27/rhre3/editor/action/EntityPlaceAction.kt:9 | keeps the entity list |
| EntityActions.EntityPlaceAction.Redo | core/src/main/kotlin/io/github/chrislo27/rhre3/editor/action/EntityPlaceAction.kt:11-13 | the remix's entities gain exactly the listed ones, at the end |
| EntityActions.EntityPlaceAction.Undo | core/src/main/kotlin/io/github/chrislo27/rhre3/editor/action/EntityPlaceAction.kt:15-17 | the listed entities are removed and nothing else changes |
| EntityActions.PlaceUndoRestores | core/src/main/kotlin/io/github/chrislo27/rhre3/editor/action/EntityPlaceAction.kt:11-17 | when none of the entities was present, undo after redo restores the exact collection |
| EntityActions.EntityRemoveAction.constructor | core/src/main/kotlin/io/github/chrislo27/rhre3/editor/action/EntityRemoveAction.kt:10 | keeps the entity list and the recorded bounds |
| EntityActions.EntityRemoveAction.Redo | core/src/main/kotlin/io/github/chrislo27/rhre3/editor/action/EntityRemoveAction.kt:22-24 | the listed entities are removed; no bounds change |
| EntityActions.EntityRemoveAction.Undo | core/src/main/kotlin/io/github/chrislo27/rhre3/editor/action/EntityRemoveAction.kt:13-19 | the listed entities are appended and then each gets its recorded bounds |
| EntityActions.RemoveUndoRestores | core/src/main/kotlin/io/github/chrislo27/rhre3/editor/action/EntityRemoveAction.kt:13-24 | with `oldPos` holding the bounds at removal, redo then undo gives back the same entities with the same bounds, moved to the end |
| PresentationMode.KotlinDiv | core/src/main/kotlin/io/github/chrislo27/rhre3/editor/stage/PresentationModeStage.kt:152 | the quotient truncates toward zero |
| PresentationMode.KotlinRem | core/src/main/kotlin/io/github/chrislo27/rhre3/editor/stage/PresentationModeStage.kt:151 | the remainder has the dividend's sign and recombines with the quotient to the dividend |
| PresentationMode.SecondsFieldMeaning | core/src/main/kotlin/io/github/chrislo27/rhre3/editor/stage/PresentationModeStage.kt:151-152 | the field is always two digits; for a non-negative count it is below 60 and minutes times 60 plus the field is the count; for a negative count it is "00" |
| PresentationMode.SecondsToTextShape | core/src/main/kotlin/io/github/chrislo27/rhre3/editor/stage/PresentationModeStage.kt:150-153 | the text has the printed minutes' length plus 3; with `SecondsFieldMeaning`, the field after the colon is two digits that read back the seconds |
| PresentationMode.SecondsToTextOverAMinute | core/src/main/kotlin/io/github/chrislo27/rhre3/editor/stage/PresentationModeStage.kt:150-153 | 75 seconds read "1:15" |
| PresentationMode.SecondsToTextPadded | core/src/main/kotlin/io/github/chrislo27/rhre3/editor/stage/PresentationModeStage.kt:150-153 | 5 seconds read "0:05" |
| PresentationMode.SecondsToTextSmallNegative | core/src/main/kotlin/io/github/chrislo27/rhre3/editor/stage/PresentationModeStage.kt:150-153 | -5 seconds read "0:00" |
| PresentationMode.SecondsToTextNegative | core/src/main/kotlin/io/github/chrislo27/rhre3/editor/stage/PresentationModeStage.kt:150-153 | -65 seconds read "-1:00" |
| PresentationMode.TruncToInt | core/src/main/kotlin/io/github/chrislo27/rhre3/editor/stage/PresentationModeStage.kt:188-189 | `toInt` truncates toward zero |
| PresentationMode.Clamp01 | core/src/main/kotlin/io/github/chrislo27/rhre3/editor/stage/PresentationModeStage.kt:193 | the result lies in [0, 1] and equals the input inside it |
| PresentationMode.Progress | core/src/main/kotlin/io/github/chrislo27/rhre3/editor/stage/PresentationModeStage.kt:193 | a number result lies in [0, 1]; NaN iff `0 / 0`; with a non-zero duration it is the clamped ratio |
| PresentationMode.PresentationModeStage.constructor | core/src/main/kotlin/io/github/chrislo27/rhre3/editor/stage/PresentationModeStage.kt:155-174 | counters 0, tempo negative infinity, swing straight, labels "0:00", the tempo label still "X BPM", progress 0 |
| PresentationMode.PresentationModeStage.SetBpmLabelText | core/src/main/kotlin/io/github/chrislo27/rhre3/editor/stage/PresentationModeStage.kt:176-178 | the tempo label shows the current swing and tempo |
| PresentationMode.PresentationModeStage.SetTimeSeconds | core/src/main/kotlin/io/github/chrislo27/rhre3/editor/stage/PresentationModeStage.kt:155-159 | the label is rewritten iff the value changes; the labels keep agreeing with the values |
| PresentationMode.PresentationModeStage.SetDurationSeconds | core/src/main/kotlin/io/github/chrislo27/rhre3/editor/stage/PresentationModeStage.kt:160-164 | the label is rewritten iff the value changes; the labels keep agreeing with the values |
| PresentationMode.PresentationModeStage.SetBpm | core/src/main/kotlin/io/github/chrislo27/rhre3/editor/stage/PresentationModeStage.kt:165-169 | the tempo label is refreshed iff the tempo changes |
| PresentationMode.PresentationModeStage.SetSwing | core/src/main/kotlin/io/github/chrislo27/rhre3/editor/stage/PresentationModeStage.kt:170-174 | the tempo label is refreshed iff the swing changes |
| PresentationMode.PresentationModeStage.RenderTimes | core/src/main/kotlin/io/github/chrislo27/rhre3/editor/stage/PresentationModeStage.kt:188-189 | both counters take the new values and the labels agree with them |
| PresentationMode.PresentationModeStage.RenderTempo | core/src/main/kotlin/io/github/chrislo27/rhre3/editor/stage/PresentationModeStage.kt:190-191 | tempo and swing take the new values and the tempo label shows them |
| PresentationMode.PresentationModeStage.Render | core/src/main/kotlin/io/github/chrislo27/rhre3/editor/stage/PresentationModeStage.kt:180-197 | counters are the truncated seconds, tempo and swing those at the current beat, labels agree, progress is the clamped ratio |
| Decimal.NatToString | core/src/main/kotlin/io/github/chrislo27/rhre3/editor/stage/PresentationModeStage.kt:152 | the digits carry no leading zero, and a single digit exactly below 10 |
| Decimal.ParseNatToString | core/src/main/kotlin/io/github/chrislo27/rhre3/editor/stage/PresentationModeStage.kt:152 | reading the printed digits back gives the number |
| Decimal.ParseIntToString | core/src/main/kotlin/io/github/chrislo27/rhre3/editor/stage/PresentationModeStage.kt:152 | the printed `Int` is digits after an optional minus sign, and reading it back gives the number, negative ones included |
| GameMapper.StarSubstitutionVerbatim | core/src/main/kotlin/io/github/chrislo27/rhre3/sfxdb/json/GameMapper.kt:15 | text without `*` loads unchanged |
| GameMapper.StarSubstitutionRemovesStars | core/src/main/kotlin/io/github/chrislo27/rhre3/sfxdb/json/GameMapper.kt:15 | with a game id free of `*`, no `*` is left |
| GameMapper.StarSubstitutionAppend | core/src/main/kotlin/io/github/chrislo27/rhre3/sfxdb/json/GameMapper.kt:15 | substitution distributes over concatenation |
| GameMapper.StarSubstitutionAll | core/src/main/kotlin/io/github/chrislo27/rhre3/sfxdb/json/GameMapper.kt:16 | the list overload keeps length and order and substitutes each element |
| GameMapper.IndexFrom | core/src/main/kotlin/io/github/chrislo27/rhre3/sfxdb/json/GameMapper.kt:83 | the first occurrence at or after `start`, or None when there is none |
| GameMapper.SubstringAfter | core/src/main/kotlin/io/github/chrislo27/rhre3/sfxdb/json/GameMapper.kt:83 | the text after the first occurrence, or the whole string without one |
| GameMapper.StarSubstitute | core/src/main/kotlin/io/github/chrislo27/rhre3/sfxdb/json/GameMapper.kt:83 | the identity without the flag; with it, "*" plus the text after the game id |
| GameMapper.SubstringAfterPrefix | core/src/main/kotlin/io/github/chrislo27/rhre3/sfxdb/json/GameMapper.kt:83 | a string beginning with the id loses exactly that prefix |
| GameMapper.StarRoundTrip | core/src/main/kotlin/io/github/chrislo27/rhre3/sfxdb/json/GameMapper.kt:15-87 | `"*" + r` with no further `*` is loaded and written back unchanged, for every game id |
| GameMapper.VerbatimRoundTrip | core/src/main/kotlin/io/github/chrislo27/rhre3/sfxdb/json/GameMapper.kt:15-83 | without the flag, text free of `*` survives loading and writing |
| GameMapper.LanguageCode | core/src/main/kotlin/io/github/chrislo27/rhre3/sfxdb/json/GameMapper.kt:75 | no code iff the language is absent or UNKNOWN; otherwise its code |
| GameMapper.ResolveBaseBpmRules | core/src/main/kotlin/io/github/chrislo27/rhre3/sfxdb/json/GameMapper.kt:31 | an absent field means ALWAYS; a known id resolves; an unknown one is the "Unrecognized baseBpmRules value" error |
| GameMapper.JsonId | core/src/main/kotlin/io/github/chrislo27/rhre3/sfxdb/json/GameMapper.kt:86-244 | the six cue-like classes get `starSubstitute`d ids, the eight special classes keep the id verbatim, any other class is an error |
| GameMapper.LoadCueSounds | core/src/main/kotlin/io/github/chrislo27/rhre3/sfxdb/json/GameMapper.kt:28-29 | intro and ending sounds keep their presence and each present one is `starSubstitution`ed; responses are substituted elementwise |
| GameMapper.SaveCueSounds | core/src/main/kotlin/io/github/chrislo27/rhre3/sfxdb/json/GameMapper.kt:101-106 | intro and ending sounds keep their presence and each present one is `starSubstitute`d; responses are `starSubstitute`d elementwise, keeping length |
| GameMapper.CueSoundsRoundTrip | core/src/main/kotlin/io/github/chrislo27/rhre3/sfxdb/json/GameMapper.kt:28-106 | cue sounds written in star form survive a load followed by a save |
| Datamodel.PatternDuration | core/src/main/kotlin/io/github/chrislo27/rhre3/sfxdb/datamodel/impl/Pattern.kt:23-25 | None exactly for no cues (the `!!` failure); otherwise the largest `beat + duration`, attained by a cue |
| Datamodel.RandomCueDuration | core/src/main/kotlin/io/github/chrislo27/rhre3/sfxdb/datamodel/impl/RandomCue.kt:17-19 | the "No cues found" error exactly for no cues; otherwise the largest own duration, attained by a cue |
| Datamodel.DurationsCompared | core/src/main/kotlin/io/github/chrislo27/rhre3/sfxdb/datamodel/impl/Pattern.kt:23-25 | with non-negative beats a pattern lasts at least as long as a random cue over the same cues, and equally long when every beat is 0 |
| Datamodel.PatternRepitchable | core/src/main/kotlin/io/github/chrislo27/rhre3/sfxdb/datamodel/impl/Pattern.kt:17-21 | true iff some cue id resolves to a cue that is repitchable |
| Datamodel.CreateEntity | core/src/main/kotlin/io/github/chrislo27/rhre3/sfxdb/datamodel/impl/Pattern.kt:27-35 | a given cue pointer supplies semitone and volume; without one the defaults stay |
| ShakeEntity.RemoveFirst | core/src/main/kotlin/io/github/chrislo27/rhre3/entity/model/special/ShakeEntity.kt:52-54 | an absent element changes nothing; otherwise the list loses one element, exactly one occurrence of `x` |
| ShakeEntity.RemoveFirstSplits | core/src/main/kotlin/io/github/chrislo27/rhre3/entity/model/special/ShakeEntity.kt:52-54 | for a list `a + [x] + b` whose prefix `a` holds no `x`, the result is `a + b`: the first occurrence goes and every other element keeps its order |
| ShakeEntity.AddIfAbsent | core/src/main/kotlin/io/github/chrislo27/rhre3/entity/model/special/ShakeEntity.kt:43-47 | the element is present afterwards, and appended only when it was absent |
| ShakeEntity.AddIfAbsentOnce | core/src/main/kotlin/io/github/chrislo27/rhre3/entity/model/special/ShakeEntity.kt:43-47 | a repeated start leaves a single occurrence and no other member changes |
| ShakeEntity.StartThenEnd | core/src/main/kotlin/io/github/chrislo27/rhre3/entity/model/special/ShakeEntity.kt:43-54 | start then end leaves the entity absent with every other count unchanged, and restores the list exactly when it was absent |
| ShakeEntity.RemoveFirstLast | core/src/main/kotlin/io/github/chrislo27/rhre3/entity/model/special/ShakeEntity.kt:52-54 | removing an element just appended to a list without it gives the list back |
| ShakeEntity.ShakeEntity.constructor | core/src/main/kotlin/io/github/chrislo27/rhre3/entity/model/special/ShakeEntity.kt:26-33 | bounds height 1 and semitone 0; stretchable and repitchable, no pitch on the tooltip |
| ShakeEntity.ShakeEntity.OnStart | core/src/main/kotlin/io/github/chrislo27/rhre3/entity/model/special/ShakeEntity.kt:43-47 | the remix's list becomes `AddIfAbsent` of the old one |
| ShakeEntity.ShakeEntity.OnEnd | core/src/main/kotlin/io/github/chrislo27/rhre3/entity/model/special/ShakeEntity.kt:52-54 | the remix's list loses the first occurrence of the entity |
| ShakeEntity.ShakeEntity.Copy | core/src/main/kotlin/io/github/chrislo27/rhre3/entity/model/special/ShakeEntity.kt:56-63 | a new entity in the target remix with the same bounds, semitone and flags |

## Left out

- User interface: layout, colours, fonts, localization and the buttons around the modelled operations. These include the tap-along marker and cue-mute toggles, `keyDown`, and the extra tap-along labels for input count, raw tempo and deviation.
- `ClickOccupation.None` and `RulerMeasuring` carry no state or behaviour.
- The `lerpLeft`/`lerpRight`/`lerpTop`/`lerpBottom` extents are cosmetic (render interpolation).
- Float arithmetic: bounds, tempos, seconds and statistics are reals, so rounding and the conversions `toFloat`/`toDouble` are not modelled. NaN is modelled only for the one-shot `final` values, a tap's `remixSec` and a `0 / 0` progress.
- PresentationMode.TruncToInt: `Float.toInt` saturation and NaN-to-0 are not modelled, because the inputs are reals.
- PresentationMode.Progress: an infinite or NaN `remix.seconds` is not modelled, because seconds are reals. A zero duration is modelled: the result is 1, 0 or NaN by the sign of the seconds.
- PresentationMode.PresentationModeStage.SetBpmLabelText: the label is recorded as the swing and tempo it shows, not as text. The `%.1f` formatting and the swing's note symbol and name come from code outside the core.
- Tapalong.TapalongStage.Tap: `sqrt` is a parameter. The only thing assumed of it is `sqrt(0) = 0`, which is what gives evenly spaced taps a zero deviation.
- `remix.tempos.beatsToSeconds`, `tempoAt`, `swingAt`, `remix.seconds`, the frame's `deltaTime`, `System.currentTimeMillis`, the camera's pointer position, `MathHelper.snapToNearest` and `kotlin.math.sqrt` are not part of this model. They are passed in as values or functions.
- `Remix.addEntities` and `removeEntities` are not part of this model. They are taken to append the list and to drop every entity whose identity is listed. The undo-history stack and `remix.mutate` are left out too.
- EntityActions.EntityRemoveAction.Undo requires at least as many recorded bounds as entities. With fewer, the source fails with an index error, which the model does not reproduce.
- The actions hold their entities as value snapshots. An entity changed elsewhere after the action was created is not tracked.
- `Rectangle.intersects` (the gdxutils extension) is not part of this model. It is taken as strict overlap on both axes.
- `Tracker.endBeat` is not part of this model. It is taken as `beat + width`, and a tracker container is a list with the resized tracker's position.
- ClickOccupation.SelectionDrag: `editor.selection` is held constant for the whole drag.
- ClickOccupation.SelectionDrag.constructor: requires every selected id and `first` to name an entity of the remix, the remix's ids to be distinct and the selection to have no duplicates. The source reads the selected entities directly (ClickOccupation.kt:123-131), while the model looks them up in the remix by identity, so a selected entity outside the remix would not be seen. The source's own end-marker test over `remix.entities` (ClickOccupation.kt:224-225) and the `sortWith` reorder of the remix list (ClickOccupation.kt:203-209) rely on the selection being part of the remix.
- An entity's class is reduced to `Ordinary | Special | EndRemix`, which is all the placement rules look at.
- ClickOccupation.SelectionDrag.SetFirstPosition: `updateBounds` is modelled by its effect on the bounds only; its other effects are not part of this model.
- Tapalong.TapalongStage.Tap: `sortBy` runs only with two or more records. The model always keeps the records sorted, which gives the same list because a shorter list is already sorted. A strictly increasing list is determined by its elements, so stating the result's multiset and sortedness fixes the list.
- `ShakeEntity.getTextForSemitone`, `getShakeIntensity` and `getRenderColor` depend on `Semitones.getALPitch` and the theme, which are not part of this model. The datamodel reference passed by `copy` is left out.
- ShakeEntity.ShakeEntity.WhilePlaying: `whilePlaying` (ShakeEntity.kt:49-50) does nothing. The method changes no state, since it has no `modifies` clause, so it has no contract to state and no row.
- `canBePreviewed` depends on `PreviewableModel.determineFromCuePointers`, which is not part of this model.
- GameMapper:
  - The other fields of `mapToDatamodel` and `toJsonObject` are plain copies and are left out.
  - The cue pointers' `mapToJsonObject`, the PitchDependent intervals with `PitchRange`, and the Playalong input and method lookups call code outside the core.
  - The error message for an unknown class omits the class name.
