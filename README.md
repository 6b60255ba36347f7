# WSJF keyboard sliders, modelled in Dafny

This project models the interactive core of a small "Weighted Shortest Job
First" calculator. The user picks four scores with the arrow keys, and the
page derives the Cost of Delay and the Final Score from them. The model has
three modules:

- `SliderHook` (`slider_hook.dfy`) models the `useSlider` hook. The hook keeps
  an integer position over `numItems` slots. A `keyup` of its `nextKey` moves
  the position up by one, stopping at the last slot. Its `prevKey` moves it
  down by one, stopping at slot 0. Any other key, and every key while the
  slider is inactive, changes nothing. Calling the hook with `numItems < 1`
  throws.
  - `Step` is one event and `Run` a sequence of events. Both are pure
    functions of the slider's props.
  - The class `Slider` holds the hook's state. Its `OnKeyUp` method is the
    listener and is proved against `Step`.
  - `UseSlider` is the call that can fail.
- `ScoreRow` (`score_row.dfy`) models `SliderRow`.
  - The `WSJFScore` union is `IsScore`, and the options list is `WSJFScores`.
  - `ReportedValue` is the value a row reports upward,
    `options[currentXPosition]`. `PositionOf` is its inverse.
  - `IsHighlighted` decides which item is drawn highlighted.
- `WsjfCoordinator` (`wsjf_coordinator.dfy`) models the `WSJF` component.
  - It has a vertical slider over four rows (Down/Up, always active). Row `i`
    is active exactly when the vertical position is `i`.
  - It holds four horizontal row sliders (Right/Left over the seven scores).
  - It keeps six record fields: the four chosen scores, `costOfDelay`
    (their additive sum) and `finalScore` (`costOfDelay / timeToFix`).
  - `Nav` holds all five positions, and `Dispatch` is what one key event does
    to them. `RecordOf` is the settled record those positions determine. It reads each row's score through `ReportedValue`, and the rows' effects report through it too.
  - The class `WSJF` holds the five `Slider` objects and the six fields. Its
    `OnKeyUp` runs three steps in order: it delivers the key to every
    listener, re-renders the rows' `isActive` props, and runs the rows'
    value-reporting effects. It is proved to keep `Valid()`, and `Valid()`
    ties the fields to `RecordOf` of the positions.

The hook appears twice in the source with identical logic
(`src/WSJF.tsx:50-80` and `src/Slider.tsx:75-105`). Both are modelled by the
one `SliderHook` module.

The hook never checks the starting position. The model therefore defines
`Step` and `Run` for every integer position and proves the range invariant
only from an in-range start. The widget's design intends
`0 <= position < numItems` to hold at all times. The code guarantees this only
when the start is in range, and the model follows the code.

The source's `switch` tests `nextKey` before `prevKey`. A slider whose two
keys are equal therefore never moves down. This is why the lemmas about
`prevKey` require the two keys to differ.

## Model

| member | source | states |
|---|---|---|
| `SliderHook.Step` | src/WSJF.tsx:55-73 | One event moves the position by at most one slot. A move needs an active slider and one of its two keys. A move never crosses the upper or the lower bound. An in-range position stays in range. |
| `SliderHook.Run` | src/WSJF.tsx:50-79 | After any sequence of events, an in-range start leaves the position in range. The position drifts by at most the number of events. |
| `SliderHook.NextKeyAdvances` | src/WSJF.tsx:61-65 | While active, `nextKey` raises the position by exactly 1 below `numItems - 1`, and otherwise leaves it unchanged. |
| `SliderHook.PrevKeyRetreats` | src/WSJF.tsx:66-70 | While active, with distinct keys, `prevKey` lowers the position by exactly 1 above 0, and otherwise leaves it unchanged. |
| `SliderHook.IgnoredKeys` | src/WSJF.tsx:56-72 | An inactive slider ignores every key. An active slider ignores every key other than its two. |
| `SliderHook.RunAppend` | src/WSJF.tsx:54-77 | Events are handled one at a time in arrival order: handling `a + b` is handling `a`, then `b` from where `a` left off. |
| `SliderHook.RunIgnored` | src/Slider.tsx:81-97 | Any sequence of events is a no-op while inactive. While active, a sequence holding neither key is a no-op. |
| `SliderHook.RepeatNext` | src/Slider.tsx:86-90 | From an in-range start, `m` presses of `nextKey` land on `min(p + m, numItems - 1)`. |
| `SliderHook.RepeatPrev` | src/Slider.tsx:91-95 | From an in-range start, `m` presses of `prevKey` land on `max(p - m, 0)`. |
| `SliderHook.SaturationIdempotent` | src/Slider.tsx:87-92 | At the last slot, repeated `nextKey` leaves the position unchanged. At slot 0, repeated `prevKey` does the same. |
| `SliderHook.Slider.constructor` | src/WSJF.tsx:50-52 | Mounting with `numItems >= 1` stores the props and starts at `startingPosition` (default 0, active by default). |
| `SliderHook.Slider.OnKeyUp` | src/Slider.tsx:80-99 | The listener sets the position to `Step` of the previous state and keeps it in bounds. It changes nothing else. |
| `SliderHook.Slider.SetActive` | src/WSJF.tsx:77 | A re-render with a new `isActive` prop changes only that prop and keeps the position. |
| `SliderHook.UseSlider` | src/Slider.tsx:75-77 | The hook fails exactly when `numItems < 1`. Otherwise it returns a fresh slider at the starting position with the given props. |
| `ScoreRow.ReportedValue` | src/Slider.tsx:48-50 | A row reports a value exactly when its position is inside the options, and the value is one of the options. |
| `ScoreRow.ScoreBounds` | src/WSJF.tsx:4 | Every member of the `WSJFScore` union lies in 1..21, so it is never 0. |
| `ScoreRow.ScoresListed` | src/WSJF.tsx:92 | The options list holds exactly the members of the `WSJFScore` union. |
| `ScoreRow.ScoresIncreasing` | src/WSJF.tsx:92 | The options list is strictly increasing, so no two slots share a score. |
| `ScoreRow.ReportedScore` | src/WSJF.tsx:24-27 | A row over the scores reports a value if and only if its position is in range, and that value is a score. |
| `ScoreRow.ReportRoundTrip` | src/Slider.tsx:46-50 | The value lookup and `PositionOf` are inverses in both directions. |
| `ScoreRow.ExactlyOneHighlighted` | src/Slider.tsx:55-59 | Item `i` is highlighted iff `i == currentXPosition`. Exactly one item is highlighted iff the position is within the row. |
| `WsjfCoordinator.Dispatch` | src/WSJF.tsx:91-110 | One key event reaching all five listeners keeps every position in range. |
| `WsjfCoordinator.DerivedIffSettled` | src/WSJF.tsx:94-100 | In both directions: the derived fields satisfy `costOfDelay == OB + TC + RR`, `timeToFix >= 1` and `finalScore * timeToFix == costOfDelay` exactly when the record equals the settled record. |
| `WsjfCoordinator.DerivedBounds` | src/WSJF.tsx:94-100 | With score inputs, `costOfDelay` lies in 3..63 and `finalScore` between `costOfDelay / 21` and `costOfDelay`. |
| `WsjfCoordinator.RecordConsistent` | src/WSJF.tsx:92-110 | Every reachable record holds four scores, and its derived fields are their sum and quotient. |
| `WsjfCoordinator.InitialRecord` | src/WSJF.tsx:83-89 | The initial state is in range and gives all fields 1, `costOfDelay` 3 and `finalScore` 3. |
| `WsjfCoordinator.ExampleRecord` | src/WSJF.tsx:94-100 | OB 8, TC 5, RR 3 and TtF 2 give `costOfDelay` 16 and `finalScore` 8. |
| `WsjfCoordinator.ExactlyOneRowActive` | src/WSJF.tsx:106-110 | Exactly one of the four rows is active: the one at the vertical position. |
| `WsjfCoordinator.ActiveRowIsSelected` | src/WSJF.tsx:106-110 | In every valid state of the component, row `i`'s `Slider` object is active exactly when the vertical slider is at `i`, and exactly one row is active. |
| `WsjfCoordinator.OneSliderMovesPerEvent` | src/WSJF.tsx:91-110 | No key moves two sliders. A vertical move leaves every row in place. A row that moves is the active row, and the vertical position stays put. |
| `WsjfCoordinator.OneScorePerEvent` | src/WSJF.tsx:25-27 | Each event changes at most one of the four chosen scores, so at most one row reports a new value. |
| `WsjfCoordinator.VerticalNavigation` | src/WSJF.tsx:91 | Down from row `i < 3` makes row `i + 1` active, and Up from row `i > 0` makes row `i - 1` active. Neither changes a row's position. |
| `WsjfCoordinator.WSJF.constructor` | src/WSJF.tsx:82-92 | Mounting puts every slider at 0 with row 0 active and sets the record to (1, 1, 1, 1, 3, 3). The invariant holds, and the five sliders are newly allocated, so the caller may send key events to them. |
| `WsjfCoordinator.WSJF.Recompute` | src/WSJF.tsx:94-100 | Runs the two derivation effects in order. The record becomes the settled record of the current scores, and `costOfDelay` is updated before `finalScore` reads it. |
| `WsjfCoordinator.WSJF.SetOperationalBenefit` | src/WSJF.tsx:83-100 | Stores the new score and re-derives both values. The scores stay scores. |
| `WsjfCoordinator.WSJF.SetTimeCriticality` | src/WSJF.tsx:84-100 | Stores the new score and re-derives both values. The scores stay scores. |
| `WsjfCoordinator.WSJF.SetRiskReduction` | src/WSJF.tsx:85-100 | Stores the new score and re-derives both values. The scores stay scores. |
| `WsjfCoordinator.WSJF.SetTimeToFix` | src/WSJF.tsx:86-100 | Stores the new score and runs only the `finalScore` effect. It may not write `costOfDelay`, which depends only on the other three scores. The record becomes the settled record, and the scores stay scores. |
| `WsjfCoordinator.WSJF.Deliver` | src/WSJF.tsx:54-77 | Every listener handles the event with the props of the last render. The positions become `Dispatch` of the old ones, and the `isActive` props do not change. |
| `WsjfCoordinator.WSJF.Render` | src/WSJF.tsx:106-110 | The re-render sets each row's `isActive` to `currentYPosition === i` and moves no slider. |
| `WsjfCoordinator.WSJF.ReportOperationalBenefit` | src/WSJF.tsx:106 | If the row moved, it reports its new option. Either way the record becomes the one reported at the new position. |
| `WsjfCoordinator.WSJF.ReportTimeCriticality` | src/WSJF.tsx:107 | If the row moved, it reports its new option. Either way the record becomes the one reported at the new position. |
| `WsjfCoordinator.WSJF.ReportRiskReduction` | src/WSJF.tsx:108 | If the row moved, it reports its new option. Either way the record becomes the one reported at the new position. |
| `WsjfCoordinator.WSJF.ReportTimeToFix` | src/WSJF.tsx:110 | If the row moved, it reports its new option. Either way the record becomes the one reported at the new position. Its frame excludes `costOfDelay`. |
| `WsjfCoordinator.WSJF.ReportFront` | src/WSJF.tsx:106-107 | The effects of the first two rows, in render order, move the record from the one reported at the old positions to the one with the first two rows at their new positions. |
| `WsjfCoordinator.WSJF.ReportBack` | src/WSJF.tsx:108-110 | The effects of the last two rows complete the move to the record reported at the new positions. |
| `WsjfCoordinator.WSJF.Report` | src/WSJF.tsx:25-27 | After the rows' effects, the record is the settled record of the rows' current options, and the invariant holds again. |
| `WsjfCoordinator.WSJF.OnKeyUp` | src/WSJF.tsx:91-110 | One key event moves the positions to `Dispatch` of the old ones and keeps the invariant. The record then matches the new positions. |
| `WsjfCoordinator.MountAndPress` | src/WSJF.tsx:82-110 | Mounting and a first Right compose: the component stays valid, the sliders are fresh, and Operational Benefit becomes 2, with cost of delay 4 and final score 4. |
| `WsjfCoordinator.Session` | src/WSJF.tsx:82-110 | On the same component, a following Down makes the Time Criticality row active and the Operational Benefit row inactive, and leaves the record unchanged. |
| `WsjfCoordinator.LongSession` | src/WSJF.tsx:91-110 | Right, three Downs, Right and a saturating Down leave the rows at (1, 0, 0, 1) with Time to Fix active, and the record at (2, 1, 1, 2, 4, 2). |

## Left out

- Event-listener plumbing (`addEventListener`, `removeEventListener`, effect scheduling) is not modelled. A key event is a call to `OnKeyUp`.
- SliderHook.Step, SliderHook.Run, SliderHook.Slider.OnKeyUp and WsjfCoordinator.WSJF.OnKeyUp: each event is assumed to arrive after the previous event's re-render and listener swap. The listener is swapped in a passive effect (`src/WSJF.tsx:54-77`, `src/Slider.tsx:79-102`), so an event that arrives earlier reaches the old closure with its stale `position` and `isActive`. For example, two quick ArrowRight keyups from slot 0 can both set the position to 1, where `Run` gives 2. An event handled by a stale listener is not modelled.
- The order in which the five listeners run is not modelled. `OneSliderMovesPerEvent` shows that no key affects two sliders, so the order cannot change the outcome.
- Intermediate renders between the `costOfDelay` effect and the `finalScore` effect are not modelled. Only the settled state is, reached through `Recompute`, or, for a new time to fix, through the `finalScore` effect alone.
- `finalScore` is JavaScript double division. It is modelled as exact `real` division, without IEEE rounding.
- WsjfCoordinator.Settled: requires `timeToFix >= 1`. JavaScript would yield `Infinity` or `NaN` for 0, but the time to fix is always a score.
- SliderHook.Slider.constructor: requires `numItems >= 1`. The throwing path is `SliderHook.UseSlider`.
- Positions and `numItems` are integers. A fractional `startingPosition` or `numItems`, which the `number` type would allow, is not modelled. The components only ever pass `numItems` as 4 and as `options.length`.
- A slider's `numItems`, `nextKey` and `prevKey` are fixed at mounting. The components never re-render a slider with different values for them.
- A row's first value report on mount (`onNewValue(options[0])`) is not a separate step. The constructor sets the fields to 1, which is `options[0]`.
- Rendering is left out: JSX, styled-components CSS, the `SliderItem` colour choice, titles and `console.log`.
- `src/Clipboard.tsx` is a wrapper over the browser clipboard API and is not part of this model.
- `src/App.tsx` only composes components. Its row wiring repeats `src/WSJF.tsx:106-110`. It also imports a summary formatter `formatWsjf` and a hook `useWSJF`. Neither is modelled, so the summary text is not part of this model.
- `webpack.config.ts` is build configuration and is not part of this model.
