# Tab timer — a verified model of the countdown widget

The tab timer is a browser countdown widget built around one object, `TabTimer`.
The user picks one of three digit groups (hours, minutes, seconds) by clicking it,
focusing it or pressing Tab, types digits into it, and starts or pauses the countdown
with one button. This project models the object's state machine:

- the fields `hours`, `minutes`, `seconds`, `totalSeconds`, `isRunning`, `isPaused`,
  `currentEditingGroup` and `tempInput`;
- the editing of digit groups: select, type, commit with clamping, Tab and Shift+Tab
  navigation, Enter, and clicks outside the controls;
- the countdown: start, the once-a-second interval body, pause and completion;
- the two-digit display format.

The model has five modules:

- `Wrappers` defines `Option`, used for "no group selected".
- `Digits` models `parseInt` on digit strings, `toString`, `padStart` and `formatTwoDigits`.
- `Clock` models the arithmetic between the three fields and the total in seconds.
- `TimerModel` is the state machine on values. `TimerState` holds one field per object
  field. Each method of the widget is a transition function. `Inv` is the invariant of
  every reachable state. The lemmas state the editing and countdown properties.
- `Timer` holds the class `TabTimer`. Its methods update its fields in place, the way
  the widget's methods do. Each method's `ensures` says that the new state is the
  matching `TimerModel` transition of the old state. So everything proved in
  `TimerModel` holds of the object.

The interval that `startTimer` creates with `setInterval` is the ghost flag `ticking`.
It is set where the interval is created and cleared where `clearInterval` runs.
The interval's callback is the method `Tick`, which may be called only while `ticking`
holds. The invariant keeps `ticking` equal to `isRunning && !isPaused`. Since
`startTimer` is reached only when `isRunning` is false, a second interval is never
created beside a live one.

Digit groups are the indices 0 (hours), 1 (minutes) and 2 (seconds), as in
`digitGroups`. Keys are `Key(name, shiftKey)`, with `name` the event's `key` string.
A key counts as a digit only when it is one character from `0` to `9`, as `/^\d$/`
tests. Clicks are reduced to their target kind: a digit group, the start/pause button,
the theme toggle, or anything else.

## Pressing the button while paused does not resume

`pauseTimer` sets the button's label back to 'Start' (script.js:209), but it never
clears `isRunning` (script.js:207-211). `toggleTimer` decides only on `isRunning`
(script.js:174-180). So a press while paused calls `pauseTimer` again, and the
countdown never restarts.

The model follows the code:

- `ToggleTimer` returns its input unchanged when the timer is paused.
- `PausedNeverResumes` proves that from a paused state, no sequence of events makes
  the timer run or the interval fire again.

## Model

| member | source | states |
|---|---|---|
| `Digits.ParseAppendDigit` | script.js:135-138 | appending a digit to the pending digits multiplies their value by ten and adds the digit; two digits a, b read as 10a + b |
| `Digits.ParseDigitsBound` | script.js:154 | `parseInt` of k digits is below 10^k, so one or two pending digits give at most 99 |
| `Digits.ParseLeadingZero` | script.js:146 | the zero that `padStart` puts in front does not change the value read back |
| `Digits.ParseDigits` | script.js:154 | `parseInt` of a string of decimal digits, read left to right: one digit reads as its value, two digits as ten times the first plus the second |
| `Digits.NatToDecimal` | script.js:278 | `toString` of a non-negative integer below 10^21 (field values are at most 99) is a non-empty digit string with no leading zero unless it is "0" |
| `Digits.ParseNatToDecimal` | script.js:278 | reading back the `toString` numeral gives the number again |
| `Digits.NatToDecimalLength` | script.js:278 | the numeral has one digit exactly below 10, and at most two exactly below 100 |
| `Digits.PadStart` | script.js:146 | `padStart(width, pad)` has length max(width, old length), ends with the original string and is pad characters before it |
| `Digits.FormatTwoDigits` | script.js:277-279 | the result is a digit string that reads back as the number; it has length at least 2, and exactly 2 if and only if the number is at most 99. Above 99 it is the plain numeral, unpadded and with no leading zero |
| `Clock.Compose` | script.js:188 | fields within 99/59/59 give a total of at most 99:59:59; the total is 0 exactly when all three fields are 0 |
| `Clock.Decompose` | script.js:265-269 | the derived fields recompose to the total, minutes and seconds are below 60, and a total of at most 99:59:59 gives hours at most 99 |
| `Clock.DecomposeCompose` | script.js:188 | decomposing a composed total with minutes and seconds below 60 gives back the same three fields |
| `TimerModel.Clamp` | script.js:157-168 | the committed value is at most the group's limit (99 for hours, 59 otherwise). It is never more than the typed value, and it is either the typed value or the limit |
| `TimerModel.InitialInv` | script.js:2-11 | the freshly built timer satisfies the invariant, has nothing selected and is not locked |
| `TimerModel.ClearSelection` | script.js:74-78 | no group selected and no pending digits; fields, total and flags unchanged; keeps the invariant |
| `TimerModel.SelectDigitGroup` | script.js:65-72 | while running and not paused, nothing changes. Otherwise the group becomes selected with no pending digits, and fields, total and flags are unchanged |
| `TimerModel.FinalizeTempInput` | script.js:151-172 | with a group selected and digits pending, the selected group's field becomes the clamped value of the digits. The other two fields, the total, the flags and the selection are unchanged, and the pending digits are emptied. With no group or no digits, nothing changes. Keeps the invariant |
| `TimerModel.HandleDigitInput` | script.js:134-142 | the first digit is kept pending and changes no field. The second commits the clamped value 10a + b into the selected group, leaves the other fields alone and empties the pending digits. Keeps the invariant, so at most one digit stays pending between events |
| `TimerModel.HandleTabNavigation` | script.js:114-132 | with nothing selected, selects hours and changes no field. Otherwise it commits, then selects (i+1) mod 3 forward or (i+2) mod 3 backward, with no pending digits. Nothing changes while locked |
| `TimerModel.IsDigitKey` | script.js:108 | a key is a digit key exactly when its name is one of the ten one-character names "0" to "9" |
| `TimerModel.HandleKeyDown` | script.js:91-112 | nothing changes while running and not paused. Tab is tab navigation (Shift reverses). Enter with a group selected commits and deselects; Enter with nothing selected changes nothing. A single digit key with a group selected is digit input. Every other key, and a digit with nothing selected, changes nothing. The flags never change |
| `TimerModel.HandleDocumentClick` | script.js:80-89 | a click elsewhere with a group selected commits and deselects. Clicks on a digit group, the start/pause button or the theme toggle, and any click with nothing selected, change nothing |
| `TimerModel.StartTimer` | script.js:182-205 | it commits any open edit and leaves nothing selected. The total is hours·3600 + minutes·60 + seconds of the committed fields, and decomposes back into exactly those fields. A zero total leaves the timer idle with no interval. Otherwise the timer is running, unpaused and ticking, and no interval existed before |
| `TimerModel.PauseTimer` | script.js:207-211 | the interval is stopped and the timer is paused but still marked running, so editing is allowed again. Fields, total and edit state are unchanged |
| `TimerModel.ToggleTimer` | script.js:174-180 | when not running it starts. When running it pauses, keeping fields, total and edit state. When already paused it changes nothing: there is no resume |
| `TimerModel.CompleteTimer` | script.js:213-226 | the fields sum to zero, the total is zero, both flags are cleared, the interval is stopped and the edit state is kept |
| `TimerModel.UpdateTimeFromTotal` | script.js:265-269 | the fields become the hours/minutes/seconds decomposition of the total, and nothing else changes |
| `TimerModel.Tick` | script.js:196-204 | keeps the invariant. Above 1 the total drops by one and the interval stays; the fields recompose to the new total with minutes and seconds below 60. At 1 the tick completes and the state is exactly the initial all-zero idle state |
| `TimerModel.CompletesAfterExactlyTotalTicks` | script.js:196-204 | from a ticking state with total T, each of the first k < T ticks keeps the interval and leaves T - k; the T-th tick returns the timer to the all-zero idle state |
| `TimerModel.StartThenRunToCompletion` | script.js:182-204 | a start with a non-zero total T followed by T ticks ends in the all-zero idle state |
| `TimerModel.Step` | script.js:39-49 | dispatching one key, focus, click or interval event keeps the invariant |
| `TimerModel.Run` | script.js:39-49 | any sequence of events keeps the invariant |
| `TimerModel.LockedIgnoresEditing` | script.js:65-92 | while running and not paused, every key, focus and click event other than the start/pause button leaves the whole state unchanged |
| `TimerModel.PausedNeverResumes` | script.js:174-211 | from a paused state, after any sequence of events the timer is still running, still paused and not ticking |
| `TimerModel.TwoDigitsCommit` | script.js:134-172 | selecting a group and typing digits a, b writes the clamped value 10a + b into that group alone. The group stays selected with no digits pending, and the total and flags are unchanged (typing 7 then 5 into hours gives 75) |
| `TimerModel.FocusThenClick` | script.js:44-45 | a click on a digit group after its focus event leaves the same state as the click alone |
| `TimerModel.TabNavigationIsCyclic` | script.js:122-131 | three Tabs in the same direction return to the starting group; Tab then Shift+Tab (or the reverse) return as well |
| `TimerModel.TabWrapsAtBothEnds` | script.js:115-131 | Tab with nothing selected selects hours, Tab from seconds wraps to hours, and Shift+Tab from hours wraps to seconds |
| `Timer.TabTimer.constructor` | script.js:2-11 | the new object is in the initial state: all zero, idle, nothing selected |
| `Timer.TabTimer.SelectDigitGroup` | script.js:65-72 | updates the fields in place to `TimerModel.SelectDigitGroup` of the old state, keeping the invariant |
| `Timer.TabTimer.ClearSelection` | script.js:74-78 | updates the fields in place to `TimerModel.ClearSelection` of the old state |
| `Timer.TabTimer.HandleDocumentClick` | script.js:80-89 | updates the fields in place to `TimerModel.HandleDocumentClick` of the old state, keeping the invariant |
| `Timer.TabTimer.HandleKeyDown` | script.js:91-112 | updates the fields in place to `TimerModel.HandleKeyDown` of the old state, keeping the invariant |
| `Timer.TabTimer.HandleTabNavigation` | script.js:114-132 | updates the fields in place to `TimerModel.HandleTabNavigation` of the old state, keeping the invariant |
| `Timer.TabTimer.HandleDigitInput` | script.js:134-142 | updates the fields in place to `TimerModel.HandleDigitInput` of the old state, keeping the invariant |
| `Timer.TabTimer.FinalizeTempInput` | script.js:151-172 | updates the fields in place to `TimerModel.FinalizeTempInput` of the old state |
| `Timer.TabTimer.ToggleTimer` | script.js:174-180 | updates the fields in place to `TimerModel.ToggleTimer` of the old state, keeping the invariant |
| `Timer.TabTimer.StartTimer` | script.js:182-205 | updates the fields in place to `TimerModel.StartTimer` of the old state, keeping the invariant |
| `Timer.TabTimer.Tick` | script.js:196-204 | the interval body, callable only while the interval exists; updates the fields to `TimerModel.Tick` of the old state |
| `Timer.TabTimer.PauseTimer` | script.js:207-211 | updates the fields in place to `TimerModel.PauseTimer` of the old state, keeping the invariant |
| `Timer.TabTimer.CompleteTimer` | script.js:213-226 | updates the fields in place to `TimerModel.CompleteTimer` of the old state |
| `Timer.TabTimer.UpdateTimeFromTotal` | script.js:265-269 | updates the fields in place to `TimerModel.UpdateTimeFromTotal` of the old state |
| `Timer.TabTimer.DisplayedTime` | script.js:271-279 | the three texts `updateDisplay` writes are, in every reachable state, exactly two digits each and read back as their field's value |
| `Timer.TabTimer.PendingText` | script.js:144-149 | a pending text exists exactly when a group is selected and a digit is pending. It is two digits, its second character is the pending digit, and it reads as the pending value |

## Left out

- DOM plumbing is not modelled: looking up elements, wiring listeners, `classList` changes, `textContent` writes, `preventDefault` and the `DOMContentLoaded` bootstrap. The texts the widget would write are modelled by `DisplayedTime` and `PendingText`.
- Theme handling (`initializeTheme`, `toggleTheme`, the system-preference listener) is not modelled. It is storage and media-query glue and does not touch the timer's state. A click on the theme toggle is still an event, and it leaves the timer's state unchanged.
- The completion sound (`playGong`, `playsyntheticGong`) is not modelled. It is Web Audio calls with floating-point ramps and caught exceptions.
- Wall-clock timing of `setInterval` and `clearInterval` is not modelled. The interval is the ghost flag `ticking`, and each firing is one explicit `Tick`.
- Focus versus click: clicking a digit group fires both its focus and its click listener, and both call `selectDigitGroup`. The model has `Focus` and `Click` as separate events, and the order in which the browser delivers them is left to the caller. `FocusThenClick` proves that running the selection twice has the same effect as running it once.
- `TimerModel.UpdateTimeFromTotal`: modelled only for a non-negative total. That is the only way the interval body reaches it, because the interval exists only while the total is at least 1. For negative totals, JavaScript's truncating `%` would differ from Dafny's.
- `TimerModel.FinalizeTempInput`: `parseInt` is modelled only on strings of decimal digits, the only strings `tempInput` can hold. `NaN` from an empty string cannot arise, because the empty case returns early.
- What the screen shows is not modelled, only the texts the widget computes. The screen can go stale. `updateTempDisplay` writes the padded pending digit into the selected group (script.js:144-147). Selecting another group or clearing the selection drops that digit without calling `updateDisplay` (script.js:65-78). `startTimer` returns early when the total is 0 (script.js:190). For example: select hours, type 7, click minutes, then press Start with all fields at 0. The hours group still shows "07", but `hours` is 0 and nothing starts. `DisplayedTime` gives what `updateDisplay` would write, not what is on the screen at that moment.
- `Digits.NatToDecimal`: models `toString` only as the plain decimal numeral. JavaScript switches to exponent notation from 10^21 up; field values never get near that.
- Displaying a value above 99 cannot happen in a reachable state. `FormatTwoDigits` still covers it: the numeral then has more than two digits, as `padStart` does not truncate.
