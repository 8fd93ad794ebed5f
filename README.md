# Lucky spin: the spin engine and the daily spin ledger

This project models, in Dafny, the core of a browser prize-wheel app. A user picks an identity and a mode (REGULER or EXCLUSIVE) on the entry screen and spins an animated wheel. The wheel picks a random segment and turns for at least ten seconds with a quintic ease-out. It stops with the chosen segment under the pointer and reports that segment's prize once. The app counts spins for each (UTC date, user, mode). It keeps the five most recent results, newest first, and writes both to the browser's string-keyed store.

Modules, one per source file or concern:

- `Types` (`types.dfy`): the records. `SpinMode` has exactly two constructors. `SpinResult.prize` is a string, a copy of the prize's label. `UserProfile.selectedMode` is an `Option`. `Prize.id` and `SpinResult.spinNumber` are plain `int`s. A `Prize`'s label is the field `text`, because `label` is a Dafny keyword.
- `Constants` (`constants.dfy`): the two 12-entry prize catalogs and the six identities.
- `Gate` (`landing_gate.dfy`): the entry screen as a class with `selectedName` and `mode`, plus the name lookup.
- `Outcome` (`outcome.dfy`): the arithmetic of a spin. It covers the segment, duration and turn count drawn from the three random numbers, the stopping rotation and the pointer geometry. It also covers progress, the ease-out curve and the rotation at a given progress.
- `WheelEngine` (`wheel.dfy`): the wheel as a class, an Idle/Spinning state machine. `Spin` is the spin request. `Tick(now)` is one animation frame and returns the prize on the frame where the spin completes.
- `Ledger` (`ledger.dfy`): the active mode and catalog, the storage keys of a partition, the bounded history and a typed view of the store.
- `AppState` (`app.dfy`): the app's session state as a class. `Load` is the load effect, `SpinClick` the spin button and `OnFinished` the completion handler.

Randomness, the clock and the date are parameters. `Math.random()` becomes three reals in [0, 1), taken in the source's order: duration, then segment, then whole turns. `performance.now()` and the animation-frame timestamp become `now: real`. `Date.now()` becomes `timestamp: int`. The date becomes a `date` string, which the source takes as the UTC calendar date (`toISOString`). The generated result id becomes an opaque `id` parameter. The browser store is a `map<string, Stored>`, where `Stored` is a counter, a history or a profile. Its invariant `WellFormed` says that count keys hold counters, history keys hold at most five results, and the session key `spin_user_session` holds a profile.

The model follows the code on these points:

- The date is the UTC date, not the local date.
- The session key is `spin_user_session`.
- Malformed stored data is not recovered from. `Load` requires that the partition's entries have the right kind, which `WellFormed` guarantees.
- A second spin does not always turn the wheel forward. `Outcome.SecondSpinCanTurnBack` shows a next target below the previous one.
- Leaving the session (`App.Leave`) does not remove the saved session entry. The profile is therefore restored on the next start.

## Model

| member | source | states |
|---|---|---|
| Constants.RegulerPrizes | constants.tsx:3-16 | the REGULER catalog has 12 entries and the entry at position i has id i |
| Constants.ExclusivePrizes | constants.tsx:18-31 | the EXCLUSIVE catalog has 12 entries and the entry at position i has id i |
| Constants.ExclusiveLabelsRepeat | constants.tsx:19-29 | "40B" labels three different segments (ids 0, 7, 10), so a label does not identify a segment |
| Constants.NamesList | constants.tsx:33-40 | six identities, each with name equal to display name and no mode; display names are pairwise distinct |
| Gate.FindByDisplayName | components/LandingGate.tsx:16 | returns the first position whose display name matches, or None exactly when no entry matches |
| Gate.LandingGate.constructor | components/LandingGate.tsx:11-12 | the entry screen starts with no name selected and mode REGULER |
| Gate.LandingGate.SelectName | components/LandingGate.tsx:58 | selecting a name sets `selectedName` and nothing else |
| Gate.LandingGate.SelectMode | components/LandingGate.tsx:83 | selecting a mode sets `mode` and nothing else |
| Gate.LandingGate.HandleEnter | components/LandingGate.tsx:14-23 | no profile when the name is empty or matches no identity; otherwise the matching identity with `selectedMode` set to the current mode |
| Outcome.SegmentAngle | components/Wheel.tsx:135 | for catalog sizes n with 360 mod 2n = 0, the segment angle is even and n segments make exactly 360 degrees |
| Outcome.Duration | components/Wheel.tsx:130-132 | the duration lies in [12000, 15000) ms for EXCLUSIVE and in [10000, 12000) ms for REGULER, so it is never under 10 s |
| Outcome.TargetIndex | components/Wheel.tsx:134 | floor(r*n) with r in [0, 1) is a valid segment index in [0, n) |
| Outcome.TargetIndexInterval | components/Wheel.tsx:134 | segment i is chosen exactly for draws in [i/n, (i+1)/n), an interval of width 1/n for every segment |
| Outcome.FullSpins | components/Wheel.tsx:138 | whole turns lie in [18, 27] for EXCLUSIVE and in [15, 22] for REGULER |
| Outcome.TargetRotation | components/Wheel.tsx:139 | for a segment index in range, the stopping rotation lies strictly between fullSpins*360 - 90 and fullSpins*360 + 270, so the number of whole turns fixes the turn the wheel stops in |
| Outcome.PointerSegment | components/Wheel.tsx:41-48 | the segment under the pointer (270 degrees on the canvas) at a given rotation is a valid index |
| Outcome.TargetAlignment | components/Wheel.tsx:139 | the stopping rotation modulo 360 is 270 - (index*seg + seg/2) modulo 360, whatever the number of whole turns |
| Outcome.StopsOnTarget | components/Wheel.tsx:135-139 | at the stopping rotation the pointer is over the centre of the chosen segment, so the segment under the pointer is the chosen one |
| Outcome.TwelveSegmentStops | components/Wheel.tsx:135-139 | with 12 segments, index 0 stops at 255 and index 6 at 75 degrees modulo 360 |
| Outcome.SecondSpinCanTurnBack | components/Wheel.tsx:138-141 | a next target (15 turns, index 11) can lie below a previous one (27 turns, index 0), so `diff` can be negative |
| Outcome.Pow | components/Wheel.tsx:149 | the power of a non-negative base is non-negative; 1 to any power is 1; 0 to a positive power is 0 |
| Outcome.Ease | components/Wheel.tsx:149 | the ease-out is 0 at progress 0, 1 at progress 1, and never exceeds 1 for progress up to 1 |
| Outcome.EaseRange | components/Wheel.tsx:149 | the ease-out maps 0 to 0 and 1 to 1 and keeps [0, 1] within [0, 1] |
| Outcome.EaseIncreasing | components/Wheel.tsx:149 | the ease-out is strictly increasing on [0, 1] |
| Outcome.Progress | components/Wheel.tsx:144-145 | progress never exceeds 1, is 1 exactly when elapsed reaches the duration, and is non-negative for non-negative elapsed time |
| Outcome.ProgressMonotone | components/Wheel.tsx:144-145 | progress never decreases as time advances |
| Outcome.RotationAt | components/Wheel.tsx:151 | at progress 0 the rotation is the start rotation, and at progress 1 it is the target |
| Outcome.RotationBetween | components/Wheel.tsx:141-151 | during a spin the rotation stays between start and target, and equals the target at progress 1 |
| WheelEngine.Wheel.constructor | components/Wheel.tsx:19-21 | a new wheel is idle at rotation 0 with the given mode and catalog |
| WheelEngine.Wheel.Spin | components/Wheel.tsx:121-141 | while spinning, a request changes nothing. Otherwise the wheel starts spinning and records the start time, the start rotation, the duration, the segment and the target from the three draws |
| WheelEngine.Wheel.Tick | components/Wheel.tsx:143-160 | the rotation is start + diff * ease(progress). Before the duration elapses the wheel keeps spinning and reports nothing. On the completing frame the wheel goes idle at exactly the target, reports `prizes[targetIndex]` (the segment under the pointer) once, and the reported count catches up with the started count |
| WheelEngine.RepeatedRequestScenario | components/Wheel.tsx:121-160 | on a 4-segment wheel, a frame at 500 ms reports nothing, a second request at 600 ms is ignored (components/Wheel.tsx:122), and the frame at 20000 ms reports the prize of the first request's segment and leaves the wheel at the first request's target |
| Ledger.ModeOf | App.tsx:29 | the mode is EXCLUSIVE exactly when a user is present with EXCLUSIVE selected; otherwise REGULER |
| Ledger.ActivePrizes | App.tsx:30 | the catalog is the EXCLUSIVE one exactly in EXCLUSIVE mode and the REGULER one exactly in REGULER mode; it has 12 segments |
| Ledger.GetKeys | App.tsx:33-41 | the count key is empty exactly when no user has entered, and likewise the history key |
| Ledger.KeysSharePrefix | App.tsx:36-39 | with a user, both keys start with "spin_v3_<date>_" and carry the same partition prefix in front of "_count" and "_history" |
| Ledger.KeysShape | App.tsx:33-41 | with no user both keys are empty. With a user the count key ends in "_count" and the history key in "_history", so they differ from each other and from the session key |
| Ledger.KeyPrefixInjective | App.tsx:36 | for dates of one length, the prefix determines date, name and mode |
| Ledger.KeysInjective | App.tsx:36-39 | two partitions share a count or history key only if date, name and mode agree; a count key is never a history key |
| Ledger.DaysApart | App.tsx:35-39 | one user's partitions on two different days share no key with each other or with the session key |
| Ledger.ModesNeverShare | App.tsx:36-39 | REGULER and EXCLUSIVE partitions of one user on one day share no key |
| Ledger.PushHistory | App.tsx:82 | the new history has min(5, old+1) entries, starts with the new result and continues with a prefix of the old history |
| Ledger.HistoryAfterKeepsMostRecent | App.tsx:82 | after any number of recorded spins the history is the most recent results, newest first, then the earlier history, five at most |
| Ledger.SevenSpinsKeepFive | App.tsx:82 | seven spins from an empty history leave exactly the last five, newest first |
| Ledger.PushKeepsNumbering | App.tsx:69-82 | recording spin number count+1 keeps entry i of the history numbered count+1-i |
| Ledger.StoredCount | App.tsx:48-51 | an absent counter reads as 0 |
| Ledger.StoredHistory | App.tsx:49-52 | an absent history reads as the empty history |
| Ledger.KeysReadable | App.tsx:48-52 | in a well-formed store a user's partition holds, where present, a counter and a history of at most five |
| Ledger.PutKeepsWellFormed | App.tsx:86-87 | writing an entry that fits its key keeps the store well-formed |
| Ledger.WriteKeepsWellFormed | App.tsx:86-87 | writing the counter and the history keeps the store well-formed |
| Ledger.SessionWriteKeepsWellFormed | App.tsx:54 | saving the profile under the session key keeps the store well-formed |
| AppState.UserName | App.tsx:76 | the recorded user name is never empty: the user's name, or "Unknown" without a user or with an empty name |
| AppState.App.constructor | App.tsx:12-23 | at start-up the saved profile is resumed if the session key holds one; no spin, count 0, empty history |
| AppState.App.Enter | App.tsx:57-59 | entering sets the user |
| AppState.App.Leave | App.tsx:186-189 | leaving clears the user and leaves the store alone |
| AppState.App.Resync | App.tsx:46-52 | count and history become the stored values of the date's partition (0 and empty when absent) |
| AppState.App.Load | App.tsx:44-55 | without a user nothing changes. With a user, count and history are read from the partition and the store changes only at the session key, which now holds the profile |
| AppState.App.SpinClick | App.tsx:61-65 | while a spin is in progress (by the app's flag or the wheel's own) the wheel is left entirely unchanged; otherwise the flag is set and an idle wheel starts a spin at `now` from its current rotation, with duration, segment and stopping rotation taken from the three draws |
| AppState.App.OnFinished | App.tsx:67-92 | the count goes up by one. The result carries that number, the prize's label, the mode and the user name. The history gains the result in front (five at most). Exactly the count and history keys are written, the spin flag is cleared, and downward numbering is kept |
| AppState.App.OnFinishedDaily | App.tsx:67-92 | corrected completion handler: the count and history are first re-read for the date, so the day's stored counter goes up by one from what that day held |
| AppState.TwoSpinsOneDay | App.tsx:67-87 | two spins from an empty store on one day are numbered 1 and 2, the history is [second, first] and the stored counter is 2 |
| AppState.DayRolloverCarriesCount | App.tsx:33-55 | as written, a spin after the date changes stores the previous day's count plus one under the new day's empty key (0 becomes 2) |
| AppState.DayRolloverStartsFresh | App.tsx:67-87 | with the corrected handler the new day's counter goes from 0 to 1 and the previous day's stays at 1 |

## Findings

| source | as written | input that shows it | evidently intended | confidence | as-written member | corrected member |
|---|---|---|---|---|---|---|
| App.tsx:41,55 | The load effect depends only on user and mode, while `getKeys` reads the date each time it is called. A spin after the UTC date changes writes the in-memory count of the previous day plus one under the new day's key | enter, load on day d1, spin once, then spin once more on a day d2 of the same length: d2's counter goes from absent to 2 | each day's counter counts that day's spins only (the footer promises a daily reset, App.tsx:196) | medium, not executed | AppState.DayRolloverCarriesCount | AppState.App.OnFinishedDaily |

## Left out

- Canvas drawing (`drawWheel`, components/Wheel.tsx:23-118), JSX and CSS. These are presentation; only the segment geometry of lines 41-48 is modelled, by `Outcome.PointerSegment`.
- `requestAnimationFrame`, `cancelAnimationFrame` and the unmount cleanup (components/Wheel.tsx:155,162,166-169). The host's frame scheduling becomes the caller invoking `Tick` while `spinning` holds, and `spinning` is exactly "a frame is scheduled".
- Uniformity of `Math.random()`. It cannot be stated here. `Outcome.TargetIndexInterval` states what a uniform draw would then give.
- The result id `Math.random().toString(36)` (App.tsx:72). It is an opaque parameter, so uniqueness of ids is not modelled.
- IEEE floating point in `/`, `Math.pow`, `Math.floor` and `Math.min`. The model uses exact `real` and `int`. The stopping rotation is an `int` because 360 mod 2n = 0 for the 12-entry catalogs.
- `localStorage`, `JSON.parse`/`JSON.stringify` and `parseInt`. The store is a typed map, and encoding to strings is not modelled. Malformed stored data, which the source does not handle, is excluded by `WellFormed`.
- React state batching and effect ordering. `OnFinished` reads the current fields where the source reads the last rendered state. The wiring from the wheel's completion to `OnFinished` is left to the caller.
- The re-spin after 400 ms from the result dialog (App.tsx:177), the dialogs (`showResult`, `currentResult`, `confirmState`), and ResultModal.tsx, ConfirmModal.tsx and SpinHistory.tsx. These only render state.
- WheelEngine.Wheel.Spin: the wheel's mode and catalog are constants of the object. The source reads them from props that stay fixed while the wheel is shown.
- Ledger.KeysInjective: it is stated for dates of equal length. That is the `YYYY-MM-DD` form `toISOString` produces; dates of other lengths could collide.
