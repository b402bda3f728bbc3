# Sizzle timer, modelled in Dafny

Sizzle timer is a single-page steak timer. The user picks a doneness
(rare to well-done, 240 to 480 seconds) and presses start. A countdown
then runs, asks for the steak to be flipped at the halfway point, and
announces completion. After that a restart button brings the page back.
This project models the three pieces of the page that hold logic, and
proves properties of them:

- `timer.dfy`, module `Timer`: the countdown.
  - The state is `timeRemaining` and `firstSide`, together with the
    `isRunning` prop and the interval having been cleared.
  - `Step` is the one-second tick as a pure function. `Run` and `Signals`
    iterate it.
  - `class Timer` holds the same fields. Its `Tick` method performs the
    tick in place and is proved equal to `Step`.
  - `Format` is the mm:ss display, built with JavaScript's
    `toString`/`padStart` and its truncating `%`. `ParseClock` reads a
    display back.
- `number_text.dfy`, module `NumberText`: the decimal text of whole
  numbers, `padStart`, and the value of a digit string.
- `index.dfy`, module `Index`: the page.
  - The doneness table and the `find(...) || DONENESS_OPTIONS[0]` lookup.
  - The six state hooks as a `Session` value and as `class Page`, with one
    method per handler. Each method's precondition is the render guard
    that makes the handler reachable: the start button, the restart
    button, the mounted Timer and the shown notification. The picker's
    selection has no guard: the picker is always rendered, and while a
    cook runs or is complete it only ignores pointer input.
  - `Perform` runs a sequence of actions and yields `None` as soon as one
    is not offered.
  - The lemmas about whole traces, including one full cook driven by the
    Timer's own signals.
- `cooking_instructions.dfy`, module `CookingInstructions`: the heading and
  instruction text for the page's flags.
- `wrappers.dfy`: `Option`.

The model does no I/O. Time passes only when a tick is delivered
explicitly. A callback "firing" is a `Signal` returned by the tick,
`Flip` or `Complete`, in the order the source calls them.

## Model

| member | source | states |
|---|---|---|
| Timer.HalfwayPoint | src/components/Timer.tsx:22 | the halfway point h is floor(totalTime/2): 2h <= totalTime < 2h+2 |
| Timer.Initial | src/components/Timer.tsx:20-21 | a fresh timer has timeRemaining = totalTime, firstSide true, and an interval not yet cleared, which ticks only while isRunning holds |
| Timer.Step | src/components/Timer.tsx:30-49 | one tick. While no interval runs, nothing changes and nothing fires. Otherwise the remaining time becomes prev-1 if that is positive, else exactly 0. Flip fires iff firstSide holds and prev-1 is the halfway point, and firstSide then clears. Complete fires iff prev-1 <= 0, and the interval is then cleared. Flip comes before Complete. |
| Timer.InitialInv | src/components/Timer.tsx:20-27 | the initial state satisfies the bound 0 <= timeRemaining <= totalTime |
| Timer.RunInv | src/components/Timer.tsx:20-49 | for totalTime >= 0, the remaining time stays within [0, totalTime] after any number of ticks, and a cleared interval means 0 remains |
| Timer.FlipAtMostOnce | src/components/Timer.tsx:37-40 | over any number of ticks, Flip fires exactly once if firstSide went from true to false, otherwise never; once false, firstSide stays false |
| Timer.CompleteAtMostOnce | src/components/Timer.tsx:43-46 | over any number of ticks, Complete fires exactly once if the interval went from live to cleared, otherwise never; a cleared interval stays cleared |
| Timer.IdleStaysIdle | src/components/Timer.tsx:30 | while isRunning is false, or after clearInterval, any number of ticks changes nothing and fires nothing |
| Timer.Schedule | src/components/Timer.tsx:20-49 | for T >= 1 and k <= T, after k ticks T-k seconds remain, firstSide holds iff k < T-floor(T/2), and the interval is cleared iff k = T |
| Timer.TickSignals | src/components/Timer.tsx:33-49 | for T >= 1, tick k fires Flip iff k = T-floor(T/2) and Complete iff k = T, with Flip first (for T = 1 both fire on tick 1) |
| Timer.SignalsUpTo | src/components/Timer.tsx:33-49 | everything fired during the first k ticks of a session of length T |
| Timer.WholeSession | src/components/Timer.tsx:20-49 | a whole session of T >= 1 ticks fires exactly [Flip, Complete] and ends with 0 remaining and the interval cleared |
| Timer.AfterCompletion | src/components/Timer.tsx:43-46 | ticks after completion change neither the state nor the signals |
| Timer.ZeroDuration | src/components/Timer.tsx:22 | with totalTime 0 the first tick reaches -1, not the halfway point 0, so it completes without a flip |
| Timer.MediumRare | src/pages/Index.tsx:11 | the 300-second session flips on tick 150 and completes on tick 300, with nothing in between |
| Timer.OddDuration | src/components/Timer.tsx:22 | with 241 seconds the flip comes on tick 121, when 120 = floor(241/2) seconds remain |
| Timer.TruncRem | src/components/Timer.tsx:58 | JavaScript's % for a positive divisor: the Euclidean remainder for a >= 0; for negative a it is a minus b times the quotient truncated toward zero, a + b*((-a) div b), which lies in (-b, 0] |
| Timer.Field | src/components/Timer.tsx:59-61 | toString padded to two characters with '0': at least two characters; for n >= 0 digits worth n; for n < 0 a '-' followed by digits worth -n; longer than two characters only when unpadded, so with no leading zero ("100", "-10") |
| Timer.Format | src/components/Timer.tsx:57-61 | the display is Field(t div 60) + ":" + Field(JavaScript's t % 60); for t >= 0 it reads back as minutes t div 60 and seconds t mod 60 |
| Timer.FieldOfNat | src/components/Timer.tsx:59-61 | a padded field of n >= 0 is digits worth n, has at least two characters, has exactly two iff n < 100, and from 100 on starts with a nonzero digit |
| Timer.ParseClockOf | src/components/Timer.tsx:59-61 | "minutes:seconds" text built from digit strings reads back as their two values |
| Timer.FormatRoundTrip | src/components/Timer.tsx:57-61 | for t >= 0, the display reads back as a clock worth exactly t seconds, with seconds < 60 |
| Timer.FormatNegative | src/components/Timer.tsx:57-61 | a negative count keeps JavaScript's signs: -5 shows as "-1:-5" |
| Timer.FormatShape | src/components/Timer.tsx:57-61 | for 0 <= t < 6000 the display has 5 characters, ':' at index 2 and digits on both sides; the fields are t div 60 and t mod 60 < 60, and minutes*60 + seconds = t |
| Timer.Timer.constructor | src/components/Timer.tsx:13-21 | mounting starts from the initial state and satisfies the bound |
| Timer.Timer.TotalTimeChanged | src/components/Timer.tsx:24-27 | a totalTime prop that differs resets timeRemaining to it and firstSide to true and registers a fresh interval; the same totalTime changes nothing, since neither effect runs |
| Timer.Timer.RunningChanged | src/components/Timer.tsx:29-54 | a changed isRunning prop is recorded: the cleanup clears the old interval, and ticks resume only when the new value is true, since a false prop registers no interval; an unchanged prop changes nothing; the countdown state is kept |
| Timer.Timer.Tick | src/components/Timer.tsx:32-50 | the in-place tick makes the same state and fires the same callbacks, in the same order, as Step; it keeps the bound |
| Timer.Timer.FormattedTime | src/components/Timer.tsx:57-61 | for timeRemaining >= 0, the shown text reads back as minutes timeRemaining div 60 and seconds timeRemaining mod 60, which make exactly timeRemaining seconds |
| NumberText.NatToString | src/components/Timer.tsx:59-60 | toString of a whole number >= 0 is a non-empty digit string with no leading zero |
| NumberText.IntToString | src/components/Timer.tsx:59-60 | toString of n >= 0 is a digit string worth n with no leading zero; of n < 0 it is '-' followed by a digit string worth -n, again with no leading zero |
| NumberText.PadStart | src/components/Timer.tsx:59-61 | padStart(width, fill) has length max(len, width), ends with the original text, and is fill before it |
| NumberText.NatToStringValue | src/components/Timer.tsx:59-60 | the decimal text of n reads back as n |
| NumberText.NatToStringShort | src/components/Timer.tsx:59-61 | the text of n has one character below 10, two from 10 to 99, and at least three from 100 |
| NumberText.PadStartValue | src/components/Timer.tsx:59-61 | padding a digit string with '0' keeps it all digits and keeps its value |
| Index.TableFacts | src/pages/Index.tsx:9-15 | the table has five rows with pairwise distinct ids and times 240, 300, 360, 420 and 480 |
| Index.Find | src/pages/Index.tsx:25 | find returns the first index whose id matches, or nothing iff no row matches |
| Index.SelectedOption | src/pages/Index.tsx:25 | the selected option is always a row of the table: the row whose id matches when there is one, else the first row |
| Index.LookupEveryRow | src/pages/Index.tsx:9-25 | each row's id selects that row, so the lookup is unambiguous |
| Index.SelectedTime | src/pages/Index.tsx:25-100 | whatever is selected, the Timer receives a time between 240 and 480 |
| Index.Enabled | src/pages/Index.tsx:97-147 | the render guards: start while neither running nor complete, the Timer callbacks while running and not complete, restart while complete, the animation end while the notification shows, a selection always; in a reachable session start comes only before a cook, the Timer callbacks and restart only during a started cook |
| Index.Apply | src/pages/Index.tsx:27-53 | the setters of each handler, field by field: only a selection (line 116) changes the selection; only flip and animation end change showFlip; flip toggles flipped and start/restart clear it; the phase flags change only on start, completion and restart, to the values the handlers set |
| Index.InitialSessionFacts | src/pages/Index.tsx:18-23 | the initial selection is "medium-rare", all five flags are false, and the page invariant holds |
| Index.ApplyKeepsInv | src/pages/Index.tsx:27-147 | each handler, run when the page offers it, keeps the invariant: not both running and complete, cookingStarted iff running or complete, not flipped before a cook |
| Index.PerformKeepsInv | src/pages/Index.tsx:27-131 | any sequence of offered actions keeps the invariant |
| Index.NeverRunningAndComplete | src/pages/Index.tsx:18-131 | from the initial page, no sequence of offered actions leads to running and complete at once |
| Index.SelectionFixedWhileCooking | src/pages/Index.tsx:97-117 | with pointer input only, no action changes the selection while the Timer is mounted, so its totalTime prop stays the same |
| Index.SelectionDuringCook | src/pages/Index.tsx:99-117 | a keyboard selection reaches the always-rendered picker during a cook: the page keeps cooking and the Timer's totalTime prop changes (300 to 240 seconds when medium-rare becomes rare) |
| Index.FlipTwice | src/pages/Index.tsx:39-42 | the flip handler toggles flipped, so two flips restore it, and it leaves the notification shown |
| Index.HeadingMatchesGuards | src/pages/Index.tsx:86-131 | under the invariant, the preparation heading shows iff start is offered, the cooking heading iff the Timer is mounted, and the done heading iff restart is offered |
| Index.Handlers | src/pages/Index.tsx:102-103 | each Timer callback, in order, becomes the page action it is wired to: onFlip to handleFlip, onComplete to handleComplete |
| Index.CookActions | src/pages/Index.tsx:27-53 | start, flip, complete gives complete, flipped, notification shown and cookingStarted, with the selection kept; restart after that clears everything but the notification flag and the selection |
| Index.SessionHandlers | src/pages/Index.tsx:99-104 | a whole Timer session calls the page's flip handler and then its completion handler |
| Index.CookFor | src/pages/Index.tsx:27-104 | start followed by the callbacks of a whole Timer session of any length T >= 1 ends complete and flipped exactly once; restart brings the flags back |
| Index.WholeCook | src/pages/Index.tsx:25-104 | the same for the Timer the page mounts, whose length is the selected option's time |
| Index.ReselectAfterFlip | src/pages/Index.tsx:39-42 | on the page side, a selection between the flip and completion followed by a second onFlip ends the cook complete, showing the steak unflipped, with the new selection. The Timer delivers that second flip only when the selection changes the cooking time (Timer.Timer.TotalTimeChanged restarts it; the same time changes nothing) |
| Index.Page.constructor | src/pages/Index.tsx:18-23 | the page's six hooks start at their initial values |
| Index.Page.Selected | src/pages/Index.tsx:25 | the page's selectedOption is a row of the table: the one matching the selection when there is one, else the first row |
| Index.Page.HandleStartCooking | src/pages/Index.tsx:27-32 | only offered when neither running nor complete; sets running, clears complete and flipped, sets cookingStarted, leaves the notification and the selection; keeps the invariant |
| Index.Page.HandleComplete | src/pages/Index.tsx:34-37 | only reachable while the Timer is mounted; sets running false and complete true and leaves the rest; keeps the invariant |
| Index.Page.HandleFlip | src/pages/Index.tsx:39-42 | only reachable while the Timer is mounted; shows the notification and toggles flipped, leaving the rest; keeps the invariant |
| Index.Page.HandleFlipAnimationEnd | src/pages/Index.tsx:44-46 | hides the notification and changes nothing else |
| Index.Page.HandleReset | src/pages/Index.tsx:48-53 | only offered when complete; clears running, complete, flipped and cookingStarted and leaves the notification and the selection; keeps the invariant |
| Index.Page.HandleSelect | src/pages/Index.tsx:109-117 | in any phase, as setSelectedDoneness has no guard; changes the selection and nothing else, and keeps the invariant |
| CookingInstructions.Instructions | src/components/CookingInstructions.tsx:18-30 | not running and not complete gives the preparation heading and text; running and not complete gives the cooking heading and text; complete, whatever running is, gives "完成！" with the doneness label verbatim between the two fixed pieces; heading and text are never empty |
| CookingInstructions.HeadingsDistinct | src/components/CookingInstructions.tsx:21-30 | the three headings differ from each other |
| CookingInstructions.HeadingByPhase | src/components/CookingInstructions.tsx:21-30 | the heading depends only on the phase, and complete takes precedence over running |

## Left out

- Rendering, JSX markup, styling and animations are presentation only.
  This covers the header, the progress ring, the "first side / second
  side" caption, `CookingAnimation`, `PixelSteak` and the steak and crust
  grids. The grids are literal tables, with nothing computed.
- `setInterval` and React's effect scheduling are not modelled. A tick is
  a call of `Step` or `Timer.Tick`.
  - The interval the source re-registers whenever `firstSide`, `onFlip`
    or `onComplete` change is modelled as one interval that lives until
    `clearInterval` or a prop change.
  - Ticks that a re-registration might delay or drop are not modelled.
- Timer.CompleteAtMostOnce, Timer.AfterCompletion: "a cleared interval
  stays cleared" holds of the one modelled interval. In the source the
  interval effect re-runs whenever `firstSide`, `onFlip` or `onComplete`
  change (src/components/Timer.tsx:54), and while `isRunning` is true it
  registers a new interval (line 30) even after `clearInterval`. With
  totalTime 1, tick 1 clears firstSide and the interval and calls
  `onComplete`; the re-render registers again, and the next tick (0 to -1)
  would call `onComplete` a second time. On the page this does not happen:
  `handleComplete` sets `isRunning` false, which unmounts the Timer in the
  same render (src/pages/Index.tsx:35, 97), so the model does not promise
  at-most-once completion of a standalone Timer whose `isRunning` prop
  stays true.
  - The source calls `setFirstSide`, `onFlip` and `onComplete` from inside
    the `setTimeRemaining` updater. The model performs those effects
    immediately and in program order.
- Unmounting the Timer is modelled through the page's guard
  `TimerMounted`. No Timer callback is delivered without it.
- The progress percentage (src/components/Timer.tsx:64) and the crust
  opacity are not modelled: they are floating-point presentation values.
- Random seasoning placement is not modelled: it draws on `Math.random`.
- `DonenessPicker` and the Select widget behind it are not part of this
  model. A selection is any string passed to `HandleSelect`.
- `FlipNotification` is reduced to its `onAnimationEnd` callback. Its
  3-second timeout is not part of this model.
- A non-integral `totalTime` is not modelled; the table only holds whole
  seconds.
- Timer.Timer.Tick: requires the bound `Valid()`. The source has no such
  precondition, but the constructor and every method establish the bound,
  and for a negative `totalTime` it holds vacuously.
- The handler methods of `Index.Page` other than `HandleSelect` require
  their render guard and the page invariant. The source reaches each of
  them only through the button or component that the same guard renders.
- Index.WholeCook: its trace has no selection during the cook. A selection
  then changes the mounted Timer's `totalTime`, which restarts it
  (`Timer.Timer.TotalTimeChanged`); `Index.ReselectAfterFlip` shows the
  page side of that case. The page and the Timer are not joined into one
  state, so the restart itself is stated on the Timer alone.
- Numbers are whole numbers kept as unbounded `int`. JavaScript numbers
  are doubles, and `toString` writes exponent notation from 1e21 on;
  `NumberText.IntToString` models whole numbers below that. The times
  here are at most 480 seconds.
