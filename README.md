# ZenGarden focus timer: a Dafny model

ZenGarden is a single-screen focus-timer web app: a countdown runs for a focus
session, and each completed session grows a plant in the user's garden and
updates the user's statistics. This project models the two pieces of logic the
app has and proves what they promise.

- **The countdown timer** (`components/Timer.tsx`), module `TimerComponent`.
  The state (remaining `seconds`, `isActive`) is a value `TimerState`. The
  functions `Tick` (the `tick` callback: the `setSeconds` updater and its side
  effects), `IntervalTick` (one firing of the interval, which exists only while
  the timer is active), `Toggle` and `Initial` (mount and reset) give its
  transitions. `RunTicks` runs n interval firings and collects every argument
  passed to `onComplete`. The class `Timer` holds the component's state as
  fields: `intervalArmed` stands for `timerRef` holding a live interval, and
  `completions` logs the `onComplete` calls. Its methods `Tick`, `ToggleActive`
  and `Reset` are proved to follow those functions and to keep the bounds.
  Also modelled: the `MM:SS` display `FormatTime`, with the JavaScript
  `toString`/`padStart` it uses in module `Decimal`, and proved against a reader
  `ParseClock`; and the `progress` percentage.
- **Session bookkeeping** (`App.tsx`), module `AppComponent`. `CompleteStats`,
  `NewPlant` and `AddToGarden` give the pure parts of `handleFocusComplete`.
  `ToggleLang` is the language ring, `NextTemplateIndex` the draw of the next
  template, and `Milestone` the century-forest bar. The class `App` holds
  `lang`, `stats`, `plants`, `coachMsg` and `currentPlantTemplate`. Its method
  `HandleFocusComplete` does one completion as a single atomic step. Its
  invariant `Consistent` ties the statistics to the garden: one plant per
  session, total minutes equal to the plants' minutes, sunlight equal to 50
  plus two per minute, and an unbroken streak equal to the best streak.
- The record shapes (`types.ts`) are in module `Types`. The constants
  (`constants.tsx`: `FOCUS_DURATION = 25`, `INITIAL_STATS`, the five plant
  templates) are in module `Constants`.

Text from the generative-language service comes in as function parameters, as
do its arguments. `generateLore(name, rarity, lang)` stands for the plant lore.
`coachMessage(minutes, total, lang)` stands for the coach message.
`Math.random()` is a parameter `r` with `0 <= r < 1`. `Date.now()` is an integer
parameter. The random plant id is a string parameter.

Behaviour worth knowing, modelled as written: after a completion the timer stays
at 0 seconds until it is reset or remounted. Nothing refuses a start at 0 seconds
(`components/Timer.tsx:30-34`, `122`). If start is pressed, the first interval
firing, one second later, sees `prev <= 1` and calls `onComplete` again. That
credits another full session after one second (`ResumeAtZeroCompletesAgain`).

## Model

| member | source | states |
|---|---|---|
| `Decimal.ToDecimal` | components/Timer.tsx:25 | `toString` of a non-negative integer gives one or more decimal digits, with a leading '0' only for zero |
| `Decimal.PadStart` | components/Timer.tsx:25 | `padStart(width, '0')` gives a string of length max(width, input length): fill characters followed by the input |
| `Decimal.DecimalRoundTrip` | components/Timer.tsx:25 | reading back the digits `toString` wrote gives the number |
| `Decimal.PaddedRoundTrip` | components/Timer.tsx:25 | a zero-padded number still reads back as that number |
| `TimerComponent.PaddedField` | components/Timer.tsx:25 | a padded display field is at least two digits, and exactly two exactly when the number is below 100 |
| `TimerComponent.FormatTime` | components/Timer.tsx:22-26 | the display has ':' third from the end and is at least 5 characters; it is exactly 5 characters exactly when the input is below 6000 seconds |
| `TimerComponent.FormatTimeFields` | components/Timer.tsx:22-25 | the display is minutes digits, ':', two seconds digits, with minutes*60 + seconds equal to the input and seconds at most 59 |
| `TimerComponent.FormatTimeRoundTrip` | components/Timer.tsx:22-25 | reading the `MM:SS` display back gives the number of seconds displayed |
| `TimerComponent.Initial` | components/Timer.tsx:56-59 | mount and reset give `initialMinutes * 60` seconds, not running |
| `TimerComponent.Toggle` | components/Timer.tsx:122 | the start/pause button flips `isActive` and leaves the seconds |
| `TimerComponent.Tick` | components/Timer.tsx:28-38 | the tick completes exactly when the previous seconds are at most 1; then it calls `onComplete` with `initialMinutes` and leaves 0 seconds, inactive; otherwise it takes one second off and keeps `isActive` |
| `TimerComponent.IntervalTick` | components/Timer.tsx:40-48 | the interval fires only while active, so an inactive timer is unchanged; a completion happens exactly when active at 1 second or less; the seconds never rise and never go below 0 |
| `TimerComponent.RunTicks` | components/Timer.tsx:28-48 | n interval firings call `onComplete` at most n times, always with `initialMinutes`, and leave the seconds between 0 and where they started |
| `TimerComponent.TickCountsDown` | components/Timer.tsx:36 | a tick from more than 1 second takes one off and changes neither `isActive` nor the completions |
| `TimerComponent.TickCompletes` | components/Timer.tsx:30-34 | a tick from 1 second or less sets 0 seconds, deactivates and calls `onComplete` exactly once with `initialMinutes` |
| `TimerComponent.InBoundsPreserved` | components/Timer.tsx:28-59 | tick, toggle and reset keep 0 <= seconds <= initialMinutes*60 |
| `TimerComponent.RunInBounds` | components/Timer.tsx:28-54 | any number of interval ticks keeps the seconds within bounds |
| `TimerComponent.PausedRunIsInert` | components/Timer.tsx:40-48 | while inactive, any number of ticks leaves the state unchanged and calls `onComplete` never |
| `TimerComponent.RunCountsDown` | components/Timer.tsx:28-37 | from s running seconds, n < s ticks leave s - n seconds, still running, with no completion |
| `TimerComponent.RunCompletes` | components/Timer.tsx:28-37 | from s >= 1 running seconds, exactly s ticks stop the timer at 0 with one completion |
| `TimerComponent.FreshSessionCompletesOnce` | components/Timer.tsx:17-54 | from a fresh started timer with initialMinutes >= 1: no completion before tick initialMinutes*60, exactly one (with initialMinutes) on it, and the timer stopped at 0 for every later tick |
| `TimerComponent.ResumeAtZeroCompletesAgain` | components/Timer.tsx:30-34 | starting again at 0 without a reset makes the next tick complete again |
| `TimerComponent.Progress` | components/Timer.tsx:61 | the percentage is undefined (NaN in the code) exactly when `initialSeconds` is 0 |
| `TimerComponent.ProgressBounds` | components/Timer.tsx:61 | within bounds, progress lies in [0, 100], is 0 exactly at the full duration and 100 exactly at 0 seconds |
| `TimerComponent.ProgressMonotone` | components/Timer.tsx:61 | fewer remaining seconds never show less progress |
| `TimerComponent.ProgressNeverDecreasesOnTick` | components/Timer.tsx:28-61 | one interval tick from within bounds never lowers the progress |
| `TimerComponent.Timer.constructor` | components/Timer.tsx:16-19 | a mounted timer has the full duration, is inactive, has no interval and no completions, and `initialSeconds = initialMinutes * 60` |
| `TimerComponent.Timer.Tick` | components/Timer.tsx:28-48 | a firing acts only while the interval is armed; the new state and the `onComplete` call follow `IntervalTick`, the call is appended to the log, and the bounds hold |
| `TimerComponent.Timer.ToggleActive` | components/Timer.tsx:122 | the button flips `isActive`, arms or clears the interval with it, and leaves the seconds and completions |
| `TimerComponent.Timer.Reset` | components/Timer.tsx:56-59 | reset from any state gives the full duration, inactive, interval cleared, completions unchanged |
| `AppComponent.CompleteStats` | App.tsx:53-60 | total minutes rise by `minutes`, sunlight by 2*minutes, plants and streak by 1; the best streak becomes max(old best, old streak + 1): never lower, and at least the streak |
| `AppComponent.Max` | App.tsx:59 | `Math.max` gives one of its arguments, at least both |
| `AppComponent.NewPlant` | App.tsx:43-50 | the new plant takes name, scientific name, rarity and image from the template, is `Mature`, records `minutes`, and carries the given lore, id and time |
| `AppComponent.AddToGarden` | App.tsx:52 | the new plant is prepended: length grows by one, the head is the new plant, the tail is the old list |
| `AppComponent.InitialConsistent` | constants.tsx:8-14 | the initial statistics with an empty garden are consistent |
| `AppComponent.CompletionKeepsConsistent` | App.tsx:52-60 | a completion keeps plant count, total minutes, sunlight and streaks consistent with the garden |
| `AppComponent.CompleteAllEffect` | App.tsx:53-60 | over any series of sessions, totals grow by their sum (sunlight by twice it), counts by their number, and the best streak never decreases and stays at least the streak |
| `AppComponent.IndexOf` | App.tsx:76 | `indexOf` gives the first position of the element, or -1 exactly when it is absent |
| `AppComponent.ToggleLang` | App.tsx:74-78 | the language button always changes the language |
| `AppComponent.ToggleLangRing` | App.tsx:74-78 | the ring is en -> pt -> es -> en, so three presses return to the start |
| `AppComponent.NextTemplateIndex` | App.tsx:67-68 | floor(r * 5) for r in [0, 1) is a valid index into the templates |
| `AppComponent.Milestone` | App.tsx:172 | the bar lies in [0, 100], equals the total minutes up to 100, and is 100 from there on |
| `AppComponent.MilestoneMonotone` | App.tsx:172 | more focus time never shows a shorter bar |
| `AppComponent.App.constructor` | App.tsx:12-23 | the app starts in English, with the initial statistics, an empty garden and the first template |
| `AppComponent.App.FetchCoach` | App.tsx:25-33 | the coach message becomes the service's answer for a zero-minute session at the current total and language |
| `AppComponent.App.HandleFocusComplete` | App.tsx:35-72 | statistics as `CompleteStats`; the new plant, with lore asked for the current template's name and rarity, prepended; the coach message asked with the new total; the next template drawn from the catalogue; language unchanged; consistency kept |
| `AppComponent.App.ToggleLanguage` | App.tsx:74-78 | the language moves one step round the ring |
| `AppComponent.DefaultSessionScenario` | App.tsx:128-135 | a started 25-minute timer completes once, with 25, after 1500 ticks; from the initial statistics that gives 25 minutes, streak 1, one plant and sunlight 100 |

## Left out

- The generative-language service (`services/geminiService.ts`): lore and coach text are arbitrary function parameters. Prompts, language names and fallback strings are not modelled.
- `components/Garden.tsx`, the JSX markup and the translation tables: presentation only.
- Unmounting the timer: the timer is rendered only on the focus tab (`App.tsx:127-136`). Leaving that tab discards the countdown. Coming back remounts the timer at `initialMinutes * 60` seconds (`components/Timer.tsx:17`), with `isActive` unchanged because the app owns it: a running timer comes back running from the full duration. A remount also clears a timer stuck at 0. The model's `Timer` lives for the whole app, so `Initial` and `Timer.constructor` describe only the first mount and a reset.
- Real scheduling: `window.setInterval`/`clearInterval`, effect cleanup on unmount and React StrictMode double-invoking updaters. A tick is a method call. The interval handle is a boolean kept equal to `isActive`, as the effect on `isActive` keeps it.
- `isActive` belongs to the app in the code and is passed to the timer; the model keeps it in the `Timer` class.
- The async steps of `handleFocusComplete`: completion is one atomic step with a single caller. The code reads the new total and the new sunlight from the closure's `stats`, while the other counters use the updater's `prev`; under one caller these agree. The `isLoading` flag and the `alert` are not modelled.
- Id uniqueness: the id from `Math.random().toString(36)` is a parameter, and nothing is claimed about uniqueness. `Math.random()` and `Date.now()` are parameters.
- Number representation: JavaScript numbers are doubles. `toString` switches to exponential notation from 1e21, and `Math.floor` and `%` are exact only below 2^53. The model uses unbounded integers. That is exact for the app's range, where seconds never exceed `initialMinutes * 60 = 1500`.
- `TimerComponent.Progress`: computed over exact reals, not floating point; the `strokeDashoffset` rendering is not modelled.
- `AppComponent.Milestone`: computed over exact reals; the `toFixed(0)` rounding of the label is not modelled.
- `SHORT_BREAK` and `LONG_BREAK` are unused by the code and kept as constants only; the unused `FocusSession` type is not modelled.
