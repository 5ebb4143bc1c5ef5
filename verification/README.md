# Digital timer: the countdown engine in Dafny

This project models the countdown timer engine of the "digital timer" widget
(`src/App.tsx`). The timer's state is the record `{minutes, seconds,
timeLeft, isRunning, isCompleted, isMuted}`. Each command from the view is a
pure transition that returns the new state and the audio cue it asks the tone
generator for (`Silent`, `Click`, `Warning`, `Completion` or `Beep`). The
commands are start, pause, stop, reset, the minutes and seconds adjusters, and
preset selection. The once-a-second interval tick is modelled the same way.
It is an atomic step that can only happen while the interval is armed, that
is, while `isRunning && timeLeft > 0`.

The model also covers:

- the `MM:SS` formatter and the derived display text;
- the buttons' disabled rules and the preset catalogue;
- the view-navigation history stack.

Modules:

- `TimerEngine` (timer_engine.dfy): the state record, the invariant, every command and the tick.
- `TimeFormat` (time_format.dfy): `formatTime`, plus the decimal rendering and `padStart` it uses. A parser is included as its partner, so the round trip can be proved.
- `Display` (display.dfy): `displayTime`.
- `Countdowns` (countdown.dfy): uninterrupted runs of ticks, with their states and cues.
- `Machine` (machine.dfy): commands and ticks as one event stream. The invariant is proved over whole runs.
- `Controls` (controls.dfy): the buttons' disabled guards, the play/pause dispatch and the preset catalogue.
- `Navigation` (navigation.dfy): `handleNavigate` / `handleBack`.

Two behaviours of the code as written are modelled deliberately:

- **Zero-duration start.** A start with 0:00 configured and nothing loaded
  is not a no-op in the code: `startTimer` still sets `isRunning`
  (src/App.tsx:91), although no countdown is loaded and no tick is ever armed
  (`Controls.ZeroDurationStartRuns`). Only the play button, disabled in that
  state (src/App.tsx:211), prevents it (`Controls.ZeroDurationPlayIsDisabled`).
- **Adjusting while paused.** Changing minutes or seconds while paused does
  not touch `timeLeft`. Starting again resumes the old countdown
  (`Countdowns.AdjustWhilePausedKeepsCountdown`).

The warning fires at most once per countdown, and exactly once only when the
countdown is unmuted and starts from 11 seconds or more
(`Countdowns.WarningPlaysAtMostOnce`). It fires on the tick whose value before
the decrement is 11, so it sounds as the display is about to show 10 seconds.

## Model

| member | source | states |
|---|---|---|
| TimerEngine.Initial | src/App.tsx:11-20 | The widget starts with 5:00 configured, nothing loaded, stopped, not completed, not muted; the invariant holds |
| TimerEngine.Nudge | src/App.tsx:123 | One adjuster press moves a setting by one towards the requested direction, stops at 0 and 59, and pulls an out-of-range setting back to 59 |
| TimerEngine.Start | src/App.tsx:87-94 | Afterwards the timer runs and is not completed; a countdown with time left is resumed unchanged; an empty one is loaded with the configured duration (still 0 if that is 0); settings untouched; click unless muted; invariant preserved |
| TimerEngine.Pause | src/App.tsx:96-99 | Only `isRunning` changes, to false; warning tone unless muted; invariant preserved |
| TimerEngine.Stop | src/App.tsx:101-106 | From any state: halted, not completed, nothing loaded; settings untouched; warning tone unless muted; invariant preserved |
| TimerEngine.Reset | src/App.tsx:108-113 | From any state: halted, not completed, countdown reloaded with the configured duration; settings untouched; click unless muted; invariant preserved |
| TimerEngine.AdjustMinutes | src/App.tsx:121-126 | While running: nothing changes and nothing plays; otherwise only the minutes change, by one clamped step; beep unless muted; invariant preserved |
| TimerEngine.AdjustSeconds | src/App.tsx:128-133 | The same for the seconds setting |
| TimerEngine.SelectPreset | src/App.tsx:135-143 | While running: nothing changes and nothing plays; otherwise the preset becomes the setting, the countdown is unloaded, the timer is not completed and stays halted, mute is kept; click unless muted; invariant preserved for in-range presets |
| TimerEngine.Tick | src/App.tsx:56-72 | Only while armed: the countdown drops by exactly one; the timer keeps running exactly while time is left; completed exactly when it reaches zero; completion plays iff this tick reaches zero, warning iff the value before the tick is 11 (unmuted in both cases); nothing else plays; settings untouched; invariant preserved |
| TimeFormat.DecimalString | src/App.tsx:118 | The decimal rendering of a non-negative integer: digits only, no leading zero, reads back as the number, one digit below 10 and at most two below 100 |
| TimeFormat.PadStart | src/App.tsx:118 | `padStart`: the result is the original string preceded by fill characters, up to the requested width, and never shorter than the original |
| TimeFormat.Field | src/App.tsx:118 | A zero-padded field has at least two digits and reads back as its number; below 100 it is exactly the tens digit then the units digit |
| TimeFormat.FormatTime | src/App.tsx:115-119 | Parsing the text back gives the formatted number of seconds, as minutes times 60 plus seconds below 60; the text has at least five characters; below 100 minutes it is the minutes' two digits, ':', the seconds' two digits |
| TimeFormat.FormatTimeInjective | src/App.tsx:115-119 | Two different durations never show the same text |
| Display.DisplayTime | src/App.tsx:145 | The display reads back as the loaded countdown when one is loaded, else as the configured duration; under the invariant it is five characters with ':' in the middle |
| Display.StopShowsDuration | src/App.tsx:101-106 | After a stop the display shows the configured duration |
| Display.ResetShowsDuration | src/App.tsx:108-113 | After a reset the display shows the configured duration, whatever the prior state |
| Display.PresetShowsPreset | src/App.tsx:135-143 | After choosing a preset while stopped, the display shows the preset's duration |
| Display.TickShowsNextSecond | src/App.tsx:58-71 | A tick that does not finish the countdown makes the display show one second less |
| Display.InitialDisplay | src/App.tsx:145 | The widget first shows "05:00" |
| Display.CoffeePresetDisplay | src/App.tsx:135-145 | After choosing preset (3, 0) the display shows "03:00" |
| Display.ShowsMinutesOnly | src/App.tsx:145 | With nothing loaded and a whole number m < 10 of minutes configured, the display shows '0', m's digit, ":00" |
| Countdowns.Countdown | src/App.tsx:55-73 | The ticks that follow a state with no command in between: as many as the seconds left when running, none when halted |
| Countdowns.CountdownStep | src/App.tsx:58-71 | Tick i of a countdown from N leaves N-i-1 seconds; it halts and completes the timer iff it is the last; it plays completion iff it is the last, warning iff N-i is 11 (both unmuted), and nothing otherwise |
| Countdowns.CountdownCompletes | src/App.tsx:58-66 | From N > 0 seconds, exactly N ticks reach zero, halted and completed, settings untouched; every earlier tick leaves the timer running, not completed, one second lower |
| Countdowns.CompletionPlaysOnce | src/App.tsx:59-65 | An unmuted countdown plays the completion sequence on its last tick and on no other |
| Countdowns.WarningPlaysAtMostOnce | src/App.tsx:67-70 | The warning plays at most once per countdown; exactly once (on tick N-11) when unmuted and N >= 11; never when muted or N < 11 |
| Countdowns.MutedCountdownIsSilent | src/App.tsx:62-69 | A muted countdown plays no cue on any tick |
| Countdowns.PauseThenStartResumes | src/App.tsx:87-99 | Pausing a running countdown and starting it again restores the exact state and the same remaining countdown |
| Countdowns.AdjustWhilePausedKeepsCountdown | src/App.tsx:121-133 | Adjusting a setting while paused and starting again resumes the old countdown, with its full remaining length |
| Countdowns.FiveSecondCountdown | src/App.tsx:58-72 | 0:05 chosen and started: five ticks end halted and completed; the completion sequence plays once, on the fifth tick, and nothing before it |
| Machine.Step | src/App.tsx:87-143 | Any command or tick keeps the invariant (in-range presets); mute is never changed and silences every cue; warnings come only from pause, stop or the tick leaving 11 seconds; completion only from a tick that completes; a tick with no interval armed changes nothing |
| Machine.Run | src/App.tsx:87-143 | Any sequence of commands and ticks from a state satisfying the invariant ends in a state satisfying it; the mute flag is kept |
| Machine.Cues | src/App.tsx:87-143 | One cue per event; a muted timer plays none along any sequence of events |
| Controls.PresetsInRange | src/components/PresetTimers.tsx:10-15 | Every catalogue preset has minutes and seconds within 0..59 and a non-zero duration |
| Controls.Press | src/App.tsx:166-228 | A disabled button (the `disabled` guards at src/App.tsx:168, 175, 191, 198, 211 and src/components/PresetTimers.tsx:25) changes nothing and plays nothing; every press keeps the timer steady (invariant, and running implies time left); an enabled play/pause press toggles running |
| Controls.PresetButtonsDisabledWhileRunning | src/components/PresetTimers.tsx:25 | While the timer runs, every preset button is disabled and its press changes nothing and plays nothing |
| Controls.TickKeepsSteady | src/App.tsx:56-72 | A tick keeps a steady timer steady |
| Controls.ZeroDurationStartRuns | src/App.tsx:87-94 | Start with nothing loaded or configured marks the timer running with zero left and no tick armed |
| Controls.ZeroDurationPlayIsDisabled | src/App.tsx:209-215 | With nothing configured while halted, pressing play changes nothing and plays nothing |
| Controls.PlayArmsInterval | src/App.tsx:209-215 | An enabled play press on a halted steady timer always arms the tick |
| Navigation.InitialNav | src/App.tsx:18-21 | Navigation opens on the timer view with a one-entry history |
| Navigation.Navigate | src/App.tsx:27-31 | The view is pushed onto the history and shown; the history keeps its earlier entries; click unless muted |
| Navigation.Back | src/App.tsx:33-40 | With more than one entry, the last entry is popped, the new last entry is shown and a click plays unless muted; with one entry, nothing changes and nothing plays; the history never becomes empty |
| Navigation.BackUndoesNavigate | src/App.tsx:27-40 | Going back right after navigating restores the navigation state exactly |

## Left out

- Tone synthesis (`src/hooks/useAudio.ts`): oscillators, gain ramps and the `setTimeout` spacing of the three completion tones are browser I/O. A transition only names the cue it requests.
- Gains: the `volume / 100 * k` gain scaling is floating point. The volume itself is not modelled; `isMuted` only decides whether a cue plays.
- `handleVolumeChange` and `handleMute` (src/App.tsx:43-52) are volume and UI state. `isMuted` is a state field that no modelled command changes.
- Interval scheduling (src/App.tsx:55-85): `setInterval`/`clearInterval` arming and React's re-arming on dependency changes are host timing. The tick is one atomic step allowed only while `isRunning && timeLeft > 0`. A tick event at any other time changes nothing in `Machine.Step`.
- React batching: state updates within a command are modelled as one atomic transition. A possible double invocation of the side-effecting `setTimeLeft` updater is not modelled.
- Rendering (`TimerDisplay.tsx`, `NavigationBar.tsx`, `VolumeControl.tsx`, `PresetTimers.tsx` markup): declarative markup and styling. This includes the progress-bar width, which is floating point. Only the preset catalogue's four (minutes, seconds) pairs are kept.
- Number types: JavaScript numbers are modelled as unbounded naturals. `handlePresetSelect` is only ever called with catalogue constants, so negative or fractional arguments are not modelled. `formatTime` only ever receives `timeLeft` or `minutes * 60 + seconds`, so it is modelled on non-negative whole seconds.
- Navigation.Navigate, Navigation.Back: when muted, the source still calls the click sound, at gain 0 (src/App.tsx:30 and src/App.tsx:38). The model reports this as `Silent` because nothing is heard.
