/**
 * The timer's buttons: which of them are disabled in which state, what a
 * press of each does, and the catalogue of presets they offer.
 */
module Controls {
  import opened TimerEngine

  /** The preset catalogue as (minutes, seconds): coffee, cooking, workout, power nap. */
  const Presets: seq<(nat, nat)> := [(3, 0), (15, 0), (1, 30), (20, 0)]

  datatype Button =
    | PlayPause
    | StopButton
    | ResetButton
    | MinutesButton(increment: bool)
    | SecondsButton(increment: bool)
    | PresetButton(index: nat)

  /** A button that exists on the widget. */
  predicate OnWidget(b: Button) {
    b.PresetButton? ==> b.index < |Presets|
  }

  /**
   * Play/pause is disabled while stopped with nothing configured; the
   * setting and preset buttons are disabled while running; stop and reset
   * never are.
   */
  predicate Disabled(s: State, b: Button) {
    match b
    case PlayPause => !s.isRunning && s.minutes == 0 && s.seconds == 0
    case StopButton => false
    case ResetButton => false
    case MinutesButton(_) => s.isRunning
    case SecondsButton(_) => s.isRunning
    case PresetButton(_) => s.isRunning
  }

  /** The timer's invariant, and a running timer always has its interval armed. */
  predicate Steady(s: State) {
    Inv(s) && (s.isRunning ==> s.timeLeft > 0)
  }

  /** Every preset in the catalogue is a valid setting. */
  lemma PresetsInRange()
    ensures forall i :: 0 <= i < |Presets| ==>
              Presets[i].0 <= MaxField && Presets[i].1 <= MaxField && Presets[i].0 * 60 + Presets[i].1 > 0
  {
  }

  /**
   * A press of button `b`. A disabled button does nothing; play/pause pauses
   * a running timer and starts a stopped one.
   */
  function Press(s: State, b: Button): (r: Outcome)
    requires OnWidget(b)
    ensures Disabled(s, b) ==> r == Outcome(s, Silent)
    ensures Steady(s) ==> Steady(r.state)
    ensures b == PlayPause && !Disabled(s, b) ==> r.state.isRunning != s.isRunning
  {
    if Disabled(s, b) then Outcome(s, Silent)
    else match b
      case PlayPause => if s.isRunning then Pause(s) else Start(s)
      case StopButton => Stop(s)
      case ResetButton => Reset(s)
      case MinutesButton(increment) => AdjustMinutes(s, increment)
      case SecondsButton(increment) => AdjustSeconds(s, increment)
      case PresetButton(i) =>
        PresetsInRange();
        SelectPreset(s, Presets[i].0, Presets[i].1)
  }

  /** While the timer runs, a press of any preset button changes nothing and plays nothing. */
  lemma PresetButtonsDisabledWhileRunning(s: State)
    requires s.isRunning
    ensures forall i :: 0 <= i < |Presets| ==> Press(s, PresetButton(i)) == Outcome(s, Silent)
  {
  }

  /** A tick keeps a steady timer steady: the tick that reaches zero also halts it. */
  lemma TickKeepsSteady(s: State)
    requires Steady(s) && TickArmed(s)
    ensures Steady(Tick(s).state)
  {
  }

  /**
   * Start as written: with nothing loaded and nothing configured the timer
   * is marked running although no countdown is loaded, so no tick is ever
   * armed.
   */
  lemma ZeroDurationStartRuns(s: State)
    requires s.timeLeft == 0 && s.minutes == 0 && s.seconds == 0
    ensures Start(s).state.isRunning
    ensures Start(s).state.timeLeft == 0
    ensures !TickArmed(Start(s).state)
  {
  }

  /**
   * Through the buttons, starting with nothing configured cannot happen: the
   * play button is disabled and its press changes nothing.
   */
  lemma ZeroDurationPlayIsDisabled(s: State)
    requires !s.isRunning && s.minutes == 0 && s.seconds == 0
    ensures Press(s, PlayPause) == Outcome(s, Silent)
  {
  }

  /** A press of an enabled play button on a stopped steady timer arms the interval. */
  lemma PlayArmsInterval(s: State)
    requires Steady(s) && !s.isRunning && !Disabled(s, PlayPause)
    ensures TickArmed(Press(s, PlayPause).state)
  {
  }
}
