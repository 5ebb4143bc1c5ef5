/**
 * The countdown timer engine of the digital timer widget: the timer's state
 * record and its commands. Every command is a pure transition that returns the
 * new state together with the audio cue it asks the tone generator for.
 */
module TimerEngine {

  /** The largest value the minutes and the seconds settings take. */
  const MaxField: nat := 59

  /** The longest configurable duration, 59:59, in seconds. */
  const MaxDuration: nat := MaxField * 60 + MaxField

  /** The tone requested after a transition; `Silent` when none is played. */
  datatype Cue = Silent | Click | Warning | Completion | Beep

  datatype State = State(
    minutes: nat,       // configured minutes
    seconds: nat,       // configured seconds
    timeLeft: nat,      // remaining seconds of the loaded countdown, 0 when none is loaded
    isRunning: bool,
    isCompleted: bool,
    isMuted: bool)

  datatype Outcome = Outcome(state: State, cue: Cue)

  /** The configured duration in seconds. */
  function Duration(s: State): nat {
    s.minutes * 60 + s.seconds
  }

  /** The state invariant every command and every tick preserves. */
  predicate Inv(s: State) {
    && !(s.isRunning && s.isCompleted)
    && s.minutes <= MaxField
    && s.seconds <= MaxField
    && s.timeLeft <= MaxDuration
    && (s.isCompleted ==> s.timeLeft == 0)
  }

  /** Minutes, seconds and the mute flag are the same in both states. */
  predicate SameSettings(s: State, t: State) {
    t.minutes == s.minutes && t.seconds == s.seconds && t.isMuted == s.isMuted
  }

  /** The state the widget starts with: five minutes configured, nothing loaded. */
  function Initial(): (s: State)
    ensures Inv(s)
    ensures Duration(s) == 300 && s.timeLeft == 0
    ensures !s.isRunning && !s.isCompleted && !s.isMuted
  {
    State(5, 0, 0, false, false, false)
  }

  /** A timer command plays its cue only when the timer is not muted. */
  function Audible(muted: bool, cue: Cue): Cue {
    if muted then Silent else cue
  }

  /**
   * One step of a minutes or seconds setting, clamped to [0, 59]: the
   * setting moves by one towards the requested direction and stops at the bounds.
   */
  function Nudge(v: nat, increment: bool): (r: nat)
    ensures r <= MaxField
    ensures increment && v < MaxField ==> r == v + 1
    ensures !increment && 0 < v <= MaxField ==> r == v - 1
    ensures increment && v == MaxField ==> r == MaxField
    ensures !increment && v == 0 ==> r == 0
    ensures v > MaxField ==> r == MaxField
  {
    Max(0, Min(MaxField, v + if increment then 1 else -1))
  }

  function Min(a: int, b: int): int {
    if a <= b then a else b
  }

  function Max(a: int, b: int): int {
    if a >= b then a else b
  }

  /**
   * Start (or resume). An empty countdown is reloaded from the configured
   * duration; a countdown with time left is resumed where it stands. The
   * timer runs afterwards even when the configured duration is zero.
   */
  function Start(s: State): (r: Outcome)
    ensures r.state.isRunning && !r.state.isCompleted
    ensures s.timeLeft > 0 ==> r.state.timeLeft == s.timeLeft
    ensures s.timeLeft == 0 ==> r.state.timeLeft == Duration(s)
    ensures SameSettings(s, r.state)
    ensures r.cue == Audible(s.isMuted, Click)
    ensures Inv(s) ==> Inv(r.state)
  {
    var loaded :=
      if s.timeLeft == 0 && (s.minutes > 0 || s.seconds > 0) then Duration(s) else s.timeLeft;
    Outcome(s.(timeLeft := loaded, isRunning := true, isCompleted := false),
            Audible(s.isMuted, Click))
  }

  /** Pause: the countdown stops where it stands. */
  function Pause(s: State): (r: Outcome)
    ensures !r.state.isRunning
    ensures r.state == s.(isRunning := r.state.isRunning)
    ensures r.cue == Audible(s.isMuted, Warning)
    ensures Inv(s) ==> Inv(r.state)
  {
    Outcome(s.(isRunning := false), Audible(s.isMuted, Warning))
  }

  /** Stop: the countdown is discarded, whatever state the timer was in. */
  function Stop(s: State): (r: Outcome)
    ensures !r.state.isRunning && !r.state.isCompleted && r.state.timeLeft == 0
    ensures SameSettings(s, r.state)
    ensures r.cue == Audible(s.isMuted, Warning)
    ensures Inv(s) ==> Inv(r.state)
  {
    Outcome(s.(isRunning := false, timeLeft := 0, isCompleted := false),
            Audible(s.isMuted, Warning))
  }

  /** Reset: the countdown is reloaded from the configured duration and halted. */
  function Reset(s: State): (r: Outcome)
    ensures !r.state.isRunning && !r.state.isCompleted
    ensures r.state.timeLeft == Duration(s)
    ensures SameSettings(s, r.state)
    ensures r.cue == Audible(s.isMuted, Click)
    ensures Inv(s) ==> Inv(r.state)
  {
    Outcome(s.(isRunning := false, timeLeft := Duration(s), isCompleted := false),
            Audible(s.isMuted, Click))
  }

  /** One press of a minutes button; ignored while the timer runs. */
  function AdjustMinutes(s: State, increment: bool): (r: Outcome)
    ensures s.isRunning ==> r == Outcome(s, Silent)
    ensures !s.isRunning ==> r.state == s.(minutes := Nudge(s.minutes, increment))
    ensures !s.isRunning ==> r.cue == Audible(s.isMuted, Beep)
    ensures Inv(s) ==> Inv(r.state)
  {
    if s.isRunning then Outcome(s, Silent)
    else Outcome(s.(minutes := Nudge(s.minutes, increment)), Audible(s.isMuted, Beep))
  }

  /** One press of a seconds button; ignored while the timer runs. */
  function AdjustSeconds(s: State, increment: bool): (r: Outcome)
    ensures s.isRunning ==> r == Outcome(s, Silent)
    ensures !s.isRunning ==> r.state == s.(seconds := Nudge(s.seconds, increment))
    ensures !s.isRunning ==> r.cue == Audible(s.isMuted, Beep)
    ensures Inv(s) ==> Inv(r.state)
  {
    if s.isRunning then Outcome(s, Silent)
    else Outcome(s.(seconds := Nudge(s.seconds, increment)), Audible(s.isMuted, Beep))
  }

  /**
   * Choosing a preset replaces the configured duration and unloads the
   * countdown, so the display shows the preset; ignored while the timer runs.
   */
  function SelectPreset(s: State, presetMinutes: nat, presetSeconds: nat): (r: Outcome)
    ensures s.isRunning ==> r == Outcome(s, Silent)
    ensures !s.isRunning ==>
      && r.state.minutes == presetMinutes && r.state.seconds == presetSeconds
      && r.state.timeLeft == 0 && !r.state.isRunning && !r.state.isCompleted
      && r.state.isMuted == s.isMuted
      && r.cue == Audible(s.isMuted, Click)
    ensures Inv(s) && presetMinutes <= MaxField && presetSeconds <= MaxField ==> Inv(r.state)
  {
    if s.isRunning then Outcome(s, Silent)
    else Outcome(s.(minutes := presetMinutes, seconds := presetSeconds, timeLeft := 0,
                    isCompleted := false),
                 Audible(s.isMuted, Click))
  }

  /** The once-a-second interval exists exactly while this holds. */
  predicate TickArmed(s: State) {
    s.isRunning && s.timeLeft > 0
  }

  /**
   * One tick of the interval. The countdown drops by one second; the tick
   * that reaches zero halts the timer, marks it completed and plays the
   * completion sequence; the tick leaving 11 seconds for 10 plays the warning.
   */
  function Tick(s: State): (r: Outcome)
    requires TickArmed(s)
    ensures r.state.timeLeft == s.timeLeft - 1
    ensures r.state.isRunning <==> r.state.timeLeft > 0
    ensures r.state.isCompleted <==> r.state.timeLeft == 0 || s.isCompleted
    ensures SameSettings(s, r.state)
    ensures r.cue == Completion <==> r.state.timeLeft == 0 && !s.isMuted
    ensures r.cue == Warning <==> s.timeLeft == 11 && !s.isMuted
    ensures r.cue == Silent || r.cue == Warning || r.cue == Completion
    ensures Inv(s) ==> Inv(r.state)
  {
    var prev := s.timeLeft;
    if prev <= 1 then
      Outcome(s.(timeLeft := 0, isRunning := false, isCompleted := true),
              Audible(s.isMuted, Completion))
    else
      Outcome(s.(timeLeft := prev - 1),
              if prev == 11 then Audible(s.isMuted, Warning) else Silent)
  }
}
