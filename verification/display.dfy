/**
 * The text on the timer's display: the live countdown while one is loaded,
 * the configured duration otherwise.
 */
module Display {
  import opened TimerEngine
  import opened TimeFormat

  /** The display text for the timer state `s`. */
  function DisplayTime(s: State): (r: string)
    ensures s.timeLeft > 0 ==> ParseTime(r) == Some(s.timeLeft)
    ensures s.timeLeft == 0 ==> ParseTime(r) == Some(Duration(s))
    ensures Inv(s) ==> |r| == 5 && r[2] == ':'
  {
    var shown := if s.timeLeft > 0 then s.timeLeft else Duration(s);
    FormatTime(shown)
  }

  /** After a stop the display shows the configured duration again. */
  lemma StopShowsDuration(s: State)
    ensures DisplayTime(Stop(s).state) == FormatTime(Duration(s))
  {
  }

  /** After a reset the display shows the configured duration, whatever the timer was doing. */
  lemma ResetShowsDuration(s: State)
    ensures DisplayTime(Reset(s).state) == FormatTime(Duration(s))
  {
  }

  /** After a preset is chosen the display shows the preset's duration. */
  lemma PresetShowsPreset(s: State, presetMinutes: nat, presetSeconds: nat)
    requires !s.isRunning
    ensures DisplayTime(SelectPreset(s, presetMinutes, presetSeconds).state)
         == FormatTime(presetMinutes * 60 + presetSeconds)
  {
  }

  /** While a tick does not finish the countdown, the display follows it second by second. */
  lemma TickShowsNextSecond(s: State)
    requires TickArmed(s) && s.timeLeft > 1
    ensures DisplayTime(Tick(s).state) == FormatTime(s.timeLeft - 1)
  {
  }

  /** The widget first shows "05:00". */
  lemma InitialDisplay()
    ensures DisplayTime(Initial()) == "05:00"
  {
    ShowsMinutesOnly(Initial(), 5);
  }

  /** Choosing the three-minute coffee preset makes the display show "03:00". */
  lemma CoffeePresetDisplay()
    ensures DisplayTime(SelectPreset(Initial(), 3, 0).state) == "03:00"
  {
    ShowsMinutesOnly(SelectPreset(Initial(), 3, 0).state, 3);
  }

  /** With nothing loaded and `m` whole minutes configured, the display shows "0m:00". */
  lemma ShowsMinutesOnly(s: State, m: nat)
    requires s.timeLeft == 0 && s.minutes == m && s.seconds == 0 && m < 10
    ensures DisplayTime(s) == ['0', Digit(m), ':', '0', '0']
  {
    assert Duration(s) == m * 60;
    assert (m * 60) / 60 == m && (m * 60) % 60 == 0;
  }
}
