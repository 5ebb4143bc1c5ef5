/**
 * Uninterrupted countdowns: the interval ticking a running timer until it
 * disarms itself, and what that run of ticks does to the state and the cues.
 */
module Countdowns {
  import opened TimerEngine

  /**
   * The outcomes of the ticks that follow `s` when no command intervenes:
   * one per tick, until the interval is no longer armed.
   */
  function Countdown(s: State): (trace: seq<Outcome>)
    ensures |trace| == if s.isRunning then s.timeLeft else 0
    decreases s.timeLeft
  {
    if TickArmed(s) then
      var o := Tick(s);
      [o] + Countdown(o.state)
    else
      []
  }

  /**
   * The i-th tick of a countdown from N seconds leaves N - i - 1 seconds. It
   * is the last one exactly when it reaches zero: only that tick halts the
   * timer, marks it completed and plays the completion sequence, and only the
   * tick leaving 11 seconds plays the warning.
   */
  lemma {:induction false} CountdownStep(s: State, i: nat)
    requires TickArmed(s) && Inv(s)
    requires i < s.timeLeft
    ensures Countdown(s)[i].state
         == s.(timeLeft := s.timeLeft - 1 - i,
               isRunning := i < s.timeLeft - 1,
               isCompleted := i == s.timeLeft - 1)
    ensures Countdown(s)[i].cue == Completion <==> i == s.timeLeft - 1 && !s.isMuted
    ensures Countdown(s)[i].cue == Warning <==> s.timeLeft - i == 11 && !s.isMuted
    ensures Countdown(s)[i].cue == Silent <==>
              s.isMuted || (i != s.timeLeft - 1 && s.timeLeft - i != 11)
    decreases i
  {
    var o := Tick(s);
    assert Countdown(s) == [o] + Countdown(o.state);
    if i > 0 {
      CountdownStep(o.state, i - 1);
    }
  }

  /**
   * A countdown from N > 0 seconds takes exactly N ticks and ends at zero,
   * halted and completed, with the settings untouched.
   */
  lemma CountdownCompletes(s: State)
    requires TickArmed(s) && Inv(s)
    ensures |Countdown(s)| == s.timeLeft
    ensures Countdown(s)[s.timeLeft - 1].state
         == s.(timeLeft := 0, isRunning := false, isCompleted := true)
    ensures forall i :: 0 <= i < s.timeLeft - 1 ==>
              Countdown(s)[i].state.isRunning && !Countdown(s)[i].state.isCompleted
              && Countdown(s)[i].state.timeLeft == s.timeLeft - 1 - i
  {
    CountdownStep(s, s.timeLeft - 1);
    forall i | 0 <= i < s.timeLeft - 1
      ensures Countdown(s)[i].state.isRunning && !Countdown(s)[i].state.isCompleted
      ensures Countdown(s)[i].state.timeLeft == s.timeLeft - 1 - i
    {
      CountdownStep(s, i);
    }
  }

  /** An unmuted countdown plays the completion sequence once, on its last tick. */
  lemma CompletionPlaysOnce(s: State)
    requires TickArmed(s) && Inv(s) && !s.isMuted
    ensures Countdown(s)[|Countdown(s)| - 1].cue == Completion
    ensures forall i :: 0 <= i < |Countdown(s)| - 1 ==> Countdown(s)[i].cue != Completion
  {
    CountdownStep(s, s.timeLeft - 1);
    forall i | 0 <= i < |Countdown(s)| - 1
      ensures Countdown(s)[i].cue != Completion
    {
      CountdownStep(s, i);
    }
  }

  /**
   * The warning plays at most once in a countdown, and exactly once when the
   * countdown is unmuted and starts from 11 seconds or more.
   */
  lemma WarningPlaysAtMostOnce(s: State)
    requires TickArmed(s) && Inv(s)
    ensures forall i, j |
              && 0 <= i < |Countdown(s)| && 0 <= j < |Countdown(s)|
              && Countdown(s)[i].cue == Warning && Countdown(s)[j].cue == Warning
              :: i == j
    ensures !s.isMuted && s.timeLeft >= 11 ==> Countdown(s)[s.timeLeft - 11].cue == Warning
    ensures s.isMuted || s.timeLeft < 11 ==>
              forall i :: 0 <= i < |Countdown(s)| ==> Countdown(s)[i].cue != Warning
  {
    forall i | 0 <= i < |Countdown(s)|
      ensures Countdown(s)[i].cue == Warning <==> s.timeLeft - i == 11 && !s.isMuted
    {
      CountdownStep(s, i);
    }
  }

  /** A muted countdown plays nothing at all. */
  lemma MutedCountdownIsSilent(s: State)
    requires TickArmed(s) && Inv(s) && s.isMuted
    ensures forall i :: 0 <= i < |Countdown(s)| ==> Countdown(s)[i].cue == Silent
  {
    forall i | 0 <= i < |Countdown(s)|
      ensures Countdown(s)[i].cue == Silent
    {
      CountdownStep(s, i);
    }
  }

  /** Pausing a running countdown and starting again resumes it exactly where it stood. */
  lemma PauseThenStartResumes(s: State)
    requires TickArmed(s) && Inv(s)
    ensures Start(Pause(s).state).state == s
    ensures Countdown(Start(Pause(s).state).state) == Countdown(s)
  {
  }

  /**
   * Changing the minutes or the seconds while paused leaves the loaded
   * countdown alone: starting again resumes the old countdown, not the new
   * setting.
   */
  lemma AdjustWhilePausedKeepsCountdown(s: State, minutesButton: bool, increment: bool)
    requires TickArmed(s) && Inv(s)
    ensures var p := Pause(s).state;
            var a := if minutesButton then AdjustMinutes(p, increment).state
                     else AdjustSeconds(p, increment).state;
            Start(a).state.timeLeft == s.timeLeft
            && |Countdown(Start(a).state)| == s.timeLeft
  {
  }

  /**
   * Five seconds chosen and started: five ticks later the timer is halted
   * and completed, and the completion sequence has played once, at the end.
   */
  lemma FiveSecondCountdown()
    ensures var s := Start(SelectPreset(Initial(), 0, 5).state).state;
            && s.timeLeft == 5
            && |Countdown(s)| == 5
            && Countdown(s)[4].state == s.(timeLeft := 0, isRunning := false, isCompleted := true)
            && Countdown(s)[4].cue == Completion
            && forall i :: 0 <= i < 4 ==> Countdown(s)[i].cue == Silent
  {
    var s := Start(SelectPreset(Initial(), 0, 5).state).state;
    CountdownCompletes(s);
    forall i | 0 <= i < 5
      ensures Countdown(s)[i].cue == (if i == 4 then Completion else Silent)
    {
      CountdownStep(s, i);
    }
  }
}
