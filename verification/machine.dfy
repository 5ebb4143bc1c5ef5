/**
 * The timer as an event-driven machine: every command from the view and
 * every tick of the interval is one atomic step, applied one at a time.
 */
module Machine {
  import E = TimerEngine

  /** A command from the view, or a tick of the once-a-second interval. */
  datatype Event =
    | Start
    | Pause
    | Stop
    | Reset
    | AdjustMinutes(increment: bool)
    | AdjustSeconds(increment: bool)
    | SelectPreset(presetMinutes: nat, presetSeconds: nat)
    | Tick

  /** Presets chosen from the catalogue stay within the settings' range. */
  predicate ValidEvent(e: Event) {
    e.SelectPreset? ==> e.presetMinutes <= E.MaxField && e.presetSeconds <= E.MaxField
  }

  predicate AllValid(es: seq<Event>) {
    forall i :: 0 <= i < |es| ==> ValidEvent(es[i])
  }

  /**
   * The effect of one event. A tick only arrives while the interval is armed;
   * at any other time there is no interval and nothing happens.
   */
  function Step(s: E.State, e: Event): (r: E.Outcome)
    ensures E.Inv(s) && ValidEvent(e) ==> E.Inv(r.state)
    ensures r.state.isMuted == s.isMuted
    ensures s.isMuted ==> r.cue == E.Silent
    ensures r.cue == E.Warning ==> e.Pause? || e.Stop? || (e.Tick? && s.timeLeft == 11)
    ensures r.cue == E.Completion ==> e.Tick? && r.state.isCompleted
    ensures e.Tick? && !E.TickArmed(s) ==> r == E.Outcome(s, E.Silent)
  {
    match e
    case Start => E.Start(s)
    case Pause => E.Pause(s)
    case Stop => E.Stop(s)
    case Reset => E.Reset(s)
    case AdjustMinutes(increment) => E.AdjustMinutes(s, increment)
    case AdjustSeconds(increment) => E.AdjustSeconds(s, increment)
    case SelectPreset(m, sec) => E.SelectPreset(s, m, sec)
    case Tick => if E.TickArmed(s) then E.Tick(s) else E.Outcome(s, E.Silent)
  }

  /** The state after the events `es`, in order. */
  function Run(s: E.State, es: seq<Event>): (r: E.State)
    ensures E.Inv(s) && AllValid(es) ==> E.Inv(r)
    ensures r.isMuted == s.isMuted
    decreases |es|
  {
    if |es| == 0 then s
    else
      assert AllValid(es) ==> AllValid(es[1..]) by {
        if AllValid(es) {
          forall i | 0 <= i < |es[1..]| ensures ValidEvent(es[1..][i]) {
            assert es[1..][i] == es[i + 1];
          }
        }
      }
      Run(Step(s, es[0]).state, es[1..])
  }

  /** The cues played along the events `es`, one per event. */
  function Cues(s: E.State, es: seq<Event>): (cues: seq<E.Cue>)
    ensures |cues| == |es|
    ensures s.isMuted ==> forall i :: 0 <= i < |cues| ==> cues[i] == E.Silent
    decreases |es|
  {
    if |es| == 0 then []
    else
      var o := Step(s, es[0]);
      [o.cue] + Cues(o.state, es[1..])
  }
}
