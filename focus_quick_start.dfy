/** The dashboard's quick-focus card: a start/pause button over a time display that nothing updates. */
module FocusQuickStart {
  import FocusMode
  import opened Wrappers

  /** The card's state. `timeLeft` is state that no handler of the card ever writes. */
  class QuickTimer {
    var isRunning: bool
    var timeLeft: nat

    /** The time shown is always the initial 25 minutes. */
    ghost predicate Valid()
      reads this
    {
      timeLeft == 25 * 60
    }

    constructor ()
      ensures !isRunning && timeLeft == 1500 && Valid()
    {
      isRunning := false;
      timeLeft := 25 * 60;
    }

    /** The start/pause button: only the running flag changes. */
    method ToggleTimer()
      requires Valid()
      modifies this`isRunning
      ensures isRunning == !old(isRunning) && Valid()
    {
      isRunning := !isRunning;
    }

    /** The text in the circle, rendered by the same `formatTime` as the focus page. */
    function Display(): (r: string)
      requires Valid()
      reads this
      ensures r == "25:00" && FocusMode.ParseTime(r) == Some(1500)
    {
      FocusMode.FormatPhaseLengths();
      FocusMode.FormatTime(timeLeft)
    }
  }

  /** Pressing the button twice restores the card. */
  method ToggleTwice(t: QuickTimer)
    requires t.Valid()
    modifies t
    ensures t.isRunning == old(t.isRunning) && t.timeLeft == old(t.timeLeft) && t.Valid()
  {
    t.ToggleTimer();
    t.ToggleTimer();
  }
}
