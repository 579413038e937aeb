/** The meditation gate (components/meditation-gate.tsx): a countdown of
    5, 10 or 15 minutes that has to run to the end before the app opens. */
module Meditation {
  /** The durations, in minutes, the gate offers. */
  const Durations: seq<int> := [5, 10, 15]

  /** The gate's four state fields. */
  datatype Gate = Gate(selectedDuration: int, isActive: bool, timeLeft: int, isCompleted: bool)

  /** What the handlers keep true: a duration on offer; the time left
      between zero and the full duration; a running countdown has time left;
      a completed one has none and is stopped. */
  predicate Valid(g: Gate) {
    && g.selectedDuration in Durations
    && 0 <= g.timeLeft <= g.selectedDuration * 60
    && (g.isActive ==> g.timeLeft > 0)
    && (g.isCompleted ==> g.timeLeft == 0 && !g.isActive)
  }

  /** The state the gate opens in: five minutes, stopped, not completed. */
  const Initial: Gate := Gate(5, false, 5 * 60, false)

  lemma InitialValid()
    ensures Valid(Initial) && !Initial.isCompleted
  {
  }

  /** One second of the countdown. The interval runs only while the gate is
      active with time left; its tick takes one second off, and on the last
      second stops the countdown at zero and marks it completed. */
  function AfterTick(g: Gate): (r: Gate)
    ensures !(g.isActive && g.timeLeft > 0) ==> r == g
    ensures g.isActive && g.timeLeft > 1 ==> r == g.(timeLeft := g.timeLeft - 1)
    ensures g.isActive && 0 < g.timeLeft <= 1 ==>
              r == g.(timeLeft := 0, isActive := false, isCompleted := true)
    ensures Valid(g) ==> Valid(r)
  {
    if g.isActive && g.timeLeft > 0 then
      if g.timeLeft <= 1 then g.(timeLeft := 0, isActive := false, isCompleted := true)
      else g.(timeLeft := g.timeLeft - 1)
    else g
  }

  /** `n` seconds of the countdown: the duration is never changed, the time
      left never grows on a valid gate, and a completed gate stays
      completed. */
  function AfterTicks(g: Gate, n: nat): (r: Gate)
    decreases n
    ensures r.selectedDuration == g.selectedDuration
    ensures Valid(g) ==> Valid(r) && r.timeLeft <= g.timeLeft
    ensures g.isCompleted ==> r.isCompleted
  {
    if n == 0 then g else AfterTicks(AfterTick(g), n - 1)
  }

  /** A running countdown with `n` seconds left is completed after exactly
      `n` ticks, and not before. */
  lemma {:induction false} CountdownCompletes(g: Gate, n: nat)
    requires g.isActive && g.timeLeft == n > 0
    decreases n
    ensures AfterTicks(g, n) == g.(timeLeft := 0, isActive := false, isCompleted := true)
    ensures forall k :: 0 <= k < n ==> AfterTicks(g, k) == g.(timeLeft := n - k)
  {
    if n == 1 {
      assert AfterTicks(g, 1) == AfterTicks(AfterTick(g), 0);
    } else {
      var next := AfterTick(g);
      CountdownCompletes(next, n - 1);
      forall k | 0 <= k < n ensures AfterTicks(g, k) == g.(timeLeft := n - k) {
        if k > 0 {
          assert AfterTicks(g, k) == AfterTicks(next, k - 1);
        }
      }
    }
  }

  /** A stopped gate does not move, however many seconds pass. */
  lemma {:induction false} StoppedStaysPut(g: Gate, n: nat)
    requires !g.isActive
    decreases n
    ensures AfterTicks(g, n) == g
  {
    if n > 0 {
      StoppedStaysPut(AfterTick(g), n - 1);
    }
  }

  /** `startMeditation()`: the full duration, running, not completed. */
  function AfterStart(g: Gate): (r: Gate)
    ensures r.timeLeft == g.selectedDuration * 60 && r.isActive && !r.isCompleted
    ensures r.selectedDuration == g.selectedDuration
    ensures Valid(g) ==> Valid(r)
  {
    g.(timeLeft := g.selectedDuration * 60, isActive := true, isCompleted := false)
  }

  /** `pauseMeditation()`: the countdown stops; the time left is kept. */
  function AfterPause(g: Gate): (r: Gate)
    ensures !r.isActive
    ensures r.timeLeft == g.timeLeft && r.isCompleted == g.isCompleted
    ensures r.selectedDuration == g.selectedDuration
    ensures Valid(g) ==> Valid(r)
  {
    g.(isActive := false)
  }

  /** `resetMeditation()`: stopped, back to the full duration, not
      completed. */
  function AfterReset(g: Gate): (r: Gate)
    ensures !r.isActive && !r.isCompleted && r.timeLeft == g.selectedDuration * 60
    ensures r.selectedDuration == g.selectedDuration
    ensures Valid(g) ==> Valid(r)
  {
    g.(isActive := false, timeLeft := g.selectedDuration * 60, isCompleted := false)
  }

  /** The duration buttons are shown only before a countdown has begun:
      not completed, not running, and the full time still left. */
  predicate CanSelect(g: Gate)
    ensures CanSelect(g) ==> AfterTick(g) == g && !g.isCompleted
  {
    !g.isCompleted && !g.isActive && g.timeLeft == g.selectedDuration * 60
  }

  /** A duration button: the chosen duration, and its full time left. */
  function AfterSelect(g: Gate, d: int): (r: Gate)
    requires d in Durations
    ensures r.selectedDuration == d && r.timeLeft == d * 60
    ensures r.isActive == g.isActive && r.isCompleted == g.isCompleted
    ensures CanSelect(g) ==> CanSelect(r)
    ensures Valid(g) && CanSelect(g) ==> Valid(r)
  {
    g.(selectedDuration := d, timeLeft := d * 60)
  }

  /** The duration buttons come back after Reset, and go away once a
      countdown is started or has moved. */
  lemma SelectableAfterReset(g: Gate)
    requires Valid(g)
    ensures CanSelect(AfterReset(g))
    ensures !CanSelect(AfterStart(g))
    ensures g.isActive && g.timeLeft > 0 ==> !CanSelect(AfterTick(g))
  {
  }

  /** There is no resume: Start after a pause runs the full duration again,
      whatever was left when the gate was paused. */
  lemma StartAfterPauseRestarts(g: Gate)
    requires g.isActive && g.timeLeft < g.selectedDuration * 60
    ensures AfterStart(AfterPause(g)).timeLeft == g.selectedDuration * 60 > g.timeLeft
  {
  }

  /** From any valid state, Start and then the full duration of ticks
      completes the gate. */
  lemma StartThenWaitCompletes(g: Gate)
    requires Valid(g)
    ensures AfterTicks(AfterStart(g), g.selectedDuration * 60).isCompleted
  {
    CountdownCompletes(AfterStart(g), g.selectedDuration * 60);
  }

  /** The `MeditationGate` component's state. */
  class MeditationGate {
    var selectedDuration: int
    var isActive: bool
    var timeLeft: int
    var isCompleted: bool

    function State(): Gate
      reads this
    {
      Gate(selectedDuration, isActive, timeLeft, isCompleted)
    }

    constructor ()
      ensures State() == Initial && Valid(State())
    {
      selectedDuration := 5;
      isActive := false;
      timeLeft := 5 * 60;
      isCompleted := false;
    }

    /** The body of the one-second interval. */
    method Tick()
      requires Valid(State())
      modifies this`isActive, this`timeLeft, this`isCompleted
      ensures Valid(State())
      ensures State() == AfterTick(old(State()))
    {
      if isActive && timeLeft > 0 {
        if timeLeft <= 1 {
          isActive := false;
          isCompleted := true;
          timeLeft := 0;
        } else {
          timeLeft := timeLeft - 1;
        }
      }
    }

    method StartMeditation()
      requires Valid(State())
      modifies this`isActive, this`timeLeft, this`isCompleted
      ensures Valid(State())
      ensures State() == AfterStart(old(State()))
    {
      timeLeft := selectedDuration * 60;
      isActive := true;
      isCompleted := false;
    }

    method PauseMeditation()
      requires Valid(State())
      modifies this`isActive
      ensures Valid(State())
      ensures State() == AfterPause(old(State()))
    {
      isActive := false;
    }

    method ResetMeditation()
      requires Valid(State())
      modifies this`isActive, this`timeLeft, this`isCompleted
      ensures Valid(State())
      ensures State() == AfterReset(old(State()))
    {
      isActive := false;
      timeLeft := selectedDuration * 60;
      isCompleted := false;
    }

    /** A click on the button for `duration` minutes. */
    method SelectDuration(duration: int)
      requires Valid(State()) && CanSelect(State())
      requires duration in Durations
      modifies this`selectedDuration, this`timeLeft
      ensures Valid(State()) && CanSelect(State())
      ensures State() == AfterSelect(old(State()), duration)
    {
      selectedDuration := duration;
      timeLeft := duration * 60;
    }
  }
}
