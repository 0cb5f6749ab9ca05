/**
 * An analog gamepad trigger seen as a button: it is pressed while its value
 * is at least the threshold, and it remembers the value before the latest
 * reading so that presses and releases can be detected as edges.
 */
module Gamepad {

  class Trigger {
    var value: real
    var lastValue: real
    var threshold: real

    /** A new trigger reads `value` (0 unless given) now and before; the threshold defaults to 0.5. */
    constructor(value: real := 0.0, threshold: real := 0.5)
      ensures this.value == value && lastValue == value && this.threshold == threshold
      ensures State() == LastState()
    {
      this.value := value;
      lastValue := value;
      this.threshold := threshold;
    }

    /** Pressed now; a steady reading is pressed now exactly when it was before. */
    predicate State()
      reads this
      ensures value == lastValue ==> (State() <==> LastState())
    {
      value >= threshold
    }

    /** Pressed at the previous reading. */
    predicate LastState()
      reads this
    {
      lastValue >= threshold
    }

    /**
     * A new reading: the current value becomes the previous one, so the
     * state before the reading becomes the last state.
     */
    method Update(newValue: real)
      modifies this
      ensures value == newValue && lastValue == old(value) && threshold == old(threshold)
      ensures LastState() == old(State())
    {
      lastValue := value;
      value := newValue;
    }

    /** The threshold is the one setting callers may change directly. */
    method SetThreshold(threshold: real)
      modifies this
      ensures this.threshold == threshold && value == old(value) && lastValue == old(lastValue)
    {
      this.threshold := threshold;
    }
  }

  /**
   * Reading the same value twice in a row leaves the trigger steady: its
   * state now is its state before, so no edge is reported.
   */
  method RepeatedReadingIsSteady(t: Trigger, v: real)
    modifies t
    ensures t.value == v && t.lastValue == v
    ensures t.State() == t.LastState()
  {
    t.Update(v);
    t.Update(v);
  }

  /**
   * A reading at or above the threshold after one below it is a press: the
   * trigger is pressed now and was not before.
   */
  method PressIsRisingEdge(t: Trigger, low: real, high: real)
    requires low < t.threshold <= high
    modifies t
    ensures t.State() && !t.LastState()
  {
    t.Update(low);
    t.Update(high);
  }
}
