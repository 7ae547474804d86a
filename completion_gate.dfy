/**
 * The fire-once gate put in front of a request's completion action: both the
 * `finish` signal (ok = true) and the `close` signal (ok = false) are wired
 * to it, and only the first signal to arrive runs the action.
 */
module CompletionGate {

  /**
   * The `ok` values of the signals that run the action, out of `signals`
   * arriving in order at a gate that has or has not fired yet.
   */
  function Admitted(fired: bool, signals: seq<bool>): (r: seq<bool>)
    ensures |r| <= |signals|
    decreases signals
  {
    if signals == [] then []
    else if fired then Admitted(true, signals[1..])
    else [signals[0]] + Admitted(true, signals[1..])
  }

  /** Once fired, no further signal runs the action. */
  lemma {:induction false} FiredAdmitsNothing(signals: seq<bool>)
    ensures Admitted(true, signals) == []
  {
    if signals != [] {
      FiredAdmitsNothing(signals[1..]);
    }
  }

  /**
   * On a fresh gate the action runs exactly once, for the first signal,
   * however many signals follow it.
   */
  lemma {:induction false} FirstSignalOnly(signals: seq<bool>)
    requires signals != []
    ensures Admitted(false, signals) == [signals[0]]
  {
    FiredAdmitsNothing(signals[1..]);
  }

  /** At most one signal ever runs the action. */
  lemma {:induction false} AtMostOnce(fired: bool, signals: seq<bool>)
    ensures |Admitted(fired, signals)| <= 1
    ensures fired ==> Admitted(fired, signals) == []
  {
    FiredAdmitsNothing(signals);
    if !fired && signals != [] {
      FirstSignalOnly(signals);
    }
  }
}
