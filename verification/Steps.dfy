/** Counting down a length of time in steps of at least a given size: why the timed loops end. */
module Steps {
  /** `steps` steps are enough to use up `time`. */
  predicate Within(time: real, steps: nat, step: real)
    decreases steps
  {
    time <= 0.0 || (0 < steps && Within(time - step, steps - 1, step))
  }

  /** There are always enough: the loop ends. */
  lemma {:induction false} Enough(time: real, step: real, n: nat)
    requires 0.0 < step && time <= n as real * step
    ensures Within(time, n, step)
    decreases n
  {
    if n > 0 {
      assert n as real * step == (n - 1) as real * step + step;
      Enough(time - step, step, n - 1);
    }
  }

  lemma StepsFor(time: real, step: real) returns (steps: nat)
    requires 0.0 <= time && 0.0 < step
    ensures Within(time, steps, step) && steps == (time / step).Floor + 1
  {
    steps := (time / step).Floor + 1;
    assert time == time / step * step;
    NoLess(time / step, steps as real, step);
    Enough(time, step, steps);
  }

  lemma NoLess(a: real, b: real, step: real)
    requires a <= b && 0.0 <= step
    ensures a * step <= b * step
  {
  }

  lemma {:induction false} LessTime(time: real, less: real, steps: nat, step: real)
    requires Within(time, steps, step) && less <= time
    ensures Within(less, steps, step)
    decreases steps
  {
    if time > 0.0 {
      LessTime(time - step, less - step, steps - 1, step);
    }
  }
}
