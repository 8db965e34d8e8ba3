/** The year state of the timeline controller as values: what `start_timer`,
    `increment` and the slider's input handler do to `year_min`,
    `year_current`, `year_max` and `year_index` (js/gapminder.js:25-28,
    172-197, 241-245). The chart's class is proved against these functions. */
module Timeline {
  import opened Wrappers

  datatype YearState = YearState(min: int, current: int, max: int, index: int)

  /** The index into every series is the offset of the current year. */
  predicate Synced(y: YearState)
  {
    y.index == y.current - y.min
  }

  predicate InRange(y: YearState)
  {
    y.min <= y.current <= y.max
  }

  /** The reset `start_timer` performs before starting a timer: back to the
      first year only when the last year is showing. */
  function Restart(y: YearState): (r: YearState)
    ensures r.min == y.min && r.max == y.max
    ensures y.current == y.max ==> r.current == y.min && r.index == 0
    ensures y.current != y.max ==> r == y
    ensures Synced(y) ==> Synced(r)
    ensures InRange(y) ==> InRange(r)
  {
    if y.current == y.max then y.(current := y.min, index := 0) else y
  }

  /** The outcome of one `increment`: the timer is stopped, or the year
      advanced. */
  datatype Step = Stop | Advance(next: YearState)

  function Increment(y: YearState): (s: Step)
    ensures s.Stop? <==> y.current == y.max
    ensures s.Advance? ==> s.next.current == y.current + 1 && Synced(s.next)
    ensures s.Advance? ==> s.next.min == y.min && s.next.max == y.max
    ensures s.Advance? && InRange(y) ==> InRange(s.next)
  {
    if y.current == y.max then Stop
    else
      var current := y.current + 1;
      Advance(y.(current := current, index := current - y.min))
  }

  /** The slider's input handler: the year is whatever the slider shows. */
  function FromSlider(y: YearState, v: int): (r: YearState)
    ensures r.current == v && r.min == y.min && r.max == y.max
    ensures Synced(r)
    ensures y.min <= v <= y.max ==> InRange(r)
  {
    y.(current := v, index := v - y.min)
  }

  /** The state after `n` ticks of the timer, or `None` when one of them
      stopped it. */
  function Run(y: YearState, n: nat): Option<YearState>
    decreases n
  {
    if n == 0 then Some(y)
    else
      match Increment(y)
      case Stop => None
      case Advance(z) => Run(z, n - 1)
  }

  /** Every tick that does not stop the timer advances exactly one year, and
      keeps the index in step and the year within the slider's bounds. */
  lemma {:induction false} RunAdvances(y: YearState, n: nat)
    requires Run(y, n).Some?
    ensures Run(y, n).value.current == y.current + n
    ensures Run(y, n).value.min == y.min && Run(y, n).value.max == y.max
    ensures n > 0 || Synced(y) ==> Synced(Run(y, n).value)
    ensures InRange(y) ==> InRange(Run(y, n).value)
    decreases n
  {
    if n > 0 {
      RunAdvances(Increment(y).next, n - 1);
    }
  }

  /** From a year within bounds, the timer advances exactly `max - current`
      times, reaching the last year, and the next tick stops it. */
  lemma {:induction false} RunStopsAtMax(y: YearState)
    requires InRange(y) && Synced(y)
    ensures Run(y, y.max - y.current) == Some(y.(current := y.max, index := y.max - y.min))
    ensures Run(y, y.max - y.current + 1) == None
    decreases y.max - y.current
  {
    if y.current < y.max {
      RunStopsAtMax(Increment(y).next);
    }
  }

  /** The stop test is an equality: a year already past the last one is
      never stopped at. */
  lemma {:induction false} RunPastMaxNeverStops(y: YearState, n: nat)
    requires y.current > y.max
    ensures Run(y, n).Some?
    decreases n
  {
    if n > 0 {
      RunPastMaxNeverStops(Increment(y).next, n - 1);
    }
  }
}
