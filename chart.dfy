/** The module-level state of the chart and the handlers that change it
    (js/gapminder.js:22-28, 170-197, 201-253): the start-up pipeline, the
    play and pause buttons, the timer's tick, the slider and the metric
    selector. */
module Gapminder {
  import opened Wrappers
  import opened Display
  import opened Dataset
  import opened Scales
  import opened Axes
  import opened Marks
  import opened Timeline

  class Chart {
    /** The loaded records, bound to one group each. */
    const countries: seq<Country>
    /** The display zone's width (`offsetWidth`). */
    const width: nat
    /** d3's numeric maps for a set of domains and ranges. */
    const project: ScaleSet -> Projection
    const yearMin: int
    const yearMax: int
    var yearCurrent: int
    var yearIndex: int
    /** The value the year slider shows. */
    var slider: int
    /** The metric selector's value, `which_var`. */
    var whichVar: string
    var tDuration: nat
    /** The scales the slider's listener closed over when it was attached. */
    var listenerScales: ScaleSet
    /** The scales the vertical axis was last drawn from, and its caption. */
    var axisScales: ScaleSet
    var yLabel: string
    /** The scales the marks were last drawn with, and what was drawn. */
    var drawnScales: ScaleSet
    var marks: seq<Mark>
    /** How many times the marks were redrawn. */
    var draws: nat
    /** The start-up pipeline reached `set_up_listeners`. */
    var interactive: bool
    /** The handle `t`: `None` until the first play. */
    var timer: Option<nat>
    /** The intervals that are still firing, and the next one's name. */
    var live: set<nat>
    var nextTimer: nat

    function Years(): YearState
      reads this`yearCurrent, this`yearIndex
    {
      YearState(yearMin, yearCurrent, yearMax, yearIndex)
    }

    /** Everything the handlers keep, except that the slider shows the
        current year (briefly broken while `increment` dispatches). */
    ghost predicate Consistent()
      reads this`yearCurrent, this`yearIndex, this`interactive, this`tDuration
      reads this`timer, this`live, this`nextTimer
    {
      && Synced(Years())
      && InRange(Years())
      && (interactive ==> tDuration == ANIMATED_DURATION)
      && (forall id :: id in live ==> id < nextTimer)
      && (timer.Some? ==> timer.value < nextTimer)
      && (live != {} ==> timer.Some? && interactive)
    }

    ghost predicate Valid()
      reads this`yearCurrent, this`yearIndex, this`interactive, this`tDuration
      reads this`timer, this`live, this`nextTimer, this`slider
    {
      Consistent() && slider == yearCurrent
    }

    /** The interval `t` refers to is firing. */
    predicate Running()
      reads this
    {
      timer.Some? && timer.value in live
    }

    /** At most one interval fires, and it is the one `t` refers to. */
    predicate SingleTimer()
      reads this
    {
      live <= (if timer.Some? then {timer.value} else {})
    }

    /** The marks were drawn against the scales the vertical axis shows. */
    predicate MarksMatchAxis()
      reads this
    {
      drawnScales == axisScales
    }

    /** The interaction variables, read from the widgets (js/gapminder.js:22-28),
        and the timer handle `t`, undefined until the first play. Nothing is
        drawn yet; `countries` is what the data request resolves with. */
    constructor (countries: seq<Country>, width: nat, project: ScaleSet -> Projection,
                 sliderMin: int, sliderValue: int, sliderMax: int, selector: string)
      requires sliderMin <= sliderValue <= sliderMax
      ensures Valid() && SingleTimer() && !interactive
      ensures this.countries == countries && this.width == width && this.project == project
      ensures Years() == YearState(sliderMin, sliderValue, sliderMax, sliderValue - sliderMin)
      ensures whichVar == selector && tDuration == 0
      ensures marks == [] && draws == 0 && timer == None && live == {}
    {
      this.countries := countries;
      this.width := width;
      this.project := project;
      yearMin, yearCurrent, yearMax := sliderMin, sliderValue, sliderMax;
      yearIndex := sliderValue - sliderMin;
      slider := sliderValue;
      whichVar := selector;
      tDuration := 0;
      var none := ScaleSet(Bounds(None, None), Span(0, 0), Bounds(None, None), Span(0, 0), 0,
                           Bounds(None, None), Span(0, 0), [], []);
      axisScales, yLabel := none, "";
      drawnScales, listenerScales := none, none;
      marks, draws := [], 0;
      timer, live, nextTimer := None, {}, 0;
      interactive := false;
    }

    /** The start-up pipeline once the data is bound (`data_ready`): the
        scales are computed and handed on. */
    method Load()
      requires Valid() && !interactive && tDuration == 0
      modifies this`marks, this`draws, this`tDuration, this`drawnScales
      modifies this`yLabel, this`axisScales, this`listenerScales, this`interactive
      ensures Valid()
      ensures axisScales == ComputeScales(countries, whichVar, width) && yLabel == YLabel(whichVar)
      ensures draws == old(draws) + 1
      ensures var first := DrawCountries(countries, project(axisScales), axisScales, whichVar, yearIndex, 0);
        && interactive == first.Some?
        && (interactive ==> marks == first.value && listenerScales == axisScales && MarksMatchAxis())
        && (!interactive ==> marks == old(marks) && tDuration == 0 && drawnScales == old(drawnScales)
                             && listenerScales == old(listenerScales))
      // the first render is instantaneous
      ensures interactive ==> forall i :: 0 <= i < |marks| ==> marks[i].duration == 0
    {
      ScaleReady(ComputeScales(countries, whichVar, width));
    }

    /** `scale_ready` and `countries_ready`: the vertical axis, a first draw
        with the initial duration 0, and the listeners once that draw
        completed; they capture the scales given. */
    method ScaleReady(s: ScaleSet)
      requires Valid() && !interactive && tDuration == 0
      modifies this`marks, this`draws, this`tDuration, this`drawnScales
      modifies this`yLabel, this`axisScales, this`listenerScales, this`interactive
      ensures Valid()
      ensures axisScales == s && yLabel == YLabel(whichVar)
      ensures draws == old(draws) + 1
      ensures var first := DrawCountries(countries, project(s), s, whichVar, yearIndex, 0);
        && interactive == first.Some?
        && (interactive ==> marks == first.value && listenerScales == s && drawnScales == s)
        && (!interactive ==> marks == old(marks) && tDuration == 0 && drawnScales == old(drawnScales)
                             && listenerScales == old(listenerScales))
      ensures interactive ==> forall i :: 0 <= i < |marks| ==> marks[i].duration == 0
    {
      DrawYAxis(s);
      var ok := DrawMarks(s);
      if ok {
        SetUpListeners(s);
      }
    }

    /** `set_up_listeners`: the handlers are attached; the slider's handler
        captures the scales it is given. */
    method SetUpListeners(s: ScaleSet)
      requires tDuration == ANIMATED_DURATION
      modifies this`listenerScales, this`interactive
      ensures listenerScales == s && interactive
      ensures old(Valid()) ==> Valid()
    {
      listenerScales, interactive := s, true;
    }

    /** `draw_yaxis`: the vertical axis is redrawn from the given scales,
        captioned after the current selector. */
    method DrawYAxis(s: ScaleSet)
      modifies this`yLabel, this`axisScales
      ensures axisScales == s && yLabel == YLabel(whichVar)
      ensures old(Valid()) ==> Valid()
    {
      axisScales, yLabel := s, YLabel(whichVar);
    }

    /** `draw_countries` with the given scales and the current selector,
        year index and duration; on success the duration becomes 250. When
        indexing the selector's property throws, nothing after the throw
        happens. */
    method DrawMarks(s: ScaleSet) returns (ok: bool)
      modifies this`marks, this`draws, this`tDuration, this`drawnScales
      ensures draws == old(draws) + 1
      ensures old(Consistent()) ==> Consistent()
      ensures old(Valid()) ==> Valid()
      ensures var out := DrawCountries(countries, project(s), s, whichVar, yearIndex, old(tDuration));
        && ok == out.Some?
        && (ok ==> marks == out.value && tDuration == ANIMATED_DURATION && drawnScales == s)
        && (!ok ==> marks == old(marks) && tDuration == old(tDuration) && drawnScales == old(drawnScales))
    {
      draws := draws + 1;
      var out := DrawCountries(countries, project(s), s, whichVar, yearIndex, tDuration);
      ok := out.Some?;
      if ok {
        marks, tDuration, drawnScales := out.value, ANIMATED_DURATION, s;
      }
    }

    /** The play button: back to the first year (slider included) when the
        last year is showing, then a new interval, without stopping the one
        `t` referred to. Nothing is redrawn. */
    method StartTimer()
      requires Valid() && interactive
      modifies this`yearCurrent, this`yearIndex, this`slider, this`timer, this`live, this`nextTimer
      ensures Valid()
      ensures Years() == Restart(old(Years()))
      ensures old(nextTimer) !in old(live) && live == old(live) + {old(nextTimer)}
      ensures timer == Some(old(nextTimer)) && nextTimer == old(nextTimer) + 1
      ensures Running()
      ensures marks == old(marks) && draws == old(draws)
    {
      if yearCurrent == yearMax {
        yearCurrent := yearMin;
        yearIndex := 0;
        slider := yearMin;
      }
      timer := Some(nextTimer);
      live := live + {nextTimer};
      nextTimer := nextTimer + 1;
    }

    /** The pause button: stops the interval `t` refers to; before the first
        play `t` is undefined and the call throws (`ok` is false). */
    method PauseTimer() returns (ok: bool)
      requires Valid() && interactive
      modifies this`live
      ensures Valid()
      ensures ok <==> timer.Some?
      ensures live == if ok then old(live) - {timer.value} else old(live)
      ensures !Running()
      ensures SingleTimer() ==> live == {}
    {
      ok := timer.Some?;
      if ok {
        live := live - {timer.value};
      }
    }

    /** `increment`, run by a firing interval: at the last year it stops the
        interval `t` refers to (not necessarily the one firing); otherwise it
        advances one year, moves the slider and dispatches one input event,
        whose handler redraws. */
    method Tick()
      requires Valid() && interactive && live != {}
      modifies this`yearCurrent, this`yearIndex, this`slider, this`live
      modifies this`marks, this`draws, this`tDuration, this`drawnScales
      ensures Valid()
      ensures Increment(old(Years())).Stop? ==>
        && Years() == old(Years())
        && live == old(live) - {timer.value}
        && !Running()
        && marks == old(marks) && draws == old(draws)
        && tDuration == old(tDuration) && drawnScales == old(drawnScales)
      ensures Increment(old(Years())).Advance? ==>
        && Years() == Increment(old(Years())).next
        && live == old(live)
        && draws == old(draws) + 1
        && var out := DrawCountries(countries, project(listenerScales), listenerScales, whichVar, yearIndex, ANIMATED_DURATION);
           && (out.Some? ==> marks == out.value && drawnScales == listenerScales)
           && (out.None? ==> marks == old(marks) && drawnScales == old(drawnScales))
    {
      if yearCurrent == yearMax {
        live := live - {timer.value};
      } else {
        yearCurrent := yearCurrent + 1;
        yearIndex := yearCurrent - yearMin;
        slider := yearCurrent;
        SliderInput();
      }
    }

    /** The first step of the slider's input handler: the year is read back
        from the slider. */
    method ReadSlider()
      requires Consistent() && yearMin <= slider <= yearMax
      modifies this`yearCurrent, this`yearIndex
      ensures Valid()
      ensures Years() == FromSlider(old(Years()), slider)
    {
      yearCurrent := slider;
      yearIndex := yearCurrent - yearMin;
    }

    /** The slider's input handler: the year is read back from the slider
        and the marks redrawn with the scales captured when the listener was
        attached. */
    method SliderInput()
      requires Consistent() && interactive && yearMin <= slider <= yearMax
      modifies this`yearCurrent, this`yearIndex, this`marks, this`draws, this`tDuration, this`drawnScales
      ensures Valid()
      ensures Years() == FromSlider(old(Years()), slider)
      ensures draws == old(draws) + 1
      ensures var out := DrawCountries(countries, project(listenerScales), listenerScales, whichVar, yearIndex, ANIMATED_DURATION);
        && (out.Some? ==> marks == out.value && drawnScales == listenerScales)
        && (out.None? ==> marks == old(marks) && drawnScales == old(drawnScales))
      // the marks agree with the vertical axis when the captured scales are the axis's
      ensures listenerScales == axisScales && old(MarksMatchAxis()) ==> MarksMatchAxis()
    {
      ReadSlider();
      var _ := DrawMarks(listenerScales);
    }

    /** The user moves the slider to `v`; the browser keeps it within the
        slider's bounds and fires the input event. */
    method Drag(v: int)
      requires Valid() && interactive && yearMin <= v <= yearMax
      modifies this`slider, this`yearCurrent, this`yearIndex, this`marks, this`draws, this`tDuration, this`drawnScales
      ensures Valid()
      ensures Years() == FromSlider(old(Years()), v)
      ensures draws == old(draws) + 1
      ensures var out := DrawCountries(countries, project(listenerScales), listenerScales, whichVar, yearIndex, ANIMATED_DURATION);
        && (out.Some? ==> marks == out.value && drawnScales == listenerScales)
        && (out.None? ==> marks == old(marks) && drawnScales == old(drawnScales))
    {
      slider := v;
      SliderInput();
    }

    /** The metric selector's value is read into `which_var`. */
    method Select(selector: string)
      modifies this`whichVar
      ensures whichVar == selector
      ensures old(Valid()) ==> Valid()
    {
      whichVar := selector;
    }

    /** The metric selector's change handler: new selector, new scales, a
        redraw, then the vertical axis (skipped when the redraw throws). The
        slider's listener keeps the scales it captured. */
    method MetricChange(selector: string) returns (ok: bool)
      requires Valid() && interactive
      modifies this`whichVar, this`marks, this`draws, this`tDuration, this`drawnScales, this`yLabel, this`axisScales
      ensures Valid()
      ensures whichVar == selector && draws == old(draws) + 1
      ensures listenerScales == old(listenerScales)
      ensures var s := ComputeScales(countries, selector, width);
        var out := DrawCountries(countries, project(s), s, selector, yearIndex, ANIMATED_DURATION);
        && ok == out.Some?
        && (ok ==> marks == out.value && axisScales == s && yLabel == YLabel(selector) && MarksMatchAxis())
        && (!ok ==> marks == old(marks) && drawnScales == old(drawnScales)
                    && axisScales == old(axisScales) && yLabel == old(yLabel))
    {
      Select(selector);
      var params := ComputeScales(countries, selector, width);
      ok := DrawMarks(params);
      if ok {
        DrawYAxis(params);
      }
    }

    /** The change handler as evidently intended: the slider's handler is
        attached again with the new scales (d3 replaces a listener of the
        same name), so later slider moves draw against the vertical axis. */
    method MetricChangeRebindingSlider(selector: string) returns (ok: bool)
      requires Valid() && interactive
      modifies this`whichVar, this`marks, this`draws, this`tDuration, this`drawnScales, this`yLabel, this`axisScales
      modifies this`listenerScales, this`interactive
      ensures Valid() && interactive
      ensures whichVar == selector && draws == old(draws) + 1
      ensures var s := ComputeScales(countries, selector, width);
        var out := DrawCountries(countries, project(s), s, selector, yearIndex, ANIMATED_DURATION);
        && ok == out.Some?
        && (ok ==> marks == out.value && axisScales == s && yLabel == YLabel(selector) && MarksMatchAxis())
        && (!ok ==> marks == old(marks) && drawnScales == old(drawnScales)
                    && axisScales == old(axisScales) && yLabel == old(yLabel))
      // the slider's handler now holds the scales the axis shows
      ensures listenerScales == if ok then axisScales else old(listenerScales)
    {
      ok := MetricChange(selector);
      if ok {
        SetUpListeners(axisScales);
      }
    }

    /** The play button as evidently intended: the interval `t` refers to is
        stopped before the new one replaces it, so one interval at most ever
        fires and pause stops playback. */
    method StartTimerExclusive()
      requires Valid() && interactive
      modifies this`yearCurrent, this`yearIndex, this`slider, this`timer, this`live, this`nextTimer
      ensures Valid()
      ensures Years() == Restart(old(Years()))
      ensures timer == Some(old(nextTimer)) && nextTimer == old(nextTimer) + 1 && Running()
      // the interval `t` referred to is gone, every other one keeps firing
      ensures live == (old(live) - (if old(timer).Some? then {old(timer).value} else {})) + {old(nextTimer)}
      ensures old(SingleTimer()) ==> live == {timer.value} && SingleTimer()
      ensures marks == old(marks) && draws == old(draws)
    {
      if timer.Some? {
        live := live - {timer.value};
      }
      StartTimer();
    }
  }

  /** A chart over the years 2000-2001, loaded with the life-expectancy
      selector. */
  method LoadedChart(data: seq<Country>, width: nat, project: ScaleSet -> Projection) returns (c: Chart)
    ensures fresh(c) && c.Valid() && c.interactive && c.SingleTimer()
    ensures c.countries == data && c.width == width && c.project == project
    ensures c.whichVar == "life_expectancy" && c.Years() == YearState(2000, 2000, 2001, 0)
    ensures c.timer == None && c.live == {}
    ensures c.listenerScales == c.axisScales == ComputeScales(data, "life_expectancy", width)
  {
    c := new Chart(data, width, project, 2000, 2000, 2001, "life_expectancy");
    c.Load();
  }

  /** As written: after switching to emissions and moving the slider, the
      vertical axis is drawn from the emissions scales while the marks are
      placed with the life-expectancy scales the listener captured. */
  method StaleScalesAfterMetricChange(data: seq<Country>, width: nat, project: ScaleSet -> Projection)
    returns (axis: ScaleSet, drawn: ScaleSet)
    ensures axis == ComputeScales(data, "co2_emissions", width)
    ensures drawn == ComputeScales(data, "life_expectancy", width)
  {
    SelectorOptionsDraw();
    var c := LoadedChart(data, width, project);
    var _ := c.MetricChange("co2_emissions");
    c.Drag(2001);
    axis, drawn := c.axisScales, c.drawnScales;
  }

  /** Corrected: the same interaction redraws with the scales the axis shows. */
  method SliderScalesAfterMetricChange(data: seq<Country>, width: nat, project: ScaleSet -> Projection)
    returns (axis: ScaleSet, drawn: ScaleSet)
    ensures axis == ComputeScales(data, "co2_emissions", width)
    ensures drawn == axis
  {
    SelectorOptionsDraw();
    var c := LoadedChart(data, width, project);
    var _ := c.MetricChangeRebindingSlider("co2_emissions");
    c.Drag(2001);
    axis, drawn := c.axisScales, c.drawnScales;
  }

  /** One country over two years. */
  function Sample(): Country
  {
    Country("France", "europe", [100, 200], [50, 60], [5, 6], [10, 20])
  }

  /** For that country the two selectors give different vertical domains,
      `[0, 60]` and `[0, 6]`: the stale marks sit ten times too low against
      the axis. */
  lemma SampleDomainsDiffer(width: nat)
    ensures ComputeScales([Sample()], "life_expectancy", width).yDomain == Bounds(Some(0), Some(60))
    ensures ComputeScales([Sample()], "co2_emissions", width).yDomain == Bounds(Some(0), Some(6))
  {
    var data := [Sample()];
    GreatestIsMaximum(data, LifeExpectancy);
    GreatestIsMaximum(data, Co2Emissions);
    assert Series(data[0], LifeExpectancy)[1] == 60;
    assert Series(data[0], Co2Emissions)[1] == 6;
  }

  /** As written: play, play again, pause; one interval is still firing, so
      the animation goes on after the pause. */
  method PlayTwiceThenPause(data: seq<Country>, width: nat, project: ScaleSet -> Projection)
    returns (firing: nat)
    ensures firing == 1
  {
    var c := LoadedChart(data, width, project);
    c.StartTimer();
    var first := c.timer.value;
    c.StartTimer();
    var _ := c.PauseTimer();
    assert c.live == {first};
    firing := |c.live|;
  }

  /** Corrected: with the previous interval stopped on play, the pause stops
      everything. */
  method PlayTwiceThenPauseExclusive(data: seq<Country>, width: nat, project: ScaleSet -> Projection)
    returns (firing: nat)
    ensures firing == 0
  {
    var c := LoadedChart(data, width, project);
    c.StartTimerExclusive();
    c.StartTimerExclusive();
    var _ := c.PauseTimer();
    firing := |c.live|;
  }
}
