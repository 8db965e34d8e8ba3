# Gapminder bubble chart: timeline, scales and redraw state in Dafny

This project models the logic of `js/gapminder.js`, an animated bubble chart of
countries. It plots income horizontally and a selectable metric vertically
(life expectancy or CO² emissions). Population sets each circle's radius and
the region sets its colour. A year slider, a play/pause timer and a metric
selector drive the chart.

The model covers:

- **Dataset** (`dataset.dfy`): country records with one integer series per
  metric, `data.map(d => d.f).flat()` and `d3.max`/`d3.min`. An empty input
  gives `undefined`.
- **Scales** (`scales.dfy`): the domains, ranges, constants and colours that
  `compute_scales` fixes.
- **Axes** (`axes.dfy`): the caption of the vertical axis and the alignment of
  the horizontal axis's tick texts.
- **Marks** (`marks.dfy`): what `draw_countries` sets on each country's circle
  and label.
  - Reading `d[which_var][year_index]` gives a number, a non-number that falls
    back to the scale's `unknown` height, or a `TypeError`. The `TypeError`
    happens when neither the record nor `Object.prototype` has the property.
    Inherited properties such as `constructor` or `toString` are functions, so
    indexing them gives undefined and the circle goes to the `unknown` height.
  - The vertical domain uses a different rule: any selector other than
    `"co2_emissions"` falls back to life expectancy. The model keeps the two
    rules apart.
- **Timeline** (`timeline.dfy`): the year state as values, with `Restart`,
  `Increment` and `FromSlider`, and `Run`, which chains ticks.
- **Gapminder** (`chart.dfy`): the module-level state as the class
  `Gapminder.Chart`, with one method per handler.
  - Handlers: the start-up pipeline, play, pause, the timer's tick, the slider,
    the metric selector, `draw_countries` and `draw_yaxis`.
  - Each handler is proved against the Timeline and Scales functions.
  - `Valid()` is preserved throughout: the year index matches the current year,
    the slider shows the current year, and every draw after the first lasts
    250 ms.
- **Timer handle**: `t` is an identifier, and `live` is the set of intervals
  that still fire. `start_timer` overwrites `t` without stopping the interval
  it referred to, and `pause_timer` and `increment` stop only the one `t`
  refers to.

The code and the intended design of the chart differ in a few places. The
model follows the code:

- Play does not cancel a running interval, so pause may not stop playback.
  Both are shown under Findings.
- Pausing before the first play throws, because `t` is still undefined.
- A selector that is neither a property of the record nor an inherited one
  does more than change the caption. Drawing indexes the missing property and
  throws.
- The reset that play performs moves the slider without redrawing.

## Model

| member | source | states |
|---|---|---|
| Dataset.MaxOfIsMaximum | js/gapminder.js:35 | `d3.max` is undefined exactly for an empty input; otherwise it is an element that no element exceeds |
| Dataset.MinOfIsMinimum | js/gapminder.js:36 | `d3.min` is undefined exactly for an empty input; otherwise it is an element that no element is below |
| Dataset.ValueOccurs | js/gapminder.js:35-44 | a value is in `data.map(d => d.f).flat()` exactly when some country has it at some year of series `f` |
| Dataset.ValuesAreOccurrences | js/gapminder.js:35-44 | the flattened series hold exactly the values of every country's series; they are empty exactly when no country has a value |
| Dataset.GreatestIsMaximum | js/gapminder.js:35-44 | the maximum over all countries and years is undefined exactly when there are no values; otherwise it occurs and bounds every value from above |
| Dataset.LeastIsMinimum | js/gapminder.js:36 | the minimum over all countries and years is undefined exactly when there are no values; otherwise it occurs and bounds every value from below |
| Scales.DomainMetric | js/gapminder.js:40 | the vertical domain uses emissions exactly for the selector "co2_emissions" and life expectancy for every other selector |
| Scales.ComputeScales | js/gapminder.js:46-67 | horizontal range `[margin, width - margin]`, vertical domain starting at 0, vertical range `[height - margin, margin]`, unknown height `height - outer_margin - inner_margin / 2` (355), radius domain from 0 and range `[0, radius]`, the four regions and four colours |
| Scales.ScaleDomains | js/gapminder.js:35-44 | the domains are `[min, max]` of all incomes, `[0, max]` of the selected metric and `[0, max]` of population; an end is undefined exactly when its series are all empty |
| Scales.IncomeWithinXDomain | js/gapminder.js:35-36 | every income value of every country in every year lies in the horizontal domain |
| Scales.MetricWithinYDomain | js/gapminder.js:37-43 | every non-negative value of the selected metric lies in the vertical domain `[0, max]` |
| Scales.SelectorMovesOnlyVerticalDomain | js/gapminder.js:37-43 | two selectors give the same scales except for the vertical domain |
| Scales.IndexOf | js/gapminder.js:62-65 | the ordinal scale's lookup gives the first position of a region, or nothing when the region is not in the domain |
| Scales.Cycle | js/gapminder.js:62-65 | position `k` of the ordinal range is always one of its colours, and it is the `k`-th colour when `k` is within the range |
| Scales.ColourOf | js/gapminder.js:62-65 | a region's colour is one of the range's colours; a region outside the domain gets none |
| Scales.RegionsDistinct | js/gapminder.js:64 | the four regions are pairwise different |
| Scales.ColourAtPosition | js/gapminder.js:62-65 | with as many colours as distinct regions, the region at position `k` gets the colour at position `k` |
| Scales.RegionColour | js/gapminder.js:64-65 | in the chart's scales asia, americas, europe and africa get the four colours in order |
| Axes.YLabelNamesDomainMetric | js/gapminder.js:87-93 | the caption is "CO² Emissions (tons/year)" exactly for "co2_emissions", "Life Expectancy (years)" exactly for "life_expectancy", and "Unknokwn variable :(" for anything else; a named caption names the metric of the vertical domain |
| Axes.TickAlignment | js/gapminder.js:124-132 | with `n` ticks, every tick text but the last is shifted by -10 and keeps the group's anchor "beginning"; only the last is anchored at "end" and shifted by +10 |
| Marks.FieldNamed | js/gapminder.js:144 | exactly the four series names designate a numeric series |
| Marks.RenderedValue | js/gapminder.js:144 | `d[which_var][year_index]` throws exactly for keys that are neither properties of the record nor inherited from `Object.prototype`; an inherited key reads as not a number; a number read is the series value at that index; for the two selector options it reads the series of the vertical domain |
| Marks.InheritedKeyDraws | js/gapminder.js:144-157 | with a selector inherited from `Object.prototype`, the draw completes and every circle goes to the `unknown` height |
| Marks.Apply | js/gapminder.js:143-145 | a scale maps a defined value to a defined position and undefined to undefined |
| Marks.DrawCountry | js/gapminder.js:138-158 | the label sits at `cx + r + spacing` and at `cy + 5`; the centre and radius are the scales applied to this year's income and population; a non-number metric puts the circle at the unknown height; the colour comes from the region |
| Marks.DrawCountries | js/gapminder.js:135-158 | a draw throws exactly when there is a country and the selector is neither a property of the record nor inherited from `Object.prototype`; otherwise it gives one mark per country, in data order |
| Timeline.Restart | js/gapminder.js:173-178 | at the last year, play resets to the first year with index 0; otherwise nothing changes; the invariants are kept |
| Timeline.Increment | js/gapminder.js:187-197 | a tick stops exactly at the last year; otherwise the year rises by one, the index follows, and the year stays within bounds |
| Timeline.FromSlider | js/gapminder.js:241-243 | the slider's value becomes the year and the index follows it |
| Timeline.RunAdvances | js/gapminder.js:187-197 | ticks that do not stop advance one year each, keep the index in step and stay within bounds |
| Timeline.RunStopsAtMax | js/gapminder.js:187-197 | from a year within bounds the timer advances exactly `max - current` times to the last year, and the next tick stops it |
| Timeline.RunPastMaxNeverStops | js/gapminder.js:188 | the stop test is an equality, so a year beyond the last is never stopped at |
| Gapminder.Chart.constructor | js/gapminder.js:22-28 | the interaction variables are read from the widgets: index = current - min, duration 0, `t` undefined, no interval firing |
| Gapminder.Chart.Load | js/gapminder.js:217-221 | start-up: the axis is drawn from the computed scales with its caption, the first draw has duration 0 and, when it completes, the listeners capture those scales; when it throws, the duration stays 0 and no listener is attached |
| Gapminder.Chart.ScaleReady | js/gapminder.js:223-234 | given scales: the axis, a first draw with duration 0 and, when it completes, listeners that capture those scales; when it throws, the marks, duration, drawn scales and listener scales are unchanged |
| Gapminder.Chart.SetUpListeners | js/gapminder.js:236-245 | the slider's handler captures the scales it is given and the chart becomes interactive |
| Gapminder.Chart.DrawYAxis | js/gapminder.js:71-96 | the vertical axis shows the given scales and the caption for the current selector |
| Gapminder.Chart.DrawMarks | js/gapminder.js:135-162 | the marks become the draw of every country with the current selector, index and duration, and the duration becomes 250; when the draw throws, nothing changes |
| Gapminder.Chart.StartTimer | js/gapminder.js:172-181 | the year state becomes `Restart` of the old one, with the slider moved along; a new interval fires, and earlier intervals keep firing |
| Gapminder.Chart.PauseTimer | js/gapminder.js:183-185 | stops the interval `t` refers to; throws exactly when `t` is undefined; with a single interval, nothing fires afterwards |
| Gapminder.Chart.Tick | js/gapminder.js:187-197 | at the last year the interval `t` refers to stops and the years, marks, duration and drawn scales stay as they were; otherwise the year state becomes `Increment` of the old one, the slider follows, and one redraw uses the captured scales; a redraw that throws leaves the marks and drawn scales as they were |
| Gapminder.Chart.ReadSlider | js/gapminder.js:242-243 | the year state becomes `FromSlider` of the slider's value |
| Gapminder.Chart.SliderInput | js/gapminder.js:241-245 | the year is read from the slider and one redraw uses the captured scales; a redraw that throws leaves the marks and drawn scales as they were |
| Gapminder.Chart.Drag | js/gapminder.js:241-245 | moving the slider to `v` gives year `v` and one redraw with the captured scales |
| Gapminder.Chart.Select | js/gapminder.js:248 | the selector's value becomes `which_var` |
| Gapminder.Chart.MetricChange | js/gapminder.js:247-253 | the selector changes, the marks are redrawn with freshly computed scales, then the axis; the slider keeps its captured scales; a redraw that throws leaves the marks, drawn scales, axis and caption as they were |
| Gapminder.Chart.MetricChangeRebindingSlider | js/gapminder.js:236-253 | corrected change handler: as above, including the throwing case, and the slider's handler now holds the scales the axis shows |
| Gapminder.Chart.StartTimerExclusive | js/gapminder.js:172-185 | corrected play: the interval `t` referred to is removed from the firing set, every other interval keeps firing, and the one new interval is added; a single firing interval stays single |
| Gapminder.LoadedChart | js/gapminder.js:217-234 | after start-up with the life-expectancy selector, the chart is interactive, nothing fires yet, and the axis and slider share the computed scales |
| Gapminder.StaleScalesAfterMetricChange | js/gapminder.js:241-253 | as written: after switching to emissions and moving the slider, the axis shows the emissions scales while the marks use the life-expectancy scales |
| Gapminder.SliderScalesAfterMetricChange | js/gapminder.js:241-253 | corrected: the same interaction draws the marks with the scales the axis shows |
| Gapminder.SampleDomainsDiffer | js/gapminder.js:37-43 | for one country with life expectancy [50, 60] and emissions [5, 6], the vertical domains are [0, 60] and [0, 6] |
| Gapminder.PlayTwiceThenPause | js/gapminder.js:172-185 | as written: play, play, pause leaves one interval firing |
| Gapminder.PlayTwiceThenPauseExclusive | js/gapminder.js:172-185 | corrected: play, play, pause leaves no interval firing |

## Left out

- DOM and SVG work is not modelled: selections, append/remove, attributes that carry no logic, and the transitions themselves. A draw is modelled by the values it sets.
- The numeric behaviour of `scaleLog`, `scaleLinear` and `scaleSqrt`, `.nice()` widening and `tickFormat` is not modelled. These are floating-point library code. The maps are the parameter `project`, and a `ScaleSet` holds only the domains, ranges and constants.
- Series hold integers, not JavaScript floating-point numbers.
- Reading the "name" or "region" property as a metric counts as not a number. Records are taken to have only their six own properties. Digit-only strings, which would coerce to numbers, are not modelled.
- A region outside the ordinal domain gets no colour here. d3 would instead append it to the domain and give it the next colour.
- `d3.interval` timing and the 500 ms `time_pace` are left out. A tick is a call to `Chart.Tick`, and an interval is an identifier in `live`.
- The data request and event dispatch are left out. The records are a parameter of the constructor, and the `data_ready` handler is the method `Load`, and the `scale_ready` and `countries_ready` handlers are the method `ScaleReady`.
- `draw_countries` returns its parameters unchanged. That return is the same `ScaleSet` passed on to `SetUpListeners`.
- `draw_xaxis` is not modelled except for its tick alignment rule. The horizontal caption, the axis itself and the tick count that d3 chooses are rendering.
- `countries_svg.sort` is left out. Its comparator subtracts arrays, so it returns NaN and the resulting order depends on the engine. Marks stay in data order.
- The click listener `toggle_selected` is left out. It only toggles a CSS class.
- `width` (`offsetWidth`) is a parameter of the constructor.
- When a draw throws, transitions already scheduled for earlier attributes are not modelled. The model keeps the previous marks.
- Scales.MetricWithinYDomain: the vertical domain starts at 0, so only non-negative values are claimed to lie in it.

## Findings

| source | as written | input that shows it | evidently intended | confidence | as-written member | corrected member |
|---|---|---|---|---|---|---|
| js/gapminder.js:241-253 | the slider's input handler redraws with the scales captured by `set_up_listeners` at start-up; the selector's change handler recomputes the scales but never rebinds the slider | one country with life expectancy [50, 60] and emissions [5, 6]: load with "life_expectancy", select "co2_emissions", then move the slider; the axis shows [0, 6] while the marks are placed on [0, 60] | slider redraws use the scales of the metric now selected, which the axis shows | not executed | Gapminder.StaleScalesAfterMetricChange, Gapminder.SampleDomainsDiffer | Gapminder.Chart.MetricChangeRebindingSlider, Gapminder.SliderScalesAfterMetricChange |
| js/gapminder.js:172-185 | `start_timer` overwrites `t` without stopping the interval it referred to, and `pause_timer` stops only the interval `t` now refers to | press play twice, then pause: one interval still fires and the years keep advancing | play replaces the running interval, so pause stops playback | not executed | Gapminder.PlayTwiceThenPause | Gapminder.Chart.StartTimerExclusive, Gapminder.PlayTwiceThenPauseExclusive |
