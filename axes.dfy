/** The two rules of the axis renderers that are not d3 drawing: the caption
    of the vertical axis (js/gapminder.js:87-93) and the alignment of the
    horizontal axis's tick texts (js/gapminder.js:124-132). */
module Axes {
  import opened Wrappers
  import opened Dataset
  import opened Scales

  const CO2_LABEL: string := "CO² Emissions (tons/year)"
  const LIFE_LABEL: string := "Life Expectancy (years)"
  /** The fallback caption, spelled as the chart spells it. */
  const UNKNOWN_LABEL: string := "Unknokwn variable :("

  /** The metric a selector names, if it is one the caption knows. */
  function NamedMetric(key: string): Option<Field>
  {
    if key == "co2_emissions" then Some(Co2Emissions)
    else if key == "life_expectancy" then Some(LifeExpectancy)
    else None
  }

  function MetricLabel(f: Field): string
  {
    if f == Co2Emissions then CO2_LABEL else LIFE_LABEL
  }

  /** The caption of the vertical axis for the selector `key`. */
  function YLabel(key: string): string
  {
    match NamedMetric(key)
    case Some(f) => MetricLabel(f)
    case None => UNKNOWN_LABEL
  }

  /** Each of the two selectors gets its own caption and any other selector
      the fallback; a caption that names a metric names the one the vertical
      domain is taken from, and the fallback sits over a life-expectancy
      domain. */
  lemma YLabelNamesDomainMetric(key: string)
    ensures YLabel(key) == CO2_LABEL <==> key == "co2_emissions"
    ensures YLabel(key) == LIFE_LABEL <==> key == "life_expectancy"
    ensures YLabel(key) == UNKNOWN_LABEL <==> NamedMetric(key).None?
    ensures YLabel(key) != UNKNOWN_LABEL ==> YLabel(key) == MetricLabel(DomainMetric(key))
    ensures YLabel(key) == UNKNOWN_LABEL ==> DomainMetric(key) == LifeExpectancy
  {
    assert CO2_LABEL[0] == 'C' && LIFE_LABEL[0] == 'L' && UNKNOWN_LABEL[0] == 'U';
  }

  /** The alignment attributes a tick text ends up with: its own
      `text-anchor` (`None` keeps the one it inherits from the axis group,
      which is set to "beginning") and its `dx`. */
  datatype TickText = TickText(anchor: Option<string>, dx: int)

  const GROUP_ANCHOR: string := "beginning"

  /** The `text-anchor` a tick text is rendered with. */
  function Anchor(t: TickText): string
  {
    if t.anchor.Some? then t.anchor.value else GROUP_ANCHOR
  }

  /** First step: every tick text is shifted left by 10. */
  function ShiftAll(n: nat): (ts: seq<TickText>)
    ensures |ts| == n
  {
    seq(n, _ => TickText(None, -10))
  }

  /** Second step: the last tick text is anchored at its end and shifted
      right by 10, so that it stays inside the display zone. */
  function FlipLast(ts: seq<TickText>): (r: seq<TickText>)
    ensures |r| == |ts|
  {
    if ts == [] then [] else ts[..|ts| - 1] + [TickText(Some("end"), 10)]
  }

  /** The tick texts of a horizontal axis with `n` ticks. */
  function TickAlignment(n: nat): (ts: seq<TickText>)
    ensures |ts| == n
    ensures forall i :: 0 <= i < n ==> (ts[i].anchor.Some? <==> i == n - 1)
    ensures forall i :: 0 <= i < n ==> (ts[i].dx > 0 <==> i == n - 1)
    ensures n > 0 ==> ts[n - 1] == TickText(Some("end"), 10)
    ensures forall i :: 0 <= i < n - 1 ==> ts[i] == TickText(None, -10)
    ensures forall i :: 0 <= i < n ==> Anchor(ts[i]) == if i == n - 1 then "end" else GROUP_ANCHOR
  {
    FlipLast(ShiftAll(n))
  }
}
