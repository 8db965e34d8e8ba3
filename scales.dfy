/** The domain and range part of `compute_scales` (js/gapminder.js:32-67).
    The numeric behaviour of d3's log, linear and square-root scales is not
    modelled here: a `ScaleSet` holds what the source fixes for each scale. */
module Scales {
  import opened Wrappers
  import opened Display
  import opened Dataset

  /** A d3 domain `[lo, hi]`; `None` is an `undefined` end (no values to take
      the extremum of). */
  datatype Bounds = Bounds(lo: Option<int>, hi: Option<int>)

  /** A d3 pixel range `[start, stop]`. */
  datatype Span = Span(start: int, stop: int)

  /** The four scales of the chart: horizontal (income), vertical (selected
      metric, with the position given to undefined values), radius
      (population) and the ordinal region-to-colour scale. */
  datatype ScaleSet = ScaleSet(
    xDomain: Bounds, xRange: Span,
    yDomain: Bounds, yRange: Span, yUnknown: int,
    rDomain: Bounds, rRange: Span,
    regions: seq<string>, colours: seq<string>)

  const REGIONS: seq<string> := ["asia", "americas", "europe", "africa"]
  const PALETTE: seq<string> := ["#6EBB87", "#DA94CE", "#DE9D6C", "#2CB8EA"]

  /** The series the vertical domain is taken from: emissions for the
      selector "co2_emissions", life expectancy for every other selector. */
  function DomainMetric(key: string): (f: Field)
    ensures f == Co2Emissions <==> key == "co2_emissions"
    ensures f != Co2Emissions ==> f == LifeExpectancy
  {
    if key == "co2_emissions" then Co2Emissions else LifeExpectancy
  }

  /** `v` lies in the domain `b`, both of whose ends are defined. */
  predicate Covers(b: Bounds, v: int)
  {
    b.lo.Some? && b.hi.Some? && b.lo.value <= v <= b.hi.value
  }

  /** `compute_scales` for the records `data` and the selector `key`: what
      it fixes for each scale; the domains are described by `ScaleDomains`. */
  function ComputeScales(data: seq<Country>, key: string, width: nat): (s: ScaleSet)
    ensures s.xRange == Span(MARGIN, width - MARGIN)
    ensures s.yDomain.lo == Some(0)
    ensures s.yRange == Span(HEIGHT - MARGIN, MARGIN)
    ensures s.yUnknown == HEIGHT - OUTER_MARGIN - INNER_MARGIN / 2
    ensures s.rDomain.lo == Some(0)
    ensures s.rRange == Span(0, RADIUS)
    ensures s.regions == REGIONS && s.colours == PALETTE
  {
    ScaleSet(
      Bounds(Least(data, Income), Greatest(data, Income)), Span(MARGIN, width - MARGIN),
      Bounds(Some(0), Greatest(data, DomainMetric(key))), Span(HEIGHT - MARGIN, MARGIN),
      HEIGHT - OUTER_MARGIN - INNER_MARGIN / 2,
      Bounds(Some(0), Greatest(data, Population)), Span(0, RADIUS),
      REGIONS, PALETTE)
  }

  /** The three domains are the extent of the series they are taken from:
      horizontal `[min, max]` of every income value of every country,
      vertical `[0, max]` of the selected metric (life expectancy by
      default), radius `[0, max]` of population; an end is undefined exactly
      when there are no values. */
  lemma ScaleDomains(data: seq<Country>, key: string, width: nat)
    ensures var s := ComputeScales(data, key, width);
      && (s.xDomain.lo.Some? <==> HasValues(data, Income))
      && (s.xDomain.hi.Some? <==> HasValues(data, Income))
      && (s.xDomain.lo.Some? ==> IsLeast(data, Income, s.xDomain.lo.value))
      && (s.xDomain.hi.Some? ==> IsGreatest(data, Income, s.xDomain.hi.value))
      && (s.yDomain.hi.Some? <==> HasValues(data, DomainMetric(key)))
      && (s.yDomain.hi.Some? ==> IsGreatest(data, DomainMetric(key), s.yDomain.hi.value))
      && (s.rDomain.hi.Some? <==> HasValues(data, Population))
      && (s.rDomain.hi.Some? ==> IsGreatest(data, Population, s.rDomain.hi.value))
  {
    LeastIsMinimum(data, Income);
    GreatestIsMaximum(data, Income);
    GreatestIsMaximum(data, DomainMetric(key));
    GreatestIsMaximum(data, Population);
  }

  /** Every income value of every country, in every year, lies inside the
      horizontal domain. */
  lemma IncomeWithinXDomain(data: seq<Country>, key: string, width: nat, i: int, j: int)
    requires 0 <= i < |data| && 0 <= j < |data[i].income|
    ensures Covers(ComputeScales(data, key, width).xDomain, data[i].income[j])
  {
    var s := ComputeScales(data, key, width);
    ScaleDomains(data, key, width);
    assert Series(data[i], Income) == data[i].income;
    assert s.xDomain.lo.Some? by {
      assert Series(data[i], Income) != [];
    }
  }

  /** Every value of the selected metric lies inside the vertical domain
      `[0, max]` as soon as it is not negative. */
  lemma MetricWithinYDomain(data: seq<Country>, key: string, width: nat, i: int, j: int)
    requires 0 <= i < |data| && 0 <= j < |Series(data[i], DomainMetric(key))|
    requires Series(data[i], DomainMetric(key))[j] >= 0
    ensures Covers(ComputeScales(data, key, width).yDomain, Series(data[i], DomainMetric(key))[j])
  {
    var s := ComputeScales(data, key, width);
    ScaleDomains(data, key, width);
    assert s.yDomain.hi.Some? by {
      assert Series(data[i], DomainMetric(key)) != [];
    }
  }

  /** Changing the selector changes the vertical domain only. */
  lemma SelectorMovesOnlyVerticalDomain(data: seq<Country>, key1: string, key2: string, width: nat)
    ensures ComputeScales(data, key1, width).(yDomain := Bounds(None, None))
         == ComputeScales(data, key2, width).(yDomain := Bounds(None, None))
  {
  }

  /** The first position of `x` in `xs`, as `Map.prototype.get` on d3's
      ordinal index. */
  function IndexOf(xs: seq<string>, x: string): (r: Option<nat>)
    ensures r.None? <==> x !in xs
    ensures r.Some? ==> r.value < |xs| && xs[r.value] == x && x !in xs[..r.value]
  {
    if xs == [] then None
    else if xs[0] == x then Some(0)
    else match IndexOf(xs[1..], x)
      case None => None
      case Some(k) =>
        assert xs[..k + 1] == [xs[0]] + xs[1..][..k];
        Some(k + 1)
  }

  /** The colour at position `k` of an ordinal range, which d3 cycles
      through when the domain is longer than the range. */
  function Cycle(colours: seq<string>, k: nat): (c: string)
    requires |colours| > 0
    ensures c in colours
    ensures k < |colours| ==> c == colours[k]
  {
    colours[k % |colours|]
  }

  /** The ordinal colour scale: a region of the domain gets the colour at its
      position (cycling through the range); a region outside the domain is
      left undefined here (d3 would append it to the domain). */
  function ColourOf(s: ScaleSet, region: string): (c: Option<string>)
    ensures c.Some? ==> c.value in s.colours
    ensures region !in s.regions ==> c.None?
  {
    match IndexOf(s.regions, region)
    case None => None
    case Some(k) => if |s.colours| == 0 then None else Some(Cycle(s.colours, k))
  }

  /** No region is listed twice, so each gets exactly one colour. */
  lemma RegionsDistinct()
    ensures forall a, b :: 0 <= a < b < |REGIONS| ==> REGIONS[a] != REGIONS[b]
  {
    assert REGIONS[0][1] == 's' && REGIONS[1][1] == 'm' && REGIONS[2][0] == 'e' && REGIONS[3][1] == 'f';
  }

  /** In a list without repetitions, the first position of an element is
      its only position. */
  lemma IndexOfDistinct(xs: seq<string>, k: int)
    requires 0 <= k < |xs|
    requires forall a, b :: 0 <= a < b < |xs| ==> xs[a] != xs[b]
    ensures IndexOf(xs, xs[k]) == Some(k)
  {
    var r := IndexOf(xs, xs[k]).value;
    assert forall j :: 0 <= j < r ==> xs[..r][j] == xs[j];
  }

  /** With as many colours as distinct regions, the region at position `k`
      gets the colour at position `k`. */
  lemma ColourAtPosition(s: ScaleSet, k: int)
    requires 0 <= k < |s.regions| == |s.colours|
    requires forall a, b :: 0 <= a < b < |s.regions| ==> s.regions[a] != s.regions[b]
    ensures ColourOf(s, s.regions[k]) == Some(s.colours[k])
  {
    IndexOfDistinct(s.regions, k);
  }

  /** In the chart's scales, each of the four known regions gets the colour
      listed at the same position. */
  lemma RegionColour(data: seq<Country>, key: string, width: nat, k: int)
    requires 0 <= k < |REGIONS|
    ensures ColourOf(ComputeScales(data, key, width), REGIONS[k]) == Some(PALETTE[k])
  {
    var s := ComputeScales(data, key, width);
    RegionsDistinct();
    ColourAtPosition(s, k);
  }
}
