/** The attribute values `draw_countries` gives each country's circle and
    label (js/gapminder.js:135-163). */
module Marks {
  import opened Wrappers
  import opened Display
  import opened Dataset
  import opened Scales

  /** The numeric maps of d3's horizontal, vertical and radius scales for one
      `ScaleSet`; the library computes them, this model does not. */
  datatype Projection = Projection(x: int -> int, y: int -> int, r: int -> int)

  /** What `d[which_var][year_index]` evaluates to: a number, a value that is
      not a number (undefined or a string), or a TypeError because neither the
      record nor `Object.prototype` has such a property. */
  datatype Lookup = Number(v: int) | NotANumber | TypeError

  /** The numeric series a property name designates, if any. */
  function FieldNamed(key: string): (f: Option<Field>)
    ensures f == Some(Co2Emissions) <==> key == "co2_emissions"
    ensures f == Some(LifeExpectancy) <==> key == "life_expectancy"
    ensures f == Some(Income) <==> key == "income"
    ensures f == Some(Population) <==> key == "population"
  {
    if key == "income" then Some(Income)
    else if key == "life_expectancy" then Some(LifeExpectancy)
    else if key == "co2_emissions" then Some(Co2Emissions)
    else if key == "population" then Some(Population)
    else None
  }

  /** `s[idx]`: the value, or undefined outside the series. */
  function At(s: seq<int>, idx: int): Option<int>
  {
    if 0 <= idx < |s| then Some(s[idx]) else None
  }

  /** The properties every record inherits from `Object.prototype`; each is
      a function or an object, so indexing it with a year gives undefined. */
  const INHERITED: seq<string> := [
    "constructor", "__proto__", "hasOwnProperty", "isPrototypeOf",
    "propertyIsEnumerable", "toLocaleString", "toString", "valueOf",
    "__defineGetter__", "__defineSetter__", "__lookupGetter__", "__lookupSetter__"]

  /** `key` is one of `keys`. */
  predicate Listed(key: string, keys: seq<string>)
  {
    keys != [] && (keys[0] == key || Listed(key, keys[1..]))
  }

  lemma {:induction false} ListedIsMembership(key: string, keys: seq<string>)
    ensures Listed(key, keys) <==> key in keys
  {
    if keys != [] {
      ListedIsMembership(key, keys[1..]);
      assert keys == [keys[0]] + keys[1..];
    }
  }

  /** Indexing a property that is not present throws: every key other than
      the record's six properties and the inherited ones. */
  predicate Throws(key: string)
  {
    FieldNamed(key).None? && key != "name" && key != "region" && !Listed(key, INHERITED)
  }

  /** The selector's two options name numeric series, so drawing with
      either never throws. */
  lemma SelectorOptionsDraw()
    ensures !Throws("co2_emissions") && !Throws("life_expectancy")
  {
  }

  /** An inherited property is not a number: the draw completes and every
      circle goes to the fallback height. */
  lemma InheritedKeyDraws(data: seq<Country>, p: Projection, s: ScaleSet, key: string, idx: int, duration: nat)
    requires key in INHERITED
    ensures DrawCountries(data, p, s, key, idx, duration).Some?
    ensures forall i :: 0 <= i < |data| ==> DrawCountries(data, p, s, key, idx, duration).value[i].cy == s.yUnknown
  {
    ListedIsMembership(key, INHERITED);
  }

  /** `d[which_var][year_index]`, read directly from the record: unlike the
      vertical domain, no fallback to life expectancy. */
  function RenderedValue(c: Country, key: string, idx: int): (l: Lookup)
    ensures l.TypeError? <==> Throws(key)
    ensures key in INHERITED ==> l == NotANumber
    ensures l.Number? ==> FieldNamed(key).Some? && At(Series(c, FieldNamed(key).value), idx) == Some(l.v)
    // for the two metrics the selector offers, rendering reads the series the domain was taken from
    ensures key == "co2_emissions" || key == "life_expectancy" ==>
      l == (match At(Series(c, DomainMetric(key)), idx) case Some(v) => Number(v) case None => NotANumber)
  {
    ListedIsMembership(key, INHERITED);
    match FieldNamed(key)
    case Some(f) => (match At(Series(c, f), idx) case Some(v) => Number(v) case None => NotANumber)
    case None => if key == "name" || key == "region" || Listed(key, INHERITED) then NotANumber else TypeError
  }

  /** What one draw sets on a country's group: the fill and stroke colour,
      the circle's centre and radius (`None` for d3's undefined), the label's
      position and text, and the transition duration. */
  datatype Mark = Mark(
    name: string,
    colour: Option<string>,
    cx: Option<int>,
    cy: int,
    r: Option<int>,
    labelX: Option<int>,
    labelY: int,
    duration: nat)

  /** The vertical scale: a number goes through the projection, anything
      else to the scale's `unknown` position. */
  function ScaleY(p: Projection, s: ScaleSet, l: Lookup): int
    requires !l.TypeError?
  {
    if l.Number? then p.y(l.v) else s.yUnknown
  }

  /** A continuous scale applied to a possibly undefined value. */
  function Apply(f: int -> int, v: Option<int>): (r: Option<int>)
    ensures r.Some? <==> v.Some?
  {
    match v
    case Some(x) => Some(f(x))
    case None => None
  }

  function DrawCountry(c: Country, p: Projection, s: ScaleSet, key: string, idx: int, duration: nat): (m: Mark)
    requires !Throws(key)
    // the label starts SPACING pixels right of the circle's right edge, 5 pixels below its centre
    ensures m.labelX.Some? <==> m.cx.Some? && m.r.Some?
    ensures m.labelX.Some? ==> m.labelX.value == m.cx.value + m.r.value + SPACING
    ensures m.labelY == m.cy + 5
    // position and size are the scales applied to this year's values
    ensures m.cx == Apply(p.x, At(c.income, idx)) && m.r == Apply(p.r, At(c.population, idx))
    ensures m.cy == ScaleY(p, s, RenderedValue(c, key, idx))
    // a year outside the selected series puts the circle at the fallback height
    ensures RenderedValue(c, key, idx).NotANumber? ==> m.cy == s.yUnknown
    ensures m.colour == ColourOf(s, c.region) && m.name == c.name && m.duration == duration
  {
    var cx := Apply(p.x, At(c.income, idx));
    var r := Apply(p.r, At(c.population, idx));
    var cy := ScaleY(p, s, RenderedValue(c, key, idx));
    var labelX := if cx.Some? && r.Some? then Some(cx.value + r.value + SPACING) else None;
    Mark(c.name, ColourOf(s, c.region), cx, cy, r, labelX, cy + 5, duration)
  }

  /** One draw of every country, in data order; `None` when indexing the
      selected property throws (which needs at least one country). */
  function DrawCountries(data: seq<Country>, p: Projection, s: ScaleSet, key: string, idx: int, duration: nat)
    : (ms: Option<seq<Mark>>)
    ensures ms.None? <==> |data| > 0 && Throws(key)
    ensures ms.Some? ==> |ms.value| == |data|
    ensures ms.Some? ==> forall i :: 0 <= i < |data| ==> ms.value[i] == DrawCountry(data[i], p, s, key, idx, duration)
  {
    if |data| > 0 && Throws(key) then None
    else Some(seq(|data|, i requires 0 <= i < |data| => DrawCountry(data[i], p, s, key, idx, duration)))
  }
}
