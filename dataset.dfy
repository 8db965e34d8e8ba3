/** The records the chart is drawn from, and the flattening and extremum
    functions that the scale domains are built with. */
module Dataset {
  import opened Wrappers

  /** One country: its name, its region and one value per year of each series
      (index 0 is the first year of the slider). */
  datatype Country = Country(
    name: string,
    region: string,
    income: seq<int>,
    lifeExpectancy: seq<int>,
    co2Emissions: seq<int>,
    population: seq<int>)

  /** The numeric series a country record carries. */
  datatype Field = Income | LifeExpectancy | Co2Emissions | Population

  function Series(c: Country, f: Field): seq<int>
  {
    match f
    case Income => c.income
    case LifeExpectancy => c.lifeExpectancy
    case Co2Emissions => c.co2Emissions
    case Population => c.population
  }

  /** `d3.max`: the largest value, or undefined for an empty input. */
  function MaxOf(s: seq<int>): Option<int>
  {
    if s == [] then None
    else
      match MaxOf(s[1..])
      case None => Some(s[0])
      case Some(rest) => Some(if s[0] > rest then s[0] else rest)
  }

  /** The maximum is undefined exactly for the empty input, and otherwise is
      an element no element exceeds. */
  lemma {:induction false} MaxOfIsMaximum(s: seq<int>)
    ensures MaxOf(s).None? <==> s == []
    ensures MaxOf(s).Some? ==> MaxOf(s).value in s && forall k :: 0 <= k < |s| ==> s[k] <= MaxOf(s).value
  {
    if s != [] {
      MaxOfIsMaximum(s[1..]);
      forall k | 0 < k < |s| ensures s[k] in s[1..] {
        assert s[k] == s[1..][k - 1];
      }
    }
  }

  /** `d3.min`: the smallest value, or undefined for an empty input. */
  function MinOf(s: seq<int>): Option<int>
  {
    if s == [] then None
    else
      match MinOf(s[1..])
      case None => Some(s[0])
      case Some(rest) => Some(if s[0] < rest then s[0] else rest)
  }

  /** The minimum is undefined exactly for the empty input, and otherwise is
      an element no element is below. */
  lemma {:induction false} MinOfIsMinimum(s: seq<int>)
    ensures MinOf(s).None? <==> s == []
    ensures MinOf(s).Some? ==> MinOf(s).value in s && forall k :: 0 <= k < |s| ==> MinOf(s).value <= s[k]
  {
    if s != [] {
      MinOfIsMinimum(s[1..]);
      forall k | 0 < k < |s| ensures s[k] in s[1..] {
        assert s[k] == s[1..][k - 1];
      }
    }
  }

  /** Some country has at least one value in the series `f`. */
  ghost predicate HasValues(data: seq<Country>, f: Field)
  {
    exists i :: 0 <= i < |data| && Series(data[i], f) != []
  }

  /** `v` is a value of the series `f` of some country in some year. */
  ghost predicate Occurs(data: seq<Country>, f: Field, v: int)
  {
    exists i, j :: 0 <= i < |data| && 0 <= j < |Series(data[i], f)| && Series(data[i], f)[j] == v
  }

  ghost predicate IsGreatest(data: seq<Country>, f: Field, m: int)
  {
    && Occurs(data, f, m)
    && forall i, j :: 0 <= i < |data| && 0 <= j < |Series(data[i], f)| ==> Series(data[i], f)[j] <= m
  }

  ghost predicate IsLeast(data: seq<Country>, f: Field, m: int)
  {
    && Occurs(data, f, m)
    && forall i, j :: 0 <= i < |data| && 0 <= j < |Series(data[i], f)| ==> m <= Series(data[i], f)[j]
  }

  /** `data.map(d => d.<field>).flat()`: the series of every country,
      concatenated in data order. */
  function Values(data: seq<Country>, f: Field): seq<int>
  {
    if data == [] then [] else Series(data[0], f) + Values(data[1..], f)
  }

  /** A value is in the flattened series exactly when it sits at some
      position of the series of some country. */
  lemma {:induction false} ValueOccurs(data: seq<Country>, f: Field, v: int)
    ensures v in Values(data, f) <==> Occurs(data, f, v)
  {
    if data != [] {
      var rest := data[1..];
      ValueOccurs(rest, f, v);
      if Occurs(rest, f, v) {
        var i, j :| 0 <= i < |rest| && 0 <= j < |Series(rest[i], f)| && Series(rest[i], f)[j] == v;
        assert Series(data[i + 1], f)[j] == v;
      }
      if v in Series(data[0], f) {
        var j :| 0 <= j < |Series(data[0], f)| && Series(data[0], f)[j] == v;
        assert Series(data[0], f)[j] == v;
      }
      if Occurs(data, f, v) {
        var i, j :| 0 <= i < |data| && 0 <= j < |Series(data[i], f)| && Series(data[i], f)[j] == v;
        if i > 0 {
          assert Series(rest[i - 1], f)[j] == v;
        }
      }
    }
  }

  /** The flattened series hold every value of the series `f` of every
      country, and nothing else; they are empty exactly when no country has
      a value. */
  lemma ValuesAreOccurrences(data: seq<Country>, f: Field)
    ensures forall v :: v in Values(data, f) <==> Occurs(data, f, v)
    ensures Values(data, f) == [] <==> !HasValues(data, f)
  {
    forall v ensures v in Values(data, f) <==> Occurs(data, f, v) {
      ValueOccurs(data, f, v);
    }
    if HasValues(data, f) {
      var i :| 0 <= i < |data| && Series(data[i], f) != [];
      assert Occurs(data, f, Series(data[i], f)[0]);
    }
    if Values(data, f) != [] {
      assert Occurs(data, f, Values(data, f)[0]);
    }
  }

  /** `d3.max(data.map(d => d.<field>).flat())`. */
  function Greatest(data: seq<Country>, f: Field): Option<int>
  {
    MaxOf(Values(data, f))
  }

  /** `d3.min(data.map(d => d.<field>).flat())`. */
  function Least(data: seq<Country>, f: Field): Option<int>
  {
    MinOf(Values(data, f))
  }

  /** The maximum is undefined exactly when there is no value, and otherwise
      is a value no other value exceeds. */
  lemma GreatestIsMaximum(data: seq<Country>, f: Field)
    ensures Greatest(data, f).None? <==> !HasValues(data, f)
    ensures Greatest(data, f).Some? ==> IsGreatest(data, f, Greatest(data, f).value)
  {
    var s := Values(data, f);
    ValuesAreOccurrences(data, f);
    MaxOfIsMaximum(s);
    if s != [] {
      var m := MaxOf(s).value;
      forall i, j | 0 <= i < |data| && 0 <= j < |Series(data[i], f)|
        ensures Series(data[i], f)[j] <= m
      {
        assert Occurs(data, f, Series(data[i], f)[j]);
        var k :| 0 <= k < |s| && s[k] == Series(data[i], f)[j];
      }
    }
  }

  /** The minimum is undefined exactly when there is no value, and otherwise
      is a value no other value is below. */
  lemma LeastIsMinimum(data: seq<Country>, f: Field)
    ensures Least(data, f).None? <==> !HasValues(data, f)
    ensures Least(data, f).Some? ==> IsLeast(data, f, Least(data, f).value)
  {
    var s := Values(data, f);
    ValuesAreOccurrences(data, f);
    MinOfIsMinimum(s);
    if s != [] {
      var m := MinOf(s).value;
      forall i, j | 0 <= i < |data| && 0 <= j < |Series(data[i], f)|
        ensures m <= Series(data[i], f)[j]
      {
        assert Occurs(data, f, Series(data[i], f)[j]);
        var k :| 0 <= k < |s| && s[k] == Series(data[i], f)[j];
      }
    }
  }
}
