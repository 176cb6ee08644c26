/**
 * The rules the panels share for turning rows of data into scale domains,
 * colours, tick labels and the text shown for a value.
 */
module Scales {
  import opened Base
  import opened JsValues
  import StrOrder

  // ---------------------------------------------------------------------------
  // Selecting rows

  /** The rows of one day. */
  function RowsOn(rows: seq<Row>, date: int): seq<Row> {
    Filter(rows, (x: Row) => x.date == date)
  }

  /** The rows of the selected countries. */
  function RowsOf(rows: seq<Row>, countries: seq<string>): seq<Row> {
    Filter(rows, InCountries(countries))
  }

  /** The test `d => countries.includes(d.countryname)`. */
  function InCountries(countries: seq<string>): Row -> bool {
    (x: Row) => x.country in countries
  }

  /** The rows of the selected countries on one day. */
  function RowsOfOn(rows: seq<Row>, countries: seq<string>, date: int): seq<Row> {
    Filter(rows, (x: Row) => x.country in countries && x.date == date)
  }

  /** `dataDict.filter(d => d.variable_name == name)[0]`: the first dictionary entry for an attribute. */
  function LookupMeta(dict: seq<VarMeta>, name: string): (r: Option<VarMeta>)
    ensures r.None? <==> forall i :: 0 <= i < |dict| ==> dict[i].variableName != name
    ensures r.Some? ==> exists i :: 0 <= i < |dict| && dict[i] == r.value && r.value.variableName == name
                          && forall k :: 0 <= k < i ==> dict[k].variableName != name
  {
    if dict == [] then None
    else if dict[0].variableName == name then Some(dict[0])
    else
      var r := LookupMeta(dict[1..], name);
      assert forall i :: 1 <= i < |dict| ==> dict[1..][i - 1] == dict[i];
      r
  }

  /** The country of each row. */
  function CountryColumn(rows: seq<Row>): (names: seq<string>)
    ensures |names| == |rows| && forall i :: 0 <= i < |rows| ==> names[i] == rows[i].country
  {
    seq(|rows|, i requires 0 <= i < |rows| => rows[i].country)
  }

  /**
   * The countries of some rows in order of first appearance, as
   * `d3.groups(rows, d => d.countryname)` keys them: each once, and of two
   * countries the one whose first row comes first comes first.
   */
  function CountriesOf(rows: seq<Row>): (r: seq<string>)
    ensures forall c :: c in r <==> c in CountryColumn(rows)
    ensures NoDup(r)
    ensures forall c :: c in r <==> exists i :: 0 <= i < |rows| && rows[i].country == c
    ensures forall i, j :: 0 <= i < j < |r| ==> IndexOf(CountryColumn(rows), r[i]) < IndexOf(CountryColumn(rows), r[j])
  {
    Distinct(CountryColumn(rows))
  }

  /** A text column's values, for a column whose every row holds text. */
  function TextColumn(rows: seq<Row>, col: string): (r: seq<string>)
    requires forall i :: 0 <= i < |rows| ==> Field(rows[i], col).Str?
    ensures |r| == |rows| && forall i :: 0 <= i < |rows| ==> Field(rows[i], col) == Str(r[i])
  {
    seq(|rows|, i requires 0 <= i < |rows| && Field(rows[i], col).Str? => Field(rows[i], col).s)
  }

  /** The column a panel plots: the numeric companion column for an ordinal attribute, else the attribute itself. */
  function PlottedColumn(m: VarMeta, selected: string): string {
    if IsOrdinal(m) then m.numericColumn else selected
  }

  // ---------------------------------------------------------------------------
  // Colour palettes

  datatype Scheme = YlGn | YlOrBr | Purples

  /** A d3 colour palette: a discrete scheme (`d3.schemeX`) or a continuous interpolator (`d3.interpolateX`). */
  datatype Palette = Palette(scheme: Scheme, discrete: bool)

  /**
   * The map's palette: greens when larger values are good, yellow-browns when
   * they are bad, purples otherwise; discrete for ordinal attributes.
   */
  function PaletteFor(m: VarMeta): (p: Palette)
    ensures p.discrete <==> IsOrdinal(m)
    ensures p.scheme == YlGn <==> m.largerIs == "good"
    ensures p.scheme == YlOrBr <==> m.largerIs == "bad"
    ensures p.scheme == Purples <==> m.largerIs != "good" && m.largerIs != "bad"
  {
    var discrete := IsOrdinal(m);
    if m.largerIs == "good" then Palette(YlGn, discrete)
    else if m.largerIs == "bad" then Palette(YlOrBr, discrete)
    else Palette(Purples, discrete)
  }

  /** The map's colour scale as the redraw builds it. */
  datatype ColorScale =
    | OrdinalColors(palette: Palette, categories: seq<string>)
    | QuantileColors(palette: Palette, samples: seq<Option<real>>)
    | SequentialColors(palette: Palette, max: real)

  /** `colorScale.domain().length`: a quantile scale keeps only the samples that are numbers. */
  function DomainSize(c: ColorScale): nat {
    match c
    case OrdinalColors(_, categories) => |categories|
    case QuantileColors(_, samples) => CountPresent(samples)
    case SequentialColors(_, _) => 2
  }

  function CountPresent(xs: seq<Option<real>>): nat {
    if xs == [] then 0 else (if xs[0].Some? then 1 else 0) + CountPresent(xs[1..])
  }

  /** A quantile colour sample: `v < 0 ? 0 : v`, where `NaN` stays `NaN`. */
  function QuantileSample(c: Cell): (r: Option<real>)
    ensures r.None? <==> IsNaN(c)
    ensures r.Some? ==> r.value >= 0.0
  {
    if Negative(c) then Some(0.0) else ToNumber(c)
  }

  // ---------------------------------------------------------------------------
  // Largest values (d3.max)

  /** How a panel reads a value before taking the maximum: `d => d[col]` or `d => (d[col] > 0 ? d[col] : 0)`. */
  datatype Accessor = AsStored | ZeroUnlessPositive

  /** The number `d3.max` sees for a cell; `None` when it skips the value (NaN, undefined). */
  function Read(c: Cell, acc: Accessor): (r: Option<real>)
    ensures acc == ZeroUnlessPositive ==> r.Some? && r.value >= 0.0
    ensures acc == AsStored ==> r == ToNumber(c)
  {
    match acc
    case AsStored => ToNumber(c)
    case ZeroUnlessPositive => Some(if Positive(c) then ToNumber(c).value else 0.0)
  }

  /** One column read through an accessor. */
  function Column(rows: seq<Row>, col: string, acc: Accessor): (xs: seq<Option<real>>)
    ensures |xs| == |rows|
    ensures forall i :: 0 <= i < |rows| ==> xs[i] == Read(Field(rows[i], col), acc)
  {
    seq(|rows|, i requires 0 <= i < |rows| => Read(Field(rows[i], col), acc))
  }

  /** `r` is what d3.max returns: the largest number present, or nothing when no number is present. */
  ghost predicate IsD3Max(r: Option<real>, xs: seq<Option<real>>) {
    && (r.None? <==> forall i :: 0 <= i < |xs| ==> xs[i].None?)
    && (r.Some? ==> r in xs && forall i :: 0 <= i < |xs| && xs[i].Some? ==> xs[i].value <= r.value)
  }

  /** d3.max, scanning left to right and replacing the running maximum by any larger number. */
  function D3Max(xs: seq<Option<real>>): (r: Option<real>)
    ensures IsD3Max(r, xs)
  {
    if xs == [] then None
    else
      var m := D3Max(xs[..|xs| - 1]);
      var x := xs[|xs| - 1];
      assert forall i :: 0 <= i < |xs| - 1 ==> xs[..|xs| - 1][i] == xs[i];
      if x.None? then m
      else if m.None? || m.value < x.value then x
      else m
  }

  /** The characterisation pins the maximum down. */
  lemma D3MaxUnique(r1: Option<real>, r2: Option<real>, xs: seq<Option<real>>)
    requires IsD3Max(r1, xs) && IsD3Max(r2, xs)
    ensures r1 == r2
  {
    if r1.Some? {
      assert r1.value <= r2.value && r2.value <= r1.value;
    }
  }

  /** Reading every value as `v > 0 ? v : 0` gives a maximum for any non-empty set of rows, and it is at least 0. */
  lemma ClampedMaxIsNonNegative(rows: seq<Row>, col: string)
    requires |rows| > 0
    ensures D3Max(Column(rows, col, ZeroUnlessPositive)).Some?
    ensures D3Max(Column(rows, col, ZeroUnlessPositive)).value >= 0.0
  {
    var xs := Column(rows, col, ZeroUnlessPositive);
    assert xs[0].Some?;
  }

  /**
   * The value axis of the bar chart. An ordinal attribute runs up to the
   * largest value of its numeric column over the whole dataset; an aggregate
   * index runs to 100 unless "scale to date" is on; anything else runs to the
   * largest value among the selected countries' rows, of the selected day when
   * "scale to date" is on and of every day otherwise.
   */
  function BarMax(m: VarMeta, scaleMaxToDate: bool, dayRows: seq<Row>, all: seq<Row>,
                  sel: seq<string>, acc: Accessor): (r: Option<real>)
    ensures IsOrdinal(m) ==> IsD3Max(r, Column(all, m.numericColumn, acc))
    ensures !IsOrdinal(m) && !scaleMaxToDate && IsAggregate(m) ==> r == Some(100.0)
    ensures !IsOrdinal(m) && (scaleMaxToDate || !IsAggregate(m)) ==>
      IsD3Max(r, Column(RowsOf(if scaleMaxToDate then dayRows else all, sel), m.variableName, acc))
  {
    if IsOrdinal(m) then D3Max(Column(all, m.numericColumn, acc))
    else if !scaleMaxToDate && IsAggregate(m) then Some(100.0)
    else
      var dataset := if scaleMaxToDate then dayRows else all;
      D3Max(Column(RowsOf(dataset, sel), m.variableName, acc))
  }

  /**
   * The value axis of the line chart and of the small line chart by the table:
   * an ordinal attribute runs up to the largest value of its numeric column over
   * the whole dataset, an aggregate index always to 100, anything else to the
   * largest value over all days of the selected countries.
   */
  function LineMax(m: VarMeta, all: seq<Row>, sel: seq<string>, acc: Accessor): (r: Option<real>)
    ensures IsOrdinal(m) ==> IsD3Max(r, Column(all, m.numericColumn, acc))
    ensures !IsOrdinal(m) && IsAggregate(m) ==> r == Some(100.0)
    ensures !IsOrdinal(m) && !IsAggregate(m) ==> IsD3Max(r, Column(RowsOf(all, sel), m.variableName, acc))
  {
    if IsOrdinal(m) then D3Max(Column(all, m.numericColumn, acc))
    else if IsAggregate(m) then Some(100.0)
    else D3Max(Column(RowsOf(all, sel), m.variableName, acc))
  }

  /**
   * One axis of the scatter plot, values read as `v > 0 ? v : 0`: an ordinal
   * attribute over the whole dataset, an aggregate index to 100, anything else
   * over the plotted rows only, so the axis follows the selected day.
   */
  function ScatterAxisMax(m: VarMeta, all: seq<Row>, plotted: seq<Row>): (r: Option<real>)
    ensures IsOrdinal(m) ==> (r.Some? <==> |all| > 0)
    ensures IsOrdinal(m) ==> IsD3Max(r, Column(all, m.numericColumn, ZeroUnlessPositive))
    ensures !IsOrdinal(m) && IsAggregate(m) ==> r == Some(100.0)
    ensures !IsOrdinal(m) && !IsAggregate(m) ==> IsD3Max(r, Column(plotted, m.variableName, ZeroUnlessPositive))
    ensures r.Some? ==> r.value >= 0.0
  {
    if IsOrdinal(m) then
      var xs := Column(all, m.numericColumn, ZeroUnlessPositive);
      assert |all| > 0 ==> xs[0].Some?;
      D3Max(xs)
    else if IsAggregate(m) then Some(100.0)
    else
      var xs := Column(plotted, m.variableName, ZeroUnlessPositive);
      assert |plotted| > 0 ==> xs[0].Some?;
      D3Max(xs)
  }

  // ---------------------------------------------------------------------------
  // Ordinal axes and legends

  /** The tick labels of an ordinal axis, tick `k` sitting at value `k / 2`. */
  const OrdinalLabels: seq<string> := ["0", "1-Local", "1-National", "2-Local", "2-National", "3-Local",
                                       "3-National", "4-Local", "4-National", "5-Local", "5-National"]

  function Ceil(x: real): (c: int)
    ensures c as real >= x && (c - 1) as real < x
  {
    if x.Floor as real == x then x.Floor else x.Floor + 1
  }

  /**
   * `d3.range(0, max + 0.5, 0.5)`: ticks every half unit from 0, the last one at
   * or past `max`. An undefined maximum gives no ticks.
   */
  function OrdinalTickValues(max: Option<real>): (ts: seq<real>)
    ensures max.None? ==> ts == []
    ensures forall i :: 0 <= i < |ts| ==> ts[i] == i as real / 2.0 && ts[i] < max.value + 0.5
    ensures max.Some? && max.value >= 0.0 ==> |ts| > 0 && ts[|ts| - 1] >= max.value
  {
    if max.None? then []
    else
      var n := Ceil(2.0 * max.value + 1.0);
      if n <= 0 then [] else seq(n, i => i as real / 2.0)
  }

  /** `ordinalValues[Math.floor(d * 2)]`; `None` past the end of the list (`undefined`). */
  function OrdinalTickLabel(d: real): Option<string> {
    var k := (d * 2.0).Floor;
    if 0 <= k < |OrdinalLabels| then Some(OrdinalLabels[k]) else None
  }

  /**
   * Each tick of an ordinal axis is labelled with the level it stands for, and
   * the labels run in the order the map's legend sorts them.
   */
  lemma OrdinalTicksLabelled(max: Option<real>)
    ensures forall i :: 0 <= i < |OrdinalTickValues(max)| && i < |OrdinalLabels| ==>
      OrdinalTickLabel(OrdinalTickValues(max)[i]) == Some(OrdinalLabels[i])
    ensures StrOrder.StrictlySorted(OrdinalLabels)
  {
    var ts := OrdinalTickValues(max);
    forall i | 0 <= i < |ts| && i < |OrdinalLabels|
      ensures OrdinalTickLabel(ts[i]) == Some(OrdinalLabels[i])
    {
      assert ts[i] * 2.0 == i as real;
    }
    LabelsSorted();
  }

  lemma LabelsSorted()
    ensures StrOrder.StrictlySorted(OrdinalLabels)
  {
    var L := OrdinalLabels;
    forall i | 0 <= i < |L| - 1
      ensures StrOrder.Less(L[i], L[i + 1])
    {
      assert L[i][0] < L[i + 1][0] || (L[i][0] == L[i + 1][0] && L[i][1..] == "-Local" && L[i + 1][1..] == "-National");
      if L[i][0] == L[i + 1][0] {
        assert StrOrder.Le("Local", "National");
        assert StrOrder.Le("-Local", "-National");
      }
    }
  }

  /** How an ordinal map legend names a value: `"NA"` (and, where `emptyIsZero`, the empty string) becomes `"0"`. */
  function OrdinalKey(s: string, emptyIsZero: bool): string {
    if s == "NA" || (emptyIsZero && s == "") then "0" else s
  }

  /**
   * `Array.from(new Set(values.map(key))).sort()`: the legend's categories,
   * each value's key exactly once, in string order.
   */
  function OrdinalLegend(values: seq<string>, emptyIsZero: bool): (r: seq<string>)
    ensures StrOrder.StrictlySorted(r)
    ensures forall y :: y in r <==> exists i :: 0 <= i < |values| && OrdinalKey(values[i], emptyIsZero) == y
    ensures emptyIsZero ==> "" !in r && "NA" !in r
  {
    var keys := seq(|values|, i requires 0 <= i < |values| => OrdinalKey(values[i], emptyIsZero));
    assert forall y :: y in keys <==> exists i :: 0 <= i < |values| && OrdinalKey(values[i], emptyIsZero) == y by {
      forall y | y in keys
        ensures exists i :: 0 <= i < |values| && OrdinalKey(values[i], emptyIsZero) == y
      {
        var i :| 0 <= i < |keys| && keys[i] == y;
        assert OrdinalKey(values[i], emptyIsZero) == y;
      }
      forall i | 0 <= i < |values|
        ensures OrdinalKey(values[i], emptyIsZero) in keys
      {
        assert keys[i] == OrdinalKey(values[i], emptyIsZero);
      }
    }
    StrOrder.SortDistinctIsStrict(keys);
    StrOrder.Sort(Distinct(keys))
  }

  // ---------------------------------------------------------------------------
  // Marks and text

  const NoData: string := "No data"

  /** What a tooltip or table cell shows for a value: some text, a number (rounded for display), or JavaScript's `undefined`. */
  datatype Shown = Text(s: string) | Number(v: real) | Absent

  /**
   * Text of the table cells and of the bar chart's and scatter plot's
   * tooltips: `NaN`, `"NA"` and the empty string read "No data".
   */
  function DataText(c: Cell): (r: Shown)
    ensures r == Text(NoData) <==> c.NaN? || c == Str("NA") || c == Str("") || c == Str(NoData)
    ensures c.Num? ==> r == Number(c.v)
    ensures c.Undefined? ==> r == Absent
    ensures r.Text? && r != Text(NoData) ==> c == Str(r.s)
  {
    if IsNumberType(c) then
      if IsNaN(c) then Text(NoData) else Number(c.v)
    else if IsText(c, "NA") || IsText(c, "") then Text(NoData)
    else if c.Str? then Text(c.s)
    else Absent
  }

  /**
   * Text of the map's tooltip and of the stand-alone bar chart's tooltip: only
   * `NaN` and `"NA"` read "No data"; an empty string shows as it is.
   */
  function NaText(c: Cell): (r: Shown)
    ensures r == Text(NoData) <==> c.NaN? || c == Str("NA") || c == Str(NoData)
    ensures c == Str("") ==> r == Text("")
    ensures c.Num? ==> r == Number(c.v)
    ensures c.Undefined? ==> r == Absent
  {
    if IsNumberType(c) then
      if IsNaN(c) then Text(NoData) else Number(c.v)
    else if IsText(c, "NA") then Text(NoData)
    else if c.Str? then Text(c.s)
    else Absent
  }

  /**
   * Length of a bar, written `isNaN(v) || v < 0 ? 0 : v` in the stand-alone
   * bar chart and `v > 0 ? v : 0` in the dashboard; the two agree.
   */
  function BarLength(c: Cell): (r: real)
    ensures r >= 0.0
    ensures Positive(c) ==> r == ToNumber(c).value
    ensures !Positive(c) ==> r == 0.0
  {
    if IsNaN(c) || Negative(c) then 0.0 else ToNumber(c).value
  }

  /**
   * The "No data" label beside a bar: shown for `NaN` and `"NA"`, and, where
   * `emptyIsNoData` (the combined dashboard), for the empty string too.
   */
  predicate BarShowsNoData(c: Cell, emptyIsNoData: bool) {
    IsNaN(c) || IsText(c, "NA") || (emptyIsNoData && IsText(c, ""))
  }

  /** A bar labelled "No data" has length 0. */
  lemma NoDataBarIsEmpty(c: Cell, emptyIsNoData: bool)
    requires BarShowsNoData(c, emptyIsNoData)
    ensures BarLength(c) == 0.0
  {
  }

  /** One bar of the bar chart: its country's band, its length in data units, and whether "No data" is written beside it. */
  datatype Bar = Bar(country: string, continent: string, length: real, noData: bool)

  /** The bars of the day's rows, one per row, read from column `col`. */
  function BarsOf(dayRows: seq<Row>, col: string, emptyIsNoData: bool): (bars: seq<Bar>)
    ensures |bars| == |dayRows|
    ensures forall i :: 0 <= i < |dayRows| ==>
      && bars[i].country == dayRows[i].country && bars[i].continent == dayRows[i].continent
      && bars[i].length == BarLength(Field(dayRows[i], col)) && bars[i].length >= 0.0
      && (bars[i].noData <==> BarShowsNoData(Field(dayRows[i], col), emptyIsNoData))
      && (bars[i].noData ==> bars[i].length == 0.0)
  {
    seq(|dayRows|, i requires 0 <= i < |dayRows| =>
      var c := Field(dayRows[i], col);
      Bar(dayRows[i].country, dayRows[i].continent, BarLength(c), BarShowsNoData(c, emptyIsNoData)))
  }

  /**
   * A point of a country's line: a gap where `isNaN` rejects the value, and
   * otherwise the value with negatives drawn at 0 (`v >= 0 ? v : 0`, which
   * the dashboard writes `v > 0 ? v : 0`).
   */
  function LinePoint(c: Cell): (r: Option<real>)
    ensures r.None? <==> IsNaN(c)
    ensures r.Some? ==> r.value == (if Positive(c) then ToNumber(c).value else 0.0)
  {
    if IsNaN(c) then None
    else if ToNumber(c).value >= 0.0 then ToNumber(c)
    else Some(0.0)
  }

  /** A scatter coordinate: `isNaN(v) ? 0 : v`; negative values are drawn as they are. */
  function ScatterCoordinate(c: Cell): (r: real)
    ensures IsNaN(c) ==> r == 0.0
    ensures !IsNaN(c) ==> Some(r) == ToNumber(c)
  {
    if IsNaN(c) then 0.0 else ToNumber(c).value
  }

  /** A dot of the scatter plot: its country and continent, its position in data units, and its tooltip's two values. */
  datatype Dot = Dot(country: string, continent: string, x: real, y: real, xText: Shown, yText: Shown)

  /**
   * The dots of the plotted rows: positions read from the plotted columns
   * (`NaN` drawn at 0), tooltip values from the selected attributes themselves.
   */
  function DotsOf(rows: seq<Row>, xCol: string, yCol: string, xAttr: string, yAttr: string): (dots: seq<Dot>)
    ensures |dots| == |rows|
    ensures forall i :: 0 <= i < |rows| ==>
      && dots[i].country == rows[i].country && dots[i].continent == rows[i].continent
      && dots[i].x == ScatterCoordinate(Field(rows[i], xCol)) && dots[i].y == ScatterCoordinate(Field(rows[i], yCol))
      && dots[i].xText == DataText(Field(rows[i], xAttr)) && dots[i].yText == DataText(Field(rows[i], yAttr))
  {
    seq(|rows|, i requires 0 <= i < |rows| =>
      var r := rows[i];
      Dot(r.country, r.continent, ScatterCoordinate(Field(r, xCol)), ScatterCoordinate(Field(r, yCol)),
          DataText(Field(r, xAttr)), DataText(Field(r, yAttr))))
  }

  /** A value whose tooltip reads "No data" is drawn on the axis, at 0. */
  lemma NoDataDotOnAxis(c: Cell)
    requires DataText(c) == Text(NoData)
    ensures ScatterCoordinate(c) == 0.0
  {
  }
}
