/**
 * The stand-alone map page: a choropleth of one attribute on the selected day,
 * where clicking countries builds the selection the other pages chart.
 */
module Viz1a {
  import opened Base
  import opened JsValues
  import opened Scales
  import Selection
  import DisplayFlags
  import Menus
  import VizAll

  /**
   * Upper end of the continuous colour scale: 100 for an aggregate index unless
   * "scale to date" is on; otherwise the largest value d3.max finds on the
   * selected day (scaled to date) or on any day, and 0 only when it finds none.
   * Unlike the combined dashboard, a negative maximum is kept.
   */
  function ColorMax(m: VarMeta, scaleMaxToDate: bool, dayRows: seq<Row>, all: seq<Row>): (r: real)
    ensures !scaleMaxToDate && IsAggregate(m) ==> r == 100.0
    ensures scaleMaxToDate || !IsAggregate(m) ==>
      var xs := Column(if scaleMaxToDate then dayRows else all, m.variableName, AsStored);
      && (forall i :: 0 <= i < |xs| && xs[i].Some? ==> xs[i].value <= r)
      && (Some(r) in xs || (r == 0.0 && forall i :: 0 <= i < |xs| ==> xs[i].None?))
  {
    if !scaleMaxToDate && IsAggregate(m) then 100.0
    else
      var maxValue := D3Max(Column(if scaleMaxToDate then dayRows else all, m.variableName, AsStored));
      if maxValue.None? then 0.0 else maxValue.value
  }

  /** Where the day's largest value is not negative, the map page and the dashboard use the same colour range. */
  lemma ColorMaxAgreesWithDashboard(m: VarMeta, scaleMaxToDate: bool, dayRows: seq<Row>, all: seq<Row>)
    requires ColorMax(m, scaleMaxToDate, dayRows, all) >= 0.0
    ensures ColorMax(m, scaleMaxToDate, dayRows, all) == VizAll.MapColorMax(m, scaleMaxToDate, dayRows, all)
  {
  }

  /** The colour scale: the ordinal legend (only `"NA"` counted as `"0"`), the day's values for quantiles, or 0 to `ColorMax`. */
  function MapColors(m: VarMeta, f: DisplayFlags.Flags, dayRows: seq<Row>, all: seq<Row>): (c: ColorScale)
    requires IsOrdinal(m) ==> forall i :: 0 <= i < |all| ==> Field(all[i], m.variableName).Str?
    ensures c.palette == PaletteFor(m)
    ensures IsOrdinal(m) ==>
      && c.OrdinalColors? && StrOrder.StrictlySorted(c.categories)
      && forall i :: 0 <= i < |all| ==> OrdinalKey(Field(all[i], m.variableName).s, false) in c.categories
    ensures !IsOrdinal(m) && f.quantileColor ==>
      && c.QuantileColors? && |c.samples| == |dayRows|
      && forall i :: 0 <= i < |dayRows| ==> c.samples[i] == QuantileSample(Field(dayRows[i], m.variableName))
    ensures !IsOrdinal(m) && !f.quantileColor ==> c == SequentialColors(PaletteFor(m), ColorMax(m, f.scaleMaxToDate, dayRows, all))
  {
    var palette := PaletteFor(m);
    if IsOrdinal(m) then
      var texts := TextColumn(all, m.variableName);
      var legend := OrdinalLegend(texts, false);
      assert forall i :: 0 <= i < |all| ==> OrdinalKey(texts[i], false) in legend;
      OrdinalColors(palette, legend)
    else if f.quantileColor then
      QuantileColors(palette, seq(|dayRows|, i requires 0 <= i < |dayRows| => QuantileSample(Field(dayRows[i], m.variableName))))
    else
      SequentialColors(palette, ColorMax(m, f.scaleMaxToDate, dayRows, all))
  }

  /**
   * The value a country's fill is looked up with: for an ordinal attribute the
   * text with `"NA"` read as `"0"`; otherwise the value, with anything not a
   * number or below 0 read as 0.
   */
  function FillValue(m: VarMeta, c: Cell): (r: Cell)
    ensures IsOrdinal(m) && c.Str? ==> r == Str(OrdinalKey(c.s, false))
    ensures !IsOrdinal(m) ==> ToNumber(r).Some? && ToNumber(r).value >= 0.0
    ensures !IsOrdinal(m) && !IsNaN(c) && !Negative(c) ==> r == c
  {
    if IsOrdinal(m) then
      if IsText(c, "NA") then Str("0") else c
    else if IsNaN(c) || Negative(c) then Num(0.0)
    else c
  }

  /** For a numeric attribute the map page colours a country by the same number the dashboard does. */
  lemma FillAgreesWithDashboard(m: VarMeta, c: Cell)
    requires !IsOrdinal(m)
    ensures ToNumber(FillValue(m, c)) == Some(BarLength(c))
  {
  }

  /** The map's tooltip value: "No data" for a number that is NaN and for `"NA"`, the value itself otherwise. */
  function TooltipValue(c: Cell): (r: Shown)
    ensures r == Text(NoData) <==> c.NaN? || IsText(c, "NA") || IsText(c, NoData)
    ensures c.Num? ==> r == Number(c.v)
    ensures c.Str? && c.s != "NA" ==> r == Text(c.s)
  {
    if (IsNumberType(c) && IsNaN(c)) || IsText(c, "NA") then Text(NoData)
    else NaText(c)
  }

  datatype MapView = MapView(colors: ColorScale, checkboxesShown: bool)

  /** The map page's state: the country selection, the two colour options and the attribute shown. */
  class MapPage {
    var selectedCountries: seq<string>
    var scaleMaxToDate: bool
    var quantileColor: bool
    var selectedAttribute: string

    function Flags(): DisplayFlags.Flags
      reads this
    {
      DisplayFlags.Flags(scaleMaxToDate, quantileColor)
    }

    ghost predicate Valid()
      reads this
    {
      NoDup(selectedCountries)
    }

    /** Page load: nothing selected, the options as the checkboxes stand, the first offered attribute. */
    constructor(dict: seq<VarMeta>, scaleBox: bool, quantileBox: bool)
      requires Menus.FirstListed(dict).Some?
      ensures Valid()
      ensures selectedCountries == [] && scaleMaxToDate == scaleBox && quantileColor == quantileBox
      ensures selectedAttribute == Menus.FirstListed(dict).value.variableName
    {
      selectedCountries := [];
      scaleMaxToDate := scaleBox;
      quantileColor := quantileBox;
      selectedAttribute := Menus.FirstListed(dict).value.variableName;
    }

    /** A click on a country: the same selection rule as the dashboard; no other page is redrawn. */
    method MapClick(country: string, ctrl: bool)
      modifies this`selectedCountries
      requires Valid()
      ensures Valid()
      ensures selectedCountries == Selection.MapClick(old(selectedCountries), country, ctrl)
    {
      if ctrl {
        if country !in selectedCountries {
          selectedCountries := selectedCountries + [country];
        } else {
          selectedCountries := Without(selectedCountries, country);
        }
      } else if |selectedCountries| > 0 {
        var includedCountry := country in selectedCountries;
        selectedCountries := [];
        if !includedCountry {
          selectedCountries := selectedCountries + [country];
        }
      } else {
        selectedCountries := selectedCountries + [country];
      }
    }

    /** A click on the map's background clears the selection unless the control key is down. */
    method BackgroundClick(ctrl: bool)
      modifies this`selectedCountries
      requires Valid()
      ensures Valid()
      ensures selectedCountries == if ctrl then old(selectedCountries) else []
    {
      if !ctrl {
        selectedCountries := [];
      }
    }

    method ScaleBoxClick(checked: bool)
      modifies this`scaleMaxToDate, this`quantileColor
      ensures Flags() == DisplayFlags.Step(old(Flags()), DisplayFlags.ScaleBoxClicked(checked))
    {
      scaleMaxToDate := checked;
      if quantileColor {
        quantileColor := false;
      }
    }

    method QuantileBoxClick(checked: bool)
      modifies this`scaleMaxToDate, this`quantileColor
      ensures Flags() == DisplayFlags.Step(old(Flags()), DisplayFlags.QuantileBoxClicked(checked))
    {
      quantileColor := checked;
      if scaleMaxToDate {
        scaleMaxToDate := false;
      }
    }

    method AttributeChange(attribute: string)
      modifies this`selectedAttribute
      ensures selectedAttribute == attribute
    {
      selectedAttribute := attribute;
    }

    /** Redraws the map: an ordinal attribute turns both options off and hides their checkboxes. */
    method Redraw(data: seq<Row>, dict: seq<VarMeta>, date: int) returns (view: MapView)
      modifies this`scaleMaxToDate, this`quantileColor
      requires LookupMeta(dict, selectedAttribute).Some?
      requires IsOrdinal(LookupMeta(dict, selectedAttribute).value) ==>
        forall i :: 0 <= i < |data| ==> Field(data[i], selectedAttribute).Str?
      ensures var m := LookupMeta(dict, selectedAttribute).value;
        && Flags() == DisplayFlags.Step(old(Flags()), DisplayFlags.MapDrawn(IsOrdinal(m)))
        && view == MapView(MapColors(m, Flags(), RowsOn(data, date), data), !IsOrdinal(m))
    {
      var dayRows := RowsOn(data, date);
      var m := LookupMeta(dict, selectedAttribute).value;
      if IsOrdinal(m) {
        quantileColor := false;
        scaleMaxToDate := false;
      }
      view := MapView(MapColors(m, Flags(), dayRows, data), !IsOrdinal(m));
    }
  }
}
