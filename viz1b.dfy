/**
 * The stand-alone bar chart page: one bar per selected country on the selected
 * day, with the countries chosen in a multi-select list.
 */
module Viz1b {
  import opened Base
  import opened JsValues
  import opened Scales
  import Selection
  import Menus

  /** What a redraw leaves on screen. */
  datatype BarView = BarView(countries: seq<string>, bars: seq<Bar>, max: Option<real>, ordinalTicks: seq<real>,
                             axesShown: bool)

  /** The bar page's state: the selection in the order it was made, the attribute, and the scale option. */
  class BarPage {
    var selectedCountries: seq<string>
    var selectedAttribute: string
    /** Never changed on this page: it has no checkbox for it. */
    const scaleMaxToDate: bool

    ghost predicate Valid()
      reads this
    {
      NoDup(selectedCountries)
    }

    /** Page load: nothing selected, the first offered attribute, the scale taken over every day. */
    constructor(dict: seq<VarMeta>)
      requires Menus.FirstListed(dict).Some?
      ensures Valid()
      ensures selectedCountries == [] && !scaleMaxToDate
      ensures selectedAttribute == Menus.FirstListed(dict).value.variableName
    {
      selectedCountries := [];
      scaleMaxToDate := false;
      selectedAttribute := Menus.FirstListed(dict).value.variableName;
    }

    /**
     * The country list's change: the countries still checked keep their place,
     * newly checked ones follow in list order.
     */
    method CountriesChange(checked: seq<string>)
      modifies this`selectedCountries
      requires Valid() && NoDup(checked)
      ensures Valid()
      ensures selectedCountries == Selection.MergeChecked(old(selectedCountries), checked)
      ensures forall c :: c in selectedCountries <==> c in checked
    {
      ghost var merged := Selection.MergeChecked(selectedCountries, checked);
      selectedCountries := KeepIn(selectedCountries, checked);
      var added := DropIn(checked, selectedCountries);
      selectedCountries := selectedCountries + added;
      Selection.DropInSameMembers(checked, KeepIn(old(selectedCountries), checked), old(selectedCountries));
      assert selectedCountries == merged;
    }

    method AttributeChange(attribute: string)
      modifies this`selectedAttribute
      ensures selectedAttribute == attribute
    {
      selectedAttribute := attribute;
    }

    /**
     * Redraws the chart for the selected day: the selected countries down the
     * side in selection order; one bar per selected country's row that day,
     * values below 0 or not numbers drawn as 0, "No data" beside `NaN` and
     * `"NA"`; the value axis from `BarMax` on the values as stored; the axes
     * hidden when no selected country has a row that day.
     */
    method Redraw(data: seq<Row>, dict: seq<VarMeta>, date: int) returns (view: BarView)
      requires LookupMeta(dict, selectedAttribute).Some?
      ensures var m := LookupMeta(dict, selectedAttribute).value;
        var dayRows := RowsOfOn(data, selectedCountries, date);
        && view.countries == selectedCountries
        && view.bars == BarsOf(dayRows, PlottedColumn(m, selectedAttribute), false)
        && view.max == BarMax(m, scaleMaxToDate, dayRows, data, selectedCountries, AsStored)
        && view.ordinalTicks == (if IsOrdinal(m) then OrdinalTickValues(view.max) else [])
        && (view.axesShown <==> |dayRows| > 0)
    {
      var sel := selectedCountries;
      var dayRows := RowsOfOn(data, sel, date);
      var m := LookupMeta(dict, selectedAttribute).value;
      var max := BarMax(m, scaleMaxToDate, dayRows, data, sel, AsStored);
      var ticks := if IsOrdinal(m) then OrdinalTickValues(max) else [];
      view := BarView(sel, BarsOf(dayRows, PlottedColumn(m, selectedAttribute), false), max, ticks, |dayRows| != 0);
    }
  }

  /** Every bar drawn belongs to a selected country, so it falls in one of the chart's bands. */
  lemma BarsAreInBands(data: seq<Row>, sel: seq<string>, date: int, col: string)
    ensures forall b :: b in BarsOf(RowsOfOn(data, sel, date), col, false) ==> b.country in sel
  {
    var rows := RowsOfOn(data, sel, date);
    var bars := BarsOf(rows, col, false);
    forall b | b in bars ensures b.country in sel {
      var i :| 0 <= i < |bars| && bars[i] == b;
      assert rows[i] in rows;
    }
  }
}
