/**
 * The stand-alone line chart and table page: one labelled line per selected
 * country over time, and a table of the selected countries' latest values for
 * the attributes of one category.
 */
module Viz2 {
  import opened Base
  import opened JsValues
  import opened Scales
  import Selection
  import Menus
  import LineFocus
  import Tables

  /** Height of a line's end label, in data units: the country's last value, drawn at 0 unless positive. */
  function LabelLevel(rows: seq<Row>, col: string, country: string): (level: real)
    requires country in CountriesOf(rows)
    ensures var group := LineFocus.RowsOfCountry(rows, country);
      |group| > 0 && level == BarLength(Field(group[|group| - 1], col)) && level >= 0.0
  {
    var group := LineFocus.RowsOfCountry(rows, country);
    LineFocus.CountryHasRows(rows, country);
    BarLength(Field(group[|group| - 1], col))
  }

  /** The end labels of the lines, in the lines' order. */
  function LabelLevels(rows: seq<Row>, col: string): (levels: seq<real>)
    ensures |levels| == |CountriesOf(rows)|
    ensures forall i :: 0 <= i < |levels| ==> levels[i] == LabelLevel(rows, col, CountriesOf(rows)[i])
  {
    var countries := CountriesOf(rows);
    seq(|countries|, i requires 0 <= i < |countries| => LabelLevel(rows, col, countries[i]))
  }

  /** What a redraw leaves in the chart. */
  datatype ChartView = ChartView(lines: seq<LineFocus.Line>, labels: seq<real>, max: Option<real>, ordinalTicks: seq<real>)

  /**
   * The attribute menu after a category is chosen holds the category's
   * attributes in dictionary order, and its first option is the one read
   * back: the first entry of the category, or none when the menu is empty.
   */
  function FirstOfCategory(dict: seq<VarMeta>, category: string): (r: Option<string>)
    ensures r.None? <==> forall a :: a in dict ==> a.category != category
    ensures r.Some? ==> exists i :: 0 <= i < |dict| && dict[i].category == category && dict[i].variableName == r.value &&
                                    forall j :: 0 <= j < i ==> dict[j].category != category
  {
    var options := Tables.CategoryAttributes(dict, category);
    if |options| == 0 then None
    else
      FilterFirst(dict, InCategory(category));
      Some(options[0].variableName)
  }

  /** The page's state: the selection, the category and attribute chosen, and the table, once drawn. */
  class TablePage {
    var selectedCountries: seq<string>
    var selectedCategory: string
    var selectedAttribute: string
    var table: Option<Tables.Table>

    ghost predicate Valid()
      reads this
    {
      NoDup(selectedCountries)
    }

    /** Page load: nothing selected, the first category, its first attribute, no table yet. */
    constructor(dict: seq<VarMeta>)
      requires Menus.FirstListed(dict).Some?
      ensures Valid()
      ensures selectedCountries == [] && table == None
      ensures selectedCategory == Menus.FirstListed(dict).value.category
      ensures Some(selectedAttribute) == FirstOfCategory(dict, selectedCategory)
    {
      selectedCountries := [];
      Menus.FirstCategoryIsFirstAttributes(dict);
      var category := Menus.MenuCategories(dict)[0];
      selectedCategory := category;
      assert Menus.FirstListed(dict).value in dict;
      selectedAttribute := FirstOfCategory(dict, category).value;
      table := None;
    }

    /** The country list's change: kept countries keep their place, new ones follow in list order. */
    method CountriesChange(checked: seq<string>)
      modifies this`selectedCountries
      requires Valid() && NoDup(checked)
      ensures Valid()
      ensures selectedCountries == Selection.MergeChecked(old(selectedCountries), checked)
    {
      ghost var merged := Selection.MergeChecked(selectedCountries, checked);
      selectedCountries := KeepIn(selectedCountries, checked);
      var added := DropIn(checked, selectedCountries);
      selectedCountries := selectedCountries + added;
      Selection.DropInSameMembers(checked, KeepIn(old(selectedCountries), checked), old(selectedCountries));
      assert selectedCountries == merged;
    }

    /**
     * Choosing a category refills the attribute menu with its attributes and
     * selects the first. Reading the value of an empty menu raises, after the
     * category is stored and before the attribute is, and the page is not redrawn.
     */
    method CategoryChange(dict: seq<VarMeta>, category: string) returns (raised: bool)
      modifies this`selectedCategory, this`selectedAttribute
      ensures selectedCategory == category
      ensures raised <==> FirstOfCategory(dict, category).None?
      ensures raised ==> selectedAttribute == old(selectedAttribute)
      ensures !raised ==> Some(selectedAttribute) == FirstOfCategory(dict, category)
    {
      selectedCategory := category;
      var options := Tables.CategoryAttributes(dict, category);
      if |options| == 0 {
        return true;
      }
      selectedAttribute := options[0].variableName;
      return false;
    }

    method AttributeChange(attribute: string)
      modifies this`selectedAttribute
      ensures selectedAttribute == attribute
    {
      selectedAttribute := attribute;
    }

    /**
     * Redraws the page: one line per selected country with data, labelled at
     * its last value, the value axis from `LineMax` on the values as stored;
     * then, unless the selected countries have no rows at all, the table is
     * rebuilt from their rows of the dataset's latest day.
     */
    method Redraw(data: seq<Row>, dict: seq<VarMeta>, continentColor: string -> string) returns (view: ChartView)
      modifies this`table
      requires LookupMeta(dict, selectedAttribute).Some?
      ensures var attr := selectedAttribute;
        var m := LookupMeta(dict, attr).value;
        var rows := RowsOf(data, selectedCountries);
        && view.lines == LineFocus.LinesOf(rows, PlottedColumn(m, attr), LineFocus.NoneClicked, continentColor)
        && view.labels == LabelLevels(rows, PlottedColumn(m, attr))
        && view.max == LineMax(m, data, selectedCountries, AsStored)
        && view.ordinalTicks == (if IsOrdinal(m) then OrdinalTickValues(view.max) else [])
        && (|rows| == 0 ==> table == old(table))
        && (|rows| > 0 ==>
          var latest := RowsOn(rows, Tables.LatestDate(data));
          var cats := Tables.CategoryAttributes(dict, selectedCategory);
          && table.Some?
          && table.value.header == ["Attribute"] + selectedCountries
          && table.value.width == 200 + 125 * |selectedCountries|
          && |table.value.body| == |cats|
          && forall i :: 0 <= i < |cats| ==>
               && table.value.body[i].title == cats[i].displayName
               && (table.value.body[i].selected <==> cats[i].variableName == attr)
               && |table.value.body[i].cells| == |selectedCountries|
               && forall j :: 0 <= j < |selectedCountries| ==>
                    table.value.body[i].cells[j] == Tables.CellFor(latest, cats[i].variableName, selectedCountries[j]))
    {
      var attr := selectedAttribute;
      var rows := RowsOf(data, selectedCountries);
      var m := LookupMeta(dict, attr).value;
      var col := PlottedColumn(m, attr);
      var max := LineMax(m, data, selectedCountries, AsStored);
      var ticks := if IsOrdinal(m) then OrdinalTickValues(max) else [];
      view := ChartView(LineFocus.LinesOf(rows, col, LineFocus.NoneClicked, continentColor), LabelLevels(rows, col), max, ticks);
      if |rows| == 0 {
        return;
      }
      assert rows[0] in data;
      var latest := RowsOn(rows, Tables.LatestDate(data));
      var t := Tables.BuildTable(latest, dict, selectedCountries, attr, selectedCategory);
      table := Some(t);
    }
  }

  /** Every line of the chart is a continent colour: this page has no focus to grey the others. */
  lemma NoLineIsGreyed(rows: seq<Row>, col: string, continentColor: string -> string, i: int)
    requires 0 <= i < |CountriesOf(rows)|
    ensures var lines := LineFocus.LinesOf(rows, col, LineFocus.NoneClicked, continentColor);
      var group := LineFocus.RowsOfCountry(rows, lines[i].country);
      lines[i].stroke == continentColor(group[0].continent)
  {
  }
}
