/**
 * The combined dashboard: the map, bar chart and line chart sharing one
 * country selection and one date slider, the table of latest values, and the
 * scatter plot with its own date slider.
 */
module VizAll {
  import opened Base
  import opened JsValues
  import opened Scales
  import Selection
  import DisplayFlags
  import LineFocus
  import Tables
  import Menus

  /** The panels a handler redraws, in the order it calls them. */
  datatype Panel = MapPanel | BarPanel | LinePanel | TablePanel | ScatterPanel

  /** The countries selected when the page loads. */
  const InitialCountries: seq<string> := ["United States", "Russia", "China", "Brazil"]

  /** The starting countries are four different names: their first letters already differ. */
  lemma InitialCountriesDistinct()
    ensures NoDup(InitialCountries)
  {
    var firsts := seq(4, i requires 0 <= i < 4 => InitialCountries[i][0]);
    assert firsts == ['U', 'R', 'C', 'B'];
    forall i, j | 0 <= i < j < 4 ensures InitialCountries[i] != InitialCountries[j] {
      assert firsts[i] != firsts[j];
    }
  }

  /** The fill of every country while the colour scale has an empty domain. */
  const EmptyScaleFill: string := "rgb(255, 255, 229)"

  /**
   * Upper end of the map's continuous colour scale: 100 for an aggregate index
   * unless "scale to date" is on; otherwise the largest value d3.max finds on
   * the selected day (scaled to date) or on any day, floored at 0, and 0 when
   * there is no value at all.
   */
  function MapColorMax(m: VarMeta, scaleMaxToDate: bool, dayRows: seq<Row>, all: seq<Row>): (r: real)
    ensures !scaleMaxToDate && IsAggregate(m) ==> r == 100.0
    ensures scaleMaxToDate || !IsAggregate(m) ==>
      var xs := Column(if scaleMaxToDate then dayRows else all, m.variableName, AsStored);
      && r >= 0.0
      && (forall i :: 0 <= i < |xs| && xs[i].Some? ==> xs[i].value <= r)
      && (r == 0.0 || Some(r) in xs)
  {
    if !scaleMaxToDate && IsAggregate(m) then 100.0
    else
      var maxValue := D3Max(Column(if scaleMaxToDate then dayRows else all, m.variableName, AsStored));
      if maxValue.Some? && maxValue.value > 0.0 then maxValue.value else 0.0
  }

  /**
   * The map's colour scale: the attribute's legend categories for an ordinal
   * attribute, the day's values (negatives as 0) for quantile colours, and
   * otherwise a continuous scale from 0 to `MapColorMax`.
   */
  function MapColors(m: VarMeta, f: DisplayFlags.Flags, dayRows: seq<Row>, all: seq<Row>): (c: ColorScale)
    requires IsOrdinal(m) ==> forall i :: 0 <= i < |all| ==> Field(all[i], m.variableName).Str?
    ensures c.palette == PaletteFor(m)
    ensures IsOrdinal(m) ==> c.OrdinalColors? && StrOrder.StrictlySorted(c.categories)
    ensures !IsOrdinal(m) && f.quantileColor ==> c.QuantileColors? && |c.samples| == |dayRows|
    ensures !IsOrdinal(m) && !f.quantileColor ==> c == SequentialColors(PaletteFor(m), MapColorMax(m, f.scaleMaxToDate, dayRows, all))
  {
    var palette := PaletteFor(m);
    if IsOrdinal(m) then
      OrdinalColors(palette, OrdinalLegend(TextColumn(all, m.variableName), true))
    else if f.quantileColor then
      QuantileColors(palette, seq(|dayRows|, i requires 0 <= i < |dayRows| => QuantileSample(Field(dayRows[i], m.variableName))))
    else
      SequentialColors(palette, MapColorMax(m, f.scaleMaxToDate, dayRows, all))
  }

  /** The value a country's fill is looked up with. */
  datatype FillKey = Category(s: string) | Level(v: real) | Other(c: Cell)

  datatype Fill = Scaled(key: FillKey) | Fixed(color: string)

  /**
   * A country's fill: a fixed pale yellow while the colour scale's domain is
   * empty; otherwise the scale's colour for the value, where an ordinal value
   * `"NA"` or `""` counts as `"0"` and a numeric value at or below 0 counts as 0.
   */
  function MapFill(colors: ColorScale, m: VarMeta, c: Cell): (f: Fill)
    ensures f == Fixed(EmptyScaleFill) <==> DomainSize(colors) == 0
    ensures DomainSize(colors) > 0 && IsOrdinal(m) && c.Str? ==> f == Scaled(Category(OrdinalKey(c.s, true)))
    ensures DomainSize(colors) > 0 && !IsOrdinal(m) ==> f == Scaled(Level(BarLength(c)))
  {
    var val :=
      if IsOrdinal(m) then
        (if IsText(c, "NA") || IsText(c, "") then Category("0") else if c.Str? then Category(c.s) else Other(c))
      else
        Level(if Positive(c) then ToNumber(c).value else 0.0);
    if DomainSize(colors) > 0 then Scaled(val) else Fixed(EmptyScaleFill)
  }

  /** For an ordinal attribute every country's fill is one of the legend's categories. */
  lemma OrdinalFillIsInLegend(m: VarMeta, f: DisplayFlags.Flags, dayRows: seq<Row>, all: seq<Row>, k: int)
    requires IsOrdinal(m)
    requires forall i :: 0 <= i < |all| ==> Field(all[i], m.variableName).Str?
    requires 0 <= k < |all|
    ensures var colors := MapColors(m, f, dayRows, all);
      MapFill(colors, m, Field(all[k], m.variableName)).key.s in colors.categories
  {
    var texts := TextColumn(all, m.variableName);
    var colors := MapColors(m, f, dayRows, all);
    assert OrdinalKey(texts[k], true) in colors.categories;
    assert DomainSize(colors) > 0;
  }

  /** What the map redraw leaves on screen. */
  datatype MapView = MapView(colors: ColorScale, legendShown: bool, checkboxesShown: bool)

  /** What the bar chart's redraw leaves on screen: the countries down the side, the value axis, and whether the axes show. */
  datatype BarView = BarView(countries: seq<string>, bars: seq<Bar>, max: Option<real>, ordinalTicks: seq<real>, axesShown: bool)

  /** What the line chart's redraw leaves on screen: the plotted countries, the value axis, and whether the axes show. */
  datatype LineView = LineView(countries: seq<string>, lines: seq<LineFocus.Line>, max: Option<real>,
                               ordinalTicks: seq<real>, axesShown: bool)

  /** What the scatter plot's redraw leaves on screen. */
  datatype ScatterView = ScatterView(dots: seq<Dot>, xMax: Option<real>, yMax: Option<real>, xTicks: seq<real>,
                                     yTicks: seq<real>, axesShown: bool)

  /** The ticks an axis gets: half-unit ordinal ticks for an ordinal attribute, none given (d3's own) otherwise. */
  function AxisTicks(m: VarMeta, max: Option<real>): seq<real> {
    if IsOrdinal(m) then OrdinalTickValues(max) else []
  }

  /**
   * The page's state: the country selection, the map options, the attribute of
   * the map, bar and line charts, the table's category and the table itself,
   * the line chart's focus, and the scatter plot's two attributes. Each handler
   * names the fields it may change; every other field keeps its value.
   */
  class Dashboard {
    var selectedCountries: seq<string>
    var scaleMaxToDate: bool
    var quantileColor: bool
    var selectedAttribute: string
    var selectedCategory: string
    var clicked: LineFocus.Clicked
    /** The table element, once drawn, and whether its container is displayed. */
    var table: Option<Tables.Table>
    var tableShown: bool
    var scatterX: string
    var scatterY: string

    function Flags(): DisplayFlags.Flags
      reads this
    {
      DisplayFlags.Flags(scaleMaxToDate, quantileColor)
    }

    ghost predicate Valid()
      reads this
    {
      NoDup(selectedCountries)
    }

    /**
     * Page load: the four starting countries, the options as the checkboxes
     * stand, the first offered attribute, the first category of the category
     * menu, and the scatter plot on "New cases" against "School closing".
     */
    constructor(dict: seq<VarMeta>, scaleBox: bool, quantileBox: bool)
      requires Menus.FirstListed(dict).Some?
      ensures Valid()
      ensures selectedCountries == InitialCountries
      ensures scaleMaxToDate == scaleBox && quantileColor == quantileBox
      ensures selectedAttribute == Menus.FirstListed(dict).value.variableName
      ensures selectedCategory == Menus.FirstListed(dict).value.category
      ensures scatterX == Menus.InitialByDisplayName(dict, "New cases").value.variableName
      ensures scatterY == Menus.InitialByDisplayName(dict, "School closing").value.variableName
      ensures clicked == LineFocus.NoneClicked && table == None && !tableShown
    {
      InitialCountriesDistinct();
      selectedCountries := InitialCountries;
      scaleMaxToDate := scaleBox;
      quantileColor := quantileBox;
      var first := Menus.FirstListed(dict).value;
      selectedAttribute := first.variableName;
      Menus.FirstCategoryIsFirstAttributes(dict);
      selectedCategory := Menus.MenuCategories(dict)[0];
      clicked := LineFocus.NoneClicked;
      table := None;
      tableShown := false;
      var x := Menus.InitialByDisplayName(dict, "New cases");
      var y := Menus.InitialByDisplayName(dict, "School closing");
      scatterX := x.value.variableName;
      scatterY := y.value.variableName;
    }

    /** A click on a country of the map; the bar chart, line chart and table are redrawn. */
    method MapClick(country: string, ctrl: bool) returns (redrawn: seq<Panel>)
      modifies this`selectedCountries
      requires Valid()
      ensures Valid()
      ensures selectedCountries == Selection.MapClick(old(selectedCountries), country, ctrl)
      ensures redrawn == [BarPanel, LinePanel, TablePanel]
    {
      if ctrl {
        if country !in selectedCountries {
          selectedCountries := selectedCountries + [country];
        } else {
          selectedCountries := Without(selectedCountries, country);
        }
      } else {
        if |selectedCountries| > 0 {
          var includedCountry := country in selectedCountries;
          selectedCountries := [];
          if !includedCountry {
            selectedCountries := selectedCountries + [country];
          }
        } else {
          selectedCountries := selectedCountries + [country];
        }
      }
      redrawn := [BarPanel, LinePanel, TablePanel];
    }

    /**
     * A click on the map's background: ignored when it ends a drag of the map;
     * without the control key it clears the selection and redraws the bar
     * chart, line chart and table.
     */
    method BackgroundClick(defaultPrevented: bool, ctrl: bool) returns (redrawn: seq<Panel>)
      modifies this`selectedCountries
      requires Valid()
      ensures Valid()
      ensures !defaultPrevented && !ctrl ==> selectedCountries == [] && redrawn == [BarPanel, LinePanel, TablePanel]
      ensures defaultPrevented || ctrl ==> selectedCountries == old(selectedCountries) && redrawn == []
    {
      redrawn := [];
      if defaultPrevented {
        return;
      }
      if !ctrl {
        selectedCountries := [];
        redrawn := [BarPanel, LinePanel, TablePanel];
      }
    }

    /** The "scale to date" checkbox: sets its option, turns quantile colours off, redraws the map and bar chart. */
    method ScaleBoxClick(checked: bool) returns (redrawn: seq<Panel>)
      modifies this`scaleMaxToDate, this`quantileColor
      ensures Flags() == DisplayFlags.Step(old(Flags()), DisplayFlags.ScaleBoxClicked(checked))
      ensures redrawn == [MapPanel, BarPanel]
    {
      scaleMaxToDate := checked;
      if quantileColor {
        quantileColor := false;
      }
      redrawn := [MapPanel, BarPanel];
    }

    /** The quantile checkbox: sets its option, turns "scale to date" off, redraws the map. */
    method QuantileBoxClick(checked: bool) returns (redrawn: seq<Panel>)
      modifies this`scaleMaxToDate, this`quantileColor
      ensures Flags() == DisplayFlags.Step(old(Flags()), DisplayFlags.QuantileBoxClicked(checked))
      ensures redrawn == [MapPanel]
    {
      quantileColor := checked;
      if scaleMaxToDate {
        scaleMaxToDate := false;
      }
      redrawn := [MapPanel];
    }

    /**
     * Choosing an attribute redraws the map, bar chart and line chart, and
     * highlights the table rows showing the chosen option's text, the
     * attribute's display name.
     */
    method AttributeChange(dict: seq<VarMeta>, attribute: string) returns (redrawn: seq<Panel>)
      modifies this`selectedAttribute, this`table
      requires LookupMeta(dict, attribute).Some?
      ensures selectedAttribute == attribute && redrawn == [MapPanel, BarPanel, LinePanel]
      ensures old(table).None? ==> table == None
      ensures old(table).Some? ==> table == Some(Tables.Rehighlight(old(table).value, LookupMeta(dict, attribute).value.displayName))
    {
      selectedAttribute := attribute;
      redrawn := [MapPanel, BarPanel, LinePanel];
      var selectedName := LookupMeta(dict, attribute).value.displayName;
      if table.Some? {
        table := Some(Tables.Rehighlight(table.value, selectedName));
      }
    }

    /** Choosing a table category redraws the table. */
    method CategoryChange(category: string) returns (redrawn: seq<Panel>)
      modifies this`selectedCategory
      ensures selectedCategory == category && redrawn == [TablePanel]
    {
      selectedCategory := category;
      redrawn := [TablePanel];
    }

    /** Choosing an attribute for one axis of the scatter plot redraws the scatter plot. */
    method ScatterAttributeChange(isX: bool, attribute: string) returns (redrawn: seq<Panel>)
      modifies this`scatterX, this`scatterY
      ensures isX ==> scatterX == attribute && scatterY == old(scatterY)
      ensures !isX ==> scatterY == attribute && scatterX == old(scatterX)
      ensures redrawn == [ScatterPanel]
    {
      if isX {
        scatterX := attribute;
      } else {
        scatterY := attribute;
      }
      redrawn := [ScatterPanel];
    }

    /**
     * Redraws the map for the selected day: an ordinal attribute switches both
     * options off and hides their checkboxes; the legend shows when the colour
     * scale's domain is not empty.
     */
    method RedrawMap(data: seq<Row>, dict: seq<VarMeta>, date: int) returns (view: MapView)
      modifies this`scaleMaxToDate, this`quantileColor
      requires LookupMeta(dict, selectedAttribute).Some?
      requires IsOrdinal(LookupMeta(dict, selectedAttribute).value) ==>
        forall i :: 0 <= i < |data| ==> Field(data[i], selectedAttribute).Str?
      ensures var m := LookupMeta(dict, selectedAttribute).value;
        && Flags() == DisplayFlags.Step(old(Flags()), DisplayFlags.MapDrawn(IsOrdinal(m)))
        && view.colors == MapColors(m, Flags(), RowsOn(data, date), data)
        && view.checkboxesShown == !IsOrdinal(m)
        && (view.legendShown <==> DomainSize(view.colors) > 0)
    {
      var dayRows := RowsOn(data, date);
      var m := LookupMeta(dict, selectedAttribute).value;
      if IsOrdinal(m) {
        quantileColor := false;
        scaleMaxToDate := false;
      }
      var colors := MapColors(m, Flags(), dayRows, data);
      view := MapView(colors, DomainSize(colors) > 0, !IsOrdinal(m));
    }

    /**
     * Redraws the bar chart for the selected day: the selected countries down
     * the side in selection order, the value axis from `BarMax` with values read
     * as `v > 0 ? v : 0`, axes hidden when no selected country has a row that day.
     */
    method RedrawBars(data: seq<Row>, dict: seq<VarMeta>, date: int) returns (view: BarView)
      requires LookupMeta(dict, selectedAttribute).Some?
      ensures var m := LookupMeta(dict, selectedAttribute).value;
        var dayRows := RowsOfOn(data, selectedCountries, date);
        && view.countries == selectedCountries
        && view.bars == BarsOf(dayRows, PlottedColumn(m, selectedAttribute), true)
        && view.max == BarMax(m, scaleMaxToDate, dayRows, data, selectedCountries, ZeroUnlessPositive)
        && view.ordinalTicks == AxisTicks(m, view.max)
        && (view.axesShown <==> |dayRows| > 0)
    {
      var sel := selectedCountries;
      var dayRows := RowsOfOn(data, sel, date);
      var m := LookupMeta(dict, selectedAttribute).value;
      var max := BarMax(m, scaleMaxToDate, dayRows, data, sel, ZeroUnlessPositive);
      view := BarView(sel, BarsOf(dayRows, PlottedColumn(m, selectedAttribute), true), max, AxisTicks(m, max), |dayRows| != 0);
    }

    /**
     * Redraws the line chart: one line per selected country with data, the value
     * axis from `LineMax` with values read as `v > 0 ? v : 0`, and a focus on a
     * country no longer plotted dropped.
     */
    method RedrawLines(data: seq<Row>, dict: seq<VarMeta>, continentColor: string -> string) returns (view: LineView)
      modifies this`clicked
      requires LookupMeta(dict, selectedAttribute).Some?
      ensures var m := LookupMeta(dict, selectedAttribute).value;
        var rows := RowsOf(data, selectedCountries);
        && view.countries == CountriesOf(rows)
        && view.lines == LineFocus.LinesOf(rows, PlottedColumn(m, selectedAttribute), clicked, continentColor)
        && view.max == LineMax(m, data, selectedCountries, ZeroUnlessPositive)
        && view.ordinalTicks == AxisTicks(m, view.max)
        && (view.axesShown <==> |rows| > 0)
        && clicked == LineFocus.Reconcile(old(clicked), view.countries)
    {
      var rows := RowsOf(data, selectedCountries);
      var m := LookupMeta(dict, selectedAttribute).value;
      var max := LineMax(m, data, selectedCountries, ZeroUnlessPositive);
      var countries := CountriesOf(rows);
      if clicked.Country? || clicked.EmptySelection? {
        if !LineFocus.Plotted(clicked, countries) {
          clicked := LineFocus.NoneClicked;
        }
      }
      var lines := LineFocus.LinesOf(rows, PlottedColumn(m, selectedAttribute), clicked, continentColor);
      view := LineView(countries, lines, max, AxisTicks(m, max), |rows| != 0);
    }

    /** A click on the line chart, `hovered` being the line under the pointer if any. */
    method LineAreaClick(hovered: Option<string>)
      modifies this`clicked
      ensures clicked == LineFocus.AreaClick(old(clicked), hovered)
    {
      if clicked != LineFocus.NoneClicked {
        clicked := LineFocus.NoneClicked;
        return;
      }
      clicked := LineFocus.EmptySelection;
      if hovered.Some? {
        clicked := LineFocus.Country(hovered.value);
      }
    }

    /**
     * Redraws the table from the selected countries' rows of the latest day:
     * when there are none the table is hidden and left as it was; otherwise it
     * is shown and rebuilt by `Tables.BuildTable`.
     */
    method RedrawTable(data: seq<Row>, dict: seq<VarMeta>, maxDate: int)
      modifies this`table, this`tableShown
      ensures var rows := RowsOfOn(data, selectedCountries, maxDate);
        var cats := Tables.CategoryAttributes(dict, selectedCategory);
        && (tableShown <==> |rows| > 0)
        && (|rows| == 0 ==> table == old(table))
        && (|rows| > 0 ==>
          && table.Some?
          && table.value.header == ["Attribute"] + selectedCountries
          && table.value.width == 200 + 125 * |selectedCountries|
          && |table.value.body| == |cats|
          && forall i :: 0 <= i < |cats| ==>
               && table.value.body[i].title == cats[i].displayName
               && (table.value.body[i].selected <==> cats[i].variableName == selectedAttribute)
               && |table.value.body[i].cells| == |selectedCountries|
               && forall j :: 0 <= j < |selectedCountries| ==>
                    table.value.body[i].cells[j] == Tables.CellFor(rows, cats[i].variableName, selectedCountries[j]))
    {
      var sel := selectedCountries;
      var rows := RowsOfOn(data, sel, maxDate);
      if |rows| == 0 {
        tableShown := false;
        return;
      }
      tableShown := true;
      var t := Tables.BuildTable(rows, dict, sel, selectedAttribute, selectedCategory);
      table := Some(t);
    }

    /**
     * Redraws the scatter plot for its own selected day with every country
     * shown: one dot per row of that day, each axis from `ScatterAxisMax`, and
     * axes and legend hidden when the day has no rows.
     */
    method RedrawScatter(data: seq<Row>, dict: seq<VarMeta>, date: int) returns (view: ScatterView)
      requires LookupMeta(dict, scatterX).Some? && LookupMeta(dict, scatterY).Some?
      ensures var dayRows := RowsOn(data, date);
        var mx := LookupMeta(dict, scatterX).value;
        var my := LookupMeta(dict, scatterY).value;
        && view.dots == DotsOf(dayRows, PlottedColumn(mx, scatterX), PlottedColumn(my, scatterY), scatterX, scatterY)
        && view.xMax == ScatterAxisMax(mx, data, dayRows)
        && view.yMax == ScatterAxisMax(my, data, dayRows)
        && view.xTicks == AxisTicks(mx, view.xMax) && view.yTicks == AxisTicks(my, view.yMax)
        && (view.axesShown <==> |dayRows| > 0)
    {
      var dayRows := RowsOn(data, date);
      var mx := LookupMeta(dict, scatterX).value;
      var my := LookupMeta(dict, scatterY).value;
      var xMax := ScatterAxisMax(mx, data, dayRows);
      var yMax := ScatterAxisMax(my, data, dayRows);
      var dots := DotsOf(dayRows, PlottedColumn(mx, scatterX), PlottedColumn(my, scatterY), scatterX, scatterY);
      view := ScatterView(dots, xMax, yMax, AxisTicks(mx, xMax), AxisTicks(my, yMax), |dayRows| != 0);
    }
  }
}
