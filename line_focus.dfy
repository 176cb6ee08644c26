/**
 * The line chart's focus: a click on the chart singles out the line under the
 * pointer, greying every other line, and the next click releases it.
 */
module LineFocus {
  import opened Base
  import opened JsValues
  import opened Scales

  /**
   * The value of `clicked`: `null`, a country name, or (as the click handler
   * is written) the empty d3 selection left behind when no line was under the pointer.
   */
  datatype Clicked = NoneClicked | Country(name: string) | EmptySelection

  /** JavaScript truthiness of `clicked`: any selection object is truthy, even an empty one. */
  predicate IsSet(c: Clicked) {
    !c.NoneClicked?
  }

  /** Whether `countries.includes(clicked)`: a selection object equals no country name. */
  predicate Plotted(c: Clicked, countries: seq<string>) {
    c.Country? && c.name in countries
  }

  /**
   * On every redraw and mouse move a focus whose country is no longer plotted
   * is dropped; what survives is always a plotted country, or nothing.
   */
  function Reconcile(c: Clicked, countries: seq<string>): (r: Clicked)
    ensures r == NoneClicked || r == c
    ensures IsSet(r) ==> Plotted(r, countries)
    ensures Plotted(c, countries) ==> r == c
  {
    if IsSet(c) && !Plotted(c, countries) then NoneClicked else c
  }

  /**
   * The chart's click handler: a set focus is released; otherwise `clicked`
   * becomes the selection of hovered lines, replaced by the hovered country's
   * name when that selection holds a line, so that with no line under the
   * pointer it is left holding an empty, truthy selection.
   */
  function AreaClick(c: Clicked, hovered: Option<string>): (r: Clicked)
    ensures IsSet(c) ==> r == NoneClicked
    ensures !IsSet(c) && hovered.Some? ==> r == Country(hovered.value)
    ensures !IsSet(c) && hovered.None? ==> r == EmptySelection && IsSet(r)
  {
    if IsSet(c) then NoneClicked
    else
      var sel := EmptySelection;
      if hovered.Some? then Country(hovered.value) else sel
  }

  /**
   * The empty selection a click can leave behind is harmless: the next pointer
   * move over the chart, or the next redraw, reconciles the focus, and after
   * that a click has released a set focus, focused the hovered plotted line,
   * or left nothing focused.
   */
  lemma ClickThenMove(c: Clicked, hovered: Option<string>, countries: seq<string>)
    ensures Reconcile(AreaClick(c, hovered), countries)
         == if IsSet(c) then NoneClicked
            else if hovered.Some? && hovered.value in countries then Country(hovered.value)
            else NoneClicked
  {
  }

  /** Two clicks on the same line: the first focuses it, the second releases it. */
  lemma ClickTwiceReleases(country: string, hovered: Option<string>)
    ensures AreaClick(AreaClick(NoneClicked, Some(country)), hovered) == NoneClicked
  {
  }

  const Grey: string := "#ddd"

  /** A line's stroke: its continent colour, unless another line holds the focus. */
  function Stroke(c: Clicked, country: string, color: string): (s: string)
    ensures !IsSet(c) ==> s == color
    ensures c == Country(country) ==> s == color
    ensures IsSet(c) && c != Country(country) ==> s == Grey
  {
    if IsSet(c) then
      if c.Country? && c.name == country then color else Grey
    else color
  }

  /**
   * After a redraw reconciles the focus with the plotted countries, a focused
   * plotted country's line keeps its colour and every other plotted line is grey.
   */
  lemma FocusGreysOthers(c: Clicked, countries: seq<string>, colors: seq<string>, i: int, j: int)
    requires |colors| == |countries| && NoDup(countries)
    requires 0 <= i < |countries| && 0 <= j < |countries| && i != j
    requires Reconcile(c, countries) == Country(countries[i])
    ensures Stroke(Reconcile(c, countries), countries[i], colors[i]) == colors[i]
    ensures Stroke(Reconcile(c, countries), countries[j], colors[j]) == Grey
  {
  }

  /** One point of a line: the day, and the plotted value, `None` where the line has a gap. */
  datatype Point = Point(date: int, value: Option<real>)

  /** One country's line: its rows' points in data order, and its stroke colour. */
  datatype Line = Line(country: string, stroke: string, points: seq<Point>)

  /** The rows of one country. */
  function RowsOfCountry(rows: seq<Row>, country: string): seq<Row> {
    Filter(rows, (x: Row) => x.country == country)
  }

  /** A country of the plotted rows has at least one row. */
  lemma CountryHasRows(rows: seq<Row>, country: string)
    requires country in CountriesOf(rows)
    ensures |RowsOfCountry(rows, country)| > 0
  {
    var j :| 0 <= j < |rows| && rows[j].country == country;
    assert rows[j] in RowsOfCountry(rows, country);
  }

  /** One country's line. */
  function LineOf(rows: seq<Row>, col: string, c: Clicked, continentColor: string -> string, country: string): (line: Line)
    requires country in CountriesOf(rows)
    ensures var group := RowsOfCountry(rows, country);
      && line.country == country
      && |group| > 0
      && |line.points| == |group|
      && (forall k :: 0 <= k < |group| ==>
            && line.points[k].date == group[k].date
            && line.points[k].value == LinePoint(Field(group[k], col))
            && (line.points[k].value.None? <==> IsNaN(Field(group[k], col))))
      && (IsSet(c) && c != Country(country) ==> line.stroke == Grey)
      && (!IsSet(c) || c == Country(country) ==> line.stroke == continentColor(group[0].continent))
  {
    var group := RowsOfCountry(rows, country);
    CountryHasRows(rows, country);
    Line(country, Stroke(c, country, continentColor(group[0].continent)),
         seq(|group|, k requires 0 <= k < |group| => Point(group[k].date, LinePoint(Field(group[k], col)))))
  }

  /**
   * The lines drawn (`d3.groups` by country): one per country with rows, in
   * order of first appearance; each point has a gap where the value is not a
   * number and is drawn at 0 where it is negative; the stroke is the colour of
   * the continent of the country's first row, grey while another line holds the focus.
   */
  function LinesOf(rows: seq<Row>, col: string, c: Clicked, continentColor: string -> string): (lines: seq<Line>)
    ensures |lines| == |CountriesOf(rows)|
    ensures forall i :: 0 <= i < |lines| ==> lines[i] == LineOf(rows, col, c, continentColor, CountriesOf(rows)[i])
    ensures forall i :: 0 <= i < |lines| ==> lines[i].country == CountriesOf(rows)[i] && lines[i].country in CountryColumn(rows)
    ensures forall i, j :: 0 <= i < j < |lines| ==>
      IndexOf(CountryColumn(rows), lines[i].country) < IndexOf(CountryColumn(rows), lines[j].country)
  {
    var countries := CountriesOf(rows);
    seq(|countries|, i requires 0 <= i < |countries| => LineOf(rows, col, c, continentColor, countries[i]))
  }

  /** While a line holds the focus after a redraw, of any two lines at least one is grey. */
  lemma {:induction false} FocusedLineOnlyColored(rows: seq<Row>, col: string, c: Clicked, continentColor: string -> string, i: int, j: int)
    requires IsSet(Reconcile(c, CountriesOf(rows)))
    requires 0 <= i < |CountriesOf(rows)| && 0 <= j < |CountriesOf(rows)| && i != j
    ensures var lines := LinesOf(rows, col, Reconcile(c, CountriesOf(rows)), continentColor);
      lines[i].stroke == Grey || lines[j].stroke == Grey
  {
    var countries := CountriesOf(rows);
    assert countries[i] != countries[j];
  }
}
