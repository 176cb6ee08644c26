/**
 * The table of the latest values: one row per attribute of the chosen
 * category, one column per selected country, in selection order.
 */
module Tables {
  import opened Base
  import opened JsValues
  import opened Scales

  const AttributeColumnWidth: int := 200
  const CountryColumnWidth: int := 125

  /** One table row: the attribute's display name, whether it is highlighted, and one cell per country. */
  datatype TableRow = TableRow(title: string, selected: bool, cells: seq<Shown>)

  /** A table; a cell showing `Absent` (`undefined`) renders empty. */
  datatype Table = Table(width: int, header: seq<string>, body: seq<TableRow>)

  /**
   * `rows.reduce((map, obj) => { map[obj.countryname] = obj[attr]; return map; }, {})`:
   * every country with a row gets an entry.
   */
  function AttributeMap(rows: seq<Row>, attr: string): (m: map<string, Cell>)
    ensures forall c :: c in m <==> exists i :: 0 <= i < |rows| && rows[i].country == c
  {
    if rows == [] then map[]
    else
      var last := rows[|rows| - 1];
      var m := AttributeMap(rows[..|rows| - 1], attr);
      assert forall i :: 0 <= i < |rows| - 1 ==> rows[..|rows| - 1][i] == rows[i];
      m[last.country := Field(last, attr)]
  }

  /** When a country has several rows, the last one's value is the one the table shows. */
  lemma {:induction false} AttributeMapLastWins(rows: seq<Row>, attr: string, i: int)
    requires 0 <= i < |rows|
    requires forall j :: i < j < |rows| ==> rows[j].country != rows[i].country
    ensures AttributeMap(rows, attr)[rows[i].country] == Field(rows[i], attr)
    decreases |rows|
  {
    if i < |rows| - 1 {
      var init := rows[..|rows| - 1];
      assert init[i] == rows[i];
      AttributeMapLastWins(init, attr, i);
    }
  }

  /** The cell of one country for one attribute. */
  function CellFor(rows: seq<Row>, attr: string, country: string): Shown {
    var m := AttributeMap(rows, attr);
    DataText(if country in m then m[country] else Undefined)
  }

  /** A selected country without a row on the table's day gets an empty cell. */
  lemma CountryWithoutRowIsEmpty(rows: seq<Row>, attr: string, country: string)
    requires forall i :: 0 <= i < |rows| ==> rows[i].country != country
    ensures CellFor(rows, attr, country) == Absent
  {
  }

  /** `dataDict.filter(d => d.category == category)`: the category's entries, in dictionary order. */
  function CategoryAttributes(dict: seq<VarMeta>, category: string): (r: seq<VarMeta>)
    ensures forall a :: a in r <==> a in dict && a.category == category
    ensures InOrderOf(r, dict)
  {
    FilterInOrder(dict, InCategory(category));
    Filter(dict, InCategory(category))
  }

  /** One more dictionary entry adds itself at the end of its category's entries, and to no other category. */
  lemma CategoryAttributesAppend(dict: seq<VarMeta>, a: VarMeta, category: string)
    ensures CategoryAttributes(dict + [a], category)
         == CategoryAttributes(dict, category) + (if a.category == category then [a] else [])
  {
    FilterConcat(dict, [a], InCategory(category));
  }

  /**
   * Builds the table from the rows of the table's day: a header of "Attribute"
   * and the selected countries, 200 pixels plus 125 per country wide, and for
   * each attribute of the category a row labelled with its display name,
   * highlighted exactly when it is the selected attribute, holding each selected
   * country's value in header order.
   */
  method BuildTable(tableRows: seq<Row>, dict: seq<VarMeta>, sel: seq<string>,
                    selectedAttribute: string, selectedCategory: string) returns (t: Table)
    ensures t.width == AttributeColumnWidth + CountryColumnWidth * |sel|
    ensures t.header == ["Attribute"] + sel
    ensures |t.body| == |CategoryAttributes(dict, selectedCategory)|
    ensures forall i :: 0 <= i < |t.body| ==>
      var a := CategoryAttributes(dict, selectedCategory)[i];
      && t.body[i].title == a.displayName
      && (t.body[i].selected <==> a.variableName == selectedAttribute)
      && |t.body[i].cells| == |sel|
      && forall j :: 0 <= j < |sel| ==> t.body[i].cells[j] == CellFor(tableRows, a.variableName, sel[j])
  {
    var header := ["Attribute"];
    for k := 0 to |sel|
      invariant header == ["Attribute"] + sel[..k]
    {
      header := header + [sel[k]];
    }
    assert sel[..|sel|] == sel;

    var body: seq<TableRow> := [];
    for n := 0 to |dict|
      invariant |body| == |CategoryAttributes(dict[..n], selectedCategory)|
      invariant forall i :: 0 <= i < |body| ==>
        var a := CategoryAttributes(dict[..n], selectedCategory)[i];
        && body[i].title == a.displayName
        && (body[i].selected <==> a.variableName == selectedAttribute)
        && |body[i].cells| == |sel|
        && forall j :: 0 <= j < |sel| ==> body[i].cells[j] == CellFor(tableRows, a.variableName, sel[j])
    {
      var attribute := dict[n];
      assert dict[..n + 1] == dict[..n] + [attribute];
      CategoryAttributesAppend(dict[..n], attribute, selectedCategory);
      if attribute.category == selectedCategory {
        var cells: seq<Shown> := [];
        for j := 0 to |sel|
          invariant |cells| == j
          invariant forall q :: 0 <= q < j ==> cells[q] == CellFor(tableRows, attribute.variableName, sel[q])
        {
          cells := cells + [CellFor(tableRows, attribute.variableName, sel[j])];
        }
        body := body + [TableRow(attribute.displayName, attribute.variableName == selectedAttribute, cells)];
      }
    }
    assert dict[..|dict|] == dict;
    t := Table(AttributeColumnWidth + CountryColumnWidth * |sel|, header, body);
  }

  /**
   * After the attribute menu changes, every body row whose first cell shows
   * `selectedName` (the chosen option's text) is highlighted and every other
   * row is not; nothing else in the table changes.
   */
  function Rehighlight(t: Table, selectedName: string): (r: Table)
    ensures r.width == t.width && r.header == t.header && |r.body| == |t.body|
    ensures forall i :: 0 <= i < |t.body| ==>
      && r.body[i].title == t.body[i].title && r.body[i].cells == t.body[i].cells
      && (r.body[i].selected <==> t.body[i].title == selectedName)
  {
    Table(t.width, t.header,
          seq(|t.body|, i requires 0 <= i < |t.body| =>
                TableRow(t.body[i].title, t.body[i].title == selectedName, t.body[i].cells)))
  }

  /** No two dictionary entries share a display name unless they describe the same attribute. */
  predicate DisplayNamesIdentify(dict: seq<VarMeta>) {
    forall i, j :: 0 <= i < |dict| && 0 <= j < |dict| ==>
      (dict[i].displayName == dict[j].displayName <==> dict[i].variableName == dict[j].variableName)
  }

  /**
   * Matching rows by display name highlights the same rows as building the
   * table afresh, which matches by variable name, provided display names
   * identify attributes.
   */
  lemma RehighlightMatchesRebuild(t: Table, dict: seq<VarMeta>, category: string, attribute: string)
    requires |t.body| == |CategoryAttributes(dict, category)|
    requires forall i :: 0 <= i < |t.body| ==> t.body[i].title == CategoryAttributes(dict, category)[i].displayName
    requires LookupMeta(dict, attribute).Some?
    requires DisplayNamesIdentify(dict)
    ensures forall i :: 0 <= i < |t.body| ==>
      var r := Rehighlight(t, LookupMeta(dict, attribute).value.displayName);
      r.body[i].selected <==> CategoryAttributes(dict, category)[i].variableName == attribute
  {
    var cats := CategoryAttributes(dict, category);
    var m := LookupMeta(dict, attribute).value;
    var k :| 0 <= k < |dict| && dict[k] == m && m.variableName == attribute;
    forall i | 0 <= i < |t.body|
      ensures t.body[i].title == m.displayName <==> cats[i].variableName == attribute
    {
      assert cats[i] in cats;
      var j :| 0 <= j < |dict| && dict[j] == cats[i];
      assert dict[j].displayName == dict[k].displayName <==> dict[j].variableName == dict[k].variableName;
    }
  }

  /** `d3.max(rows, d => d.date)` for a non-empty set of rows: the latest day. */
  function LatestDate(rows: seq<Row>): (d: int)
    requires |rows| > 0
    ensures exists i :: 0 <= i < |rows| && rows[i].date == d
    ensures forall i :: 0 <= i < |rows| ==> rows[i].date <= d
  {
    if |rows| == 1 then rows[0].date
    else
      var m := LatestDate(rows[1..]);
      assert forall i :: 1 <= i < |rows| ==> rows[1..][i - 1] == rows[i];
      if m < rows[0].date then rows[0].date else m
  }
}
