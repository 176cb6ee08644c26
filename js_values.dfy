/**
 * Values of the dashboard's data rows and the JavaScript coercions the drawing
 * code applies to them (`isNaN`, `>` against a number, `typeof`).
 */
module JsValues {
  import opened Base

  /**
   * One field of a parsed CSV row. `dataRowParser` turns numeric columns into
   * numbers (`NaN` when the text is not a number) and keeps text columns as
   * strings; a field the row does not have reads as `undefined`.
   */
  datatype Cell = Num(v: real) | NaN | Str(s: string) | Undefined

  /**
   * `Number(s)` for the strings a CSV column holds: the empty string is 0 and
   * an optionally signed run of decimal digits is that integer.
   */
  function StringToNumber(s: string): Option<real> {
    if s == "" then Some(0.0)
    else if AllDigits(s) then Some(DigitsValue(s) as real)
    else if |s| > 1 && s[0] == '-' && AllDigits(s[1..]) then Some(-(DigitsValue(s[1..]) as real))
    else if |s| > 1 && s[0] == '+' && AllDigits(s[1..]) then Some(DigitsValue(s[1..]) as real)
    else None
  }

  /** The number a cell coerces to; `None` stands for `NaN`. */
  function ToNumber(c: Cell): Option<real> {
    match c
    case Num(v) => Some(v)
    case NaN => None
    case Str(s) => StringToNumber(s)
    case Undefined => None
  }

  /** The global `isNaN`, which coerces its argument first. */
  predicate IsNaN(c: Cell) {
    ToNumber(c).None?
  }

  /** `typeof c == "number"` (true of NaN too). */
  predicate IsNumberType(c: Cell) {
    c.Num? || c.NaN?
  }

  /** `c > 0` */
  predicate Positive(c: Cell) {
    ToNumber(c).Some? && ToNumber(c).value > 0.0
  }

  /** `c < 0` */
  predicate Negative(c: Cell) {
    ToNumber(c).Some? && ToNumber(c).value < 0.0
  }

  /** `c === t` for a string literal `t` (also `c == t`: the loose form differs only for numbers, never compared this way). */
  predicate IsText(c: Cell, t: string) {
    c == Str(t)
  }

  /** One row of the merged COVID-19 data: a country on a day. */
  datatype Row = Row(country: string, date: int, continent: string, fields: map<string, Cell>)

  /** `row[name]` */
  function Field(r: Row, name: string): Cell {
    if name in r.fields then r.fields[name] else Undefined
  }

  /** One row of the data dictionary, which describes an attribute column. */
  datatype VarMeta = VarMeta(
    variableName: string,
    dataType: string,
    displayName: string,
    category: string,
    numericColumn: string,
    largerIs: string,
    sortOrder: int)

  /** The test `d => d.category == category`. */
  function InCategory(category: string): VarMeta -> bool {
    (a: VarMeta) => a.category == category
  }

  predicate IsOrdinal(m: VarMeta) {
    m.dataType == "ordinal"
  }

  predicate IsAggregate(m: VarMeta) {
    m.category == "aggregate indices"
  }
}
