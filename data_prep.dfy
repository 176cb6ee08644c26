/**
 * The data-preparation script: it aligns the Our World in Data table (OWID)
 * with the two Oxford policy-tracker tables (OxCGRT, combined and "nice")
 * on a common date window and a common set of countries, drops the Oxford
 * regional rows, and recodes the policy levels into labels whose
 * alphabetical order is their numeric order.
 */
module DataPrep {
  import opened Base
  import opened StrOrder

  // Python string slicing.

  /** Where a slice bound lands in a string of length `n`: negative bounds count from the end, and both clamp. */
  function SliceBound(i: int, n: nat): (k: nat)
    ensures k <= n
    ensures 0 <= i <= n ==> k == i
    ensures -(n as int) <= i < 0 ==> k == n + i
    ensures i > n ==> k == n
    ensures i < -(n as int) ==> k == 0
  {
    if i < 0 then (if n + i < 0 then 0 else n + i)
    else if i > n then n
    else i
  }

  /**
   * `s[start:stop]`: never longer than `s`; in-range bounds give Dafny's own
   * slice; bounds that land crossed give nothing; otherwise the characters
   * between where the two bounds land.
   */
  function PySlice(s: string, start: int, stop: int): (r: string)
    ensures |r| <= |s|
    ensures 0 <= start <= stop <= |s| ==> r == s[start..stop]
    ensures SliceBound(stop, |s|) <= SliceBound(start, |s|) ==> r == []
    ensures |r| > 0 ==> r == s[SliceBound(start, |s|)..SliceBound(stop, |s|)]
  {
    var a, b := SliceBound(start, |s|), SliceBound(stop, |s|);
    if a < b then s[a..b] else []
  }

  /** `s[start:]`: a negative start keeps that many characters from the end, or all of `s` when it has fewer. */
  function PySliceFrom(s: string, start: int): (r: string)
    ensures 0 <= start <= |s| ==> r == s[start..]
    ensures start > |s| ==> r == []
    ensures 0 < -start <= |s| ==> r == s[|s| + start..] && |r| == -start
    ensures -start > |s| ==> r == s
  {
    PySlice(s, start, |s|)
  }

  /** `s[:stop]`: a negative stop drops that many characters from the end, or everything when `s` has fewer. */
  function PySliceTo(s: string, stop: int): (r: string)
    ensures 0 <= stop <= |s| ==> r == s[..stop]
    ensures stop > |s| ==> r == s
    ensures 0 < -stop <= |s| ==> r == s[..|s| + stop]
    ensures -stop > |s| ==> r == []
  {
    PySlice(s, 0, stop)
  }

  // Dates.

  /** `parse_date`: "YYYYMMDD" written as "YYYY-MM-DD", by slicing whatever the text is. */
  function ParseDate(s: string): (r: string)
    ensures |r| >= 2
    ensures var a := |PySliceTo(s, 4)|; var b := a + 1 + |PySlice(s, 4, 6)|;
      b < |r| && r[a] == '-' && r[b] == '-'
    ensures |r| <= 10
  {
    PySliceTo(s, 4) + "-" + PySlice(s, 4, 6) + "-" + PySliceFrom(s, -2)
  }

  /** The string with every '-' taken out. */
  function Undash(s: string): (r: string)
    ensures |r| <= |s|
    ensures forall i :: 0 <= i < |r| ==> r[i] != '-'
  {
    if s == [] then []
    else (if s[0] == '-' then [] else [s[0]]) + Undash(s[1..])
  }

  /**
   * An eight-character Oxford date becomes a ten-character date with dashes
   * after the year and the month, and the characters around the dashes are
   * the input's, in order; for a date of digits, taking the dashes out gives
   * back the input.
   */
  lemma ParseDateOfCompact(s: string)
    requires |s| == 8
    ensures var r := ParseDate(s);
      && |r| == 10 && r[4] == '-' && r[7] == '-'
      && r[..4] + r[5..7] + r[8..] == s
      && (AllDigits(s) ==> Undash(r) == s)
  {
    var r := ParseDate(s);
    ParseDateSlices(s);
    assert r[..4] + r[5..7] + r[8..] == s;
    if AllDigits(s) {
      UndashParsedDate(s);
    }
  }

  /** The three slices of an eight-character date. */
  lemma ParseDateSlices(s: string)
    requires |s| == 8
    ensures ParseDate(s) == s[..4] + "-" + s[4..6] + "-" + s[6..]
  {
  }

  lemma UndashParsedDate(s: string)
    requires |s| == 8 && AllDigits(s)
    ensures Undash(ParseDate(s)) == s
  {
    var year, month, day := s[..4], s[4..6], s[6..];
    assert AllDigits(year) && AllDigits(month) && AllDigits(day);
    ParseDateSlices(s);
    assert ParseDate(s) == year + (['-'] + (month + (['-'] + day)));
    calc {
      Undash(ParseDate(s));
      { UndashDigits(year, ['-'] + (month + (['-'] + day))); }
      year + Undash(['-'] + (month + (['-'] + day)));
      { UndashDash(month + (['-'] + day)); }
      year + Undash(month + (['-'] + day));
      { UndashDigits(month, ['-'] + day); }
      year + (month + Undash(['-'] + day));
      { UndashDash(day); }
      year + (month + Undash(day));
      { UndashDigits(day, []); assert day + [] == day; }
      year + (month + day);
      s;
    }
  }

  lemma UndashDash(rest: string)
    ensures Undash(['-'] + rest) == Undash(rest)
  {
    assert (['-'] + rest)[1..] == rest;
  }

  /** Taking the dashes out of digits followed by more text keeps the digits. */
  lemma {:induction false} UndashDigits(d: string, rest: string)
    requires AllDigits(d)
    ensures Undash(d + rest) == d + Undash(rest)
  {
    if d != [] {
      assert (d + rest)[1..] == d[1..] + rest;
      UndashDigits(d[1..], rest);
      assert d == [d[0]] + d[1..];
    } else {
      assert d + rest == rest;
    }
  }

  // Python values.

  /**
   * One pandas cell: NaN, a number, or a string. The indicator columns are
   * read as floats or text, so a missing cell is NaN, never `None`.
   */
  datatype PyValue = PyNaN | PyNum(x: real) | PyStr(s: string)

  /** `int(x)`: drops the fraction, toward zero. */
  function Trunc(x: real): (n: int)
    ensures 0.0 <= x ==> 0 <= n && n as real <= x < n as real + 1.0
    ensures x < 0.0 ==> n <= 0 && n as real - 1.0 < x <= n as real
  {
    if x >= 0.0 then x.Floor else -((-x).Floor)
  }

  /** `round(x)`: the nearest integer, a tie going to the even one. */
  function RoundHalfEven(x: real): (n: int)
    ensures x - 0.5 <= n as real <= x + 0.5
    ensures n as real - x == 0.5 || x - n as real == 0.5 ==> n % 2 == 0
  {
    var f := x.Floor;
    var d := x - f as real;
    if d < 0.5 then f
    else if d > 0.5 then f + 1
    else if f % 2 == 0 then f
    else f + 1
  }

  /** `str(n)` for an integer: its decimal digits, after a minus sign when negative. */
  function IntToString(n: int): (s: string)
    ensures |s| >= 1
    ensures n >= 0 ==> AllDigits(s) && DigitsValue(s) == n
    ensures n < 0 ==> |s| >= 2 && s[0] == '-' && AllDigits(s[1..]) && DigitsValue(s[1..]) == -n
  {
    if n < 0 then
      NatToStringRoundTrip(-n);
      var s := "-" + NatToString(-n);
      assert s[1..] == NatToString(-n);
      s
    else
      NatToStringRoundTrip(n);
      NatToString(n)
  }

  // Recoding the policy levels.

  /**
   * `add_g`, for the four Oxford indicators that carry no geographic flag:
   * a missing value stays missing, 0 becomes "0", and any other number is
   * written as its integer part followed by "G" (a nationwide policy);
   * `np.isnan` raises on text, so a text cell is an error.
   */
  function AddG(v: PyValue): (r: Result<PyValue>)
    ensures r.Err? <==> v.PyStr?
    ensures v.PyNaN? ==> r == Ok(PyNaN)
    ensures v == PyNum(0.0) ==> r == Ok(PyStr("0"))
    ensures v.PyNum? && v.x != 0.0 ==> r.Ok? && r.value.PyStr? && |r.value.s| >= 2 && r.value.s[|r.value.s| - 1] == 'G'
  {
    match v
    case PyStr(_) => Err("TypeError: ufunc 'isnan' not supported for the input types")
    case PyNaN => Ok(PyNaN)
    case PyNum(x) => if x == 0.0 then Ok(PyStr("0")) else Ok(PyStr(IntToString(Trunc(x)) + "G"))
  }

  /** The values `recode` hands back untouched besides missing ones. */
  const Passed: seq<string> := ["0", "", "(missing)"]

  /** A text ending in the nationwide or the local flag. */
  predicate Flagged(s: string) {
    |s| > 0 && (s[|s| - 1] == 'G' || s[|s| - 1] == 'T')
  }

  predicate EndsWith(s: string, suffix: string) {
    |suffix| <= |s| && s[|s| - |suffix|..] == suffix
  }

  /**
   * `recode`: missing values and "0", "" and "(missing)" are kept; a number
   * is rounded to the nearest integer and written out; a level flagged "G"
   * becomes "<level>-National" and one flagged "T" "<level>-Local"; any
   * other text raises an error.
   */
  function Recode(v: PyValue): (r: Result<PyValue>)
    ensures r.Ok? <==> !v.PyStr? || v.s in Passed || Flagged(v.s)
    ensures r.Ok? && v.PyStr? && v.s !in Passed ==>
      r.value.PyStr? && (EndsWith(r.value.s, "-National") || EndsWith(r.value.s, "-Local"))
    ensures v.PyNum? ==> r.Ok? && r.value.PyStr? && |r.value.s| >= 1
  {
    match v
    case PyNaN => Ok(v)
    case PyNum(x) => Ok(PyStr(IntToString(RoundHalfEven(x))))
    case PyStr(s) =>
      if s in Passed then Ok(v)
      else if PySliceFrom(s, -1) == "G" then Ok(PyStr(PySliceTo(s, -1) + "-National"))
      else if PySliceFrom(s, -1) == "T" then Ok(PyStr(PySliceTo(s, -1) + "-Local"))
      else Err("Issue with recoding variable")
  }

  /** A flagged level loses its flag letter and gains the matching suffix. */
  lemma RecodeFlags(level: string)
    ensures Recode(PyStr(level + "G")) == Ok(PyStr(level + "-National"))
    ensures Recode(PyStr(level + "T")) == Ok(PyStr(level + "-Local"))
  {
    var g, t := level + "G", level + "T";
    assert g[|g| - 1] == 'G' && t[|t| - 1] == 'T';
    assert g !in Passed && t !in Passed;
    assert PySliceFrom(g, -1) == "G" && PySliceTo(g, -1) == level;
    assert PySliceFrom(t, -1) == "T" && PySliceTo(t, -1) == level;
  }

  /** A nonzero whole level written by `add_g` and then recoded reads "<level>-National". */
  lemma AddGThenRecode(k: int)
    requires k != 0
    ensures AddG(PyNum(k as real)).Ok?
    ensures Recode(AddG(PyNum(k as real)).value) == Ok(PyStr(IntToString(k) + "-National"))
  {
    assert Trunc(k as real) == k;
    RecodeFlags(IntToString(k));
  }

  /** A zero level written by `add_g` survives recoding as "0". */
  lemma AddGZeroThenRecode()
    ensures AddG(PyNum(0.0)).Ok? && Recode(AddG(PyNum(0.0)).value) == Ok(PyStr("0"))
  {
  }

  /** The label a level gets after recoding. */
  function Label(level: nat, national: bool): string {
    NatToString(level) + (if national then "-National" else "-Local")
  }

  lemma RecodeGivesLabel(level: nat)
    ensures Recode(PyStr(NatToString(level) + "G")) == Ok(PyStr(Label(level, true)))
    ensures Recode(PyStr(NatToString(level) + "T")) == Ok(PyStr(Label(level, false)))
  {
    RecodeFlags(NatToString(level));
  }

  /** For any level, its local label sorts before its national one. */
  lemma {:induction false} LocalBeforeNational(level: string)
    ensures Less(level + "-Local", level + "-National")
  {
    var a, b := level + "-Local", level + "-National";
    if level == [] {
      assert a[1..] == "Local" && b[1..] == "National";
      assert Le("Local", "National");
    } else {
      assert a[1..] == level[1..] + "-Local";
      assert b[1..] == level[1..] + "-National";
      LocalBeforeNational(level[1..]);
    }
  }

  /**
   * For the single-digit levels the Oxford indicators use, alphabetical
   * order of the labels is numeric order: "k-Local" (a level k policy
   * somewhere, k - 0.5 in the numeric copy) after every lower level, and
   * before "k-National".
   */
  lemma LabelOrder(a: nat, na: bool, b: nat, nb: bool)
    requires a < 10 && b < 10
    ensures Less(Label(a, na), Label(b, nb)) <==> a < b || (a == b && !na && nb)
  {
    var x, y := Label(a, na), Label(b, nb);
    assert x[0] == DigitChar(a) && y[0] == DigitChar(b);
    if a == b {
      if !na && nb {
        LocalBeforeNational(NatToString(a));
      } else if na && !nb {
        assert x[1..] == "-National" && y[1..] == "-Local";
        assert x[1..][1..] == "National" && y[1..][1..] == "Local";
        assert !Le("National", "Local");
        assert !Le("-National", "-Local");
        assert !Le(x, y);
      }
    } else {
      assert x != y;
    }
  }

  /** "0" (no policy) sorts before every label of a higher level. */
  lemma ZeroSortsFirst(b: nat, national: bool)
    requires 1 <= b < 10
    ensures Less("0", Label(b, national))
  {
    var y := Label(b, national);
    assert y[0] == DigitChar(b);
  }

  /** The first replacement for income support: a code "xF" becomes "xT". */
  function FixF(v: PyValue): PyValue {
    if v.PyStr? && PySliceFrom(v.s, 1) == "F" then PyStr(PySliceTo(v.s, 1) + "T") else v
  }

  /** The second replacement for income support: a code "xA" becomes "xG". */
  function FixA(v: PyValue): PyValue {
    if v.PyStr? && PySliceFrom(v.s, 1) == "A" then PyStr(PySliceTo(v.s, 1) + "G") else v
  }

  /** Both replacements for income support, in the script's order. */
  function E1Fix(v: PyValue): PyValue {
    FixA(FixF(v))
  }

  /**
   * Income support: "xF" (formal-sector only) reads as local, "xT", and "xA"
   * (all sectors) as national, "xG"; everything else is left as it was.
   */
  lemma E1FixCodes(v: PyValue)
    ensures v.PyStr? && |v.s| == 2 && v.s[1] == 'F' ==> E1Fix(v) == PyStr([v.s[0], 'T'])
    ensures v.PyStr? && |v.s| == 2 && v.s[1] == 'A' ==> E1Fix(v) == PyStr([v.s[0], 'G'])
    ensures !(v.PyStr? && |v.s| == 2 && (v.s[1] == 'F' || v.s[1] == 'A')) ==> E1Fix(v) == v
  {
    if v.PyStr? {
      var s := v.s;
      if |s| == 2 {
        assert PySliceFrom(s, 1) == [s[1]] && PySliceTo(s, 1) == [s[0]];
        var t := PySliceTo(s, 1) + "T";
        assert PySliceFrom(t, 1) == "T";
      } else if |s| > 2 {
        assert |PySliceFrom(s, 1)| == |s| - 1;
      } else {
        assert PySliceFrom(s, 1) == [];
      }
    }
  }

  /** Income support codes end up as "x-Local" for "xF" and "x-National" for "xA". */
  lemma E1FixThenRecode(level: char)
    ensures Recode(E1Fix(PyStr([level, 'F']))) == Ok(PyStr([level] + "-Local"))
    ensures Recode(E1Fix(PyStr([level, 'A']))) == Ok(PyStr([level] + "-National"))
  {
    E1FixCodes(PyStr([level, 'F']));
    E1FixCodes(PyStr([level, 'A']));
    RecodeFlags([level]);
    assert [level, 'T'] == [level] + "T" && [level, 'G'] == [level] + "G";
  }

  /** Vaccination policy: "1I" is read as "1G". */
  function H7Fix(v: PyValue): (r: PyValue)
    ensures v != PyStr("1I") ==> r == v
  {
    if v == PyStr("1I") then PyStr("1G") else v
  }

  /** Vaccination policy "1I" ends up as "1-National". */
  lemma H7FixThenRecode()
    ensures Recode(H7Fix(PyStr("1I"))) == Ok(PyStr("1-National"))
  {
    assert H7Fix(PyStr("1I")) == PyStr("1" + "G");
    RecodeFlags("1");
    assert "1" + "-National" == "1-National";
  }

  // Columns of the merged table.

  /** A column `recode_GT` recodes: its name ends in "_combined". */
  predicate IsCombinedName(name: string) {
    PySliceFrom(name, -9) == "_combined"
  }

  /** The numeric copy of a column is never among the recoded ones. */
  lemma NumericCopyNotRecoded(name: string)
    ensures !IsCombinedName(name + "_numeric")
  {
    var t := name + "_numeric";
    if |t| >= 9 {
      var tail := PySliceFrom(t, -9);
      assert tail == t[|t| - 9..];
      assert tail[8] == t[|t| - 1] == 'c';
      assert "_combined"[8] == 'd';
    } else {
      assert |PySliceFrom(t, -9)| == |t|;
    }
  }

  /** The indicators without a geographic flag. */
  const FlagFree: seq<string> := ["e2_combined", "h2_combined", "h3_combined", "c8_combined"]

  /** The numeric copies `recode_oxford_vars` adds, one per flag-free indicator, in the same order. */
  const NumericNames: seq<string> :=
    ["e2_combined_numeric", "h2_combined_numeric", "h3_combined_numeric", "c8_combined_numeric"]

  /** The names the recoding step writes never clash with one another. */
  lemma NamesApart()
    ensures forall i, j :: 0 <= i < j < |FlagFree| ==> FlagFree[i] != FlagFree[j]
    ensures "e1_combined" !in FlagFree && "h7_combined" !in FlagFree
    ensures forall i, j :: 0 <= i < |FlagFree| && 0 <= j < |FlagFree| ==> FlagFree[i] != NumericNames[j]
    ensures forall i, j :: 0 <= i < j < |NumericNames| ==> NumericNames[i] != NumericNames[j]
  {
    assert FlagFree[0][..2] == "e2" && FlagFree[1][..2] == "h2";
    assert FlagFree[2][..2] == "h3" && FlagFree[3][..2] == "c8";
    assert "e1_combined"[..2] == "e1" && "h7_combined"[..2] == "h7";
    NumericNamesApart();
  }

  lemma NumericNamesApart()
    ensures forall i :: 0 <= i < |FlagFree| ==> |FlagFree[i]| == 11
    ensures forall i :: 0 <= i < |NumericNames| ==> |NumericNames[i]| == 19
    ensures forall i, j :: 0 <= i < j < |NumericNames| ==> NumericNames[i] != NumericNames[j]
  {
    assert NumericNames[0][..2] == "e2" && NumericNames[1][..2] == "h2";
    assert NumericNames[2][..2] == "h3" && NumericNames[3][..2] == "c8";
  }

  /** Each numeric copy is named after its indicator, and `recode_GT` never touches it. */
  lemma NumericNamesAreCopies()
    ensures |NumericNames| == |FlagFree|
    ensures forall i :: 0 <= i < |FlagFree| ==> NumericNames[i] == FlagFree[i] + "_numeric"
    ensures forall i :: 0 <= i < |NumericNames| ==> !IsCombinedName(NumericNames[i])
  {
    CopyNames();
    forall i | 0 <= i < |NumericNames|
      ensures !IsCombinedName(NumericNames[i])
    {
      NumericCopyNotRecoded(FlagFree[i]);
    }
  }

  lemma CopyNames()
    ensures |NumericNames| == |FlagFree|
    ensures forall i :: 0 <= i < |FlagFree| ==> NumericNames[i] == FlagFree[i] + "_numeric"
  {
    assert NumericNames[0] == FlagFree[0] + "_numeric" && NumericNames[1] == FlagFree[1] + "_numeric";
    assert NumericNames[2] == FlagFree[2] + "_numeric" && NumericNames[3] == FlagFree[3] + "_numeric";
  }

  /** The numeric copies are new names, apart from every column the rewrites touch. */
  lemma CopiesApart()
    ensures forall c :: c in NumericNames ==> c !in FlagFree && c != "e1_combined" && c != "h7_combined"
  {
    NumericNamesApart();
  }

  /** The columns `recode_oxford_vars` writes. */
  predicate Rewritten(name: string) {
    name in FlagFree || name in NumericNames || name == "e1_combined" || name == "h7_combined"
  }

  /** A column `add_g` can be applied to: no strings in it. */
  predicate NumericColumn(col: seq<PyValue>) {
    forall i :: 0 <= i < |col| ==> !col[i].PyStr?
  }

  /** `applymap(add_g)` on one column: an error when any cell is text, else `add_g` cell by cell. */
  function AddGColumn(col: seq<PyValue>): (r: Result<seq<PyValue>>)
    ensures r.Ok? <==> NumericColumn(col)
    ensures r.Ok? ==> |r.value| == |col| && forall i :: 0 <= i < |col| ==> Ok(r.value[i]) == AddG(col[i])
  {
    if NumericColumn(col) then Ok(seq(|col|, i requires 0 <= i < |col| => AddG(col[i]).value))
    else Err("TypeError: ufunc 'isnan' not supported for the input types")
  }

  function MapColumn<A, B>(col: seq<A>, f: A -> B): (r: seq<B>)
    ensures |r| == |col| && forall i :: 0 <= i < |col| ==> r[i] == f(col[i])
  {
    seq(|col|, i requires 0 <= i < |col| => f(col[i]))
  }

  /** Every flag-free indicator of the table holds numbers only. */
  predicate FlagFreeNumeric(columns: map<string, seq<PyValue>>) {
    forall c :: c in FlagFree && c in columns ==> NumericColumn(columns[c])
  }

  /**
   * `df[cols] = df[cols].applymap(add_g)` for the flag-free indicators: a
   * text cell in any of them raises before anything is assigned.
   */
  function AddGColumns(columns: map<string, seq<PyValue>>): (r: Result<map<string, seq<PyValue>>>)
    ensures r.Ok? <==> FlagFreeNumeric(columns)
    ensures r.Ok? ==> r.value.Keys == columns.Keys
    ensures r.Ok? ==> forall c :: c in FlagFree && c in columns ==> Ok(r.value[c]) == AddGColumn(columns[c])
    ensures r.Ok? ==> forall name :: name in columns && name !in FlagFree ==> r.value[name] == columns[name]
  {
    if FlagFreeNumeric(columns) then
      Ok(map name | name in columns :: if name in FlagFree then AddGColumn(columns[name]).value else columns[name])
    else Err("TypeError: ufunc 'isnan' not supported for the input types")
  }

  /**
   * The value rewrites of `recode_oxford_vars`: `add_g` on the flag-free
   * indicators, then the vaccination policy and the income support fixes.
   */
  function OxfordFixes(columns: map<string, seq<PyValue>>): (r: Result<map<string, seq<PyValue>>>)
    requires forall c :: c in FlagFree ==> c in columns
    requires "e1_combined" in columns && "h7_combined" in columns
    ensures r.Ok? <==> FlagFreeNumeric(columns)
    ensures r.Ok? ==> r.value.Keys == columns.Keys
    ensures r.Ok? ==> forall i :: 0 <= i < |FlagFree| ==> Ok(r.value[FlagFree[i]]) == AddGColumn(columns[FlagFree[i]])
    ensures r.Ok? ==> r.value["e1_combined"] == MapColumn(columns["e1_combined"], E1Fix)
    ensures r.Ok? ==> r.value["h7_combined"] == MapColumn(columns["h7_combined"], H7Fix)
    ensures r.Ok? ==> forall name :: name in columns && name !in FlagFree && name != "e1_combined" && name != "h7_combined" ==>
      r.value[name] == columns[name]
  {
    NamesApart();
    var g := AddGColumns(columns);
    if g.Err? then Err(g.msg)
    else
      var h := g.value["h7_combined" := MapColumn(g.value["h7_combined"], H7Fix)];
      Ok(h["e1_combined" := MapColumn(h["e1_combined"], E1Fix)])
  }

  /** `applymap(recode)` on one column: fails as soon as one cell does. */
  function RecodeColumn(col: seq<PyValue>): (r: Result<seq<PyValue>>)
    ensures r.Ok? <==> forall i :: 0 <= i < |col| ==> Recode(col[i]).Ok?
    ensures r.Ok? ==> |r.value| == |col| && forall i :: 0 <= i < |col| ==> r.value[i] == Recode(col[i]).value
  {
    if col == [] then Ok([])
    else
      var head := Recode(col[0]);
      var tail := RecodeColumn(col[1..]);
      assert forall i :: 1 <= i < |col| ==> col[1..][i - 1] == col[i];
      if head.Err? then Err(head.msg)
      else if tail.Err? then Err(tail.msg)
      else Ok([head.value] + tail.value)
  }

  /** Every recoded column of the table recodes without error. */
  predicate AllRecode(columns: map<string, seq<PyValue>>) {
    forall name :: name in columns && IsCombinedName(name) ==> RecodeColumn(columns[name]).Ok?
  }

  /**
   * `recode_GT` on the whole table: when every cell of every "_combined"
   * column recodes, those columns are replaced cell by cell and the others
   * are kept; otherwise the error stops it and nothing is assigned.
   */
  function RecodeColumns(columns: map<string, seq<PyValue>>): (r: Result<map<string, seq<PyValue>>>)
    ensures r.Ok? <==> AllRecode(columns)
    ensures r.Ok? ==> r.value.Keys == columns.Keys
    ensures r.Ok? ==> forall name :: name in columns && !IsCombinedName(name) ==> r.value[name] == columns[name]
    ensures r.Ok? ==> forall name, i :: name in columns && IsCombinedName(name) && 0 <= i < |columns[name]| ==>
      |r.value[name]| == |columns[name]| && r.value[name][i] == Recode(columns[name][i]).value
  {
    if AllRecode(columns) then
      Ok(map name | name in columns :: if IsCombinedName(name) then RecodeColumn(columns[name]).value else columns[name])
    else Err("Issue with recoding variable")
  }

  /** The merged table, column by column. */
  class Frame {
    var columns: map<string, seq<PyValue>>

    constructor(columns: map<string, seq<PyValue>>)
      ensures this.columns == columns
    {
      this.columns := columns;
    }

    /** The loop that gives each flag-free indicator a "_numeric" copy of its values. */
    method AddNumericCopies()
      requires forall c :: c in FlagFree ==> c in columns
      modifies this
      ensures forall name :: name in columns <==> name in old(columns) || name in NumericNames
      ensures forall i :: 0 <= i < |FlagFree| ==> columns[NumericNames[i]] == old(columns[FlagFree[i]])
      ensures forall name :: name in old(columns) && name !in NumericNames ==> columns[name] == old(columns[name])
    {
      NamesApart();
      ghost var before := columns;
      for n := 0 to |FlagFree|
        invariant forall name :: name in columns <==> name in before || name in NumericNames[..n]
        invariant forall j :: 0 <= j < n ==> columns[NumericNames[j]] == before[FlagFree[j]]
        invariant forall name :: name in before && name !in NumericNames[..n] ==> columns[name] == before[name]
      {
        assert NumericNames[..n + 1] == NumericNames[..n] + [NumericNames[n]];
        columns := columns[NumericNames[n] := columns[FlagFree[n]]];
      }
      assert NumericNames[..|FlagFree|] == NumericNames;
    }

    /**
     * `recode_oxford_vars`: each flag-free indicator gets a "_numeric" copy
     * of its values and is then written with `add_g`; income support codes
     * are rewritten by `E1Fix` and vaccination policy codes by `H7Fix`;
     * no other column changes. A text cell in a flag-free indicator makes
     * `add_g` raise once the copies exist, and nothing else is written.
     */
    method RecodeOxfordVars() returns (raised: bool)
      requires forall c :: c in FlagFree ==> c in columns
      requires "e1_combined" in columns && "h7_combined" in columns
      modifies this
      ensures raised <==> !FlagFreeNumeric(old(columns))
      ensures forall name :: name in columns <==> name in old(columns) || name in NumericNames
      ensures forall i :: 0 <= i < |FlagFree| ==> columns[NumericNames[i]] == old(columns[FlagFree[i]])
      ensures raised ==> forall name :: name in old(columns) && name !in NumericNames ==> columns[name] == old(columns[name])
      ensures !raised ==> forall i :: 0 <= i < |FlagFree| ==> Ok(columns[FlagFree[i]]) == AddGColumn(old(columns[FlagFree[i]]))
      ensures !raised ==> columns["e1_combined"] == MapColumn(old(columns["e1_combined"]), E1Fix)
      ensures !raised ==> columns["h7_combined"] == MapColumn(old(columns["h7_combined"]), H7Fix)
      ensures forall name :: name in old(columns) && !Rewritten(name) ==> columns[name] == old(columns[name])
    {
      CopiesApart();
      AddNumericCopies();
      assert forall c :: c in FlagFree ==> columns[c] == old(columns[c]);
      var fixed := OxfordFixes(columns);
      if fixed.Err? {
        return true;
      }
      columns := fixed.value;
      return false;
    }

    /**
     * `recode_GT`: raises exactly when some cell of a "_combined" column
     * cannot be recoded, leaving the table as it was; otherwise every
     * such column is recoded.
     */
    method RecodeGT() returns (raised: bool)
      modifies this
      ensures raised <==> !AllRecode(old(columns))
      ensures raised ==> columns == old(columns)
      ensures !raised ==> columns == RecodeColumns(old(columns)).value
    {
      var recoded := RecodeColumns(columns);
      if recoded.Err? {
        return true;
      }
      columns := recoded.value;
      return false;
    }
  }

  // Aligning the three tables.

  /** One OWID row: the country and the day (days counted from any fixed origin). */
  datatype OwidRow = OwidRow(location: string, date: int)

  /** One Oxford row; `regionname` is missing on the national rows. */
  datatype OxfordRow = OxfordRow(countryname: string, date: int, regionname: Option<string>)

  /** A pandas timestamp: `NaT` is what the minimum or maximum of an empty column gives. */
  datatype Stamp = NaT | Day(day: int)

  /** `a > b`; every comparison with `NaT` is false. */
  predicate After(a: Stamp, b: Stamp) {
    a.Day? && b.Day? && a.day > b.day
  }

  /** Python's `max(a, b)`: `a` unless `b > a`. */
  function PyMax(a: Stamp, b: Stamp): (r: Stamp)
    ensures a.Day? && b.Day? ==> r.Day? && r.day >= a.day && r.day >= b.day && (r == a || r == b)
    ensures a == NaT ==> r == NaT
    ensures b == NaT ==> r == a
  {
    if After(b, a) then b else a
  }

  /** Python's `min(a, b)`: `a` unless `b < a`. */
  function PyMin(a: Stamp, b: Stamp): (r: Stamp)
    ensures a.Day? && b.Day? ==> r.Day? && r.day <= a.day && r.day <= b.day && (r == a || r == b)
    ensures a == NaT ==> r == NaT
    ensures b == NaT ==> r == a
  {
    if After(a, b) then b else a
  }

  /** `column.min()`, `NaT` for an empty column. */
  function ColumnMin(dates: seq<int>): (r: Stamp)
    ensures r == NaT <==> |dates| == 0
    ensures r.Day? ==> r.day in dates && forall i :: 0 <= i < |dates| ==> r.day <= dates[i]
  {
    if dates == [] then NaT
    else
      var rest := ColumnMin(dates[1..]);
      assert forall i :: 1 <= i < |dates| ==> dates[1..][i - 1] == dates[i];
      if rest.Day? && rest.day < dates[0] then rest else Day(dates[0])
  }

  /** `column.max()`, `NaT` for an empty column. */
  function ColumnMax(dates: seq<int>): (r: Stamp)
    ensures r == NaT <==> |dates| == 0
    ensures r.Day? ==> r.day in dates && forall i :: 0 <= i < |dates| ==> dates[i] <= r.day
  {
    if dates == [] then NaT
    else
      var rest := ColumnMax(dates[1..]);
      assert forall i :: 1 <= i < |dates| ==> dates[1..][i - 1] == dates[i];
      if rest.Day? && rest.day > dates[0] then rest else Day(dates[0])
  }

  /** `stamp - pd.to_timedelta(days, unit='d')`; `NaT` stays `NaT`. */
  function Before(t: Stamp, days: int): (r: Stamp)
    ensures r.Day? <==> t.Day?
    ensures r.Day? ==> r.day == t.day - days
  {
    if t.Day? then Day(t.day - days) else NaT
  }

  /** How far before the last common day the window ends, in days. */
  const Lag: int := 14

  function OwidDate(r: OwidRow): int {
    r.date
  }

  function OxfordDate(r: OxfordRow): int {
    r.date
  }

  /** The `date` columns. */
  function OwidDates(rows: seq<OwidRow>): seq<int> {
    MapColumn(rows, OwidDate)
  }

  function OxfordDates(rows: seq<OxfordRow>): seq<int> {
    MapColumn(rows, OxfordDate)
  }

  /** The three tables the script holds in `datasets_dict`. */
  datatype Datasets = Datasets(owid: seq<OwidRow>, oxford: seq<OxfordRow>, oxfordNice: seq<OxfordRow>)

  /** The first day of the common window: the later of the two first days. */
  function WindowStart(d: Datasets): Stamp {
    PyMax(ColumnMin(OwidDates(d.owid)), ColumnMin(OxfordDates(d.oxford)))
  }

  /** The last day of the common window: the earlier of the two last days, less the lag. */
  function WindowEnd(d: Datasets): Stamp {
    Before(PyMin(ColumnMax(OwidDates(d.owid)), ColumnMax(OxfordDates(d.oxford))), Lag)
  }

  /** `(date < @min_date) or (date > @max_date)`, false against `NaT`. */
  predicate Outside(date: int, lo: Stamp, hi: Stamp) {
    (lo.Day? && date < lo.day) || (hi.Day? && date > hi.day)
  }

  /** `(date >= @min_date) and (date <= @max_date)`, false against `NaT`. */
  predicate Inside(date: int, lo: Stamp, hi: Stamp) {
    lo.Day? && date >= lo.day && hi.Day? && date <= hi.day
  }

  /** `table.query('(date >= @min_date) and (date <= @max_date)')` */
  function RowsInside<T(!new)>(rows: seq<T>, date: T -> int, lo: Stamp, hi: Stamp): (r: seq<T>)
    ensures forall x :: x in r <==> x in rows && Inside(date(x), lo, hi)
  {
    Filter(rows, (x: T) => Inside(date(x), lo, hi))
  }

  /**
   * `intersect_dates`: when any of the three tables has a row outside the
   * window, all three are cut down to the rows inside it; otherwise they
   * are left as they are.
   */
  function IntersectDates(d: Datasets): Datasets {
    var lo, hi := WindowStart(d), WindowEnd(d);
    if (exists r :: r in d.owid && Outside(r.date, lo, hi))
       || (exists r :: r in d.oxford && Outside(r.date, lo, hi))
       || (exists r :: r in d.oxfordNice && Outside(r.date, lo, hi))
    then
      Datasets(RowsInside(d.owid, OwidDate, lo, hi),
               RowsInside(d.oxford, OxfordDate, lo, hi),
               RowsInside(d.oxfordNice, OxfordDate, lo, hi))
    else d
  }

  /**
   * With both tables present the `rows_dropped > 0` guard always holds: the
   * window ends 14 days before the last day of the table that ends first, so
   * that table's last rows lie outside it, and the three tables are always
   * cut down to the window.
   */
  lemma IntersectDatesAlwaysCuts(d: Datasets)
    requires |d.owid| > 0 && |d.oxford| > 0
    ensures var lo, hi := WindowStart(d), WindowEnd(d);
      IntersectDates(d) == Datasets(RowsInside(d.owid, OwidDate, lo, hi),
                                    RowsInside(d.oxford, OxfordDate, lo, hi),
                                    RowsInside(d.oxfordNice, OxfordDate, lo, hi))
  {
    var lo, hi := WindowStart(d), WindowEnd(d);
    WindowBounds(d);
    var lastOwid, lastOxford := ColumnMax(OwidDates(d.owid)), ColumnMax(OxfordDates(d.oxford));
    if lastOwid.day <= lastOxford.day {
      var k :| 0 <= k < |d.owid| && OwidDates(d.owid)[k] == lastOwid.day;
      assert d.owid[k] in d.owid && Outside(d.owid[k].date, lo, hi);
    } else {
      var k :| 0 <= k < |d.oxford| && OxfordDates(d.oxford)[k] == lastOxford.day;
      assert d.oxford[k] in d.oxford && Outside(d.oxford[k].date, lo, hi);
    }
  }

  /**
   * With both tables present, the window runs from the later first day to
   * the earlier last day less 14 days, and afterwards every row of the three
   * tables lies inside it; a row is kept exactly when it was inside.
   */
  lemma IntersectDatesWindow(d: Datasets)
    requires |d.owid| > 0 && |d.oxford| > 0
    ensures var lo, hi := WindowStart(d), WindowEnd(d);
      && lo.Day? && hi.Day?
      && lo.day == Max(ColumnMin(OwidDates(d.owid)).day, ColumnMin(OxfordDates(d.oxford)).day)
      && hi.day == Min(ColumnMax(OwidDates(d.owid)).day, ColumnMax(OxfordDates(d.oxford)).day) - Lag
      && var e := IntersectDates(d);
      && (forall r :: r in e.owid <==> r in d.owid && lo.day <= r.date <= hi.day)
      && (forall r :: r in e.oxford <==> r in d.oxford && lo.day <= r.date <= hi.day)
      && (forall r :: r in e.oxfordNice <==> r in d.oxfordNice && lo.day <= r.date <= hi.day)
  {
    WindowBounds(d);
    IntersectDatesAlwaysCuts(d);
  }

  /** With both tables present, both window ends are days. */
  lemma WindowBounds(d: Datasets)
    requires |d.owid| > 0 && |d.oxford| > 0
    ensures var lo, hi := WindowStart(d), WindowEnd(d);
      && lo.Day? && hi.Day?
      && lo.day == Max(ColumnMin(OwidDates(d.owid)).day, ColumnMin(OxfordDates(d.oxford)).day)
      && hi.day == Min(ColumnMax(OwidDates(d.owid)).day, ColumnMax(OxfordDates(d.oxford)).day) - Lag
  {
  }

  function Max(a: int, b: int): int {
    if a < b then b else a
  }

  function Min(a: int, b: int): int {
    if a < b then a else b
  }

  /**
   * With OWID empty both window ends are `NaT`, no row compares as outside,
   * and no table is filtered.
   */
  lemma IntersectDatesWithoutOwid(d: Datasets)
    requires |d.owid| == 0
    ensures WindowStart(d) == NaT && WindowEnd(d) == NaT
    ensures IntersectDates(d) == d
  {
  }

  /** `pandas.unique`: the distinct values in order of first appearance. */
  function OwidCountries(rows: seq<OwidRow>): (r: seq<string>)
    ensures NoDup(r)
    ensures forall c :: c in r <==> exists i :: 0 <= i < |rows| && rows[i].location == c
  {
    var names := seq(|rows|, i requires 0 <= i < |rows| => rows[i].location);
    assert forall c :: c in names <==> exists i :: 0 <= i < |rows| && rows[i].location == c by {
      forall c ensures c in names <==> exists i :: 0 <= i < |rows| && rows[i].location == c {
        if c in names {
          var i :| 0 <= i < |names| && names[i] == c;
        }
        if exists i :: 0 <= i < |rows| && rows[i].location == c {
          var i :| 0 <= i < |rows| && rows[i].location == c;
          assert names[i] == c;
        }
      }
    }
    Distinct(names)
  }

  function OxfordCountries(rows: seq<OxfordRow>): (r: seq<string>)
    ensures NoDup(r)
    ensures forall c :: c in r <==> exists i :: 0 <= i < |rows| && rows[i].countryname == c
  {
    var names := seq(|rows|, i requires 0 <= i < |rows| => rows[i].countryname);
    assert forall c :: c in names <==> exists i :: 0 <= i < |rows| && rows[i].countryname == c by {
      forall c ensures c in names <==> exists i :: 0 <= i < |rows| && rows[i].countryname == c {
        if c in names {
          var i :| 0 <= i < |names| && names[i] == c;
        }
        if exists i :: 0 <= i < |rows| && rows[i].countryname == c {
          var i :| 0 <= i < |rows| && rows[i].countryname == c;
          assert names[i] == c;
        }
      }
    }
    Distinct(names)
  }

  /** The countries of both tables, in OWID's order. */
  function CommonCountries(d: Datasets): (r: seq<string>)
    ensures NoDup(r)
    ensures forall c :: c in r <==> c in OwidCountries(d.owid) && c in OxfordCountries(d.oxford)
    ensures InOrderOf(r, OwidCountries(d.owid))
  {
    KeepInInOrder(OwidCountries(d.owid), OxfordCountries(d.oxford));
    KeepIn(OwidCountries(d.owid), OxfordCountries(d.oxford))
  }

  /**
   * `intersect_countries`: when any table has a row of a country missing
   * from OWID or from the combined Oxford table, all three keep only the
   * rows of the common countries; otherwise they are left as they are.
   */
  function IntersectCountries(d: Datasets): Datasets {
    var common := CommonCountries(d);
    if (exists r :: r in d.owid && r.location !in common)
       || (exists r :: r in d.oxford && r.countryname !in common)
       || (exists r :: r in d.oxfordNice && r.countryname !in common)
    then
      Datasets(Filter(d.owid, (r: OwidRow) => r.location in common),
               Filter(d.oxford, (r: OxfordRow) => r.countryname in common),
               Filter(d.oxfordNice, (r: OxfordRow) => r.countryname in common))
    else d
  }

  /**
   * After the country filter, a row is kept exactly when its country is in
   * both source tables, and every remaining row's country still has rows in
   * both the OWID and the combined Oxford table.
   */
  lemma IntersectCountriesCommon(d: Datasets)
    ensures var e, common := IntersectCountries(d), CommonCountries(d);
      && (forall r :: r in e.owid <==> r in d.owid && r.location in common)
      && (forall r :: r in e.oxford <==> r in d.oxford && r.countryname in common)
      && (forall r :: r in e.oxfordNice <==> r in d.oxfordNice && r.countryname in common)
      && (forall c :: c in common ==>
            (exists r :: r in e.owid && r.location == c) && (exists r :: r in e.oxford && r.countryname == c))
  {
    var e, common := IntersectCountries(d), CommonCountries(d);
    forall c | c in common
      ensures (exists r :: r in e.owid && r.location == c) && (exists r :: r in e.oxford && r.countryname == c)
    {
      var i :| 0 <= i < |d.owid| && d.owid[i].location == c;
      var j :| 0 <= j < |d.oxford| && d.oxford[j].countryname == c;
      assert d.owid[i] in e.owid;
      assert d.oxford[j] in e.oxford;
    }
  }

  /**
   * `remove_regional_data`: when an Oxford table has a regional row, both
   * Oxford tables keep only their national rows; OWID is never touched.
   */
  function RemoveRegional(d: Datasets): Datasets {
    if (exists r :: r in d.oxford && r.regionname.Some?)
       || (exists r :: r in d.oxfordNice && r.regionname.Some?)
    then
      Datasets(d.owid,
               Filter(d.oxford, (r: OxfordRow) => r.regionname.None?),
               Filter(d.oxfordNice, (r: OxfordRow) => r.regionname.None?))
    else d
  }

  /** Afterwards the Oxford tables hold exactly their national rows, and OWID is unchanged. */
  lemma RemoveRegionalKeepsNational(d: Datasets)
    ensures var e := RemoveRegional(d);
      && e.owid == d.owid
      && (forall r :: r in e.oxford <==> r in d.oxford && r.regionname.None?)
      && (forall r :: r in e.oxfordNice <==> r in d.oxfordNice && r.regionname.None?)
  {
  }

  /** The dictionary of the three tables, whose entries the steps overwrite. */
  class DatasetsDict {
    var owid: seq<OwidRow>
    var oxford: seq<OxfordRow>
    var oxfordNice: seq<OxfordRow>

    function Contents(): Datasets
      reads this
    {
      Datasets(owid, oxford, oxfordNice)
    }

    constructor(owid: seq<OwidRow>, oxford: seq<OxfordRow>, oxfordNice: seq<OxfordRow>)
      ensures Contents() == Datasets(owid, oxford, oxfordNice)
    {
      this.owid, this.oxford, this.oxfordNice := owid, oxford, oxfordNice;
    }

    method IntersectDatesStep()
      modifies this
      ensures Contents() == IntersectDates(old(Contents()))
    {
      var e := IntersectDates(Contents());
      owid, oxford, oxfordNice := e.owid, e.oxford, e.oxfordNice;
    }

    method IntersectCountriesStep()
      modifies this
      ensures Contents() == IntersectCountries(old(Contents()))
    {
      var e := IntersectCountries(Contents());
      owid, oxford, oxfordNice := e.owid, e.oxford, e.oxfordNice;
    }

    method RemoveRegionalStep()
      modifies this`oxford, this`oxfordNice
      ensures Contents() == RemoveRegional(old(Contents()))
    {
      var e := RemoveRegional(Contents());
      oxford, oxfordNice := e.oxford, e.oxfordNice;
    }
  }
}
