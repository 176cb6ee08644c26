/**
 * How the list of selected countries changes: a click on a country of the map,
 * and the multi-select country list of the bar, line, table and scatter panels.
 * The list's order is the order of the bar chart's rows and of the table's columns.
 */
module Selection {
  import opened Base

  /**
   * A click on `country` in the map. With the control key held the country is
   * appended when absent and removed when present; without it the selection
   * becomes just that country, or empty when the country was already selected.
   */
  function MapClick(sel: seq<string>, country: string, ctrl: bool): (r: seq<string>)
    ensures country in r <==> country !in sel
    ensures ctrl ==> forall y :: y != country ==> (y in r <==> y in sel)
    ensures !ctrl ==> forall y :: y in r ==> y == country
    ensures ctrl && country !in sel ==> r == sel + [country]
    ensures NoDup(sel) ==> NoDup(r)
  {
    if ctrl then
      if country !in sel then sel + [country] else Without(sel, country)
    else if |sel| > 0 then
      var included := country in sel;
      if included then [] else [country]
    else
      [country]
  }

  /** Removing with the control key takes out exactly that country and keeps the others in order. */
  lemma {:induction false} WithoutSplit(a: seq<string>, country: string, b: seq<string>)
    requires country !in a && country !in b
    ensures Without(a + [country] + b, country) == a + b
  {
    if a == [] {
      WithoutAbsent(b, country);
      assert [country] + b == ([country] + b)[..1] + b;
    } else {
      WithoutSplit(a[1..], country, b);
      assert (a + [country] + b)[1..] == a[1..] + [country] + b;
      assert a + b == [a[0]] + (a[1..] + b);
    }
  }

  lemma {:induction false} WithoutAbsent(s: seq<string>, country: string)
    requires country !in s
    ensures Without(s, country) == s
  {
    if s != [] {
      WithoutAbsent(s[1..], country);
      assert s == [s[0]] + s[1..];
    }
  }

  /** Two control-clicks on a country that was not selected leave the selection as it was. */
  lemma CtrlClickTwiceRestores(sel: seq<string>, country: string)
    requires country !in sel
    ensures MapClick(MapClick(sel, country, true), country, true) == sel
  {
    WithoutSplit(sel, country, []);
    assert sel + [country] + [] == sel + [country];
  }

  /** A control-click on a selected country removes it and keeps the rest in order. */
  lemma CtrlClickRemovesInPlace(a: seq<string>, country: string, b: seq<string>)
    requires country !in a && country !in b
    ensures MapClick(a + [country] + b, country, true) == a + b
  {
    WithoutSplit(a, country, b);
  }

  /** Two filters of `s` by lists with the same members of `s` agree. */
  lemma {:induction false} DropInSameMembers(s: seq<string>, e1: seq<string>, e2: seq<string>)
    requires forall y :: y in s ==> (y in e1 <==> y in e2)
    ensures DropIn(s, e1) == DropIn(s, e2)
  {
    if s != [] {
      DropInSameMembers(s[1..], e1, e2);
    }
  }

  /**
   * The country list's change handler (`sel.filter` by the checked options, then
   * `concat` of the checked options not kept). The result is the old selection
   * restricted to the checked countries, in its old order, followed by the newly
   * checked countries in list order; it lists exactly the checked countries.
   */
  function MergeChecked(sel: seq<string>, checked: seq<string>): (r: seq<string>)
    ensures r == KeepIn(sel, checked) + DropIn(checked, sel)
    ensures forall y :: y in r <==> y in checked
    ensures NoDup(sel) && NoDup(checked) ==> NoDup(r)
  {
    var kept := KeepIn(sel, checked);
    DropInSameMembers(checked, kept, sel);
    var added := DropIn(checked, kept);
    if NoDup(sel) && NoDup(checked) then
      NoDupConcat(kept, added);
      kept + added
    else
      kept + added
  }

  /** Applying the same checked list a second time changes nothing. */
  lemma MergeIdempotent(sel: seq<string>, checked: seq<string>)
    ensures MergeChecked(MergeChecked(sel, checked), checked) == MergeChecked(sel, checked)
  {
    var r := MergeChecked(sel, checked);
    KeepInAll(r, checked);
    DropInAllExcluded(checked, r);
  }

  lemma {:induction false} DropInAllExcluded(s: seq<string>, excluded: seq<string>)
    requires forall y :: y in s ==> y in excluded
    ensures DropIn(s, excluded) == []
  {
    if s != [] {
      DropInAllExcluded(s[1..], excluded);
    }
  }

  /** When the checked list names the selected countries, the selection and its order stay as they were. */
  lemma MergeSameCountriesKeepsOrder(sel: seq<string>, checked: seq<string>)
    requires forall y :: y in sel <==> y in checked
    ensures MergeChecked(sel, checked) == sel
  {
    KeepInAll(sel, checked);
    DropInAllExcluded(checked, sel);
  }
}
