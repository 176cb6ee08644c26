/**
 * The attribute and category menus, built from the data dictionary: every
 * entry whose `sort_order` is not 0 is offered, grouped under its category,
 * and the first one offered is selected when the page loads.
 */
module Menus {
  import opened Base
  import opened JsValues
  import StrOrder

  /** Whether the menus offer an entry: its `sort_order` is not 0. */
  predicate Offered(a: VarMeta) {
    a.sortOrder != 0
  }

  /** `dataDict.filter(d => d.sort_order != 0)`: the entries offered in the menus, in dictionary order. */
  function Listed(dict: seq<VarMeta>): (r: seq<VarMeta>)
    ensures forall a :: a in r <==> a in dict && a.sortOrder != 0
    ensures |r| <= |dict|
    ensures |r| > 0 ==> exists i :: 0 <= i < |dict| && dict[i] == r[0] && forall j :: 0 <= j < i ==> dict[j].sortOrder == 0
  {
    var r := Filter(dict, Offered);
    if |r| > 0 then
      FilterFirst(dict, Offered);
      r
    else r
  }

  /** The offered entries keep dictionary order. */
  lemma ListedInOrder(dict: seq<VarMeta>)
    ensures InOrderOf(Listed(dict), dict)
  {
    FilterInOrder(dict, Offered);
  }

  /**
   * The option groups of the attribute menus and the options of the category
   * menu: each category of an offered entry once, in order of first appearance.
   */
  function MenuCategories(dict: seq<VarMeta>): (r: seq<string>)
    ensures NoDup(r)
    ensures forall c :: c in r <==> exists a :: a in dict && a.sortOrder != 0 && a.category == c
  {
    var listed := Listed(dict);
    var cats := seq(|listed|, i requires 0 <= i < |listed| => listed[i].category);
    assert forall c :: c in cats <==> exists a :: a in listed && a.category == c by {
      forall c | c in cats ensures exists a :: a in listed && a.category == c {
        var i :| 0 <= i < |cats| && cats[i] == c;
        assert listed[i] in listed;
      }
      forall c | exists a :: a in listed && a.category == c ensures c in cats {
        var a :| a in listed && a.category == c;
        var i :| 0 <= i < |listed| && listed[i] == a;
        assert cats[i] == c;
      }
    }
    Distinct(cats)
  }

  /** The attribute selected on page load: the first offered entry's variable name, if any entry is offered. */
  function FirstListed(dict: seq<VarMeta>): (r: Option<VarMeta>)
    ensures r.None? <==> forall i :: 0 <= i < |dict| ==> dict[i].sortOrder == 0
    ensures r.Some? ==> exists i :: 0 <= i < |dict| && dict[i] == r.value && r.value.sortOrder != 0 &&
                                    forall j :: 0 <= j < i ==> dict[j].sortOrder == 0
  {
    var listed := Listed(dict);
    if |listed| == 0 then
      assert forall i :: 0 <= i < |dict| ==> dict[i].sortOrder == 0 by {
        forall i | 0 <= i < |dict| ensures dict[i].sortOrder == 0 {
          assert dict[i] in dict;
        }
      }
      None
    else
      assert listed[0] in listed;
      Some(listed[0])
  }

  /**
   * The category menu's first option, selected on page load, is the group of
   * the first attribute offered, the one the attribute menu starts on.
   */
  lemma FirstCategoryIsFirstAttributes(dict: seq<VarMeta>)
    requires FirstListed(dict).Some?
    ensures |MenuCategories(dict)| > 0
    ensures MenuCategories(dict)[0] == FirstListed(dict).value.category
  {
    var listed := Listed(dict);
    var cats := seq(|listed|, i requires 0 <= i < |listed| => listed[i].category);
    DistinctHead(cats);
  }

  /**
   * The scatter plot's attribute menus in document order: an option group
   * per category in `MenuCategories` order, each holding its category's
   * offered entries in dictionary order.
   */
  function OptionOrder(dict: seq<VarMeta>): (r: seq<VarMeta>)
    ensures forall a :: a in r <==> a in dict && a.sortOrder != 0
  {
    var listed := Listed(dict);
    var cats := MenuCategories(dict);
    assert forall a :: a in listed ==> a.category in cats;
    Grouped(listed, cats)
  }

  /** The entries of `listed` under the groups `cats`, group by group. */
  function Grouped(listed: seq<VarMeta>, cats: seq<string>): (r: seq<VarMeta>)
    ensures forall a :: a in r <==> a in listed && a.category in cats
  {
    if cats == [] then []
    else Filter(listed, InCategory(cats[0])) + Grouped(listed, cats[1..])
  }

  /**
   * The first option of the menu is the first offered entry: its category
   * heads the groups and it heads its group. A single-choice menu with no
   * option marked `selected` shows that option.
   */
  lemma FirstOptionIsFirstListed(dict: seq<VarMeta>)
    requires FirstListed(dict).Some?
    ensures |OptionOrder(dict)| > 0 && OptionOrder(dict)[0] == FirstListed(dict).value
  {
    var listed := Listed(dict);
    var cats := MenuCategories(dict);
    FirstCategoryIsFirstAttributes(dict);
    var group := Filter(listed, InCategory(cats[0]));
    assert listed[0] in group;
    FilterFirst(listed, InCategory(cats[0]));
  }

  /**
   * A scatter-plot axis on page load: every option showing `name` is marked
   * `selected`, and the menu keeps the last one so marked in document order
   * (`InitialIsLastOption`); with none, the menu shows its first option, the
   * first offered entry (`FirstOptionIsFirstListed`).
   */
  function InitialByDisplayName(dict: seq<VarMeta>, name: string): (r: Option<VarMeta>)
    ensures (exists a :: a in dict && a.sortOrder != 0 && a.displayName == name) ==>
      r.Some? && r.value in dict && r.value.sortOrder != 0 && r.value.displayName == name
    ensures (forall a :: a in dict && a.sortOrder != 0 ==> a.displayName != name) ==> r == FirstListed(dict)
    ensures FirstListed(dict).Some? ==> r.Some?
  {
    LastNamed(OptionOrder(dict), name, FirstListed(dict))
  }

  /** The axis chosen by name is the last option of the menu showing that name. */
  lemma InitialIsLastOption(dict: seq<VarMeta>, name: string)
    requires exists a :: a in dict && a.sortOrder != 0 && a.displayName == name
    ensures var options, r := OptionOrder(dict), InitialByDisplayName(dict, name);
      exists i :: 0 <= i < |options| && options[i] == r.value &&
        forall j :: i < j < |options| ==> options[j].displayName != name
  {
    var a :| a in dict && a.sortOrder != 0 && a.displayName == name;
    var options := OptionOrder(dict);
    assert a in options;
    var k :| 0 <= k < |options| && options[k] == a;
    LastNamedIsLast(options, name, FirstListed(dict), k);
  }

  /** Scanning the options, the last one showing `name`, or `fallback` when none does. */
  function LastNamed(entries: seq<VarMeta>, name: string, fallback: Option<VarMeta>): (r: Option<VarMeta>)
    ensures (exists a :: a in entries && a.displayName == name) ==> r.Some? && r.value in entries && r.value.displayName == name
    ensures (forall a :: a in entries ==> a.displayName != name) ==> r == fallback
    ensures fallback.Some? ==> r.Some?
  {
    if entries == [] then fallback
    else
      var last := entries[|entries| - 1];
      if last.displayName == name then Some(last)
      else
        var init := entries[..|entries| - 1];
        assert forall a :: a in entries <==> a in init || a == last;
        LastNamed(init, name, fallback)
  }

  /** What `LastNamed` finds is the last entry showing `name`: none after it does. */
  lemma {:induction false} LastNamedIsLast(entries: seq<VarMeta>, name: string, fallback: Option<VarMeta>, k: int)
    requires 0 <= k < |entries| && entries[k].displayName == name
    ensures var r := LastNamed(entries, name, fallback);
      exists i :: 0 <= i < |entries| && entries[i] == r.value &&
        forall j :: i < j < |entries| ==> entries[j].displayName != name
  {
    var n := |entries| - 1;
    if entries[n].displayName == name {
      assert entries[n] == LastNamed(entries, name, fallback).value;
    } else {
      var init := entries[..n];
      assert init[k] == entries[k];
      LastNamedIsLast(init, name, fallback, k);
      var r := LastNamed(init, name, fallback);
      assert LastNamed(entries, name, fallback) == r;
      var i :| 0 <= i < |init| && init[i] == r.value && forall j :: i < j < |init| ==> init[j].displayName != name;
      assert entries[i] == r.value;
      forall j | i < j < |entries|
        ensures entries[j].displayName != name
      {
        if j < n {
          assert entries[j] == init[j];
        }
      }
    }
  }

  /** The country menu's options: every country of the data once, in string order. */
  function CountryOptions(rows: seq<Row>): (r: seq<string>)
    ensures StrOrder.StrictlySorted(r)
    ensures forall c :: c in r <==> exists i :: 0 <= i < |rows| && rows[i].country == c
  {
    var names := seq(|rows|, i requires 0 <= i < |rows| => rows[i].country);
    assert forall c :: c in names <==> exists i :: 0 <= i < |rows| && rows[i].country == c by {
      forall c | c in names ensures exists i :: 0 <= i < |rows| && rows[i].country == c {
        var i :| 0 <= i < |names| && names[i] == c;
      }
      forall i | 0 <= i < |rows| ensures rows[i].country in names {
        assert names[i] == rows[i].country;
      }
    }
    StrOrder.SortDistinctIsStrict(names);
    StrOrder.Sort(Distinct(names))
  }
}
