/**
 * The stand-alone scatter plot page: the selected countries on the selected
 * day, placed by two chosen attributes.
 */
module Viz3 {
  import opened Base
  import opened JsValues
  import opened Scales
  import Selection
  import Menus
  import Playback
  import Tables

  /** What a redraw leaves on screen. */
  datatype ScatterView = ScatterView(dots: seq<Dot>, xMax: Option<real>, yMax: Option<real>, xTicks: seq<real>,
                                     yTicks: seq<real>, axesShown: bool)

  /** The ticks of one axis: half-unit ordinal ticks for an ordinal attribute, d3's own otherwise. */
  function AxisTicks(m: VarMeta, max: Option<real>): seq<real> {
    if IsOrdinal(m) then OrdinalTickValues(max) else []
  }

  /** The page's state: the selection, the two attributes, and the date slider. */
  class ScatterPage {
    var selectedCountries: seq<string>
    var xAttribute: string
    var yAttribute: string
    const slider: Playback.DateSlider

    ghost predicate Valid()
      reads this, slider
    {
      NoDup(selectedCountries) && slider.Valid()
    }

    /** Page load: nothing selected, both axes on the first offered attribute, the latest day shown. */
    constructor(dict: seq<VarMeta>, data: seq<Row>, dayAt: real -> int)
      requires Menus.FirstListed(dict).Some? && |data| > 0
      ensures Valid() && fresh(slider)
      ensures selectedCountries == []
      ensures xAttribute == Menus.FirstListed(dict).value.variableName && yAttribute == xAttribute
      ensures slider.selectedDate == Tables.LatestDate(data) && slider.value == 0.0 && slider.dayAt == dayAt
      ensures slider.button == Playback.PlayLabel && !slider.timerRunning
    {
      selectedCountries := [];
      xAttribute := Menus.FirstListed(dict).value.variableName;
      yAttribute := Menus.FirstListed(dict).value.variableName;
      slider := new Playback.DateSlider(dayAt, Tables.LatestDate(data));
    }

    /** The country list's change: kept countries keep their place, new ones follow in list order. */
    method CountriesChange(checked: seq<string>)
      modifies this`selectedCountries
      requires Valid() && NoDup(checked)
      ensures Valid()
      ensures selectedCountries == Selection.MergeChecked(old(selectedCountries), checked)
    {
      ghost var merged := Selection.MergeChecked(selectedCountries, checked);
      selectedCountries := KeepIn(selectedCountries, checked);
      var added := DropIn(checked, selectedCountries);
      selectedCountries := selectedCountries + added;
      Selection.DropInSameMembers(checked, KeepIn(old(selectedCountries), checked), old(selectedCountries));
      assert selectedCountries == merged;
    }

    /** Choosing an attribute for one axis. */
    method AttributeChange(isX: bool, attribute: string)
      modifies this`xAttribute, this`yAttribute
      ensures isX ==> xAttribute == attribute && yAttribute == old(yAttribute)
      ensures !isX ==> yAttribute == attribute && xAttribute == old(xAttribute)
    {
      if isX {
        xAttribute := attribute;
      } else {
        yAttribute := attribute;
      }
    }

    /**
     * One tick of the play timer: the day under the handle is shown and the
     * handle moves on; running off the end puts it back at 0, stops the timer
     * and relabels the button "Play".
     */
    method Tick()
      modifies slider
      requires Valid()
      ensures Valid()
      ensures slider.selectedDate == slider.dayAt(if old(slider.value) < 0.0 then 0.0 else old(slider.value))
      ensures slider.value == Playback.TickPosition(old(slider.value), Playback.SliderWidth)
      ensures 0.0 <= slider.value <= Playback.SliderWidth as real
      ensures var ran := (if old(slider.value) < 0.0 then 0.0 else old(slider.value)) + Playback.SliderWidth as real / 151.0;
        if ran.Floor as real > Playback.SliderWidth as real
        then slider.button == Playback.PlayLabel && !slider.timerRunning
        else slider.button == old(slider.button) && slider.timerRunning == old(slider.timerRunning)
      ensures slider.shortenTransitions == old(slider.shortenTransitions)
    {
      slider.DateStep();
    }

    /**
     * Redraws the plot for the slider's day: one dot per selected country's row
     * that day; each axis from `ScatterAxisMax` over those rows; axes, grid and
     * legend hidden when there are none.
     */
    method Redraw(data: seq<Row>, dict: seq<VarMeta>) returns (view: ScatterView)
      requires LookupMeta(dict, xAttribute).Some? && LookupMeta(dict, yAttribute).Some?
      ensures var slice := RowsOfOn(data, selectedCountries, slider.selectedDate);
        var mx := LookupMeta(dict, xAttribute).value;
        var my := LookupMeta(dict, yAttribute).value;
        && view.dots == DotsOf(slice, PlottedColumn(mx, xAttribute), PlottedColumn(my, yAttribute), xAttribute, yAttribute)
        && view.xMax == ScatterAxisMax(mx, data, RowsOf(slice, selectedCountries))
        && view.yMax == ScatterAxisMax(my, data, RowsOf(slice, selectedCountries))
        && view.xTicks == AxisTicks(mx, view.xMax) && view.yTicks == AxisTicks(my, view.yMax)
        && (view.axesShown <==> |slice| > 0)
    {
      var sel := selectedCountries;
      var slice := RowsOfOn(data, sel, slider.selectedDate);
      var mx := LookupMeta(dict, xAttribute).value;
      var my := LookupMeta(dict, yAttribute).value;
      var plotted := RowsOf(slice, sel);
      var xMax := ScatterAxisMax(mx, data, plotted);
      var yMax := ScatterAxisMax(my, data, plotted);
      var dots := DotsOf(slice, PlottedColumn(mx, xAttribute), PlottedColumn(my, yAttribute), xAttribute, yAttribute);
      view := ScatterView(dots, xMax, yMax, AxisTicks(mx, xMax), AxisTicks(my, yMax), |slice| != 0);
    }
  }

  /** Every dot drawn is a selected country's on the slider's day. */
  lemma DotsAreSelected(data: seq<Row>, sel: seq<string>, date: int)
    ensures forall r :: r in RowsOfOn(data, sel, date) ==> r.country in sel && r.date == date
  {
  }

  /** Filtering the day's slice by the selection again changes nothing, so the axes follow exactly the dots drawn. */
  lemma SliceAlreadySelected(rows: seq<Row>, sel: seq<string>)
    requires forall i :: 0 <= i < |rows| ==> rows[i].country in sel
    ensures RowsOf(rows, sel) == rows
  {
    FilterAll(rows, InCountries(sel));
  }
}
