/**
 * The stand-alone line chart page: one line over time per selected country,
 * a focus set by clicking a line, and a date slider marking the selected day.
 */
module Viz1c {
  import opened Base
  import opened JsValues
  import opened Scales
  import Selection
  import Menus
  import LineFocus
  import Playback
  import Tables

  /** What a redraw leaves on screen, with the time the date marker takes to move. */
  datatype LineView = LineView(countries: seq<string>, lines: seq<LineFocus.Line>, max: Option<real>,
                               ordinalTicks: seq<real>, axesShown: bool, markerDate: int, markerMs: int)

  /** The date marker jumps while the slider is dragged and glides for 200 ms otherwise. */
  function MarkerDuration(shortenTransitions: int): (ms: int)
    ensures ms == 0 <==> shortenTransitions > 0
    ensures ms >= 0
  {
    if shortenTransitions > 0 then 0 else 200
  }

  /** The line page's state: the selection, the attribute, the focused line, and the date slider. */
  class LinePage {
    var selectedCountries: seq<string>
    var attribute: string
    var clicked: LineFocus.Clicked
    const slider: Playback.DateSlider

    ghost predicate Valid()
      reads this, slider
    {
      NoDup(selectedCountries) && slider.Valid()
    }

    /** Page load: nothing selected, the first offered attribute, no focus, the slider at its start showing the latest day. */
    constructor(dict: seq<VarMeta>, data: seq<Row>, dayAt: real -> int)
      requires Menus.FirstListed(dict).Some? && |data| > 0
      ensures Valid() && fresh(slider)
      ensures selectedCountries == [] && clicked == LineFocus.NoneClicked
      ensures attribute == Menus.FirstListed(dict).value.variableName
      ensures slider.value == 0.0 && slider.selectedDate == Tables.LatestDate(data) && slider.dayAt == dayAt
      ensures slider.button == Playback.PlayLabel && !slider.timerRunning && slider.shortenTransitions == 0
    {
      selectedCountries := [];
      attribute := Menus.FirstListed(dict).value.variableName;
      clicked := LineFocus.NoneClicked;
      slider := new Playback.DateSlider(dayAt, Tables.LatestDate(data));
    }

    /** The country list's change: kept countries keep their place, new ones follow in list order. */
    method CountriesChange(checked: seq<string>)
      modifies this`selectedCountries
      requires Valid() && NoDup(checked)
      ensures Valid()
      ensures selectedCountries == Selection.MergeChecked(old(selectedCountries), checked)
    {
      ghost var merged := Selection.MergeChecked(selectedCountries, checked);
      selectedCountries := KeepIn(selectedCountries, checked);
      var added := DropIn(checked, selectedCountries);
      selectedCountries := selectedCountries + added;
      Selection.DropInSameMembers(checked, KeepIn(old(selectedCountries), checked), old(selectedCountries));
      assert selectedCountries == merged;
    }

    method AttributeChange(newAttribute: string)
      modifies this`attribute
      ensures attribute == newAttribute
    {
      attribute := newAttribute;
    }

    /**
     * Redraws the chart: the focus is dropped if its country is no longer
     * plotted, then one line per selected country with data is drawn; the value
     * axis comes from `LineMax` on the values as stored; axes and marker are
     * hidden when no selected country has data.
     */
    method Redraw(data: seq<Row>, dict: seq<VarMeta>, continentColor: string -> string) returns (view: LineView)
      modifies this`clicked
      requires LookupMeta(dict, attribute).Some?
      ensures var m := LookupMeta(dict, attribute).value;
        var rows := RowsOf(data, selectedCountries);
        && clicked == LineFocus.Reconcile(old(clicked), CountriesOf(rows))
        && view.countries == CountriesOf(rows)
        && view.lines == LineFocus.LinesOf(rows, PlottedColumn(m, attribute), clicked, continentColor)
        && view.max == LineMax(m, data, selectedCountries, AsStored)
        && view.ordinalTicks == (if IsOrdinal(m) then OrdinalTickValues(view.max) else [])
        && (view.axesShown <==> |rows| > 0)
        && view.markerDate == slider.selectedDate
        && view.markerMs == MarkerDuration(slider.shortenTransitions)
    {
      var rows := RowsOf(data, selectedCountries);
      var m := LookupMeta(dict, attribute).value;
      var max := LineMax(m, data, selectedCountries, AsStored);
      var ticks := if IsOrdinal(m) then OrdinalTickValues(max) else [];
      var countries := CountriesOf(rows);
      if LineFocus.IsSet(clicked) && !LineFocus.Plotted(clicked, countries) {
        clicked := LineFocus.NoneClicked;
      }
      var lines := LineFocus.LinesOf(rows, PlottedColumn(m, attribute), clicked, continentColor);
      view := LineView(countries, lines, max, ticks, |rows| != 0, slider.selectedDate,
                       MarkerDuration(slider.shortenTransitions));
    }

    /** A click on the chart, `hovered` being the line under the pointer if any. */
    method AreaClick(hovered: Option<string>)
      modifies this`clicked
      ensures clicked == LineFocus.AreaClick(old(clicked), hovered)
    {
      if LineFocus.IsSet(clicked) {
        clicked := LineFocus.NoneClicked;
        return;
      }
      clicked := LineFocus.EmptySelection;
      if hovered.Some? {
        clicked := LineFocus.Country(hovered.value);
      }
    }

    /** A pointer move over the chart drops a focus whose country is no longer plotted. */
    method MouseMove(plotted: seq<string>)
      modifies this`clicked
      ensures clicked == LineFocus.Reconcile(old(clicked), plotted)
    {
      if LineFocus.IsSet(clicked) && !LineFocus.Plotted(clicked, plotted) {
        clicked := LineFocus.NoneClicked;
      }
    }

    /** The start or a move of a slider drag: the day under the pointer is shown with short transitions. */
    method Drag(x: real)
      modifies slider
      requires Valid()
      ensures Valid()
      ensures slider.shortenTransitions == 100 && slider.value == x && slider.selectedDate == slider.dayAt(x)
      ensures slider.button == old(slider.button) && slider.timerRunning == old(slider.timerRunning)
    {
      slider.DragTo(x);
    }

    /**
     * One tick of the play timer: the day under the handle is shown and the
     * handle moves on; running off the end puts it back at 0, stops the timer
     * and relabels the button "Play".
     */
    method Tick()
      modifies slider
      requires Valid()
      ensures Valid()
      ensures slider.selectedDate == slider.dayAt(if old(slider.value) < 0.0 then 0.0 else old(slider.value))
      ensures slider.value == Playback.TickPosition(old(slider.value), Playback.SliderWidth)
      ensures 0.0 <= slider.value <= Playback.SliderWidth as real
      ensures var ran := (if old(slider.value) < 0.0 then 0.0 else old(slider.value)) + Playback.SliderWidth as real / 151.0;
        if ran.Floor as real > Playback.SliderWidth as real
        then slider.button == Playback.PlayLabel && !slider.timerRunning
        else slider.button == old(slider.button) && slider.timerRunning == old(slider.timerRunning)
      ensures slider.shortenTransitions == old(slider.shortenTransitions)
    {
      slider.DateStep();
    }

    method DragEnd()
      modifies slider
      requires Valid()
      ensures Valid()
      ensures slider.shortenTransitions == 0
      ensures slider.value == old(slider.value) && slider.selectedDate == old(slider.selectedDate)
      ensures slider.button == old(slider.button) && slider.timerRunning == old(slider.timerRunning)
    {
      slider.DragEnd();
    }
  }
}
