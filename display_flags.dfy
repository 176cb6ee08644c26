/**
 * The map's two colouring options: "scale colours to the selected date"
 * (`scaleMaxToDate`) and "quantile colours" (`quantileColor`). Checking one box
 * unchecks the other, and an ordinal attribute switches both off.
 */
module DisplayFlags {

  datatype Flags = Flags(scaleMaxToDate: bool, quantileColor: bool)

  /** At most one of the two options is on. */
  predicate Exclusive(f: Flags) {
    !(f.scaleMaxToDate && f.quantileColor)
  }

  /** What can change the options: a click on either checkbox, or the map being redrawn for an attribute. */
  datatype FlagEvent =
    | ScaleBoxClicked(checked: bool)
    | QuantileBoxClicked(checked: bool)
    | MapDrawn(ordinal: bool)

  /**
   * The options after one event. A checkbox sets its own option to the box's
   * state and turns the other one off; drawing an ordinal attribute turns both
   * off; drawing any other attribute leaves them alone.
   */
  function Step(f: Flags, e: FlagEvent): (r: Flags)
    ensures e.ScaleBoxClicked? ==> r.scaleMaxToDate == e.checked && !r.quantileColor
    ensures e.QuantileBoxClicked? ==> r.quantileColor == e.checked && !r.scaleMaxToDate
    ensures e.MapDrawn? && e.ordinal ==> !r.scaleMaxToDate && !r.quantileColor
    ensures e.MapDrawn? && !e.ordinal ==> r == f
  {
    match e
    case ScaleBoxClicked(checked) => Flags(checked, false)
    case QuantileBoxClicked(checked) => Flags(false, checked)
    case MapDrawn(ordinal) =>
      if ordinal then Flags(false, false) else f
  }

  /** The options after a run of events, first to last. */
  function Run(f: Flags, es: seq<FlagEvent>): Flags
    decreases |es|
  {
    if es == [] then f else Run(Step(f, es[0]), es[1..])
  }

  /**
   * However the user clicks, the two options are never on together: from any
   * start where they are not, and from any start at all once a checkbox has
   * been clicked (the page reads both boxes' states when it loads, so both can
   * start checked).
   */
  lemma {:induction false} NeverBothOn(f: Flags, es: seq<FlagEvent>)
    requires Exclusive(f) || (|es| > 0 && !es[0].MapDrawn?)
    ensures Exclusive(Run(f, es))
    decreases |es|
  {
    if es != [] {
      NeverBothOn(Step(f, es[0]), es[1..]);
    }
  }
}
