/**
 * The date slider every panel with a date carries (`makeDateSlider`,
 * `dateUpdate`, `dateStep`): a handle dragged along a 400-pixel track, and a
 * Play/Pause button that starts a timer moving the handle one step per tick.
 */
module Playback {

  /** Pixel length of the slider's track (`dateSliderWidth`). */
  const SliderWidth: int := 400

  /** The text of the play button, which doubles as the record of whether the timer runs. */
  datatype ButtonLabel = PlayLabel | PauseLabel

  /**
   * Where one timer tick leaves the handle: a position left of the track is
   * first moved to 0, then the handle advances by `width / 151` pixels, rounded
   * down, and goes back to 0 once it passes the end of the track.
   */
  function TickPosition(v: real, width: int): (r: real)
    requires width >= 0
    ensures 0.0 <= r <= width as real
    ensures r == r.Floor as real
  {
    var start := if v < 0.0 then 0.0 else v;
    var next := (start + width as real / 151.0).Floor as real;
    if next > width as real then 0.0 else next
  }

  /** The handle position after `k` ticks from `v`. */
  function Ticks(v: real, k: nat): real
    decreases k
  {
    if k == 0 then v else Ticks(TickPosition(v, SliderWidth), k - 1)
  }

  /** From a whole-pixel position inside the track, a tick on the 400-pixel track moves two pixels. */
  lemma TickMovesTwoPixels(n: int)
    requires 0 <= n <= SliderWidth - 2
    ensures TickPosition(n as real, SliderWidth) == (n + 2) as real
  {
    var step := SliderWidth as real / 151.0;
    assert 2.0 <= step < 3.0;
    FloorIs(n as real + step, n + 2);
  }

  lemma FloorIs(x: real, k: int)
    requires k as real <= x < k as real + 1.0
    ensures x.Floor == k
  {
  }

  /**
   * Playing from the start of the track takes the handle to 2k pixels after k
   * ticks, up to the end of the track at 200 ticks; the next tick wraps it back to 0.
   */
  lemma {:induction false} PlayFromStart(k: nat)
    requires k <= SliderWidth / 2
    ensures Ticks(0.0, k) == (2 * k) as real
  {
    if k > 0 {
      TicksLast(0.0, k - 1);
      PlayFromStart(k - 1);
      TickMovesTwoPixels(2 * (k - 1));
    }
  }

  lemma {:induction false} TicksLast(v: real, k: nat)
    ensures Ticks(v, k + 1) == TickPosition(Ticks(v, k), SliderWidth)
    decreases k
  {
    if k > 0 {
      TicksLast(TickPosition(v, SliderWidth), k - 1);
    }
  }

  lemma WrapsAfterTheEnd()
    ensures Ticks(0.0, SliderWidth / 2 + 1) == 0.0
  {
    PlayFromStart(SliderWidth / 2);
    TicksLast(0.0, SliderWidth / 2);
    assert 400.0 + 400.0 / 151.0 >= 402.0;
  }

  class DateSlider {
    /** Handle position in pixels (`dateSliderValue`); a drag can leave it off the track. */
    var value: real
    /** Track length in pixels (`dateSliderWidth`). */
    const width: int
    /** The day the panel shows (`selectedDate`), as a day number. */
    var selectedDate: int
    var button: ButtonLabel
    /** Whether an interval timer calling `DateStep` is set. */
    var timerRunning: bool
    /** Transition length override while dragging (`shortenTransitions`), in milliseconds. */
    var shortenTransitions: int
    /** The day under a handle position: the time scale's clamped inverse, floored to whole days. */
    const dayAt: real -> int

    ghost predicate Valid()
      reads this
    {
      width == SliderWidth && (button == PauseLabel <==> timerRunning)
    }

    constructor(dayAt: real -> int, shownDay: int)
      ensures Valid()
      ensures value == 0.0 && selectedDate == shownDay && this.dayAt == dayAt
      ensures button == PlayLabel && !timerRunning && shortenTransitions == 0
    {
      value := 0.0;
      width := SliderWidth;
      this.dayAt := dayAt;
      selectedDate := shownDay;
      button := PlayLabel;
      timerRunning := false;
      shortenTransitions := 0;
    }

    /** `dateUpdate(viz, setDate)`: show a given day; the handle position stays where it was. */
    method ShowDate(day: int)
      modifies this
      requires Valid()
      ensures Valid()
      ensures selectedDate == day
      ensures value == old(value) && button == old(button) && timerRunning == old(timerRunning)
      ensures shortenTransitions == old(shortenTransitions)
    {
      selectedDate := day;
    }

    /** A click on the play button: "Pause" stops the timer and shows "Play", anything else starts it and shows "Pause". */
    method PlayButtonClick()
      modifies this
      requires Valid()
      ensures Valid()
      ensures old(button) == PauseLabel ==> button == PlayLabel && !timerRunning
      ensures old(button) == PlayLabel ==> button == PauseLabel && timerRunning
      ensures value == old(value) && selectedDate == old(selectedDate)
      ensures shortenTransitions == old(shortenTransitions)
    {
      if button == PauseLabel {
        timerRunning := false;
        button := PlayLabel;
      } else {
        timerRunning := true;
        button := PauseLabel;
      }
    }

    /**
     * One timer tick (`dateStep`): the day under the handle is shown, then the
     * handle moves on; running off the end puts it back at 0, stops the timer
     * and relabels the button "Play".
     */
    method DateStep()
      modifies this
      requires Valid()
      ensures Valid()
      ensures selectedDate == dayAt(if old(value) < 0.0 then 0.0 else old(value))
      ensures value == TickPosition(old(value), width)
      ensures 0.0 <= value <= width as real
      ensures var ran := (if old(value) < 0.0 then 0.0 else old(value)) + width as real / 151.0;
        if ran.Floor as real > width as real
        then button == PlayLabel && !timerRunning
        else button == old(button) && timerRunning == old(timerRunning)
      ensures shortenTransitions == old(shortenTransitions)
    {
      if value < 0.0 {
        value := 0.0;
      }
      selectedDate := dayAt(value);
      value := (value + width as real / 151.0).Floor as real;
      if value > width as real {
        value := 0.0;
        timerRunning := false;
        button := PlayLabel;
      }
    }

    /** The start or a move of a drag: short transitions, the handle at the pointer, and that day shown. */
    method DragTo(x: real)
      modifies this
      requires Valid()
      ensures Valid()
      ensures shortenTransitions == 100 && value == x && selectedDate == dayAt(x)
      ensures button == old(button) && timerRunning == old(timerRunning)
    {
      shortenTransitions := 100;
      value := x;
      selectedDate := dayAt(value);
    }

    /** The end of a drag: normal transitions again. */
    method DragEnd()
      modifies this
      requires Valid()
      ensures Valid()
      ensures shortenTransitions == 0
      ensures value == old(value) && selectedDate == old(selectedDate)
      ensures button == old(button) && timerRunning == old(timerRunning)
    {
      shortenTransitions := 0;
    }
  }
}
