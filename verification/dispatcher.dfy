/**
 * The host's `control-input` handler (main.js:77-126): one parsed control
 * record and the primary display's size and scale factor give at most one
 * call into the native input injector.
 */
module Dispatcher {
  import opened Wrappers
  import opened Control

  /** `screen.getPrimaryDisplay()`: its size in logical pixels and its scale factor (0 when unreported). */
  datatype Display = Display(width: int, height: int, scaleFactor: real)

  /** The native injector's calls. */
  datatype Action =
    | MoveMouse(x: int, y: int)
    | MouseToggle(down: string, button: string)
    | ScrollMouse(dx: real, dy: real)
    | KeyToggle(key: string, down: string)

  /** The divisor applied to wheel deltas before scrolling (main.js:106-107). */
  const ScrollDivisor: real := 20.0

  /** `Math.round`: halves round up. */
  function Round(v: real): (n: int)
    ensures v - 0.5 < n as real <= v + 0.5
  {
    (v + 0.5).Floor
  }

  /** `primaryDisplay.scaleFactor || 1`. */
  function Scale(d: Display): real {
    if d.scaleFactor == 0.0 then 1.0 else d.scaleFactor
  }

  predicate StartsWith(s: string, prefix: string) {
    |prefix| <= |s| && s[..|prefix|] == prefix
  }

  /** The pixel a fraction of the screen lands on, after the scale factor and rounding. */
  function Pixel(fraction: real, size: int, d: Display): (n: int)
    ensures var exact := fraction * size as real * Scale(d);
      exact - 0.5 < n as real <= exact + 0.5
  {
    Round(fraction * size as real * Scale(d))
  }

  /**
   * main.js:81-121 for a parsed record, as the sequence of injector calls it
   * makes: the mouse/scroll block, then the two key tests.
   */
  function Dispatch(c: Command, d: Display): (acts: seq<Action>)
    ensures |acts| <= 1
  {
    var pointer :=
      if StartsWith(c.kind, "mouse") || c.kind == "scroll" then
        var x := Pixel(c.xPercent, d.width, d);
        var y := Pixel(c.yPercent, d.height, d);
        (if c.kind == "mousemove" then [MoveMouse(x, y)] else [])
        + (if c.kind == "mousedown" then [MouseToggle("down", c.button)] else [])
        + (if c.kind == "mouseup" then [MouseToggle("up", c.button)] else [])
        + (if c.kind == "scroll" then [ScrollMouse(c.deltaX / ScrollDivisor, c.deltaY / ScrollDivisor)] else [])
      else [];
    pointer
    + (if c.kind == "keydown" then [KeyToggle(c.key, "down")] else [])
    + (if c.kind == "keyup" then [KeyToggle(c.key, "up")] else [])
  }

  /**
   * The whole handler: data that does not parse (the `catch` of
   * main.js:123-125) makes no call.
   */
  function HandleControlInput(parsed: Option<Command>, d: Display): (acts: seq<Action>)
    ensures |acts| <= 1
    ensures parsed.None? ==> acts == []
  {
    match parsed
    case None => []
    case Some(c) => Dispatch(c, d)
  }

  /** What each control message means natively: the reference the dispatcher is checked against. */
  function Perform(m: ControlMessage, d: Display): (a: Action)
    ensures a.MoveMouse? <==> m.MouseMove?
    ensures a.MouseToggle? <==> m.MouseButton?
    ensures a.ScrollMouse? <==> m.Scroll?
    ensures a.KeyToggle? <==> m.Key?
    ensures m.MouseButton? ==> a.button == m.button && a.down == DirectionName(m.dir)
    ensures m.Scroll? ==> a.dx * ScrollDivisor == m.deltaX && a.dy * ScrollDivisor == m.deltaY
    ensures m.Key? ==> a.key == m.key && a.down == DirectionName(m.dir)
  {
    match m
    case MouseMove(px, py) => MoveMouse(Pixel(px, d.width, d), Pixel(py, d.height, d))
    case MouseButton(dir, b) => MouseToggle(DirectionName(dir), b)
    case Scroll(dx, dy) => ScrollMouse(dx / ScrollDivisor, dy / ScrollDivisor)
    case Key(dir, k) => KeyToggle(k, DirectionName(dir))
  }

  /**
   * The dispatcher acts on exactly the six known types, and on each it
   * performs the one call that the message means; every other type,
   * including other `mouse…` strings, makes no call.
   */
  lemma DispatchMeansDecode(c: Command, d: Display)
    ensures Dispatch(c, d) == match Decode(c) case None => [] case Some(m) => [Perform(m, d)]
  {
    if c.kind == "mousedown" || c.kind == "mouseup" || c.kind == "mousemove" {
      assert StartsWith(c.kind, "mouse");
    }
    if c.kind == "keydown" || c.kind == "keyup" {
      assert c.kind[0] == 'k';
      assert !StartsWith(c.kind, "mouse");
    }
  }

  /** Client and host agree: dispatching an encoded message performs exactly that message. */
  lemma DispatchEncoded(m: ControlMessage, d: Display)
    ensures Dispatch(Encode(m), d) == [Perform(m, d)]
  {
    DispatchMeansDecode(Encode(m), d);
  }

  /** A move lands within half a pixel of the exact scaled position. */
  lemma MoveWithinHalfPixel(c: Command, d: Display)
    requires c.kind == "mousemove"
    ensures Dispatch(c, d) == [MoveMouse(Pixel(c.xPercent, d.width, d), Pixel(c.yPercent, d.height, d))]
    ensures var exact := c.xPercent * d.width as real * Scale(d);
      exact - 0.5 < Dispatch(c, d)[0].x as real <= exact + 0.5
    ensures var exact := c.yPercent * d.height as real * Scale(d);
      exact - 0.5 < Dispatch(c, d)[0].y as real <= exact + 0.5
  {
    assert StartsWith(c.kind, "mouse");
  }

  /** Fractions in [0,1] stay on the screen's physical pixel grid. */
  lemma MoveStaysOnScreen(px: real, py: real, d: Display)
    requires 0.0 <= px <= 1.0 && 0.0 <= py <= 1.0
    requires d.width >= 0 && d.height >= 0 && d.scaleFactor >= 0.0
    ensures 0 <= Pixel(px, d.width, d) <= Round(d.width as real * Scale(d))
    ensures 0 <= Pixel(py, d.height, d) <= Round(d.height as real * Scale(d))
  {
    assert Scale(d) > 0.0;
    ScaledFractionBounded(px, d.width as real * Scale(d));
    ScaledFractionBounded(py, d.height as real * Scale(d));
  }

  lemma ScaledFractionBounded(p: real, full: real)
    requires 0.0 <= p <= 1.0 && full >= 0.0
    ensures 0 <= Round(p * full) <= Round(full)
  {
    assert 0.0 <= p * full;
    assert p * full <= full by {
      assert full - p * full == (1.0 - p) * full;
    }
  }

  /** Button presses and releases toggle the button without moving the pointer. */
  lemma ButtonsDoNotMove(c: Command, d: Display)
    requires c.kind == "mousedown" || c.kind == "mouseup"
    ensures Dispatch(c, d) == [MouseToggle(if c.kind == "mousedown" then "down" else "up", c.button)]
  {
    assert StartsWith(c.kind, "mouse");
  }

  /** A display that reports no scale factor is treated as scale 1. */
  lemma MissingScaleIsOne(c: Command, w: int, h: int)
    ensures Dispatch(c, Display(w, h, 0.0)) == Dispatch(c, Display(w, h, 1.0))
  {
    var d0, d1 := Display(w, h, 0.0), Display(w, h, 1.0);
    assert Pixel(c.xPercent, w, d0) == Pixel(c.xPercent, w, d1);
    assert Pixel(c.yPercent, h, d0) == Pixel(c.yPercent, h, d1);
  }

  /** A wheel of deltaY = 100 sent by the client scrolls the host by (0, 5). */
  lemma WheelOfHundredScrollsFive(d: Display)
    ensures WheelMessage(Some(Client), true, 0.0, 100.0) == Some(Scroll(0.0, 100.0))
    ensures Dispatch(Encode(Scroll(0.0, 100.0)), d) == [ScrollMouse(0.0, 5.0)]
  {
    DispatchEncoded(Scroll(0.0, 100.0), d);
  }
}
