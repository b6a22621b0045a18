/**
 * Pointer sampling on the client (src/App.js:233-263): the latest pointer
 * position is mapped from the video element's box onto the centred,
 * aspect-preserving render rectangle of the video, as percentages of its
 * width and height; samples that fall in the letterbox padding are dropped.
 */
module Pointer {
  import opened Wrappers
  import opened Control

  /** `getBoundingClientRect()` of the video element. */
  datatype Bounds = Bounds(width: real, height: real, left: real, top: real)

  /** `videoWidth` and `videoHeight` of the video element. */
  datatype VideoSize = VideoSize(width: real, height: real)

  /** The rectangle the video is drawn in, relative to the element's box. */
  datatype Rect = Rect(width: real, height: real, offsetX: real, offsetY: real)

  predicate Positive(b: Bounds, v: VideoSize) {
    b.width > 0.0 && b.height > 0.0 && v.width > 0.0 && v.height > 0.0
  }

  /**
   * src/App.js:242-256: a container wider than the video (by aspect ratio)
   * is pillarboxed, otherwise letterboxed. The rectangle fills one axis of
   * the container, fits in the other, is centred, and keeps the video's
   * aspect ratio.
   */
  function RenderRect(b: Bounds, v: VideoSize): (r: Rect)
    requires Positive(b, v)
    ensures 0.0 < r.width <= b.width && 0.0 < r.height <= b.height
    ensures r.width == b.width || r.height == b.height
    ensures 2.0 * r.offsetX + r.width == b.width && 2.0 * r.offsetY + r.height == b.height
    ensures r.width * v.height == r.height * v.width
  {
    var videoRatio := v.width / v.height;
    var containerRatio := b.width / b.height;
    if containerRatio > videoRatio then
      var w := b.height * videoRatio;
      PillarboxFits(b, v);
      Rect(w, b.height, (b.width - w) / 2.0, 0.0)
    else
      var h := b.width / videoRatio;
      LetterboxFits(b, v);
      Rect(b.width, h, 0.0, (b.height - h) / 2.0)
  }

  lemma PillarboxFits(b: Bounds, v: VideoSize)
    requires Positive(b, v) && b.width / b.height > v.width / v.height
    ensures 0.0 < b.height * (v.width / v.height) <= b.width
    ensures b.height * (v.width / v.height) * v.height == b.height * v.width
  {
    var vr := v.width / v.height;
    assert vr * v.height == v.width;
    assert (b.width / b.height) * b.height == b.width;
    assert b.height * vr < (b.width / b.height) * b.height;
  }

  lemma LetterboxFits(b: Bounds, v: VideoSize)
    requires Positive(b, v) && !(b.width / b.height > v.width / v.height)
    ensures 0.0 < b.width / (v.width / v.height) <= b.height
    ensures b.width * v.height == b.width / (v.width / v.height) * v.width
  {
    var vr := v.width / v.height;
    var h := b.width / vr;
    assert vr * v.height == v.width;
    assert h * vr == b.width;
    assert (b.width / b.height) * b.height == b.width;
    assert h * vr <= b.height * vr;
    assert h * (vr * v.height) == b.width * v.height;
  }

  /** src/App.js:257-259: the pointer as fractions of the render rectangle. */
  function Percentages(b: Bounds, v: VideoSize, x: real, y: real): (p: (real, real))
    requires Positive(b, v)
    ensures var r := RenderRect(b, v);
      b.left + r.offsetX + p.0 * r.width == x && b.top + r.offsetY + p.1 * r.height == y
  {
    var r := RenderRect(b, v);
    ((x - b.left - r.offsetX) / r.width, (y - b.top - r.offsetY) / r.height)
  }

  predicate InUnitRange(p: real) { 0.0 <= p <= 1.0 }

  /** The pointer lies on the drawn video (borders included). */
  predicate OverVideo(b: Bounds, v: VideoSize, x: real, y: real)
    requires Positive(b, v)
  {
    var r := RenderRect(b, v);
    b.left + r.offsetX <= x <= b.left + r.offsetX + r.width
    && b.top + r.offsetY <= y <= b.top + r.offsetY + r.height
  }

  /** src/App.js:261-262: a sample is sent only when both fractions are in [0,1]. */
  function MoveMessage(b: Bounds, v: VideoSize, x: real, y: real): (m: Option<ControlMessage>)
    requires Positive(b, v)
    ensures var p := Percentages(b, v, x, y);
      m.Some? <==> InUnitRange(p.0) && InUnitRange(p.1)
    ensures m.Some? ==> m.value == MouseMove(Percentages(b, v, x, y).0, Percentages(b, v, x, y).1)
    ensures m.Some? ==> InUnitRange(m.value.xPercent) && InUnitRange(m.value.yPercent)
  {
    var (px, py) := Percentages(b, v, x, y);
    if px < 0.0 || px > 1.0 || py < 0.0 || py > 1.0 then None else Some(MouseMove(px, py))
  }

  lemma UnitFraction(a: real, w: real)
    requires w > 0.0
    ensures InUnitRange(a / w) <==> 0.0 <= a <= w
  {
    var q := a / w;
    assert q * w == a;
    if q > 1.0 {
      assert (q - 1.0) * w > 0.0;
    }
    if q < 0.0 {
      assert (0.0 - q) * w > 0.0;
    }
  }

  /**
   * A move message is sent exactly when the pointer is over the drawn
   * video, never for a pointer in the padding.
   */
  lemma MoveSentIffOverVideo(b: Bounds, v: VideoSize, x: real, y: real)
    requires Positive(b, v)
    ensures MoveMessage(b, v, x, y).Some? <==> OverVideo(b, v, x, y)
  {
    var r := RenderRect(b, v);
    UnitFraction(x - b.left - r.offsetX, r.width);
    UnitFraction(y - b.top - r.offsetY, r.height);
  }

  /** Same aspect ratio: the centre of a 1920x1080 box showing 1280x720 video maps to (0.5, 0.5). */
  lemma CentreMapsToHalf()
    ensures MoveMessage(Bounds(1920.0, 1080.0, 0.0, 0.0), VideoSize(1280.0, 720.0), 960.0, 540.0)
         == Some(MouseMove(0.5, 0.5))
  {
    var b, v := Bounds(1920.0, 1080.0, 0.0, 0.0), VideoSize(1280.0, 720.0);
    assert b.width / b.height == v.width / v.height;
    assert RenderRect(b, v) == Rect(1920.0, 1080.0, 0.0, 0.0);
  }

  /** 1280x720 video in a 1000x1000 box is letterboxed; (500, 50) is in the top band and dropped. */
  lemma TopPaddingDropped()
    ensures MoveMessage(Bounds(1000.0, 1000.0, 0.0, 0.0), VideoSize(1280.0, 720.0), 500.0, 50.0).None?
  {
    var b, v := Bounds(1000.0, 1000.0, 0.0, 0.0), VideoSize(1280.0, 720.0);
    assert v.width / v.height == 16.0 / 9.0;
    assert RenderRect(b, v) == Rect(1000.0, 562.5, 0.0, 218.75);
  }

  /** `mousePosRef`: the latest pointer position and whether it is yet to be sent. */
  class MousePosition {
    var x: real
    var y: real
    var isDirty: bool

    constructor ()
      ensures x == 0.0 && y == 0.0 && !isDirty
    {
      x, y, isDirty := 0.0, 0.0, false;
    }

    /** `handleMouseMove` (src/App.js:233-237). */
    method Record(clientX: real, clientY: real)
      modifies this
      ensures x == clientX && y == clientY && isDirty
    {
      x, y, isDirty := clientX, clientY, true;
    }

    /**
     * `sendMouseData` (src/App.js:238-263), one tick of the sampling timer.
     * Nothing is sent unless the channel is open, a new position is pending
     * and the video has a width; once the bounds and the video size are
     * known the pending flag is cleared, whether or not the sample is then
     * dropped as padding.
     */
    method Sample(channelOpen: bool, video: Option<VideoSize>, bounds: Option<Bounds>)
      returns (sent: Option<ControlMessage>)
      requires video.Some? ==> video.value.width >= 0.0 && video.value.height > 0.0
      requires bounds.Some? ==> bounds.value.width > 0.0 && bounds.value.height > 0.0
      modifies this
      ensures x == old(x) && y == old(y)
      ensures !channelOpen || !old(isDirty) || video.None? || bounds.None? || video.value.width == 0.0
        ==> sent.None? && isDirty == old(isDirty)
      ensures channelOpen && old(isDirty) && video.Some? && bounds.Some? && video.value.width > 0.0
        ==> !isDirty && sent == MoveMessage(bounds.value, video.value, x, y)
    {
      if !channelOpen || !isDirty {
        return None;
      }
      if video.None? || bounds.None? || video.value.width == 0.0 {
        return None;
      }
      var b, v := bounds.value, video.value;
      var (px, py) := Percentages(b, v, x, y);
      isDirty := false;
      if px < 0.0 || px > 1.0 || py < 0.0 || py > 1.0 {
        return None;
      }
      sent := Some(MouseMove(px, py));
    }
  }
}
