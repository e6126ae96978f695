/**
 * The pan and zoom viewer of the menageries image. One state record is
 * changed by the mouse and wheel handlers and by the image's load handler;
 * the image is drawn translated by (translateX, translateY) and then scaled.
 * Numbers are exact reals here: the source's doubles round, so the
 * fixed-point property of the wheel holds exactly only in this model.
 */
module ImageViewing {

  datatype ViewerState = ViewerState(scale: real, translateX: real, translateY: real,
                                     lastX: real, lastY: real, isDragging: bool)

  const MinScale: real := 0.1
  const MaxScale: real := 8.0

  /** The state `initViewer` starts from: unit scale, no translation, not dragging. */
  const Initial: ViewerState := ViewerState(1.0, 0.0, 0.0, 0.0, 0.0, false)

  /** `handleMouseDown`: a drag starts at the pointer. */
  function MouseDown(s: ViewerState, x: real, y: real): (r: ViewerState)
    ensures r.isDragging && r.lastX == x && r.lastY == y
    ensures r.scale == s.scale && r.translateX == s.translateX && r.translateY == s.translateY
  {
    s.(isDragging := true, lastX := x, lastY := y)
  }

  /** `handleMouseMove`: while dragging, the image follows the pointer; otherwise nothing changes. */
  function MouseMove(s: ViewerState, x: real, y: real): (r: ViewerState)
    ensures !s.isDragging ==> r == s
    ensures s.isDragging ==> r.isDragging && r.lastX == x && r.lastY == y
    ensures s.isDragging ==> r.translateX - s.translateX == x - s.lastX && r.translateY - s.translateY == y - s.lastY
    ensures r.scale == s.scale
  {
    if !s.isDragging then s
    else
      var dx, dy := x - s.lastX, y - s.lastY;
      s.(translateX := s.translateX + dx, translateY := s.translateY + dy, lastX := x, lastY := y)
  }

  /** `handleMouseUp`: the drag ends; nothing else changes. */
  function MouseUp(s: ViewerState): (r: ViewerState)
    ensures !r.isDragging && r.(isDragging := s.isDragging) == s
  {
    s.(isDragging := false)
  }

  function Min(a: real, b: real): (r: real)
    ensures r <= a && r <= b && (r == a || r == b)
  {
    if a <= b then a else b
  }

  function Max(a: real, b: real): (r: real)
    ensures r >= a && r >= b && (r == a || r == b)
  {
    if a >= b then a else b
  }

  /** The wheel's new scale: the old one times `1 - deltaY / 1000`, clamped to [0.1, 8]. */
  function WheelScale(prevScale: real, deltaY: real): (r: real)
    ensures MinScale <= r <= MaxScale
  {
    Min(MaxScale, Max(MinScale, prevScale * (1.0 + -deltaY * 0.001)))
  }

  /** The image point shown at viewer position `m` on one axis. */
  function ImagePoint(m: real, translate: real, scale: real): real
    requires scale != 0.0
  {
    (m - translate) / scale
  }

  /**
   * `handleWheel` with the pointer at (mouseX, mouseY) relative to the
   * viewer: the scale changes and the translation is chosen so that the
   * image point under the pointer stays under it. The drag fields are kept.
   */
  function Wheel(s: ViewerState, mouseX: real, mouseY: real, deltaY: real): (r: ViewerState)
    requires s.scale != 0.0
    ensures MinScale <= r.scale <= MaxScale
    ensures r.lastX == s.lastX && r.lastY == s.lastY && r.isDragging == s.isDragging
  {
    var newScale := WheelScale(s.scale, deltaY);
    var imageX := ImagePoint(mouseX, s.translateX, s.scale);
    var imageY := ImagePoint(mouseY, s.translateY, s.scale);
    s.(scale := newScale, translateX := mouseX - imageX * newScale, translateY := mouseY - imageY * newScale)
  }

  /** The wheel keeps the image point under the pointer fixed, on both axes. */
  lemma WheelKeepsPointUnderCursor(s: ViewerState, mouseX: real, mouseY: real, deltaY: real)
    requires s.scale != 0.0
    ensures var r := Wheel(s, mouseX, mouseY, deltaY);
      ImagePoint(mouseX, r.translateX, r.scale) == ImagePoint(mouseX, s.translateX, s.scale) &&
      ImagePoint(mouseY, r.translateY, r.scale) == ImagePoint(mouseY, s.translateY, s.scale)
  {
    var r := Wheel(s, mouseX, mouseY, deltaY);
    var imageX := ImagePoint(mouseX, s.translateX, s.scale);
    var imageY := ImagePoint(mouseY, s.translateY, s.scale);
    assert mouseX - r.translateX == imageX * r.scale;
    assert mouseY - r.translateY == imageY * r.scale;
  }

  lemma ProductNonNegative(a: real, b: real)
    requires a >= 0.0 && b >= 0.0
    ensures a * b >= 0.0
  {
  }

  /** Within the clamp range, scrolling up (negative `deltaY`) never zooms out and scrolling down never zooms in. */
  lemma WheelDirection(s: ViewerState, mouseX: real, mouseY: real, deltaY: real)
    requires MinScale <= s.scale <= MaxScale
    ensures deltaY <= 0.0 ==> Wheel(s, mouseX, mouseY, deltaY).scale >= s.scale
    ensures deltaY >= 0.0 ==> Wheel(s, mouseX, mouseY, deltaY).scale <= s.scale
    ensures deltaY == 0.0 ==> Wheel(s, mouseX, mouseY, deltaY).scale == s.scale
  {
    var f := 1.0 + -deltaY * 0.001;
    assert s.scale * f == s.scale + s.scale * (-deltaY * 0.001);
    if deltaY <= 0.0 {
      ProductNonNegative(s.scale, -deltaY * 0.001);
    }
    if deltaY >= 0.0 {
      ProductNonNegative(s.scale, deltaY * 0.001);
      assert s.scale * (-deltaY * 0.001) == -(s.scale * (deltaY * 0.001));
      assert Max(MinScale, s.scale * f) <= s.scale;
    }
  }

  /**
   * `handleImageLoad` for a viewer of size vw x vh and an image of natural
   * size nw x nh: the image is scaled to fit the viewer and centred.
   */
  function ImageLoad(s: ViewerState, vw: real, vh: real, nw: real, nh: real): (r: ViewerState)
    requires nw > 0.0 && nh > 0.0
    ensures r.lastX == s.lastX && r.lastY == s.lastY && r.isDragging == s.isDragging
  {
    var scale := Min(vw / nw, vh / nh);
    var scaledWidth, scaledHeight := nw * scale, nh * scale;
    s.(scale := scale, translateX := (vw - scaledWidth) / 2.0, translateY := (vh - scaledHeight) / 2.0)
  }

  /**
   * After a load the image fits inside the viewer, fills it along at least
   * one axis, and is centred: equal margins on both sides of each axis.
   */
  lemma ImageLoadFitsAndCentres(s: ViewerState, vw: real, vh: real, nw: real, nh: real)
    requires nw > 0.0 && nh > 0.0
    ensures var r := ImageLoad(s, vw, vh, nw, nh);
      && nw * r.scale <= vw && nh * r.scale <= vh
      && (nw * r.scale == vw || nh * r.scale == vh)
      && r.translateX == vw - (r.translateX + nw * r.scale)
      && r.translateY == vh - (r.translateY + nh * r.scale)
  {
    var r := ImageLoad(s, vw, vh, nw, nh);
    assert nw * (vw / nw) == vw && nh * (vh / nh) == vh;
    if r.scale == vw / nw {
      assert nh * r.scale <= nh * (vh / nh);
    } else {
      assert nw * r.scale <= nw * (vw / nw);
    }
  }

  /** The load scale is not clamped: a 10 x 10 image in a 1000 x 1000 viewer is shown at scale 100. */
  lemma ImageLoadNotClamped()
    ensures ImageLoad(Initial, 1000.0, 1000.0, 10.0, 10.0).scale == 100.0
    ensures ImageLoad(Initial, 1000.0, 1000.0, 10.0, 10.0).scale > MaxScale
  {
  }

  /** A run of pointer moves, applied in order. */
  function Moves(s: ViewerState, pts: seq<(real, real)>): (r: ViewerState)
    ensures r.scale == s.scale
  {
    if pts == [] then s
    else
      var last := pts[|pts| - 1];
      MouseMove(Moves(s, pts[..|pts| - 1]), last.0, last.1)
  }

  /**
   * While dragging, a run of moves translates the image by the pointer's
   * total displacement: the last pointer position minus the position the
   * drag was last at.
   */
  lemma {:induction false} DragTotal(s: ViewerState, pts: seq<(real, real)>)
    requires s.isDragging && pts != []
    ensures var r := Moves(s, pts);
      && r.isDragging
      && r.translateX == s.translateX + (pts[|pts| - 1].0 - s.lastX)
      && r.translateY == s.translateY + (pts[|pts| - 1].1 - s.lastY)
      && r.lastX == pts[|pts| - 1].0 && r.lastY == pts[|pts| - 1].1
  {
    var init := pts[..|pts| - 1];
    if init != [] {
      DragTotal(s, init);
      assert init[|init| - 1] == pts[|pts| - 2];
    }
  }

  /** A press at `p0` followed by moves: the image moves by the last pointer position minus `p0`. */
  lemma PressAndDrag(s: ViewerState, p0: (real, real), pts: seq<(real, real)>)
    requires pts != []
    ensures var r := Moves(MouseDown(s, p0.0, p0.1), pts);
      r.translateX == s.translateX + (pts[|pts| - 1].0 - p0.0) &&
      r.translateY == s.translateY + (pts[|pts| - 1].1 - p0.1)
  {
    DragTotal(MouseDown(s, p0.0, p0.1), pts);
  }

  /** Without a press, moves do nothing. */
  lemma {:induction false} MovesWithoutDrag(s: ViewerState, pts: seq<(real, real)>)
    requires !s.isDragging
    ensures Moves(s, pts) == s
  {
    if pts != [] {
      MovesWithoutDrag(s, pts[..|pts| - 1]);
    }
  }

  /** The viewer of one page: the state record the handlers share. */
  class ImageViewer {
    var scale: real
    var translateX: real
    var translateY: real
    var lastX: real
    var lastY: real
    var isDragging: bool

    function State(): ViewerState
      reads this
    {
      ViewerState(scale, translateX, translateY, lastX, lastY, isDragging)
    }

    /** The scale is positive, so the wheel's division is defined. */
    ghost predicate Valid()
      reads this
    {
      scale > 0.0
    }

    constructor()
      ensures Valid() && State() == Initial
    {
      scale := 1.0;
      translateX := 0.0;
      translateY := 0.0;
      lastX := 0.0;
      lastY := 0.0;
      isDragging := false;
    }

    method HandleMouseDown(clientX: real, clientY: real)
      requires Valid()
      modifies this
      ensures Valid() && State() == MouseDown(old(State()), clientX, clientY)
    {
      isDragging := true;
      lastX := clientX;
      lastY := clientY;
    }

    method HandleMouseMove(clientX: real, clientY: real)
      requires Valid()
      modifies this
      ensures Valid() && State() == MouseMove(old(State()), clientX, clientY)
    {
      if !isDragging {
        return;
      }
      var dx := clientX - lastX;
      var dy := clientY - lastY;
      translateX := translateX + dx;
      translateY := translateY + dy;
      lastX := clientX;
      lastY := clientY;
    }

    method HandleMouseUp()
      requires Valid()
      modifies this
      ensures Valid() && State() == MouseUp(old(State()))
    {
      isDragging := false;
    }

    /** The wheel handler; the pointer position is taken relative to the viewer's top-left corner. */
    method HandleWheel(clientX: real, clientY: real, rectLeft: real, rectTop: real, deltaY: real)
      requires Valid()
      modifies this
      ensures Valid()
      ensures State() == Wheel(old(State()), clientX - rectLeft, clientY - rectTop, deltaY)
    {
      var mouseX := clientX - rectLeft;
      var mouseY := clientY - rectTop;
      var prevScale := scale;
      var newScale := WheelScale(prevScale, deltaY);
      var imageX := ImagePoint(mouseX, translateX, prevScale);
      var imageY := ImagePoint(mouseY, translateY, prevScale);
      scale := newScale;
      translateX := mouseX - imageX * newScale;
      translateY := mouseY - imageY * newScale;
    }

    /** The load handler, for a viewer and an image of positive size. */
    method HandleImageLoad(viewWidth: real, viewHeight: real, naturalWidth: real, naturalHeight: real)
      requires Valid()
      requires viewWidth > 0.0 && viewHeight > 0.0 && naturalWidth > 0.0 && naturalHeight > 0.0
      modifies this
      ensures Valid() && State() == ImageLoad(old(State()), viewWidth, viewHeight, naturalWidth, naturalHeight)
    {
      var scaleX := viewWidth / naturalWidth;
      var scaleY := viewHeight / naturalHeight;
      scale := Min(scaleX, scaleY);
      var scaledWidth := naturalWidth * scale;
      var scaledHeight := naturalHeight * scale;
      translateX := (viewWidth - scaledWidth) / 2.0;
      translateY := (viewHeight - scaledHeight) / 2.0;
    }
  }
}
