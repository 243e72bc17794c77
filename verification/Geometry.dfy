/**
 The two coordinate systems of remote control: native pixels of the display, and pixels of the
 screenshot that was last delivered. Ratios are exact here.
 */
module Geometry {
  import opened Common
  import Json

  const MIN_WIDTH := 320
  const MAX_WIDTH := 2576

  // ----- Rounding ---------------------------------------------------------------------------

  /** The integer nearest to p / q, and of two the even one. */
  function Round(p: int, q: int): int
    requires q > 0
  {
    var floor, twice := p / q, 2 * (p % q);
    if twice < q then floor
    else if twice > q then floor + 1
    else if floor % 2 == 0 then floor else floor + 1
  }

  /** Rounding is off by half at most, and by half only towards an even number. */
  lemma RoundIsNearest(p: int, q: int)
    requires q > 0
    ensures var r := Round(p, q);
      -q <= 2 * (p - r * q) <= q && (2 * (p - r * q) == q || 2 * (p - r * q) == -q ==> r % 2 == 0)
  {
    var f := p / q;
    assert p == f * q + p % q;
    assert (f + 1) * q == f * q + q;
  }

  /** And nothing else is. */
  lemma NearestIsUnique(p: int, q: int, r: int)
    requires q > 0 && -q < 2 * (p - r * q) < q
    ensures Round(p, q) == r
  {
    RoundIsNearest(p, q);
    var s := Round(p, q);
    assert (r + 1) * q == r * q + q && (s + 1) * q == s * q + q;
    if s > r {
      MultiplyMonotone(r + 1, s, q);
    } else if s < r {
      MultiplyMonotone(s + 1, r, q);
    }
  }

  lemma MultiplyMonotone(a: int, b: int, q: int)
    requires a <= b && q > 0
    ensures a * q <= b * q
  {
    assert b * q - a * q == (b - a) * q;
  }

  lemma RoundIsMonotone(p: int, p': int, q: int)
    requires q > 0 && p <= p'
    ensures Round(p, q) <= Round(p', q)
  {
    hide Round;
    var r, r' := Round(p, q), Round(p', q);
    RoundIsNearest(p, q);
    RoundIsNearest(p', q);
    assert (r' + 1) * q == r' * q + q;
    if r' < r { MultiplyMonotone(r' + 1, r, q); }
  }

  lemma RoundOfMultiple(n: int, q: int)
    requires q > 0
    ensures Round(n * q, q) == n
  {
    NearestIsUnique(n * q, q, n);
  }

  // ----- Screenshot size --------------------------------------------------------------------

  /** The size a screenshot is delivered in; there is none of a display without area. */
  function TargetSize(nativeWidth: int, nativeHeight: int, width: int): Option<(int, int)> {
    if nativeWidth <= 0 || nativeHeight <= 0 then None
    else
      var w := Max(1, Min(width, nativeWidth));
      Some((w, Max(1, Round(w * nativeHeight, nativeWidth))))
  }

  /** Neither axis is ever upscaled, and the height is the nearest to the display's aspect ratio. */
  lemma NeverUpscales(nativeWidth: int, nativeHeight: int, width: int)
    requires nativeWidth > 0 && nativeHeight > 0
    ensures var size := TargetSize(nativeWidth, nativeHeight, width).value;
      && 1 <= size.0 <= nativeWidth && 1 <= size.1 <= nativeHeight
      && size.0 == (if width < 1 then 1 else if width <= nativeWidth then width else nativeWidth)
      && (width >= nativeWidth ==> size == (nativeWidth, nativeHeight))
      && (size.1 > 1 ==> -nativeWidth <= 2 * (size.0 * nativeHeight - size.1 * nativeWidth) <= nativeWidth)
  {
    var w := Max(1, Min(width, nativeWidth));
    RoundOfMultiple(nativeHeight, nativeWidth);
    MultiplyMonotone(w, nativeWidth, nativeHeight);
    RoundIsMonotone(w * nativeHeight, nativeHeight * nativeWidth, nativeWidth);
    RoundIsNearest(w * nativeHeight, nativeWidth);
  }

  // ----- One axis ---------------------------------------------------------------------------

  /**
   On an axis of `to` pixels, `there` is the nearest to where pixel `x` of `from` lies, or the even one of
   the two nearest.
   */
  predicate Nearest(x: int, from: int, there: int, to: int) {
    var twice := 2 * (x * to - there * from);
    -from <= twice <= from && (twice == from || twice == -from ==> there % 2 == 0)
  }

  /** From the screenshot to the display, along an axis of `delivered` and `native` pixels. */
  function ToNative(x: int, delivered: int, native: int): (there: int)
    requires delivered > 0
    ensures Nearest(x, delivered, there, native)
  {
    RoundIsNearest(x * native, delivered);
    Round(x * native, delivered)
  }

  /** And from the display to the screenshot. */
  function ToDelivered(x: int, delivered: int, native: int): (there: int)
    requires native > 0
    ensures Nearest(x, native, there, delivered)
  {
    RoundIsNearest(x * delivered, native);
    Round(x * delivered, native)
  }

  /** A pixel of the screenshot names a pixel of the display, which names it in turn. */
  predicate RoundTrips(x: int, delivered: int, native: int)
    requires delivered > 0 && native > 0
  {
    0 <= ToNative(x, delivered, native) < native && ToDelivered(ToNative(x, delivered, native), delivered, native) == x
  }

  lemma PixelRoundTrips(x: int, delivered: int, native: int)
    requires 0 <= x < delivered <= native
    ensures RoundTrips(x, delivered, native)
  {
    var y := ToNative(x, delivered, native);
    RoundIsNearest(x * native, delivered);
    if delivered == native {
      RoundOfMultiple(x, native);
    } else {
      // y * delivered is within delivered / 2 of x * native, which is less than native / 2
      NearestIsUnique(y * delivered, native, x);
      StaysInside(x, y, delivered, native);
    }
  }

  lemma StaysInside(x: int, y: int, delivered: int, native: int)
    requires 0 <= x < delivered < native
    requires -delivered <= 2 * (x * native - y * delivered) <= delivered
    ensures 0 <= y < native
  {
    MultiplyMonotone(x, delivered - 1, native);
    assert (delivered - 1) * native == delivered * native - native;
    if y >= native { MultiplyMonotone(native, y, delivered); }
    if y < 0 {
      MultiplyMonotone(y, -1, delivered);
      MultiplyMonotone(0, x, native);
    }
  }

  /** If the pixels up to `x` all round-trip, they name ever larger pixels of the display. */
  lemma {:induction false} NamesAreDistinct(x: int, delivered: int, native: int)
    requires 0 <= x < delivered && native > 0
    requires forall i :: 0 <= i <= x ==> RoundTrips(i, delivered, native)
    ensures x <= ToNative(x, delivered, native) < native
    decreases x
  {
    assert RoundTrips(x, delivered, native);
    if x > 0 {
      assert RoundTrips(x - 1, delivered, native);
      NamesAreDistinct(x - 1, delivered, native);
      MultiplyMonotone(x - 1, x, native);
      RoundIsMonotone((x - 1) * native, x * native, delivered);
    }
  }

  /** Every pixel of an axis round-trips exactly when the axis is not upscaled. */
  lemma AxisRoundTripsIff(delivered: int, native: int)
    requires delivered > 0 && native > 0
    ensures (forall x :: 0 <= x < delivered ==> RoundTrips(x, delivered, native)) <==> delivered <= native
  {
    if delivered <= native {
      forall x | 0 <= x < delivered ensures RoundTrips(x, delivered, native) {
        PixelRoundTrips(x, delivered, native);
      }
    } else if forall x :: 0 <= x < delivered ==> RoundTrips(x, delivered, native) {
      NamesAreDistinct(delivered - 1, delivered, native);
    }
  }

  // ----- The service ------------------------------------------------------------------------

  /** A parameter of an action: a point, or something that is not scaled. */
  datatype Param = Point(x: int, y: int) | Plain(value: Json.Value)

  datatype Action = Action(name: string, params: map<string, Param>)

  /** Ratios of native to delivered pixels along the two axes. */
  datatype Scale = Scale(nativeWidth: int, nativeHeight: int, deliveredWidth: int, deliveredHeight: int)

  predicate IsUnit(s: Scale) { s.nativeWidth == s.deliveredWidth && s.nativeHeight == s.deliveredHeight }

  predicate ValidScale(s: Scale) { s.deliveredWidth > 0 && s.deliveredHeight > 0 }

  const POINTS := ["coordinate", "start_coordinate"]

  /** What parsing an action leaves: its coordinates are points. */
  predicate Parsed(action: Action) { forall key :: key in POINTS && key in action.params ==> action.params[key].Point? }

  function ScalePoint(p: Param, s: Scale): (r: Param)
    requires p.Point? && ValidScale(s)
    ensures r.Point?
  {
    Point(ToNative(p.x, s.deliveredWidth, s.nativeWidth), ToNative(p.y, s.deliveredHeight, s.nativeHeight))
  }

  /** `there` names the pixel of the display nearest to where `p` lies in the screenshot. */
  predicate Names(p: Param, s: Scale, there: Param) {
    && p.Point? && there.Point?
    && Nearest(p.x, s.deliveredWidth, there.x, s.nativeWidth)
    && Nearest(p.y, s.deliveredHeight, there.y, s.nativeHeight)
  }

  method ScaleAction(action: Action, s: Scale) returns (r: Action)
    requires Parsed(action) && ValidScale(s)
    ensures r.name == action.name && r.params.Keys == action.params.Keys
    ensures forall key :: key in action.params ==>
      r.params[key] == if key in POINTS then ScalePoint(action.params[key], s) else action.params[key]
    ensures forall key :: key in action.params && key in ["coordinate", "start_coordinate"] ==>
      Names(action.params[key], s, r.params[key])
    ensures forall key :: key in action.params && key !in ["coordinate", "start_coordinate"] ==>
      r.params[key] == action.params[key]
  {
    if IsUnit(s) {
      UnitScaleIsIdentity(action, s);
      return action;
    }
    var params := action.params;
    for i := 0 to |POINTS|
      invariant params.Keys == action.params.Keys
      invariant forall key :: key in action.params ==>
        params[key] == if key in POINTS[..i] then ScalePoint(action.params[key], s) else action.params[key]
    {
      var key := POINTS[i];
      assert POINTS[..i + 1] == POINTS[..i] + [key];
      if key in params { params := params[key := ScalePoint(params[key], s)]; }
    }
    assert POINTS[..|POINTS|] == POINTS;
    r := Action(action.name, params);
  }

  lemma UnitScaleIsIdentity(action: Action, s: Scale)
    requires Parsed(action) && ValidScale(s) && IsUnit(s)
    ensures forall key :: key in action.params && key in POINTS ==>
      ScalePoint(action.params[key], s) == action.params[key]
  {
    forall key | key in action.params && key in POINTS
      ensures ScalePoint(action.params[key], s) == action.params[key]
    {
      RoundOfMultiple(action.params[key].x, s.deliveredWidth);
      RoundOfMultiple(action.params[key].y, s.deliveredHeight);
    }
  }

  class ControlService {
    // The size of the screenshot last delivered.
    var delivered: Option<(int, int)>

    constructor ()
      ensures delivered == None
    {
      delivered := None;
    }

    /** Delivers a screenshot; the width asked for may be refused, and a display may have no area. */
    method Screenshot(nativeWidth: int, nativeHeight: int, width: int) returns (size: Option<(int, int)>)
      modifies this
      ensures size == if 320 <= width <= 2576 then TargetSize(nativeWidth, nativeHeight, width) else None
      ensures delivered == if size.Some? then size else old(delivered)
    {
      if !(MIN_WIDTH <= width <= MAX_WIDTH) { return None; }
      size := TargetSize(nativeWidth, nativeHeight, width);
      if size.Some? { delivered := size; }
    }

    /** The ratios for a display of the given size now; one to one until a screenshot was delivered. */
    function ScaleFor(nativeWidth: int, nativeHeight: int): (s: Scale)
      requires delivered.Some? ==> delivered.value.0 >= 0 && delivered.value.1 >= 0
      reads this
      ensures ValidScale(s)
    {
      if delivered.None? || delivered.value.0 == 0 || delivered.value.1 == 0 then Scale(1, 1, 1, 1)
      else Scale(nativeWidth, nativeHeight, delivered.value.0, delivered.value.1)
    }

    /** Whether a screenshot with any pixels was delivered. */
    predicate HasScreenshot()
      reads this
    {
      delivered.Some? && delivered.value.0 > 0 && delivered.value.1 > 0
    }

    /**
     The action as the display is told to perform it: each point of the last screenshot becomes the pixel of the
     display nearest to it, and nothing changes before there is a screenshot.
     */
    method Perform(action: Action, nativeWidth: int, nativeHeight: int) returns (native: Action)
      requires Parsed(action) && (delivered.Some? ==> delivered.value.0 >= 0 && delivered.value.1 >= 0)
      ensures native.name == action.name && native.params.Keys == action.params.Keys
      ensures var s := ScaleFor(nativeWidth, nativeHeight);
        forall key :: key in action.params ==>
          native.params[key] == if key in POINTS then ScalePoint(action.params[key], s) else action.params[key]
      ensures !HasScreenshot() ==> native == action
      ensures HasScreenshot() ==>
        forall key :: key in action.params ==>
          if key in ["coordinate", "start_coordinate"]
          then Names(action.params[key], Scale(nativeWidth, nativeHeight, delivered.value.0, delivered.value.1),
                     native.params[key])
          else native.params[key] == action.params[key]
    {
      native := ScaleAction(action, ScaleFor(nativeWidth, nativeHeight));
      if !HasScreenshot() {
        UnitScaleIsIdentity(action, Scale(1, 1, 1, 1));
        assert native.params == action.params;
      }
    }

    /** A cursor position of the display as the caller is told it: the pixel of the last screenshot nearest to it. */
    method Report(cursor: Param, nativeWidth: int, nativeHeight: int) returns (seen: Param)
      requires cursor.Point? && nativeWidth > 0 && nativeHeight > 0
      requires delivered.Some? ==> delivered.value.0 >= 0 && delivered.value.1 >= 0
      ensures var s := ScaleFor(nativeWidth, nativeHeight);
        seen == Point(ToDelivered(cursor.x, s.deliveredWidth, s.nativeWidth),
                      ToDelivered(cursor.y, s.deliveredHeight, s.nativeHeight))
      ensures !HasScreenshot() ==> seen == cursor
      ensures HasScreenshot() ==>
        && seen.Point?
        && Nearest(cursor.x, nativeWidth, seen.x, delivered.value.0)
        && Nearest(cursor.y, nativeHeight, seen.y, delivered.value.1)
    {
      var s := ScaleFor(nativeWidth, nativeHeight);
      RoundOfMultiple(cursor.x, s.nativeWidth);
      RoundOfMultiple(cursor.y, s.nativeHeight);
      if IsUnit(s) { return cursor; }
      seen := Point(Round(cursor.x * s.deliveredWidth, s.nativeWidth),
        Round(cursor.y * s.deliveredHeight, s.nativeHeight));
    }
  }

  /**
   A caller that takes a screenshot, moves the cursor to a point of it and asks where the cursor is,
   on a display that does not change, is told that very point; and the cursor went to the pixel of the
   display nearest to it.
   */
  method MoveAndAsk(service: ControlService, nativeWidth: int, nativeHeight: int, width: int, x: int, y: int)
    returns (there: Param, seen: Param)
    requires nativeWidth > 0 && nativeHeight > 0 && 320 <= width <= 2576
    requires var size := TargetSize(nativeWidth, nativeHeight, width).value; 0 <= x < size.0 && 0 <= y < size.1
    modifies service
    ensures there.Point? && 0 <= there.x < nativeWidth && 0 <= there.y < nativeHeight
    ensures var size := TargetSize(nativeWidth, nativeHeight, width).value;
      && -size.0 <= 2 * (x * nativeWidth - there.x * size.0) <= size.0
      && -size.1 <= 2 * (y * nativeHeight - there.y * size.1) <= size.1
    ensures seen == Point(x, y)
  {
    NeverUpscales(nativeWidth, nativeHeight, width);
    var size := service.Screenshot(nativeWidth, nativeHeight, width);
    var move := Action("mouse_move", map["coordinate" := Point(x, y)]);
    var native := service.Perform(move, nativeWidth, nativeHeight);
    assert "coordinate" in move.params && POINTS[0] == "coordinate";
    there := native.params["coordinate"];
    PixelRoundTrips(x, size.value.0, nativeWidth);
    PixelRoundTrips(y, size.value.1, nativeHeight);
    seen := service.Report(there, nativeWidth, nativeHeight);
  }
}
