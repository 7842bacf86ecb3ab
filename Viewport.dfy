/** The viewport state of the fractal viewer: where the visible window of the
    complex plane sits (origin), how large it is at zoom 1 (delta), and the
    multiplicative zoom that divides it. */
module Viewport {
  import opened Geometry

  /** The translation divisor: a pan is measured against a quarter of the
      screen, in points. */
  const TranslationScaleFactor: real := 4.0

  /** The vertical span of the plane shown at zoom 1. */
  const VerticalSpan: real := 2.5

  /** The anchor the view starts from. */
  const StartOrigin: Point := Point(-0.5, 0.0)

  /** The zoom after one pinch sample of factor `z`, written as the source
      writes it: an increment of `(z - 1) * zoom`. It is a multiplication. */
  function Zoomed(zoom: real, z: real): (r: real)
    requires zoom > 0.0 && z > 0.0
    ensures r == zoom * z
    ensures r > 0.0
  {
    zoom + (z - 1.0) * zoom
  }

  /** The plane shift caused by a pan of `d` screen points: the pan is divided
      by the translation scale and then by the zoom; x is negated, y is not. */
  function PanShift(ts: Size, zoom: real, d: Point): (s: Point)
    requires ts.width > 0.0 && ts.height > 0.0 && zoom > 0.0
    ensures s.x * zoom * ts.width == -d.x
    ensures s.y * zoom * ts.height == d.y
  {
    Point((-d.x / ts.width) / zoom, (d.y / ts.height) / zoom)
  }

  /** The anchor after a pan of `d` at a fixed zoom. */
  function Panned(origin: Point, ts: Size, zoom: real, d: Point): Point
    requires ts.width > 0.0 && ts.height > 0.0 && zoom > 0.0
  {
    Add(origin, PanShift(ts, zoom, d))
  }

  /** The zoom after a series of pinch samples, applied first to last. */
  function ZoomedAll(zoom: real, zs: seq<real>): (r: real)
    requires zoom > 0.0
    requires forall i :: 0 <= i < |zs| ==> zs[i] > 0.0
    ensures r > 0.0
    decreases |zs|
  {
    if zs == [] then zoom else ZoomedAll(Zoomed(zoom, zs[0]), zs[1..])
  }

  function Product(zs: seq<real>): real
  {
    if zs == [] then 1.0 else zs[0] * Product(zs[1..])
  }

  /** Zoom composes multiplicatively: after pinch samples z1 .. zn the zoom
      is zoom0 * z1 * .. * zn. */
  lemma {:induction false} ZoomedAllIsProduct(zoom: real, zs: seq<real>)
    requires zoom > 0.0
    requires forall i :: 0 <= i < |zs| ==> zs[i] > 0.0
    ensures ZoomedAll(zoom, zs) == zoom * Product(zs)
    decreases |zs|
  {
    if zs != [] {
      ZoomedAllIsProduct(Zoomed(zoom, zs[0]), zs[1..]);
      assert Zoomed(zoom, zs[0]) * Product(zs[1..]) == zoom * (zs[0] * Product(zs[1..]));
    }
  }

  /** A pinch by `s` followed by a pinch by `1/s` restores the zoom. */
  lemma ZoomInverse(zoom: real, s: real)
    requires zoom > 0.0 && s > 0.0
    ensures Zoomed(Zoomed(zoom, s), 1.0 / s) == zoom
  {
  }

  /** At a fixed zoom, a pan followed by the opposite pan restores the anchor. */
  lemma PanInverse(origin: Point, ts: Size, zoom: real, d: Point)
    requires ts.width > 0.0 && ts.height > 0.0 && zoom > 0.0
    ensures Panned(Panned(origin, ts, zoom, d), ts, zoom, Neg(d)) == origin
  {
    ShiftIsLinear(ts, zoom, d, Neg(d));
  }

  /** At a fixed zoom, two pans shift the anchor as one pan by their sum. */
  lemma PanAdditive(origin: Point, ts: Size, zoom: real, d: Point, e: Point)
    requires ts.width > 0.0 && ts.height > 0.0 && zoom > 0.0
    ensures Panned(Panned(origin, ts, zoom, d), ts, zoom, e) == Panned(origin, ts, zoom, Add(d, e))
  {
    ShiftIsLinear(ts, zoom, d, e);
  }

  /** The shift of a sum of pans is the sum of their shifts. */
  lemma ShiftIsLinear(ts: Size, zoom: real, d: Point, e: Point)
    requires ts.width > 0.0 && ts.height > 0.0 && zoom > 0.0
    ensures PanShift(ts, zoom, Add(d, e)) == Add(PanShift(ts, zoom, d), PanShift(ts, zoom, e))
  {
    var sd, se, sde := PanShift(ts, zoom, d), PanShift(ts, zoom, e), PanShift(ts, zoom, Add(d, e));
    var k, m := zoom * ts.width, zoom * ts.height;
    assert (sd.x + se.x) * k == sd.x * k + se.x * k;
    assert (sd.y + se.y) * m == sd.y * m + se.y * m;
    CancelFactor(sde.x, sd.x + se.x, k);
    CancelFactor(sde.y, sd.y + se.y, m);
  }

  lemma CancelFactor(a: real, b: real, k: real)
    requires k != 0.0 && a * k == b * k
    ensures a == b
  {
  }

  /** The shift from a fixed pan is inversely proportional to the zoom:
      at `k` times the zoom it is `1/k` of the shift. */
  lemma PanInverselyProportional(ts: Size, zoom: real, k: real, d: Point)
    requires ts.width > 0.0 && ts.height > 0.0 && zoom > 0.0 && k > 0.0
    ensures PanShift(ts, k * zoom, d).x * k == PanShift(ts, zoom, d).x
    ensures PanShift(ts, k * zoom, d).y * k == PanShift(ts, zoom, d).y
  {
  }

  /** The anchor after a series of pans at a fixed zoom, first to last. */
  function PannedAll(origin: Point, ts: Size, zoom: real, ds: seq<Point>): Point
    requires ts.width > 0.0 && ts.height > 0.0 && zoom > 0.0
    decreases |ds|
  {
    if ds == [] then origin else PannedAll(Panned(origin, ts, zoom, ds[0]), ts, zoom, ds[1..])
  }

  /** At a fixed zoom, a series of pans shifts the anchor as one pan by the
      sum of the series. */
  lemma {:induction false} PannedAllIsOnePan(origin: Point, ts: Size, zoom: real, ds: seq<Point>)
    requires ts.width > 0.0 && ts.height > 0.0 && zoom > 0.0
    ensures PannedAll(origin, ts, zoom, ds) == Panned(origin, ts, zoom, Sum(ds))
    decreases |ds|
  {
    if ds != [] {
      PannedAllIsOnePan(Panned(origin, ts, zoom, ds[0]), ts, zoom, ds[1..]);
      PanAdditive(origin, ts, zoom, ds[0], Sum(ds[1..]));
    }
  }

  /** The viewport (class Mandelbrot of the Swift viewer). The first five fields
      are fixed at construction; origin, zoom and delta change in place. */
  class Mandelbrot {
    /** Device resolution in pixels. */
    const resolution: Size
    /** Screen size in points divided by the translation divisor. */
    const translationScale: Size

    const initialOrigin: Point
    const initialZoom: real
    const initialDelta: Point

    var origin: Point
    var zoom: real
    var delta: Point

    /** The object invariant: zoom stays positive, the translation scale can
        be divided by, and delta never departs from its initial value. */
    ghost predicate Valid()
      reads this
    {
      && zoom > 0.0
      && initialZoom > 0.0
      && translationScale.width > 0.0
      && translationScale.height > 0.0
      && delta == initialDelta
    }

    /** Builds the viewport for a screen of `screenWidth` by `screenHeight`
        points at `nativeScale` pixels per point. */
    constructor (screenWidth: real, screenHeight: real, nativeScale: real)
      requires screenWidth > 0.0 && screenHeight > 0.0 && nativeScale > 0.0
      ensures Valid()
      ensures resolution == Size(screenWidth * nativeScale, screenHeight * nativeScale)
      ensures translationScale == Size(screenWidth / TranslationScaleFactor, screenHeight / TranslationScaleFactor)
      ensures initialOrigin == StartOrigin && origin == StartOrigin
      ensures initialZoom == 1.0 && zoom == 1.0
      ensures initialDelta == Point(VerticalSpan * resolution.width / resolution.height, VerticalSpan)
      ensures delta == initialDelta
      ensures initialDelta.x == VerticalSpan * screenWidth / screenHeight
    {
      var res := Size(screenWidth * nativeScale, screenHeight * nativeScale);
      resolution := res;
      translationScale := Size(screenWidth / TranslationScaleFactor, screenHeight / TranslationScaleFactor);
      initialOrigin := StartOrigin;
      origin := StartOrigin;
      initialDelta := Point(VerticalSpan * res.width / res.height, VerticalSpan);
      delta := Point(VerticalSpan * res.width / res.height, VerticalSpan);
      initialZoom := 1.0;
      zoom := 1.0;
      new;
      assert VerticalSpan * res.width / res.height == VerticalSpan * screenWidth / screenHeight by {
        assert res.width / res.height == screenWidth / screenHeight;
      }
    }

    /** Restores the initial origin, zoom and delta. The new state depends
        on the constants alone, so a second reset changes nothing. */
    method Reset()
      requires Valid()
      modifies this
      ensures Valid()
      ensures origin == initialOrigin && zoom == initialZoom && delta == initialDelta
      ensures old(origin) == initialOrigin && old(zoom) == initialZoom ==> unchanged(this)
    {
      origin := initialOrigin;
      zoom := initialZoom;
      delta := initialDelta;
    }

    /** Moves the anchor by a pan of `dx`, `dy` screen points; only the
        origin changes. */
    method MoveOrigin(dx: real, dy: real)
      requires Valid()
      modifies this`origin
      ensures Valid()
      ensures origin == Panned(old(origin), translationScale, zoom, Point(dx, dy))
      ensures origin.x == old(origin.x) - dx / translationScale.width / zoom
      ensures origin.y == old(origin.y) + dy / translationScale.height / zoom
      ensures zoom == old(zoom) && delta == old(delta)
    {
      var deltaX := (-dx / translationScale.width) / zoom;
      var deltaY := (dy / translationScale.height) / zoom;
      assert -dx / translationScale.width == -(dx / translationScale.width);
      origin := Point(origin.x + deltaX, origin.y + deltaY);
    }

    /** The visual reference point handed to the renderer: the anchor less
        half the visible extent. */
    function GetOrigin(): (p: Point)
      reads this
      requires Valid()
      ensures Add(p, Point(GetDelta().x / 2.0, GetDelta().y / 2.0)) == origin
    {
      Point(origin.x - ((delta.x / zoom) / 2.0), origin.y - ((delta.y / zoom) / 2.0))
    }

    /** Applies one pinch sample `z`; only the zoom changes, and the visible
        extent shrinks by the factor `z`. */
    method SetZoom(z: real)
      requires Valid() && z > 0.0
      modifies this`zoom
      ensures Valid()
      ensures zoom == Zoomed(old(zoom), z)
      ensures GetDelta().x * z == old(GetDelta().x) && GetDelta().y * z == old(GetDelta().y)
      ensures origin == old(origin) && delta == old(delta)
    {
      zoom := zoom + (z - 1.0) * zoom;
    }

    /** The visible extent at the current zoom: delta divided by zoom. */
    function GetDelta(): (d: Point)
      reads this
      requires Valid()
      ensures d.x * zoom == delta.x && d.y * zoom == delta.y
    {
      Point(delta.x / zoom, delta.y / zoom)
    }
  }
}
