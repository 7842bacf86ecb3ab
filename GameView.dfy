/** The gesture and frame glue of the view controller: pan tracking with a
    remembered last point, pinch forwarding, and the five-value parameter
    block handed to the renderer each frame. */
module GameView {
  import opened Geometry
  import opened Viewport

  /** The states a gesture recognizer reports (UIGestureRecognizerState). */
  datatype GestureState = Possible | Began | Changed | Ended | Cancelled | Failed

  /** One pan callback: the recognizer's state and its translation in the
      view, cumulative since the gesture began. */
  datatype PanSample = PanSample(state: GestureState, translation: Point)

  /** The increment a pan callback forwards to the viewport: the translation
      since the remembered point. */
  function PanIncrement(last: Point, sample: PanSample): (d: Point)
    ensures Add(last, d) == sample.translation
  {
    Sub(sample.translation, last)
  }

  /** The remembered point after a pan callback: the current translation,
      or (0, 0) when the callback reports Ended. */
  function NextLastPoint(sample: PanSample): (p: Point)
    ensures sample.state == Ended ==> p == Zero
    ensures sample.state != Ended ==> p == sample.translation
  {
    if sample.state == Ended then Zero else sample.translation
  }

  /** The increments forwarded over a series of pan callbacks, starting from
      the remembered point `last`. */
  function PanIncrements(last: Point, samples: seq<PanSample>): (r: seq<Point>)
    ensures |r| == |samples|
    ensures |samples| > 0 ==> r[0] == Sub(samples[0].translation, last)
    decreases |samples|
  {
    if samples == [] then []
    else [PanIncrement(last, samples[0])] + PanIncrements(NextLastPoint(samples[0]), samples[1..])
  }

  /** The remembered point after a series of pan callbacks. */
  function LastPointAfter(last: Point, samples: seq<PanSample>): (p: Point)
    ensures samples == [] ==> p == last
    ensures samples != [] ==> p == NextLastPoint(samples[|samples| - 1])
    decreases |samples|
  {
    if samples == [] then last else LastPointAfter(NextLastPoint(samples[0]), samples[1..])
  }

  /** No sample before the last one is an Ended callback. Only Ended resets
      the remembered point, so this is what makes a series one gesture for
      the pan tracker. */
  ghost predicate NoEndedBeforeLast(samples: seq<PanSample>)
  {
    forall i :: 0 <= i < |samples| - 1 ==> samples[i].state != Ended
  }

  /** Over a series with no Ended callback before the last, the forwarded
      increments telescope: they add up to the last cumulative translation
      less the remembered starting point. */
  lemma {:induction false} Telescoping(last: Point, samples: seq<PanSample>)
    requires samples != [] && NoEndedBeforeLast(samples)
    ensures Sum(PanIncrements(last, samples)) == Sub(samples[|samples| - 1].translation, last)
    decreases |samples|
  {
    var incs := PanIncrements(last, samples);
    if |samples| > 1 {
      var rest := samples[1..];
      assert NoEndedBeforeLast(rest) by {
        forall i | 0 <= i < |rest| - 1 ensures rest[i].state != Ended {
          assert rest[i] == samples[i + 1];
        }
      }
      assert samples[0].state != Ended;
      Telescoping(samples[0].translation, rest);
      assert incs[1..] == PanIncrements(samples[0].translation, rest);
    } else {
      assert incs[1..] == [];
    }
  }

  /** A series started from (0, 0) with no Ended callback before the last
      forwards, in total, exactly its last cumulative translation. */
  lemma GestureForwardsItsTranslation(samples: seq<PanSample>)
    requires samples != [] && NoEndedBeforeLast(samples)
    ensures Sum(PanIncrements(Zero, samples)) == samples[|samples| - 1].translation
  {
    Telescoping(Zero, samples);
  }

  /** After a series that ends with an Ended callback the remembered point is
      (0, 0), whatever it was before. */
  lemma {:induction false} EndedResetsLastPoint(last: Point, samples: seq<PanSample>)
    requires samples != [] && samples[|samples| - 1].state == Ended
    ensures LastPointAfter(last, samples) == Zero
    decreases |samples|
  {
    if |samples| > 1 {
      EndedResetsLastPoint(NextLastPoint(samples[0]), samples[1..]);
    }
  }

  /** Increments over two series are the increments over the first followed
      by those over the second, from where the first left the point. */
  lemma {:induction false} PanIncrementsAppend(last: Point, g1: seq<PanSample>, g2: seq<PanSample>)
    ensures PanIncrements(last, g1 + g2) == PanIncrements(last, g1) + PanIncrements(LastPointAfter(last, g1), g2)
    decreases |g1|
  {
    if g1 == [] {
      assert g1 + g2 == g2;
    } else {
      assert (g1 + g2)[1..] == g1[1..] + g2;
      PanIncrementsAppend(NextLastPoint(g1[0]), g1[1..], g2);
    }
  }

  /** Each forwarded increment is the sample's translation less the point
      remembered after all earlier samples. */
  lemma {:induction false} PanIncrementsAt(last: Point, samples: seq<PanSample>, i: nat)
    requires i < |samples|
    ensures PanIncrements(last, samples)[i] == PanIncrement(LastPointAfter(last, samples[..i]), samples[i])
    decreases i
  {
    if i > 0 {
      var rest := samples[1..];
      PanIncrementsAt(NextLastPoint(samples[0]), rest, i - 1);
      assert rest[..i - 1] == samples[..i][1..];
      assert samples[..i][0] == samples[0];
    }
  }

  /** No offset carries over after an Ended callback: the next series
      forwards what it would forward from a fresh start, and its first
      increment is its own first translation. */
  lemma NoCarryOver(last: Point, g1: seq<PanSample>, g2: seq<PanSample>)
    requires g1 != [] && g1[|g1| - 1].state == Ended
    ensures PanIncrements(last, g1 + g2) == PanIncrements(last, g1) + PanIncrements(Zero, g2)
    ensures g2 != [] ==> PanIncrements(last, g1 + g2)[|g1|] == g2[0].translation
  {
    PanIncrementsAppend(last, g1, g2);
    EndedResetsLastPoint(last, g1);
  }

  /** Only Ended resets the remembered point: after a series whose last
      callback is not Ended (a Cancelled or Failed gesture, say), the next
      series' first increment is measured from that callback's translation. */
  lemma CarryOverWithoutEnded(last: Point, g1: seq<PanSample>, g2: seq<PanSample>)
    requires g1 != [] && g1[|g1| - 1].state != Ended && g2 != []
    ensures PanIncrements(last, g1 + g2)[|g1|] == Sub(g2[0].translation, g1[|g1| - 1].translation)
  {
    PanIncrementsAppend(last, g1, g2);
  }

  /** A cancelled pan to (5, 0) followed by a new pan to (1, 0): the new
      pan's first increment is (-4, 0), not (1, 0). */
  lemma CancelledPanCarriesOver()
    ensures PanIncrements(Zero, [PanSample(Cancelled, Point(5.0, 0.0)), PanSample(Began, Point(1.0, 0.0))])[1]
         == Point(-4.0, 0.0)
  {
    var g1, g2 := [PanSample(Cancelled, Point(5.0, 0.0))], [PanSample(Began, Point(1.0, 0.0))];
    assert g1 + g2 == [PanSample(Cancelled, Point(5.0, 0.0)), PanSample(Began, Point(1.0, 0.0))];
    CarryOverWithoutEnded(Zero, g1, g2);
  }

  /** At a fixed zoom, a series started from (0, 0) with no Ended callback
      before the last moves the anchor as a single pan by its last
      cumulative translation. */
  lemma GestureNetPan(origin: Point, ts: Size, zoom: real, samples: seq<PanSample>)
    requires ts.width > 0.0 && ts.height > 0.0 && zoom > 0.0
    requires samples != [] && NoEndedBeforeLast(samples)
    ensures PannedAll(origin, ts, zoom, PanIncrements(Zero, samples))
         == Panned(origin, ts, zoom, samples[|samples| - 1].translation)
  {
    PannedAllIsOnePan(origin, ts, zoom, PanIncrements(Zero, samples));
    GestureForwardsItsTranslation(samples);
  }

  /** A pinch recognizer: its scale is the factor since it was last reset. */
  class PinchGestureRecognizer {
    var scale: real

    constructor ()
      ensures scale == 1.0
    {
      scale := 1.0;
    }
  }

  /** The view controller's gesture and frame glue. It owns the remembered
      pan point and refers to the viewport it drives. */
  class GameViewController {
    var lastPoint: Point
    const mandel: Mandelbrot

    ghost predicate Valid()
      reads this, mandel
    {
      mandel.Valid()
    }

    constructor (m: Mandelbrot)
      requires m.Valid()
      ensures Valid() && mandel == m && lastPoint == Zero
    {
      lastPoint := Zero;
      mandel := m;
    }

    /** Forwards a pinch sample to the viewport and resets the recognizer's
        scale to 1, so that the next sample is relative to this one. */
    method HandlePinch(recognizer: PinchGestureRecognizer)
      requires Valid() && recognizer.scale > 0.0
      modifies mandel`zoom, recognizer`scale
      ensures Valid()
      ensures mandel.zoom == Zoomed(old(mandel.zoom), old(recognizer.scale))
      ensures old(recognizer.scale) == 1.0 ==> mandel.zoom == old(mandel.zoom)
      ensures recognizer.scale == 1.0
      ensures mandel.origin == old(mandel.origin) && lastPoint == old(lastPoint)
    {
      mandel.SetZoom(recognizer.scale);
      recognizer.scale := 1.0;
    }

    /** Forwards the translation since the remembered point to the viewport,
        then remembers the current translation, or (0, 0) when the gesture
        has ended. */
    method DidPan(sample: PanSample)
      requires Valid()
      modifies this`lastPoint, mandel`origin
      ensures Valid()
      ensures mandel.origin == Panned(old(mandel.origin), mandel.translationScale, mandel.zoom,
                                      PanIncrement(old(lastPoint), sample))
      ensures lastPoint == NextLastPoint(sample)
      ensures mandel.zoom == old(mandel.zoom)
    {
      var currentPoint := sample.translation;
      var increment := PanIncrement(lastPoint, sample);
      mandel.MoveOrigin(increment.x, increment.y);
      lastPoint := currentPoint;
      if sample.state == Ended {
        lastPoint := Zero;
      }
    }

    /** A series of pan callbacks, delivered one after another: the
        remembered point and the viewport's anchor follow the value-level
        pan tracker, so its telescoping lemmas hold of the controller. */
    method DidPanAll(samples: seq<PanSample>)
      requires Valid()
      modifies this`lastPoint, mandel`origin
      ensures Valid()
      ensures lastPoint == LastPointAfter(old(lastPoint), samples)
      ensures mandel.origin == PannedAll(old(mandel.origin), mandel.translationScale, mandel.zoom,
                                         PanIncrements(old(lastPoint), samples))
      ensures mandel.zoom == old(mandel.zoom)
      decreases |samples|
    {
      if samples != [] {
        DidPan(samples[0]);
        DidPanAll(samples[1..]);
      }
    }

    /** The per-frame parameter block, in the order zoom, visible extent
        (x, y), visual origin (x, y). The viewport's zoom, delta and anchor
        can be read back from it. */
    function FragData(): (data: seq<real>)
      reads this, mandel
      requires Valid()
      ensures |data| == 5
      ensures data[0] == mandel.zoom
      ensures data[1] * data[0] == mandel.delta.x && data[2] * data[0] == mandel.delta.y
      ensures data[3] + data[1] / 2.0 == mandel.origin.x && data[4] + data[2] / 2.0 == mandel.origin.y
    {
      [mandel.zoom, mandel.GetDelta().x, mandel.GetDelta().y, mandel.GetOrigin().x, mandel.GetOrigin().y]
    }
  }
}
