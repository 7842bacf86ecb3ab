# Mandelbrot viewer: viewport and gesture glue

This project models the part of the Metal Mandelbrot viewer that turns touch
gestures into a window on the complex plane. It covers two pieces:

- the viewport object `Mandelbrot`, which keeps an anchor `origin`, an
  extent `delta` and a multiplicative `zoom`;
- the view controller glue that drives it: pan tracking with a remembered
  `lastPoint`, pinch forwarding with the recognizer's scale reset to 1, and
  the five-value parameter block built for the fragment shader every frame.

Numbers are exact `real`s, not `CGFloat`/`Float`. The screen size and native
scale are constructor parameters instead of reads of `UIScreen.main`.

Modules:

- `Geometry`: `Point` (CGPoint) and `Size` (CGSize) with addition,
  subtraction, negation and the sum of a sequence.
- `Viewport`: the constants, the value-level laws of one pinch sample
  (`Zoomed`) and one pan (`PanShift`, `Panned`) with their composition lemmas,
  and the class `Mandelbrot`. Its methods change `origin` and `zoom` in place,
  and its getters are functions. `Valid()` keeps `zoom > 0`, a positive
  translation scale and `delta == initialDelta`. Together with the frames of
  the methods, this is the statement that delta is never rescaled.
- `GameView`: gesture states as an enum, pan samples, the value-level pan
  tracker (`PanIncrements`, `LastPointAfter`) with the telescoping and
  no-carry-over lemmas, and the class `GameViewController` with `DidPan`,
  `HandlePinch` and `FragData`. The controller's `lastPoint` global becomes a
  field. The `mandel` global becomes a reference held by the controller.

Constants follow the code:

- the start anchor is `(-0.5, 0)`;
- the vertical span is `2.5`;
- the translation divisor is `4`, applied to the screen size in points.

The controller calls `mandel.setOrigin(_, dy:)` and `mandel.setZoom(Float)`.
The viewport class declares `moveOrigin(dx:dy:)` and `setZoom(z:)`. The model
treats each pair as one operation (`MoveOrigin`, `SetZoom`).

The frame parameter block follows the array literal at
mandelbrot_metal/GameViewController.swift:187. It holds the zoom, the visible
extent `getDelta()` (that is, `delta/zoom`) on x and y, and the visual origin
`getOrigin()` (that is, `origin - (delta/zoom)/2`) on x and y. These are not
the raw `delta` and `origin` fields: they differ from them whenever the zoom
is not 1, and the origin always differs. The comment at line 92 lists a
different order.

The code does not clamp the pinch factor. Callers are expected to pass
positive factors, so the model makes `z > 0` a precondition of `SetZoom` and
`HandlePinch`.

The pan tracker resets `lastPoint` only when the recognizer reports `Ended`
(mandelbrot_metal/GameViewController.swift:118). A pan whose last callback is
`Cancelled` or `Failed` leaves its final translation in `lastPoint`. The next
pan's first increment is then measured from that translation, so the view
jumps by it. For example, a cancelled pan to (5, 0) followed by a new pan to
(1, 0) forwards (-4, 0) instead of (1, 0). The model keeps this behaviour, and
`CarryOverWithoutEnded` and `CancelledPanCarriesOver` state it. This follows
from the code alone; nothing was executed.

`PinchGestureRecognizer` stands in for UIKit's pinch recognizer. It carries
only the `scale` that `handlePinch` reads and resets.

The value-level `Panned` (mandelbrot_metal/Mandelbrot.swift:53-54) and
`PannedAll` have no contract of their own. They are pinned down by
`PanShift`, `PanInverse`, `PanAdditive`, `PannedAllIsOnePan`,
`Mandelbrot.MoveOrigin` and `GameViewController.DidPanAll`.

## Model

| member | source | states |
|---|---|---|
| `Viewport.Zoomed` | mandelbrot_metal/Mandelbrot.swift:62-64 | the increment `zoom + (z-1)*zoom` is the product `zoom*z`, and it stays positive when zoom and z are positive |
| `Viewport.ZoomedAll` | mandelbrot_metal/Mandelbrot.swift:62-64 | any series of positive pinch samples keeps zoom positive |
| `Viewport.ZoomedAllIsProduct` | mandelbrot_metal/Mandelbrot.swift:62-64 | after samples z1..zn the zoom is zoom0·z1·…·zn |
| `Viewport.ZoomInverse` | mandelbrot_metal/Mandelbrot.swift:62-64 | a pinch by s followed by a pinch by 1/s restores the zoom |
| `Viewport.PanShift` | mandelbrot_metal/Mandelbrot.swift:50-51 | the plane shift times zoom times the translation scale gives back the pan: negated on x, unchanged on y |
| `Viewport.ShiftIsLinear` | mandelbrot_metal/Mandelbrot.swift:50-51 | the shift of a sum of pans is the sum of their shifts |
| `Viewport.PanInverselyProportional` | mandelbrot_metal/Mandelbrot.swift:50-51 | at k times the zoom a fixed pan shifts the anchor by 1/k as much |
| `Viewport.PanInverse` | mandelbrot_metal/Mandelbrot.swift:49-55 | at a fixed zoom a pan followed by the opposite pan restores the anchor |
| `Viewport.PanAdditive` | mandelbrot_metal/Mandelbrot.swift:49-55 | at a fixed zoom two pans move the anchor as one pan by their sum |
| `Viewport.PannedAllIsOnePan` | mandelbrot_metal/Mandelbrot.swift:49-55 | at a fixed zoom a series of pans moves the anchor as one pan by the sum of the series |
| `Viewport.Mandelbrot.constructor` | mandelbrot_metal/Mandelbrot.swift:24-41 | resolution is screen size times native scale; translation scale is screen size / 4; origin (-0.5, 0); zoom 1; delta (2.5·resW/resH, 2.5); the current values equal the initial ones |
| `Viewport.Mandelbrot.Reset` | mandelbrot_metal/Mandelbrot.swift:43-47 | origin, zoom and delta equal their initial values whatever they were before, so resetting a reset viewport changes nothing |
| `Viewport.Mandelbrot.MoveOrigin` | mandelbrot_metal/Mandelbrot.swift:49-55 | origin.x gains -dx/translationScale.width/zoom, origin.y gains +dy/translationScale.height/zoom; only origin changes, and zoom, delta and the constants stay |
| `Viewport.Mandelbrot.GetOrigin` | mandelbrot_metal/Mandelbrot.swift:57-60 | the returned point plus half the visible extent is the anchor origin; a pure read |
| `Viewport.Mandelbrot.SetZoom` | mandelbrot_metal/Mandelbrot.swift:62-64 | zoom becomes old zoom times z and stays positive; the visible extent shrinks by the factor z; only zoom changes |
| `Viewport.Mandelbrot.GetDelta` | mandelbrot_metal/Mandelbrot.swift:66-68 | the returned extent times zoom is delta, on each axis; a pure read |
| `GameView.PanIncrement` | mandelbrot_metal/GameViewController.swift:115 | the forwarded increment added to the remembered point gives the current translation |
| `GameView.NextLastPoint` | mandelbrot_metal/GameViewController.swift:116-120 | the remembered point becomes (0,0) on an Ended callback, and the current translation on any other |
| `GameView.PanIncrements` | mandelbrot_metal/GameViewController.swift:114-120 | one increment per pan sample; the first is the translation less the remembered point |
| `GameView.LastPointAfter` | mandelbrot_metal/GameViewController.swift:116-120 | after a series the remembered point depends only on the last callback: (0,0) if it was Ended, its translation otherwise; an empty series leaves it as it was |
| `GameView.PanIncrementsAt` | mandelbrot_metal/GameViewController.swift:114-120 | each increment is that sample's translation less the point remembered after all earlier samples |
| `GameView.Telescoping` | mandelbrot_metal/GameViewController.swift:114-116 | within a series with no Ended callback before the last, the increments sum to the last cumulative translation less the starting point |
| `GameView.GestureForwardsItsTranslation` | mandelbrot_metal/GameViewController.swift:114-116 | starting from (0,0), a series with no Ended callback before the last forwards increments that sum to its last cumulative translation |
| `GameView.EndedResetsLastPoint` | mandelbrot_metal/GameViewController.swift:118-120 | after a series ending with an Ended sample the remembered point is (0,0) |
| `GameView.PanIncrementsAppend` | mandelbrot_metal/GameViewController.swift:114-120 | increments over two series are the increments over the first followed by the second's, from the point the first left |
| `GameView.NoCarryOver` | mandelbrot_metal/GameViewController.swift:118-120 | after a series ending with an Ended callback the next series forwards what it would from a fresh start, and its first increment is its own first translation |
| `GameView.CarryOverWithoutEnded` | mandelbrot_metal/GameViewController.swift:116-120 | after a series whose last callback is not Ended, the next series' first increment is its translation less that callback's translation |
| `GameView.CancelledPanCarriesOver` | mandelbrot_metal/GameViewController.swift:116-120 | a cancelled pan to (5,0) followed by a new pan to (1,0) forwards (-4,0) as the new pan's first increment |
| `GameView.GestureNetPan` | mandelbrot_metal/GameViewController.swift:112-122 | at a fixed zoom a series started from (0,0) with no Ended callback before the last moves the anchor as one pan by its last cumulative translation |
| `GameView.GameViewController.constructor` | mandelbrot_metal/GameViewController.swift:15-17 | the remembered pan point starts at (0,0) and the controller drives the given viewport |
| `GameView.GameViewController.HandlePinch` | mandelbrot_metal/GameViewController.swift:105-110 | zoom becomes old zoom times the recognizer's scale, the scale is then 1, and a repeated call with no new pinch leaves zoom unchanged |
| `GameView.GameViewController.DidPan` | mandelbrot_metal/GameViewController.swift:112-122 | the viewport is panned by exactly the current translation less the remembered point; the remembered point becomes the current translation, or (0,0) on Ended; zoom is unchanged |
| `GameView.GameViewController.DidPanAll` | mandelbrot_metal/GameViewController.swift:112-122 | successive pan callbacks leave the remembered point at `LastPointAfter` and move the anchor through the increments `PanIncrements`, so the telescoping lemmas hold of the controller; zoom is unchanged |
| `GameView.GameViewController.FragData` | mandelbrot_metal/GameViewController.swift:187 | five values: zoom, then the visible extent (whose product with zoom is delta), then the visual origin (which plus half the extent is the anchor); a pure read |

## Left out

- Metal and UIKit plumbing: device, command queue, pipeline state, buffers, the copy of the parameter block into the GPU buffer, drawable presentation, the display-link timer, `resize`, `viewDidLoad` and `deinit`. These are I/O and framework calls.
- The fixed full-screen quad arrays `vertexData` and `vertexTextureData`. They are constant geometry with no behaviour.
- The escape-time fragment shader. It runs on the GPU and is not part of this model, so the mapping from pixels to plane points is not modelled.
- `UIScreen.main` reads: the screen size and native scale are constructor parameters. The model requires them to be positive, as a real screen's are.
- `CGFloat`/`Float` rounding and the `CGFloat` to `Float` narrowing at the call sites. All arithmetic is exact, so the round-trip laws hold exactly rather than within floating-point tolerance.
- Clamping of non-positive pinch factors. The code has none, so `z > 0` is a precondition rather than invented behaviour.
- The run loop and threading. The code runs gestures and frames on one serial context and has no concurrency logic.
