/**
 * The face guard (`_applyFaceGuard`): the top offset written on the rail,
 * computed from the stage and canvas-host rectangles, the
 * `--live2d-safe-top` inset, the rail's height and the face-guard fraction.
 */
module FaceGuard {
  import opened Wrappers
  import opened StageConfig

  /**
   * What `_applyFaceGuard` reads from the DOM: the root's and the canvas
   * host's bounding boxes (top and height), the parsed safe-top inset
   * (`parseFloat(...) || 0`) and the rail's `offsetHeight || 0`.
   */
  datatype Layout = Layout(
    stageTop: real,
    stageHeight: real,
    canvasTop: real,
    canvasHeight: real,
    safeTop: real,
    railHeight: nat
  )

  /** The margin added below the safe-top inset. */
  const SafeTopMargin: real := 12.0

  /** The wider fraction of the canvas height used for the second candidate bound. */
  const FallbackGuard: real := 0.30

  /** `fallbackTop = safeTop + 12`, where the rail starts. */
  function FallbackTop(l: Layout): real {
    l.safeTop + SafeTopMargin
  }

  /** Both rectangles have a non-zero height, so the candidate bounds are computed. */
  predicate Measurable(l: Layout) {
    l.canvasHeight != 0.0 && l.stageHeight != 0.0
  }

  /**
   * The highest top that keeps the rail's bottom at the band ending
   * `fraction` of the canvas height below the canvas top:
   * `canvasTopRelative + canvasHeight * fraction - railHeight`, or `None`
   * when it is not finite. Only a non-finite fraction makes it so: the
   * canvas height is non-zero wherever this is used, and every DOM read is
   * a finite number.
   */
  function MaxTop(l: Layout, fraction: JsNumber): (r: Option<real>)
    ensures r.Some? <==> fraction.Finite?
    ensures r.Some? ==> r.value + l.railHeight as real == (l.canvasTop - l.stageTop) + l.canvasHeight * fraction.value
  {
    match fraction
    case NonFinite => None
    case Finite(f) => Some((l.canvasTop - l.stageTop) + l.canvasHeight * f - l.railHeight as real)
  }

  /** `Math.min(top, bound)` when the bound is finite, else `top`. */
  function MinWith(top: real, bound: Option<real>): (r: real)
    ensures r <= top
    ensures bound.Some? ==> r <= bound.value
    ensures r == top || bound == Some(r)
  {
    match bound
    case Some(b) => if b < top then b else top
    case None => top
  }

  /**
   * `topRelative` after the two `Math.min` steps: the least of the
   * fallback top and the finite candidate bounds, the bounds skipped
   * entirely when either rectangle has zero height.
   */
  function CandidateTop(l: Layout, faceGuard: JsNumber): (r: real)
    ensures r <= FallbackTop(l)
    ensures !Measurable(l) ==> r == FallbackTop(l)
    ensures Measurable(l) && MaxTop(l, faceGuard).Some? ==> r <= MaxTop(l, faceGuard).value
    ensures Measurable(l) ==> r <= MaxTop(l, Finite(FallbackGuard)).value
    ensures || r == FallbackTop(l)
            || (Measurable(l) && (MaxTop(l, faceGuard) == Some(r) || MaxTop(l, Finite(FallbackGuard)) == Some(r)))
  {
    var top := FallbackTop(l);
    if Measurable(l) then
      MinWith(MinWith(top, MaxTop(l, faceGuard)), MaxTop(l, Finite(FallbackGuard)))
    else
      top
  }

  /**
   * The top written on the rail. `topRelative` is raised back to the
   * fallback top (`Math.max(topRelative, fallbackTop)`) and then to zero,
   * so the candidate bounds never lower it: the result is
   * `max(safeTop + 12, 0)` whatever the canvas geometry. (The
   * `Number.isFinite(topRelative)` branch cannot be taken: every input
   * here is finite.)
   */
  function RailTop(l: Layout, faceGuard: JsNumber): (r: real)
    ensures r >= 0.0 && r >= FallbackTop(l)
    ensures r == if FallbackTop(l) < 0.0 then 0.0 else FallbackTop(l)
  {
    var top := CandidateTop(l, faceGuard);
    var raised := if top < FallbackTop(l) then FallbackTop(l) else top;
    if raised < 0.0 then 0.0 else raised
  }

  /** The written top depends on the safe-top inset alone. */
  lemma RailTopIgnoresCanvas(l1: Layout, l2: Layout, f1: JsNumber, f2: JsNumber)
    requires l1.safeTop == l2.safeTop
    ensures RailTop(l1, f1) == RailTop(l2, f2)
  {
  }

  /**
   * A canvas 400 high at top 100, fraction 0.25, a rail 150 high and no
   * safe-top inset: the bounds are 50 and 70, the fallback 12 is the
   * least, and 12 is written.
   */
  lemma WorkedExample()
    ensures var l := Layout(0.0, 800.0, 100.0, 400.0, 0.0, 150);
            && MaxTop(l, Finite(0.25)) == Some(50.0)
            && MaxTop(l, Finite(FallbackGuard)) == Some(70.0)
            && CandidateTop(l, Finite(0.25)) == 12.0
            && RailTop(l, Finite(0.25)) == 12.0
  {
  }

  /**
   * The rail ends above the face band exactly when the least permitted
   * top, `max(safeTop + 12, 0)`, is at most the band's bound. The written
   * top is that least top, so whenever any permitted top keeps the band,
   * the written one does.
   */
  lemma FaceBandKeptIff(l: Layout, f: real)
    ensures RailTop(l, Finite(f)) + l.railHeight as real <= (l.canvasTop - l.stageTop) + l.canvasHeight * f
            <==> (if FallbackTop(l) < 0.0 then 0.0 else FallbackTop(l)) <= MaxTop(l, Finite(f)).value
  {
  }

  /**
   * The rail overlaps the band when the bound lies below the least
   * permitted top: with the canvas at the stage top the bound is -50,
   * 12 is written, and the rail's bottom (162) lies below the band's end
   * (100). No permitted top could keep the band here.
   */
  lemma FaceBandNotKept()
    ensures var l := Layout(0.0, 800.0, 0.0, 400.0, 0.0, 150);
            && CandidateTop(l, Finite(0.25)) == -50.0
            && RailTop(l, Finite(0.25)) == 12.0
            && RailTop(l, Finite(0.25)) + l.railHeight as real > (l.canvasTop - l.stageTop) + l.canvasHeight * 0.25
  {
  }
}
