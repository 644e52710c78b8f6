/** The geometry of the stats chart: where each slot's arc starts, the sweep of the
    seam-correction arc, and the ring's bounding square. Angles are degrees,
    clockwise, with 0 at three o'clock and -90 at twelve o'clock. */
module ArcLayout {
  import opened Proportion

  /** `initAngle`: the first arc starts at twelve o'clock. */
  const InitAngle: real := -90.0

  datatype Point = Point(x: real, y: real)

  /** `RectF(left, top, right, bottom)`. */
  datatype Rect = Rect(left: real, top: real, right: real, bottom: real)

  /** One call on the canvas: `drawCircle`, `drawArc` (on the ring's oval, without the
      centre) or `drawText` of the percentage label (the number before formatting). */
  datatype DrawCmd =
    | Circle(cx: real, cy: real, radius: real, color: int)
    | Arc(oval: Rect, startAngle: real, sweepAngle: real, color: int)
    | Label(percent: real, x: real, y: real)

  /** Where the arc of slot `i` starts: the animated rotation of the whole ring plus
      the full (unanimated) sweeps of all earlier slots. */
  function ArcStart(data: seq<real>, progress: real, i: nat): (a: real)
    requires i <= |data|
    ensures i == 0 ==> a == InitAngle + 360.0 * progress
  {
    InitAngle + 360.0 * progress + 360.0 * Sum(data[..i])
  }

  /** Each slot's full sweep ends exactly where the next slot's arc starts. */
  lemma ArcsAreContiguous(data: seq<real>, progress: real, i: nat)
    requires i < |data|
    ensures ArcStart(data, progress, i) + 360.0 * data[i] == ArcStart(data, progress, i + 1)
  {
    SumSnoc(data, i);
  }

  /** The full (unanimated) sweep of every slot, `360F * datum`. */
  function FullSweeps(data: seq<real>): (r: seq<real>)
    ensures |r| == |data|
  {
    seq(|data|, i requires 0 <= i < |data| => 360.0 * data[i])
  }

  /** Adding the full sweeps one slot at a time, as the drawing loop does, the running
      angle before slot `i` is the first arc's start plus the sweeps of slots before `i`. */
  lemma {:induction false} RunningAngle(data: seq<real>, progress: real, i: nat)
    requires i <= |data|
    ensures ArcStart(data, progress, i) ==
            ArcStart(data, progress, 0) + Sum(FullSweeps(data)[..i])
  {
    if i > 0 {
      RunningAngle(data, progress, i - 1);
      ArcsAreContiguous(data, progress, i - 1);
      SumSnoc(FullSweeps(data), i - 1);
    }
  }

  /** After all slots the running angle is the first arc's start plus all the full
      sweeps: one full turn on for data summing to 1. */
  lemma RunningAngleAfterAllSlots(data: seq<real>, progress: real)
    ensures ArcStart(data, progress, |data|) ==
            ArcStart(data, progress, 0) + Sum(FullSweeps(data))
    ensures Sum(data) == 1.0 ==>
      ArcStart(data, progress, |data|) == ArcStart(data, progress, 0) + 360.0
  {
    RunningAngle(data, progress, |data|);
    assert FullSweeps(data)[..|data|] == FullSweeps(data);
    assert data[..|data|] == data;
    assert data[..0] == [];
  }

  /** With four equal quarters and the animation finished, the slots start at
      270, 360, 450, 540 and 630 degrees: twelve o'clock, one turn on, then a quarter
      turn per slot. */
  lemma EqualQuarterStarts()
    ensures forall i :: 0 <= i < Slots ==>
      ArcStart([0.25, 0.25, 0.25, 0.25, 0.0], 1.0, i) == 270.0 + 90.0 * i as real
  {
    QuarterPrefixSums();
  }

  /** Drawn sweep of slot `i`: its full sweep scaled by the animation progress. With
      a non-negative slot and progress in [0, 1] it lies between 0 and the full sweep. */
  function DrawnSweep(datum: real, progress: real): (s: real)
    ensures 0.0 <= datum && 0.0 <= progress <= 1.0 ==> 0.0 <= s <= 360.0 * datum
    ensures progress == 1.0 ==> s == 360.0 * datum
    ensures progress == 0.0 ==> s == 0.0
  {
    var full := 360.0 * datum;
    assert 0.0 <= full && progress <= 1.0 ==> full * progress <= full by {
      if 0.0 <= full && progress <= 1.0 {
        assert full * (1.0 - progress) >= 0.0;
      }
    }
    full * progress
  }

  /** The seam-correction sweep before animation: `listOf(1F, 360F * 0.5F * firstAngle).min()`.
      It never exceeds 1 degree nor 180 times the memo's raw weight, and equals one of them. */
  function SeamSweep(firstAngle: real): (s: real)
    ensures s <= 1.0 && s <= 180.0 * firstAngle
    ensures s == 1.0 || s == 180.0 * firstAngle
  {
    var half := 360.0 * 0.5 * firstAngle;
    if 1.0 <= half then 1.0 else half
  }

  /** The drawn seam arc, `SeamSweep(firstAngle) * progress`, is at most `progress`
      degrees (so at most 1 while animating), vanishes when the memo's angle is 0,
      and is non-negative for a non-negative memo. */
  lemma SeamArcBounds(firstAngle: real, progress: real)
    requires 0.0 <= progress <= 1.0
    ensures SeamSweep(firstAngle) * progress <= progress <= 1.0
    ensures firstAngle == 0.0 ==> SeamSweep(firstAngle) * progress == 0.0
    ensures 0.0 <= firstAngle ==> 0.0 <= SeamSweep(firstAngle) * progress
  {
    var s := SeamSweep(firstAngle);
    MulNonNegative(1.0 - s, progress);
    if 0.0 <= firstAngle {
      MulNonNegative(s, progress);
    }
  }

  lemma MulNonNegative(a: real, b: real)
    requires 0.0 <= a && 0.0 <= b
    ensures 0.0 <= a * b
  {
  }

  /** `min(w, h)`. */
  function MinInt(a: int, b: int): (m: int)
    ensures m <= a && m <= b && (m == a || m == b)
  {
    if a <= b then a else b
  }

  /** `onSizeChanged`'s radius: half the shorter side, less the stroke width. */
  function Radius(w: int, h: int, lineWidth: int): (r: real)
    ensures 2.0 * (r + lineWidth as real) <= w as real && 2.0 * (r + lineWidth as real) <= h as real
    ensures 2.0 * (r + lineWidth as real) == w as real || 2.0 * (r + lineWidth as real) == h as real
  {
    MinInt(w, h) as real / 2.0 - lineWidth as real
  }

  /** `onSizeChanged`'s centre: the middle of the view. */
  function Center(w: int, h: int): (c: Point)
    ensures 2.0 * c.x == w as real && 2.0 * c.y == h as real
  {
    Point(w as real / 2.0, h as real / 2.0)
  }

  /** The ring's oval: the square with side `2 * radius` centred on `c`. */
  function SquareAround(c: Point, radius: real): (o: Rect)
    ensures o.right - o.left == 2.0 * radius && o.bottom - o.top == 2.0 * radius
    ensures (o.left + o.right) / 2.0 == c.x && (o.top + o.bottom) / 2.0 == c.y
  {
    Rect(c.x - radius, c.y - radius, c.x + radius, c.y + radius)
  }

  /** The oval's edges are at least the stroke width from the view's edges, and the
      oval touches that inset on the shorter side. The oval is a proper (non-inverted)
      square only when the shorter side is at least twice the stroke width; otherwise
      the radius is negative. */
  lemma RingFitsView(w: int, h: int, lineWidth: int)
    ensures var o := SquareAround(Center(w, h), Radius(w, h, lineWidth));
      lineWidth as real <= o.left && o.right <= w as real - lineWidth as real &&
      lineWidth as real <= o.top && o.bottom <= h as real - lineWidth as real &&
      (o.left == lineWidth as real || o.top == lineWidth as real)
    ensures var o := SquareAround(Center(w, h), Radius(w, h, lineWidth));
      (2 * lineWidth <= MinInt(w, h) <==> o.left <= o.right) &&
      (2 * lineWidth <= MinInt(w, h) <==> o.top <= o.bottom)
  {
  }
}
