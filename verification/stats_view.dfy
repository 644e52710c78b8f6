/** The stats chart widget's state and its operations: the `data` setter, the
    animation restart, a tick of the animator, the resize handler and the frame it
    draws, as a list of canvas calls. */
module StatsViewModel {
  import opened Proportion
  import opened FirstArc
  import opened ArcLayout

  class StatsView {
    /** Stroke width of the ring and text size of the label (platform resources). */
    var lineWidth: int
    var textSize: real
    /** `color1`..`color4` and the transparent remainder colour. */
    var colors: seq<int>

    /** Animation progress in [0, 1]. */
    var progress: real
    /** The stored proportions: empty until the first assignment, five slots after. */
    var data: seq<real>
    /** The first-arc memo. */
    var firstColor: int
    var firstAngle: real

    /** Geometry cache, recomputed on resize. */
    var radius: real
    var center: Point
    var oval: Rect

    /** The widget's invariant. Before the first data assignment there is no data and
        no memo; afterwards there are always five normalised slots and the memo is
        defined. The palette always has a colour for every slot. */
    ghost predicate Valid()
      reads this
    {
      |colors| == Slots && colors[Slots - 1] == TransparentColor &&
      0.0 <= progress <= 1.0 &&
      (data == [] ==> firstColor == UndefinedColor && firstAngle == -1.0) &&
      (data != [] ==> |data| == Slots && IsProportion(data) && firstColor != UndefinedColor)
    }

    /** The four configured colours come from the layout attributes. */
    constructor (palette: seq<int>, lineWidth: int, textSize: real)
      requires |palette| == Slots - 1
      ensures Valid()
      ensures colors == palette + [TransparentColor]
      ensures this.lineWidth == lineWidth && this.textSize == textSize
      ensures data == [] && progress == 0.0
      ensures firstColor == UndefinedColor && firstAngle == -1.0
      ensures radius == 0.0 && center == Point(0.0, 0.0) && oval == Rect(0.0, 0.0, 0.0, 0.0)
    {
      this.lineWidth := lineWidth;
      this.textSize := textSize;
      colors := palette + [TransparentColor];
      progress := 0.0;
      data := [];
      firstColor := UndefinedColor;
      firstAngle := -1.0;
      radius := 0.0;
      center := Point(0.0, 0.0);
      oval := Rect(0.0, 0.0, 0.0, 0.0);
    }

    /** `update()`: restarts the animation from progress 0. */
    method Update()
      requires Valid()
      modifies this`progress
      ensures Valid() && progress == 0.0
    {
      progress := 0.0;
    }

    /** One update of the animator, whose value runs from 0 to 1. */
    method Tick(v: real)
      requires Valid()
      requires 0.0 <= v <= 1.0
      modifies this`progress
      ensures Valid() && progress == v
    {
      progress := v;
    }

    /** The `data` setter: pads the value to five slots, records the first-arc memo
        from the raw slots if none is recorded yet, stores the normalised slots and
        restarts the animation. */
    method SetData(value: seq<real>)
      requires Valid()
      modifies this`data, this`firstColor, this`firstAngle, this`progress
      ensures Valid()
      ensures data == CalcListProportion(Pad(value))
      ensures Memo(firstColor, firstAngle) ==
              Remember(Pad(value), colors, Memo(old(firstColor), old(firstAngle)))
      ensures progress == 0.0
      // the memo is sticky
      ensures old(firstColor) != UndefinedColor ==>
              firstColor == old(firstColor) && firstAngle == old(firstAngle)
      // the first assignment memoises the first non-zero raw slot, or (transparent, 0)
      ensures old(firstColor) == UndefinedColor ==>
              forall k: nat :: FirstNonZeroAt(Pad(value), k) && colors[k] != UndefinedColor ==>
                firstColor == colors[k] && firstAngle == Pad(value)[k]
      ensures old(firstColor) == UndefinedColor && AllZero(Pad(value)) ==>
              firstColor == TransparentColor && firstAngle == 0.0
      // outside the white-colour case the first assignment records the intended memo
      ensures old(firstColor) == UndefinedColor &&
              (forall k: nat :: FirstNonZeroAt(Pad(value), k) ==> colors[k] != UndefinedColor) ==>
              Memo(firstColor, firstAngle) == IntendedMemo(Pad(value), colors, 0)
    {
      var revised := Pad(value);
      ghost var start := Memo(firstColor, firstAngle);
      var i := 0;
      while i < |revised|
        modifies this`firstColor, this`firstAngle
        invariant 0 <= i <= |revised|
        invariant ScanFrom(revised, colors, i, Memo(firstColor, firstAngle)) ==
                  ScanFrom(revised, colors, 0, start)
      {
        if firstColor == UndefinedColor {
          if revised[i] != 0.0 {
            firstColor := ColorOr(colors, i, UndefinedColor);
            firstAngle := revised[i];
          }
        }
        i := i + 1;
      }
      if firstColor == UndefinedColor {
        firstColor := TransparentColor;
        firstAngle := 0.0;
      }
      data := CalcListProportion(revised);
      NormalizedIsProportion(revised);
      Update();

      if start.color != UndefinedColor {
        RememberIsSticky(revised, colors, start);
      } else {
        if AllZero(revised) {
          RememberAllZero(revised, colors, start);
        }
        forall k: nat | FirstNonZeroAt(revised, k) && colors[k] != UndefinedColor
          ensures firstColor == colors[k] && firstAngle == revised[k]
        {
          RememberFirstNonZero(revised, colors, start, k);
        }
        if forall k: nat :: FirstNonZeroAt(revised, k) ==> colors[k] != UndefinedColor {
          RememberMatchesIntended(revised, colors, start);
        }
      }
    }

    /** `onSizeChanged`: the ring's radius, centre and square oval for a view of
        `w` by `h`. */
    method OnSizeChanged(w: int, h: int)
      requires Valid()
      modifies this`radius, this`center, this`oval
      ensures Valid()
      ensures radius == Radius(w, h, lineWidth)
      ensures center == Center(w, h)
      ensures oval == SquareAround(center, radius)
    {
      radius := Radius(w, h, lineWidth);
      center := Center(w, h);
      oval := SquareAround(center, radius);
    }

    /** `onDraw`: nothing before the first data assignment; otherwise the transparent
        background ring, one arc per slot (slot `i` starting where the full sweeps of
        the earlier slots end, drawn with its sweep scaled by the progress, in the
        slot's palette colour), the seam-correction arc back at the animated start in
        the memo colour, and the label with the coloured slots' total in percent. */
    method OnDraw() returns (cmds: seq<DrawCmd>)
      requires |data| <= |colors|
      ensures data == [] ==> cmds == []
      ensures data != [] ==> |cmds| == |data| + 3
      ensures data != [] ==> cmds[0] == Circle(center.x, center.y, radius, TransparentColor)
      ensures data != [] ==> forall i :: 0 <= i < |data| ==>
                cmds[i + 1] == Arc(oval, ArcStart(data, progress, i),
                                   DrawnSweep(data[i], progress), colors[i])
      ensures data != [] ==>
                cmds[|data| + 1] == Arc(oval, InitAngle + 360.0 * progress,
                                        SeamSweep(firstAngle) * progress, firstColor)
      ensures data != [] ==>
                cmds[|data| + 2] == Label(TotalDataProportion(data) * 100.0,
                                          center.x, center.y + textSize / 4.0)
    {
      if data == [] {
        return [];
      }
      cmds := [Circle(center.x, center.y, radius, TransparentColor)];
      var startAngle := InitAngle + 360.0 * progress;
      var i := 0;
      while i < |data|
        invariant 0 <= i <= |data| <= |colors|
        invariant |cmds| == i + 1
        invariant cmds[0] == Circle(center.x, center.y, radius, TransparentColor)
        invariant forall j :: 0 <= j < i ==>
                    cmds[j + 1] == Arc(oval, ArcStart(data, progress, j),
                                       DrawnSweep(data[j], progress), colors[j])
        invariant startAngle == ArcStart(data, progress, i)
      {
        cmds := cmds + [Arc(oval, startAngle, DrawnSweep(data[i], progress), colors[i])];
        ArcsAreContiguous(data, progress, i);
        startAngle := startAngle + 360.0 * data[i];
        i := i + 1;
      }
      startAngle := InitAngle + 360.0 * progress;
      var angle := SeamSweep(firstAngle);
      cmds := cmds + [Arc(oval, startAngle, angle * progress, firstColor),
                      Label(TotalDataProportion(data) * 100.0, center.x, center.y + textSize / 4.0)];
    }
  }

  /** A fresh widget after the host assigns four equal weights and the animation
      finishes: four quarter proportions and an empty remainder, the memo holding the
      first colour with its raw weight 500, and progress 1. */
  method EqualQuartersView(palette: seq<int>) returns (view: StatsView)
    requires |palette| == Slots - 1
    ensures fresh(view) && view.Valid()
    ensures view.colors == palette + [TransparentColor]
    ensures view.data == [0.25, 0.25, 0.25, 0.25, 0.0]
    ensures palette[0] != UndefinedColor ==>
      view.firstColor == palette[0] && view.firstAngle == 500.0
    ensures view.progress == 1.0
    ensures view.textSize == 20.0
    ensures view.radius == 0.0 && view.center == Point(0.0, 0.0)
    ensures view.oval == Rect(0.0, 0.0, 0.0, 0.0)
  {
    view := new StatsView(palette, 5, 20.0);
    view.SetData([500.0, 500.0, 500.0, 500.0]);
    EqualQuarters();
    assert FirstNonZeroAt(Pad([500.0, 500.0, 500.0, 500.0]), 0);
    view.Tick(1.0);
  }

  /** The frame that widget draws before any resize (so on the zero oval): the
      background ring, four quarter arcs from twelve o'clock (one turn on, as
      progress 1 rotates the ring by 360 degrees), an empty remainder arc at 630
      degrees, a 1-degree seam arc in the first colour and a 100 % label. */
  method EqualQuartersFrame(palette: seq<int>) returns (cmds: seq<DrawCmd>)
    requires |palette| == Slots - 1
    ensures |cmds| == Slots + 3
    ensures cmds[0] == Circle(0.0, 0.0, 0.0, TransparentColor)
    ensures cmds[1] == Arc(Rect(0.0, 0.0, 0.0, 0.0), 270.0, 90.0, palette[0])
    ensures cmds[2] == Arc(Rect(0.0, 0.0, 0.0, 0.0), 360.0, 90.0, palette[1])
    ensures cmds[3] == Arc(Rect(0.0, 0.0, 0.0, 0.0), 450.0, 90.0, palette[2])
    ensures cmds[4] == Arc(Rect(0.0, 0.0, 0.0, 0.0), 540.0, 90.0, palette[3])
    ensures cmds[5] == Arc(Rect(0.0, 0.0, 0.0, 0.0), 630.0, 0.0, TransparentColor)
    ensures palette[0] != UndefinedColor ==>
      cmds[6] == Arc(Rect(0.0, 0.0, 0.0, 0.0), 270.0, 1.0, palette[0])
    ensures cmds[7] == Label(100.0, 0.0, 5.0)
  {
    var view := EqualQuartersView(palette);
    cmds := view.OnDraw();
    ghost var q := [0.25, 0.25, 0.25, 0.25, 0.0];
    EqualQuarterStarts();
    assert cmds[1] == Arc(view.oval, ArcStart(q, 1.0, 0), DrawnSweep(q[0], 1.0), view.colors[0]);
    assert cmds[2] == Arc(view.oval, ArcStart(q, 1.0, 1), DrawnSweep(q[1], 1.0), view.colors[1]);
    assert cmds[3] == Arc(view.oval, ArcStart(q, 1.0, 2), DrawnSweep(q[2], 1.0), view.colors[2]);
    assert cmds[4] == Arc(view.oval, ArcStart(q, 1.0, 3), DrawnSweep(q[3], 1.0), view.colors[3]);
    assert cmds[5] == Arc(view.oval, ArcStart(q, 1.0, 4), DrawnSweep(q[4], 1.0), view.colors[4]);
    assert TotalDataProportion(q) * 100.0 == 100.0 by {
      EqualQuarters();
    }
  }
}
