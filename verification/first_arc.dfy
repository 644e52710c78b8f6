/** The first-arc memo of the stats chart: the colour and raw value of the first
    non-zero slot, remembered by the data setter for the seam-correction arc. */
module FirstArc {

  /** `undefinedColor`: the marker meaning "no memo yet". As an ARGB int it is also
      opaque white, 0xFFFFFFFF. */
  const UndefinedColor: int := -1

  /** `transparentColor`, the colour of the remainder slot and the background ring. */
  const TransparentColor: int := 0x01CCCCCC

  /** The memo: `firstColor` and `firstAngle` (a raw, un-normalised weight). */
  datatype Memo = Memo(color: int, angle: real)

  /** `colors.getOrElse(i) { d }`. */
  function ColorOr(colors: seq<int>, i: int, d: int): int
  {
    if 0 <= i < |colors| then colors[i] else d
  }

  /** The data setter's `forEachIndexed` scan over the padded slots, from slot `i` on,
      with the memo `m` as it stands before slot `i`: while the memo colour is still
      undefined, a non-zero slot writes its palette colour and raw value. */
  function ScanFrom(raw: seq<real>, colors: seq<int>, i: nat, m: Memo): (r: Memo)
    ensures m.color != UndefinedColor ==> r == m
    ensures r == m || r.angle != 0.0
    decreases |raw| - i
  {
    if i >= |raw| then m
    else if m.color == UndefinedColor && raw[i] != 0.0 then
      ScanFrom(raw, colors, i + 1, Memo(ColorOr(colors, i, UndefinedColor), raw[i]))
    else
      ScanFrom(raw, colors, i + 1, m)
  }

  /** The fix-up after the scan: when no memo was written, the memo becomes
      (transparent, 0). The result is never undefined, and a defined memo is kept. */
  function Settle(m: Memo): (r: Memo)
    ensures r.color != UndefinedColor
    ensures m.color != UndefinedColor ==> r == m
    ensures m.color == UndefinedColor ==> r == Memo(TransparentColor, 0.0)
  {
    if m.color == UndefinedColor then Memo(TransparentColor, 0.0) else m
  }

  /** The memo after one data assignment: the scan over all slots, then the fix-up.
      It is always defined, keeps a defined memo, and is otherwise either a non-zero
      raw weight or (transparent, 0). */
  function Remember(raw: seq<real>, colors: seq<int>, m: Memo): (r: Memo)
    ensures r.color != UndefinedColor
    ensures m.color != UndefinedColor ==> r == m
    ensures r == m || r == Memo(TransparentColor, 0.0) || r.angle != 0.0
  {
    Settle(ScanFrom(raw, colors, 0, m))
  }

  /** The memo the setter evidently intends (the field is documented as the angle of
      the first non-zero arc): the colour and raw weight of the lowest-indexed non-zero
      slot from `i` on, whatever that slot's colour, or (transparent, 0) when every
      slot is zero. Its angle is zero exactly when every slot from `i` on is zero. */
  function IntendedMemo(raw: seq<real>, colors: seq<int>, i: nat): (r: Memo)
    ensures r.angle == 0.0 <==> forall k :: i <= k < |raw| ==> raw[k] == 0.0
    ensures r.angle == 0.0 ==> r == Memo(TransparentColor, 0.0)
    decreases |raw| - i
  {
    if i >= |raw| then Memo(TransparentColor, 0.0)
    else if raw[i] != 0.0 then Memo(ColorOr(colors, i, UndefinedColor), raw[i])
    else IntendedMemo(raw, colors, i + 1)
  }

  /** Slot `k` holds the lowest-indexed non-zero raw weight. */
  ghost predicate FirstNonZeroAt(raw: seq<real>, k: nat)
  {
    k < |raw| && raw[k] != 0.0 && forall j :: 0 <= j < k ==> raw[j] == 0.0
  }

  ghost predicate AllZero(raw: seq<real>)
  {
    forall j :: 0 <= j < |raw| ==> raw[j] == 0.0
  }

  /** A defined memo survives the rest of the scan untouched. */
  lemma {:induction false} ScanKeepsDefinedMemo(raw: seq<real>, colors: seq<int>, i: nat, m: Memo)
    requires m.color != UndefinedColor
    ensures ScanFrom(raw, colors, i, m) == m
    decreases |raw| - i
  {
    if i < |raw| {
      ScanKeepsDefinedMemo(raw, colors, i + 1, m);
    }
  }

  /** Zero slots leave the scan's memo as it is. */
  lemma {:induction false} ScanSkipsZeros(raw: seq<real>, colors: seq<int>, i: nat, k: nat, m: Memo)
    requires i <= k <= |raw|
    requires forall j :: i <= j < k ==> raw[j] == 0.0
    ensures ScanFrom(raw, colors, i, m) == ScanFrom(raw, colors, k, m)
    decreases k - i
  {
    if i < k {
      ScanSkipsZeros(raw, colors, i + 1, k, m);
    }
  }

  /** Sticky memo: once the memo is defined, later assignments do not change it. */
  lemma RememberIsSticky(raw: seq<real>, colors: seq<int>, m: Memo)
    requires m.color != UndefinedColor
    ensures Remember(raw, colors, m) == m
  {
    ScanKeepsDefinedMemo(raw, colors, 0, m);
  }

  /** With no memo yet, the memo is the colour and the RAW weight of the
      lowest-indexed non-zero slot, provided that slot's colour is not the marker. */
  lemma RememberFirstNonZero(raw: seq<real>, colors: seq<int>, m: Memo, k: nat)
    requires m.color == UndefinedColor
    requires FirstNonZeroAt(raw, k)
    requires k < |colors| && colors[k] != UndefinedColor
    ensures Remember(raw, colors, m) == Memo(colors[k], raw[k])
  {
    ScanSkipsZeros(raw, colors, 0, k, m);
    ScanKeepsDefinedMemo(raw, colors, k + 1, Memo(colors[k], raw[k]));
  }

  /** With no memo yet and every slot zero, the memo becomes (transparent, 0). */
  lemma RememberAllZero(raw: seq<real>, colors: seq<int>, m: Memo)
    requires m.color == UndefinedColor
    requires AllZero(raw)
    ensures Remember(raw, colors, m) == Memo(TransparentColor, 0.0)
  {
    ScanSkipsZeros(raw, colors, 0, |raw|, m);
  }

  /** The intended memo is the lowest non-zero slot's colour and raw weight, with no
      condition on that colour. */
  lemma {:induction false} IntendedMemoFirstNonZero(raw: seq<real>, colors: seq<int>, i: nat, k: nat)
    requires i <= k && FirstNonZeroAt(raw, k) && k < |colors|
    ensures IntendedMemo(raw, colors, i) == Memo(colors[k], raw[k])
    decreases k - i
  {
    if i < k {
      IntendedMemoFirstNonZero(raw, colors, i + 1, k);
    }
  }

  /** The intended memo of all-zero slots is (transparent, 0). */
  lemma {:induction false} IntendedMemoAllZero(raw: seq<real>, colors: seq<int>, i: nat)
    requires AllZero(raw)
    ensures IntendedMemo(raw, colors, i) == Memo(TransparentColor, 0.0)
    decreases |raw| - i
  {
    if i < |raw| {
      IntendedMemoAllZero(raw, colors, i + 1);
    }
  }

  /** The scan as written computes the intended memo on a first assignment, unless
      the lowest non-zero slot's colour is -1. */
  lemma RememberMatchesIntended(raw: seq<real>, colors: seq<int>, m: Memo)
    requires m.color == UndefinedColor && |raw| <= |colors|
    requires forall k: nat :: FirstNonZeroAt(raw, k) ==> colors[k] != UndefinedColor
    ensures Remember(raw, colors, m) == IntendedMemo(raw, colors, 0)
  {
    if AllZero(raw) {
      RememberAllZero(raw, colors, m);
      IntendedMemoAllZero(raw, colors, 0);
    } else {
      var j :| 0 <= j < |raw| && raw[j] != 0.0;
      var k := LowestNonZero(raw, 0, j);
      RememberFirstNonZero(raw, colors, m, k);
      IntendedMemoFirstNonZero(raw, colors, 0, k);
    }
  }

  /** Below a non-zero slot `j` there is a lowest non-zero slot. */
  lemma {:induction false} LowestNonZero(raw: seq<real>, i: nat, j: nat) returns (k: nat)
    requires i <= j < |raw| && raw[j] != 0.0
    requires forall l :: 0 <= l < i ==> raw[l] == 0.0
    ensures FirstNonZeroAt(raw, k) && k <= j
    decreases j - i
  {
    if raw[i] != 0.0 {
      k := i;
    } else {
      k := LowestNonZero(raw, i + 1, j);
    }
  }

  /** The scan tests the memo colour against the marker, so a palette colour equal to
      -1 (opaque white) leaves the memo "undefined" after it is written: with white in
      the first slot and weights [1, 2], the memo skips to slot 1 and keeps its raw
      value 2, although slot 0 is the first non-zero arc and the intended memo is
      (white, 1) (colours are signed ARGB ints). */
  lemma WhiteFirstColorSkipsFirstArc()
    ensures var colors := [UndefinedColor, -0xEEDDCD, -0xBBAA9A, -0x887767, TransparentColor];
      var raw := [1.0, 2.0, 0.0, 0.0, 0.0];
      FirstNonZeroAt(raw, 0) &&
      Remember(raw, colors, Memo(UndefinedColor, -1.0)) == Memo(-0xEEDDCD, 2.0) &&
      IntendedMemo(raw, colors, 0) == Memo(UndefinedColor, 1.0)
  {
    var colors := [UndefinedColor, -0xEEDDCD, -0xBBAA9A, -0x887767, TransparentColor];
    var raw := [1.0, 2.0, 0.0, 0.0, 0.0];
    var m1 := Memo(UndefinedColor, 1.0);
    var m2 := Memo(-0xEEDDCD, 2.0);
    assert ScanFrom(raw, colors, 0, Memo(UndefinedColor, -1.0)) == ScanFrom(raw, colors, 1, m1);
    assert ScanFrom(raw, colors, 1, m1) == ScanFrom(raw, colors, 2, m2);
    ScanKeepsDefinedMemo(raw, colors, 2, m2);
  }
}
