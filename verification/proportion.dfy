/** The proportion side of the stats chart: the host's weights are padded or
    truncated to the chart's five slots, normalised to proportions of their total,
    and summed (without the remainder slot) for the centre label.
    Kotlin `Float` is modelled as `real`, so "sums to 1" is exact here. */
module Proportion {

  /** The chart always works with five slots: four coloured categories and the
      transparent remainder. */
  const Slots: nat := 5

  /** Left-to-right sum of a list, as Kotlin's `List<Float>.sum()`. */
  function Sum(s: seq<real>): real
  {
    if s == [] then 0.0 else Sum(s[..|s| - 1]) + s[|s| - 1]
  }

  /** Extending a prefix by one element adds that element to its sum. */
  lemma SumSnoc(s: seq<real>, i: nat)
    requires i < |s|
    ensures Sum(s[..i + 1]) == Sum(s[..i]) + s[i]
  {
    assert s[..i + 1][..i] == s[..i];
  }

  /** A list of non-negative weights has a non-negative sum, at least as large as
      any of its elements. */
  lemma {:induction false} SumDominates(s: seq<real>)
    requires forall i :: 0 <= i < |s| ==> 0.0 <= s[i]
    ensures 0.0 <= Sum(s)
    ensures forall i :: 0 <= i < |s| ==> s[i] <= Sum(s)
  {
    if s != [] {
      var n := |s| - 1;
      SumDominates(s[..n]);
      forall i | 0 <= i < |s| ensures s[i] <= Sum(s) {
        if i < n {
          assert s[..n][i] == s[i];
        }
      }
    }
  }

  /** A list of zeros of the given length (`List(n) { 0F }`). */
  function Zeros(n: nat): (r: seq<real>)
    ensures |r| == n
  {
    seq(n, _ => 0.0)
  }

  lemma {:induction false} SumZeros(n: nat)
    ensures Sum(Zeros(n)) == 0.0
  {
    if n > 0 {
      assert Zeros(n)[..n - 1] == Zeros(n - 1);
      SumZeros(n - 1);
    }
  }

  /** Every element divided by `c` (`inputList.map { it / c }`). */
  function Divided(s: seq<real>, c: real): (r: seq<real>)
    requires c != 0.0
    ensures |r| == |s|
  {
    seq(|s|, i requires 0 <= i < |s| => s[i] / c)
  }

  /** Dividing every element by `c` divides the sum by `c`. */
  lemma {:induction false} SumDivided(s: seq<real>, c: real)
    requires c != 0.0
    ensures Sum(Divided(s, c)) == Sum(s) / c
  {
    if s != [] {
      var n := |s| - 1;
      assert Divided(s, c)[..n] == Divided(s[..n], c);
      SumDivided(s[..n], c);
    }
  }

  /** The slot value the setter reads for index `i`: `value.getOrElse(i) { 0F }`. */
  function GetOrZero(value: seq<real>, i: int): real
  {
    if 0 <= i < |value| then value[i] else 0.0
  }

  /** The data setter's `List(5) { value.getOrElse(it) { 0F } }`: the host's list cut
      or filled to exactly five slots. */
  function Pad(value: seq<real>): (r: seq<real>)
    ensures |r| == Slots
    ensures forall i :: 0 <= i < Slots && i < |value| ==> r[i] == value[i]
    ensures forall i :: |value| <= i < Slots ==> r[i] == 0.0
  {
    seq(Slots, i => GetOrZero(value, i))
  }

  /** A list that already has five slots is kept as it is, so padding is idempotent. */
  lemma PadKeepsFiveSlots(value: seq<real>)
    requires |value| == Slots
    ensures Pad(value) == value
    ensures Pad(Pad(value)) == Pad(value)
  {
  }

  /** Whatever follows the fifth element of the host's list is ignored. */
  lemma PadIgnoresTail(value: seq<real>, extra: seq<real>)
    requires Slots <= |value|
    ensures Pad(value + extra) == Pad(value)
    ensures Pad(value) == value[..Slots]
  {
  }

  /** Appending zeros to a short list does not change the padded slots. */
  lemma PadAbsorbsZeros(value: seq<real>, n: nat)
    requires |value| + n <= Slots
    ensures Pad(value + Zeros(n)) == Pad(value)
  {
  }

  /** `calcListProportion`: each slot as a share of the list's total, or all zeros
      when the total is zero. */
  function CalcListProportion(input: seq<real>): (r: seq<real>)
    ensures |r| == |input|
    ensures Sum(input) == 0.0 ==> r == Zeros(|input|)
    ensures Sum(input) != 0.0 ==> forall i :: 0 <= i < |r| ==> r[i] * Sum(input) == input[i]
  {
    var listSum := Sum(input);
    if listSum == 0.0 then Zeros(|input|) else Divided(input, listSum)
  }

  /** What the stored data always is: proportions summing to 1, or all zeros. */
  ghost predicate IsProportion(data: seq<real>)
  {
    Sum(data) == 1.0 || data == Zeros(|data|)
  }

  /** Normalised slots sum to exactly 1 unless the input total is zero, in which case
      they are all zero. */
  lemma NormalizedIsProportion(input: seq<real>)
    ensures Sum(input) != 0.0 ==> Sum(CalcListProportion(input)) == 1.0
    ensures Sum(input) == 0.0 ==> Sum(CalcListProportion(input)) == 0.0
    ensures IsProportion(CalcListProportion(input))
  {
    if Sum(input) == 0.0 {
      SumZeros(|input|);
    } else {
      SumDivided(input, Sum(input));
      assert Sum(input) / Sum(input) == 1.0;
    }
  }

  lemma ShareInUnitRange(x: real, total: real)
    requires 0.0 <= x <= total && 0.0 < total
    ensures 0.0 <= x / total <= 1.0
  {
    var q := x / total;
    assert q * total == x;
    assert (1.0 - q) * total == total - x;
  }

  /** Normalising non-negative weights gives slots in [0, 1]. */
  lemma NormalizedInUnitRange(input: seq<real>)
    requires forall i :: 0 <= i < |input| ==> 0.0 <= input[i]
    ensures forall i :: 0 <= i < |input| ==>
      0.0 <= CalcListProportion(input)[i] <= 1.0
  {
    SumDominates(input);
    var r := CalcListProportion(input);
    forall i | 0 <= i < |input| ensures 0.0 <= r[i] <= 1.0 {
      if Sum(input) != 0.0 {
        assert r[i] == input[i] / Sum(input);
        ShareInUnitRange(input[i], Sum(input));
      }
    }
  }

  /** Normalising an already normalised list changes nothing. */
  lemma NormalizeIdempotent(input: seq<real>)
    ensures CalcListProportion(CalcListProportion(input)) == CalcListProportion(input)
  {
    var r := CalcListProportion(input);
    NormalizedIsProportion(input);
    if Sum(input) != 0.0 {
      assert Divided(r, 1.0) == r;
    }
  }

  lemma DivCancel(x: real, total: real, c: real)
    requires c != 0.0 && total != 0.0
    ensures (x / c) / (total / c) == x / total
  {
    calc {
      (x / c) / (total / c);
      (x / c) * (c / total);
      x / total;
    }
  }

  /** Only the ratios between weights matter: scaling all weights by a non-zero
      factor gives the same proportions. */
  lemma NormalizeIgnoresScale(input: seq<real>, c: real)
    requires c != 0.0
    ensures CalcListProportion(Divided(input, c)) == CalcListProportion(input)
  {
    SumDivided(input, c);
    var scaled := Divided(input, c);
    if Sum(input) != 0.0 {
      forall i | 0 <= i < |input|
        ensures CalcListProportion(scaled)[i] == CalcListProportion(input)[i]
      {
        assert CalcListProportion(scaled)[i] == (input[i] / c) / (Sum(input) / c);
        DivCancel(input[i], Sum(input), c);
      }
    }
  }

  /** The getter `totalDataProportion`: the sum of all slots but the last (the
      remainder), or 0 for an empty list. */
  function TotalDataProportion(data: seq<real>): (r: real)
    ensures data == [] ==> r == 0.0
    ensures data != [] ==> r == Sum(data[..|data| - 1])
  {
    if data == [] then 0.0 else Sum(data) - data[|data| - 1]
  }

  /** For stored data the label is the sum of the four coloured slots: 1 minus the
      remainder slot when the padded weights have a non-zero total, and 0 when their
      total is zero. */
  lemma {:induction false} LabelOfStoredData(value: seq<real>)
    ensures var data := CalcListProportion(Pad(value));
      TotalDataProportion(data) == Sum(data[..Slots - 1]) &&
      (Sum(Pad(value)) != 0.0 ==> TotalDataProportion(data) == 1.0 - data[Slots - 1]) &&
      (Sum(Pad(value)) == 0.0 ==> TotalDataProportion(data) == 0.0)
  {
    var data := CalcListProportion(Pad(value));
    NormalizedIsProportion(Pad(value));
    if Sum(Pad(value)) == 0.0 {
      assert data[..Slots - 1] == Zeros(Slots - 1);
      SumZeros(Slots - 1);
    }
  }

  /** When the host passes at most four weights with a non-zero total, the remainder
      slot is empty and the label reads 100 %. */
  lemma FourCategoriesFillTheRing(value: seq<real>)
    requires |value| < Slots
    requires Sum(Pad(value)) != 0.0
    ensures TotalDataProportion(CalcListProportion(Pad(value))) * 100.0 == 100.0
  {
    LabelOfStoredData(value);
  }

  /** Running sums of the four-quarters proportions: a quarter per slot, one in all. */
  lemma QuarterPrefixSums()
    ensures forall i :: 0 <= i <= Slots ==>
      Sum([0.25, 0.25, 0.25, 0.25, 0.0][..i]) == if i < Slots then 0.25 * i as real else 1.0
  {
    var q := [0.25, 0.25, 0.25, 0.25, 0.0];
    SumSnoc(q, 0); SumSnoc(q, 1); SumSnoc(q, 2); SumSnoc(q, 3); SumSnoc(q, 4);
    assert q[..Slots] == q;
  }

  /** Four equal weights fill four quarters of the ring and leave the remainder slot
      empty; the label reads 100 %. */
  lemma EqualQuarters()
    ensures CalcListProportion(Pad([500.0, 500.0, 500.0, 500.0])) == [0.25, 0.25, 0.25, 0.25, 0.0]
    ensures TotalDataProportion([0.25, 0.25, 0.25, 0.25, 0.0]) * 100.0 == 100.0
  {
    var raw := [500.0, 500.0, 500.0, 500.0, 0.0];
    assert Pad([500.0, 500.0, 500.0, 500.0]) == raw;
    SumSnoc(raw, 0); SumSnoc(raw, 1); SumSnoc(raw, 2); SumSnoc(raw, 3); SumSnoc(raw, 4);
    assert raw[..Slots] == raw;
    assert Sum(raw) == 2000.0;
    QuarterPrefixSums();
  }
}
