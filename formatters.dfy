/** The tier and suffix selection of utils/formatters.ts (the decimal rendering is not modelled). */
module Formatters {
  import opened Numeric

  /** The suffix list of formatNumber; its last entry, "Dc", is never chosen. */
  const Units: seq<string> := ["K", "M", "B", "T", "Q", "Qt", "Sx", "Sp", "Oc", "No", "Dc"]

  /** The largest tier the loop reaches: `units.length - 1`. */
  const MaxTier: nat := |Units| - 1

  /** What formatNumber renders: the number itself below 1000, else a scaled value and a suffix. */
  datatype Formatted = Unscaled(num: real) | Scaled(value: real, suffix: string)

  /** The tier the division loop stops at when started from `value` at tier `i`. */
  function TierFrom(value: real, i: nat): (r: nat)
    requires i <= MaxTier
    ensures i <= r <= MaxTier
    ensures Abs(value) >= 1000.0 ==> i < MaxTier ==> i < r
    decreases MaxTier - i
  {
    if Abs(value) >= 1000.0 && i < MaxTier then TierFrom(value / 1000.0, i + 1) else i
  }

  /** The number of divisions by 1000 formatNumber performs on `num`. */
  function Tier(num: real): (r: nat)
  {
    TierFrom(num, 0)
  }

  /** Below 1000 nothing is scaled; from 1000 on at least one division happens. */
  lemma TierZeroIffSmall(num: real)
    ensures Tier(num) == 0 <==> Abs(num) < 1000.0
  {
  }

  lemma {:induction false} TierFromMonotone(x: real, y: real, i: nat)
    requires i <= MaxTier
    requires Abs(x) <= Abs(y)
    ensures TierFrom(x, i) <= TierFrom(y, i)
    decreases MaxTier - i
  {
    if Abs(x) >= 1000.0 && i < MaxTier {
      assert Abs(x / 1000.0) <= Abs(y / 1000.0);
      TierFromMonotone(x / 1000.0, y / 1000.0, i + 1);
    }
  }

  /** A larger magnitude never gets a smaller tier. */
  lemma TierMonotone(x: real, y: real)
    requires Abs(x) <= Abs(y)
    ensures Tier(x) <= Tier(y)
  {
    TierFromMonotone(x, y, 0);
  }

  /** `num` divided by 1000, `i` times over, as the loop does. */
  function Scale(num: real, i: nat): (r: real)
  {
    if i == 0 then num else Scale(num, i - 1) / 1000.0
  }

  /** The scaled value is `num / 1000^i`, and it keeps the sign of `num`. */
  lemma {:induction false} ScaleIsDivision(num: real, i: nat)
    ensures Scale(num, i) * Pow(1000.0, i) == num
    ensures (num > 0.0 <==> Scale(num, i) > 0.0) && (num < 0.0 <==> Scale(num, i) < 0.0)
  {
    if i > 0 {
      ScaleIsDivision(num, i - 1);
      var v, p := Scale(num, i - 1), Pow(1000.0, i - 1);
      calc {
        Scale(num, i) * Pow(1000.0, i);
        (v / 1000.0) * (1000.0 * p);
        ((v / 1000.0) * 1000.0) * p;
        v * p;
      }
    }
  }

  /** Every suffix below the last tier is a non-empty string other than "Dc". */
  lemma SuffixNeverEmptyNorDc(k: nat)
    requires k < MaxTier
    ensures Units[k] != "" && Units[k] != "Dc"
  {
  }

  /**
   * formatNumber without the string rendering: the loop divides by 1000 until the magnitude
   * drops below 1000 or the tier reaches `units.length - 1`, then picks `units[i - 1] || ''`.
   */
  method FormatNumber(num: real) returns (f: Formatted)
    ensures f.Unscaled? <==> Abs(num) < 1000.0
    ensures f.Unscaled? ==> f.num == num
    ensures f.Scaled? ==> 1 <= Tier(num) <= MaxTier && f.suffix == Units[Tier(num) - 1]
    ensures f.Scaled? ==> f.value == Scale(num, Tier(num))
    ensures f.Scaled? && Tier(num) < MaxTier ==> 1.0 <= Abs(f.value) < 1000.0
    ensures f.Scaled? ==> f.suffix != "" && f.suffix != "Dc"
  {
    if Abs(num) < 1000.0 {
      return Unscaled(num);
    }
    var i: nat := 0;
    var value := num;
    while Abs(value) >= 1000.0 && i < |Units| - 1
      invariant i <= MaxTier
      invariant TierFrom(value, i) == Tier(num)
      invariant value == Scale(num, i)
      invariant i >= 1 ==> Abs(value) >= 1.0
      decreases MaxTier - i
    {
      value := value / 1000.0;
      i := i + 1;
    }
    assert i == Tier(num) && 1 <= i;
    SuffixNeverEmptyNorDc(i - 1);
    var suffix := if 1 <= i <= |Units| then Units[i - 1] else "";
    f := Scaled(value, suffix);
  }

  /** formatNumberExact renders `Math.floor(num)`: the greatest integer not above `num`. */
  function FloorForExact(num: real): (r: int)
    ensures r as real <= num < r as real + 1.0
  {
    num.Floor
  }
}
