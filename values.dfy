/**
 * Numeric domain values as the scales see them, and the model of the
 * `d3.extent` primitive the scales and datasets rely on.
 *
 * JavaScript numbers are doubles; the model keeps only what the domain
 * guard and the extent computation distinguish: a finite value, NaN and
 * the two infinities.
 */
module Values {

  datatype Option<+T> = None | Some(value: T)

  /** A domain value: a finite number, NaN, or one of the two infinities. */
  datatype Num = Finite(v: real) | NaN | PosInf | NegInf

  /** An extent as the scales exchange it: `[]` or `[min, max]`. */
  type Extent = seq<Num>

  /** The lower and upper bound found by `d3.extent`. */
  datatype Bounds = Bounds(lo: Num, hi: Num)

  /** JavaScript's `a < b` on numbers: false whenever NaN is involved. */
  predicate Less(a: Num, b: Num)
  {
    match (a, b)
    case (Finite(x), Finite(y)) => x < y
    case (NegInf, Finite(_)) => true
    case (NegInf, PosInf) => true
    case (Finite(_), PosInf) => true
    case _ => false
  }

  /** `a <= b` between two values that are not NaN. */
  predicate AtMost(a: Num, b: Num)
  {
    a == b || Less(a, b)
  }

  lemma LessTransitive(a: Num, b: Num, c: Num)
    requires Less(a, b) && Less(b, c)
    ensures Less(a, c)
  {
  }

  lemma LessTotal(a: Num, b: Num)
    requires !a.NaN? && !b.NaN?
    ensures a == b || Less(a, b) || Less(b, a)
  {
  }

  /**
   * `d3.extent(data)`: the first value that is not NaN starts both bounds,
   * every later value lowers the minimum when smaller and raises the
   * maximum when larger (a comparison with NaN is false, so NaN never takes
   * part). `None` stands for the `[undefined, undefined]` that d3 returns
   * when no value qualifies. The recursion peels the LAST element, so that
   * it follows d3's left-to-right scan.
   */
  function D3Extent(data: seq<Num>): Option<Bounds>
    decreases |data|
  {
    if |data| == 0 then None
    else
      var acc := D3Extent(data[..|data| - 1]);
      var b := data[|data| - 1];
      if b.NaN? then acc
      else match acc
        case None => Some(Bounds(b, b))
        case Some(bd) =>
          Some(Bounds(if Less(b, bd.lo) then b else bd.lo,
                      if Less(bd.hi, b) then b else bd.hi))
  }

  /** Every value of `data` is NaN (vacuously so for the empty sequence). */
  predicate AllNaN(data: seq<Num>)
  {
    forall i :: 0 <= i < |data| ==> data[i].NaN?
  }

  /** `b` bounds every non-NaN value of `data`, and both bounds occur in `data`. */
  predicate IsExtentOf(b: Bounds, data: seq<Num>)
  {
    && !b.lo.NaN? && !b.hi.NaN?
    && b.lo in data && b.hi in data
    && forall i :: 0 <= i < |data| && !data[i].NaN? ==> AtMost(b.lo, data[i]) && AtMost(data[i], b.hi)
  }

  /**
   * What `d3.extent` promises: nothing exactly when every value is NaN,
   * and otherwise the least and the greatest of the other values.
   */
  lemma {:induction false} D3ExtentSpec(data: seq<Num>)
    ensures D3Extent(data).None? <==> AllNaN(data)
    ensures D3Extent(data).Some? ==> IsExtentOf(D3Extent(data).value, data)
    decreases |data|
  {
    if |data| > 0 {
      var init := data[..|data| - 1];
      var b := data[|data| - 1];
      assert data == init + [b];
      D3ExtentSpec(init);
      var acc := D3Extent(init);
      if b.NaN? {
        if acc.Some? {
          var bd := acc.value;
          forall i | 0 <= i < |data| && !data[i].NaN?
            ensures AtMost(bd.lo, data[i]) && AtMost(data[i], bd.hi)
          {
            assert i < |init| && data[i] == init[i];
          }
        }
      } else if acc.None? {
        forall i | 0 <= i < |data| && !data[i].NaN?
          ensures data[i] == b
        {
        }
      } else {
        var bd := acc.value;
        var lo := if Less(b, bd.lo) then b else bd.lo;
        var hi := if Less(bd.hi, b) then b else bd.hi;
        LessTotal(b, bd.lo);
        LessTotal(bd.hi, b);
        forall i | 0 <= i < |data| && !data[i].NaN?
          ensures AtMost(lo, data[i]) && AtMost(data[i], hi)
        {
          if i < |init| {
            assert init[i] == data[i];
            if Less(b, bd.lo) && Less(bd.lo, data[i]) { LessTransitive(b, bd.lo, data[i]); }
            if Less(data[i], bd.hi) && Less(bd.hi, b) { LessTransitive(data[i], bd.hi, b); }
          }
        }
      }
    }
  }

  /** The value of one decimal digit. */
  function DigitValue(c: char): nat
    requires '0' <= c <= '9'
  {
    (c as int) - ('0' as int)
  }

  /** Every character of `s` is a decimal digit. */
  predicate AllDigits(s: string)
  {
    forall i :: 0 <= i < |s| ==> '0' <= s[i] <= '9'
  }

  /** The number a string of decimal digits denotes, most significant digit first. */
  function DecimalValue(s: string): nat
    requires AllDigits(s)
    decreases |s|
  {
    if |s| == 0 then 0 else DecimalValue(s[..|s| - 1]) * 10 + DigitValue(s[|s| - 1])
  }

  /**
   * JavaScript's `String(n)` for a non-negative integer: the decimal digits
   * that denote `n`, without leading zeros.
   */
  function NatToString(n: nat): (s: string)
    ensures |s| > 0 && AllDigits(s)
    ensures DecimalValue(s) == n
    ensures |s| > 1 ==> s[0] != '0'
  {
    var digit := (('0' as int) + n % 10) as char;
    if n < 10 then [digit]
    else
      var init := NatToString(n / 10);
      assert (init + [digit])[..|init|] == init;
      init + [digit]
  }

  /** Different indices give different strings, so each datum index has its own colour key. */
  lemma NatToStringInjective(a: nat, b: nat)
    requires NatToString(a) == NatToString(b)
    ensures a == b
  {
    assert DecimalValue(NatToString(a)) == a;
  }
}
