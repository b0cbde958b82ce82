/**
 * The converter's time-axis padding (`pad_seq`) and the trim that undoes it after the
 * generator has run. A spectrogram is a sequence of frames (rows), each a sequence of
 * `width` feature values.
 */
module Padding {
  import opened PyText
  import opened Arith

  /** The block size `pad_seq` uses when called without `base`. */
  const DefaultBase: nat := 32

  predicate HasWidth(x: seq<seq<real>>, width: nat)
  {
    forall k :: 0 <= k < |x| ==> |x[k]| == width
  }

  function ZeroRow(width: nat): (row: seq<real>)
    ensures |row| == width && forall c :: 0 <= c < width ==> row[c] == 0.0
  {
    seq(width, _ => 0.0)
  }

  /** `len_out = base * ceil(len / base)`: the smallest multiple of `base` that is at least `len`. */
  function PaddedLength(len: nat, base: nat): (lenOut: nat)
    requires base > 0
    ensures lenOut % base == 0
    ensures len <= lenOut < len + base
  {
    var q := (len + base - 1) / base;
    assert base * q <= len + base - 1 < base * q + base;
    DivModOfSum(q, base, 0);
    base * q
  }

  /** `pad_seq(x, base)`: appends `len_pad` zero rows of the same width and returns them with `len_pad`. */
  function PadSeq(x: seq<seq<real>>, width: nat, base: nat): (r: (seq<seq<real>>, nat))
    requires base > 0
    ensures var (padded, lenPad) := r;
      && lenPad < base
      && |padded| == |x| + lenPad
      && |padded| % base == 0
      && padded[..|x|] == x
      && (forall k :: |x| <= k < |padded| ==> padded[k] == ZeroRow(width))
      && (HasWidth(x, width) ==> HasWidth(padded, width))
  {
    var lenPad := PaddedLength(|x|, base) - |x|;
    (x + seq(lenPad, _ => ZeroRow(width)), lenPad)
  }

  /** No shorter multiple of `base` than the padded length can hold `x`: the padding is minimal. */
  lemma PadSeqIsMinimal(x: seq<seq<real>>, width: nat, base: nat, m: nat)
    requires base > 0
    requires m % base == 0 && m >= |x|
    ensures |PadSeq(x, width, base).0| <= m
  {
    var lenOut := |PadSeq(x, width, base).0|;
    var a, b := m / base, lenOut / base;
    assert m == base * a && lenOut == base * b;
    assert base * b < base * a + base == base * (a + 1);
    ScaleStrict(base, b, a + 1);
    if b > a {
      ScaleStrict(base, a, b);
    } else {
      ScaleStrict(base, b, a);
    }
  }

  /** The trim at converter.py:87-90: keep everything when nothing was padded, otherwise `y[:-len_pad]`. */
  function Trim<T>(y: seq<T>, lenPad: nat): (r: seq<T>)
    ensures lenPad <= |y| ==> r == y[..|y| - lenPad]
    ensures lenPad > |y| ==> r == []
  {
    if lenPad == 0 then y else SliceToNeg(y, lenPad)
  }

  /** Without its special case the trim would empty every unpadded output, since `y[:-0]` is `y[:0]`. */
  lemma SliceWithoutSpecialCaseLosesRows<T>(y: seq<T>)
    requires |y| > 0
    ensures SliceToNeg(y, 0) == [] != y
  {
  }

  /** Trimming a padded sequence by its pad amount gives back the original rows. */
  lemma TrimUndoesPad(x: seq<seq<real>>, width: nat, base: nat)
    requires base > 0
    ensures var (padded, lenPad) := PadSeq(x, width, base); Trim(padded, lenPad) == x
  {
  }

  /** The same holds for any output with as many rows as the padded input, such as the generator's. */
  lemma TrimKeepsOriginalLength<T>(y: seq<T>, x: seq<seq<real>>, width: nat, base: nat)
    requires base > 0
    requires |y| == |PadSeq(x, width, base).0|
    ensures |Trim(y, PadSeq(x, width, base).1)| == |x|
  {
  }
}
