/**
 * The gain-corrected energy sum at the start of the decibel calculation.
 *
 * The analyser hands over one unsigned byte per frequency bin. Each bin `v`
 * is boosted by 1.5 when `v < 128` and left alone otherwise; the boosted
 * values are squared and summed in bin order. Doubling a corrected value
 * makes it an integer (`3v` or `2v`), so four times the sum is an integer
 * too, and that integer is what this module computes.
 */
module Energy {

  /** One frequency bin as the analyser writes it into a `Uint8Array`. */
  type Byte = x: int | 0 <= x < 256

  /** Transform window of the analyser (its `fftSize`). */
  const FftSize: nat := 8192

  /** Bins per frame: half the transform window (`frequencyBinCount`). */
  const BinCount: nat := FftSize / 2

  /** Below this bin value the gain correction applies. */
  const GainKnee: int := 128

  /** Largest value of a doubled corrected bin: 255 is left alone, 2 * 255. */
  const MaxDoubled: nat := 510

  /** 2^53: integers below it, and quarters of them, are exact doubles. */
  const ExactLimit: nat := 0x20_0000_0000_0000

  /** The corrected bin exactly as `App.tsx` computes it, over the reals. */
  function Amplified(v: Byte): (a: real)
    ensures v as real <= a <= 255.0
  {
    if v < GainKnee then v as real * 1.5 else v as real
  }

  /** Twice the corrected bin, as an integer. */
  function Doubled(v: Byte): (c: nat)
    ensures c as real == 2.0 * Amplified(v)
    ensures c <= MaxDoubled
    ensures c == 0 <==> v == 0
  {
    if v < GainKnee then 3 * v else 2 * v
  }

  /** The component's fold over the reals: a left-to-right sum of squared corrected bins. */
  function RealEnergy(s: seq<Byte>): (e: real)
    ensures 0.0 <= e <= |s| as real * 65025.0
  {
    if |s| == 0 then 0.0
    else
      var a := Amplified(s[|s| - 1]);
      SquareAtMostFullScale(a);
      RealEnergy(s[..|s| - 1]) + a * a
  }

  lemma SquareAtMostFullScale(a: real)
    requires 0.0 <= a <= 255.0
    ensures 0.0 <= a * a <= 65025.0
  {
    assert a * a <= 255.0 * a <= 255.0 * 255.0;
  }

  /** Four times the energy of a frame, summed in the same order. */
  function QuadEnergy(s: seq<Byte>): (e: nat)
    ensures e as real == 4.0 * RealEnergy(s)
    ensures e <= |s| * (MaxDoubled * MaxDoubled)
  {
    if |s| == 0 then 0
    else
      var c := Doubled(s[|s| - 1]);
      SquareOfDoubled(s[|s| - 1]);
      QuadEnergy(s[..|s| - 1]) + c * c
  }

  /** Squaring a doubled bin quadruples the squared corrected bin. */
  lemma SquareOfDoubled(v: Byte)
    ensures (Doubled(v) * Doubled(v)) as real == 4.0 * (Amplified(v) * Amplified(v))
    ensures Doubled(v) * Doubled(v) <= MaxDoubled * MaxDoubled
  {
    var c := Doubled(v);
    CastOfSquare(c);
    SquareOfTwice(c as real, Amplified(v));
    SquareBelow(c, MaxDoubled);
  }

  lemma CastOfSquare(c: int)
    ensures (c * c) as real == (c as real) * (c as real)
  {
  }

  lemma SquareOfTwice(x: real, a: real)
    requires x == 2.0 * a
    ensures x * x == 4.0 * (a * a)
  {
  }

  lemma SquareBelow(c: nat, m: nat)
    requires c <= m
    ensures c * c <= m * m
  {
    assert c * c <= c * m <= m * m;
  }

  /** The loop of the component's `reduce`, accumulating four times the energy. */
  method AccumulateEnergy(frame: seq<Byte>) returns (quad: nat)
    ensures quad == QuadEnergy(frame)
    ensures quad as real == 4.0 * RealEnergy(frame)
  {
    quad := 0;
    var i := 0;
    while i < |frame|
      invariant 0 <= i <= |frame|
      invariant quad == QuadEnergy(frame[..i])
    {
      var c := Doubled(frame[i]);
      assert frame[..i + 1][..i] == frame[..i];
      quad := quad + c * c;
      i := i + 1;
    }
    assert frame[..|frame|] == frame;
  }

  /** A frame has zero energy exactly when every bin is zero. */
  lemma {:induction false} SilentIffAllZero(s: seq<Byte>)
    ensures QuadEnergy(s) == 0 <==> forall i :: 0 <= i < |s| ==> s[i] == 0
  {
    if |s| > 0 {
      var init := s[..|s| - 1];
      SilentIffAllZero(init);
      var c := Doubled(s[|s| - 1]);
      assert QuadEnergy(s) == QuadEnergy(init) + c * c;
      if QuadEnergy(s) == 0 {
        assert c == 0;
        forall i | 0 <= i < |s|
          ensures s[i] == 0
        {
          if i < |s| - 1 {
            assert s[i] == init[i];
          }
        }
      } else if c != 0 {
        assert s[|s| - 1] != 0;
      } else {
        assert QuadEnergy(init) != 0;
        var j :| 0 <= j < |init| && init[j] != 0;
        assert s[j] == init[j];
      }
    }
  }

  /** A frame of full-scale bins has mean square 255^2, so its amplitude is exactly 1. */
  lemma {:induction false} FullScaleEnergy(s: seq<Byte>)
    requires forall i :: 0 <= i < |s| ==> s[i] == 255
    ensures QuadEnergy(s) == |s| * (MaxDoubled * MaxDoubled)
  {
    if |s| > 0 {
      FullScaleEnergy(s[..|s| - 1]);
    }
  }

  /**
   * Every partial sum of the fold over an analyser frame is a quarter of an
   * integer below 2^53, so the double-precision fold commits no rounding.
   */
  lemma PartialSumsAreExact(s: seq<Byte>)
    requires |s| <= BinCount
    ensures forall k :: 0 <= k <= |s| ==> QuadEnergy(s[..k]) < ExactLimit
  {
    forall k | 0 <= k <= |s|
      ensures QuadEnergy(s[..k]) < ExactLimit
    {
      var e := QuadEnergy(s[..k]);
      assert e <= k * (MaxDoubled * MaxDoubled);
      assert k * (MaxDoubled * MaxDoubled) <= BinCount * (MaxDoubled * MaxDoubled);
    }
  }

  /**
   * The correction is not monotone: raising a bin from 127 to 128 lowers the
   * energy of the frame, since 127 is boosted to 190.5 while 128 stays 128.
   */
  lemma CorrectionIsNotMonotone()
    ensures QuadEnergy([128]) < QuadEnergy([127])
  {
    assert [127][..0] == [] && [128][..0] == [];
  }
}
