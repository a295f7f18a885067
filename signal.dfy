/**
 * The sum of squares over an analyser buffer, which the three loudness
 * functions of the detectors compute with their own normalisation of a sample.
 */
module Signal {

  /** One element of a `Uint8Array`. */
  type Byte = x: int | 0 <= x < 256

  function Square(x: real): real { x * x }

  /** The sum of the squared normalised samples, accumulated left to right. */
  function SquareSum(data: seq<Byte>, norm: Byte -> real): real
  {
    if data == [] then 0.0
    else SquareSum(data[..|data| - 1], norm) + Square(norm(data[|data| - 1]))
  }

  lemma {:induction false} SquareSumNonNegative(data: seq<Byte>, norm: Byte -> real)
    ensures SquareSum(data, norm) >= 0.0
  {
    if data != [] {
      SquareSumNonNegative(data[..|data| - 1], norm);
    }
  }

  /** The sum is zero exactly when every normalised sample is zero. */
  lemma {:induction false} SquareSumZero(data: seq<Byte>, norm: Byte -> real)
    ensures SquareSum(data, norm) == 0.0 <==> forall i :: 0 <= i < |data| ==> norm(data[i]) == 0.0
  {
    if data != [] {
      var init := data[..|data| - 1];
      var x := norm(data[|data| - 1]);
      SquareSumZero(init, norm);
      SquareSumNonNegative(init, norm);
      PositiveSquare(x);
      assert forall i :: 0 <= i < |init| ==> init[i] == data[i];
      if x != 0.0 {
        assert SquareSum(data, norm) > 0.0;
      } else {
        assert SquareSum(data, norm) == SquareSum(init, norm);
      }
    }
  }

  /** A square is positive away from zero (stated through `Square` to keep the solver's terms apart). */
  lemma PositiveSquare(x: real)
    ensures Square(x) >= 0.0
    ensures x != 0.0 ==> Square(x) > 0.0
  {
    if x > 0.0 {
      NegativeSquare(-x);
      assert Square(-x) == Square(x);
    } else if x < 0.0 {
      NegativeSquare(x);
    }
  }

  lemma NegativeSquare(x: real)
    requires x < 0.0
    ensures Square(x) > 0.0
  {
    var a, b := -x, -x;
    ProductOfPositives(a, b);
    assert a * b == x * x;
  }

  lemma ProductOfPositives(a: real, b: real)
    requires a > 0.0 && b > 0.0
    ensures a * b > 0.0
  {
  }

  /** The `for` loop shared by `calculateVolumeDB` and both `calculateRMS` functions. */
  method SumSquares(data: seq<Byte>, norm: Byte -> real) returns (sum: real)
    ensures sum == SquareSum(data, norm)
  {
    sum := 0.0;
    for i := 0 to |data|
      invariant sum == SquareSum(data[..i], norm)
    {
      assert data[..i + 1][..i] == data[..i];
      var normalized := norm(data[i]);
      sum := sum + Square(normalized);
    }
    assert data[..|data|] == data;
  }
}
