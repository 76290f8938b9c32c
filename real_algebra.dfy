/** Small facts of real arithmetic that the ledger's proofs use one at a time, so that
    the solver never has to find them among many products at once. */
module RealAlgebra {

  /** Multiplying by a non-zero real and dividing by it again gives back the number. */
  lemma MulDivCancel(x: real, y: real)
    requires y != 0.0
    ensures (x * y) / y == x
  {
  }

  /** `x * (y + z)` split into its two products. */
  lemma SplitProduct(x: real, y: real, z: real)
    ensures x * y + x * z == x * (y + z)
  {
  }

  /** Reassociating a product of three reals. */
  lemma MulSwap(x: real, y: real, z: real)
    ensures x * y * z == (x * z) * y
  {
  }

  /** A quotient of two positive reals is positive. */
  lemma PositiveQuotient(x: real, y: real)
    requires x > 0.0 && y > 0.0
    ensures x / y > 0.0
  {
  }

  /** If `x * y == z` with `y` positive, then `x` has the sign of `z`. */
  lemma SignOfProduct(x: real, y: real, z: real)
    requires y > 0.0 && x * y == z && z >= 0.0
    ensures x >= 0.0
  {
  }

  /** Dividing by a non-zero real and multiplying by it again gives back the number. */
  lemma DivMulCancel(x: real, y: real)
    ensures y != 0.0 ==> (x / y) * y == x
    ensures y != 0.0 ==> y * (x / y) == x
  {
  }

  /** `(x + y / z) * z == x * z + y` for a non-zero `z`. */
  lemma ScaleSum(x: real, y: real, z: real)
    requires z != 0.0
    ensures (x + y / z) * z == x * z + y
  {
    SplitProduct(z, x, y / z);
    DivMulCancel(y, z);
  }

  /** `(x - y / z) * z == x * z - y` for a non-zero `z`. */
  lemma ScaleDifference(x: real, y: real, z: real)
    requires z != 0.0
    ensures (x - y / z) * z == x * z - y
  {
    ScaleSum(x, -y, z);
    assert -y / z == -(y / z);
  }

  /** A product of two non-negative reals is non-negative. */
  lemma NonNegativeProduct(x: real, y: real)
    requires x >= 0.0 && y >= 0.0
    ensures x * y >= 0.0
  {
  }

  /** The mean of `x` and `y` weighted by positive `a` and `b` lies between them. */
  lemma WeightedMeanBetween(x: real, a: real, y: real, b: real)
    requires a > 0.0 && b > 0.0
    ensures var p := (x * a + y * b) / (a + b);
      (x <= y ==> x <= p <= y) && (y <= x ==> y <= p <= x)
  {
    var t := a + b;
    var w := x * a + y * b;
    var p := w / t;
    DivMulCancel(w, t);
    SplitProduct(x, a, b);
    SplitProduct(y, a, b);
    assert (p - x) * t == (y - x) * b;
    assert (y - p) * t == (y - x) * a;
    if x <= y {
      NonNegativeProduct(y - x, b);
      NonNegativeProduct(y - x, a);
      SignOfProduct(p - x, t, (y - x) * b);
      SignOfProduct(y - p, t, (y - x) * a);
    }
    if y <= x {
      assert (x - p) * t == (x - y) * b;
      assert (p - y) * t == (x - y) * a;
      NonNegativeProduct(x - y, b);
      NonNegativeProduct(x - y, a);
      SignOfProduct(x - p, t, (x - y) * b);
      SignOfProduct(p - y, t, (x - y) * a);
    }
  }

  /** A non-negative real divided by a positive one is non-negative. */
  lemma NonNegativeQuotient(x: real, y: real)
    requires x >= 0.0 && y > 0.0
    ensures x / y >= 0.0
  {
  }

  /** `(x + y) * z == x * z + y * z`. */
  lemma SplitFactor(x: real, y: real, z: real)
    ensures (x + y) * z == x * z + y * z
  {
  }

  /** `x * y * z == x * (y * z)`. */
  lemma MulAssoc(x: real, y: real, z: real)
    ensures x * y * z == x * (y * z)
  {
  }

  /** `x * (y - 1) == x * y - x`. */
  lemma ScaleLessOne(x: real, y: real)
    ensures x * (y - 1.0) == x * y - x
  {
  }

  /** Crediting `y / z + w` to `x` and then scaling by `z`. */
  lemma CreditScaled(x: real, y: real, w: real, z: real)
    requires z != 0.0
    ensures (x + y / z + w) * z == x * z + y + w * z
  {
    ScaleSum(x, y, z);
    SplitFactor(x + y / z, w, z);
  }

  /** A non-zero factor cancels from both sides of an equation. */
  lemma ScaleCancel(x: real, y: real, z: real)
    requires z != 0.0 && x * z == y * z
    ensures x == y
  {
    SplitFactor(x, -y, z);
  }

  /** Zero times anything is zero. */
  lemma ZeroScaled(x: real, y: real)
    ensures x == 0.0 ==> x * y == 0.0
  {
  }
}
