/** Amounts as pandas holds them: a float that may be NaN. Floats are modelled
    by exact reals, so accounting identities hold exactly. A float division by
    zero (which yields an infinity or NaN) is modelled by NaN. */
module Numeric {

  datatype Num = Real(r: real) | NaN

  // Arithmetic on Num: NaN absorbs everything, as in IEEE floats.

  function Add(a: Num, b: Num): Num
  {
    if a.Real? && b.Real? then Real(a.r + b.r) else NaN
  }

  function Sub(a: Num, b: Num): Num
  {
    if a.Real? && b.Real? then Real(a.r - b.r) else NaN
  }

  function Mul(a: Num, b: Num): Num
  {
    if a.Real? && b.Real? then Real(a.r * b.r) else NaN
  }

  function Div(a: Num, b: Num): Num
  {
    if a.Real? && b.Real? && b.r != 0.0 then Real(a.r / b.r) else NaN
  }

  function Neg(a: Num): Num
  {
    if a.Real? then Real(-a.r) else NaN
  }

  /** x^k for a natural exponent (numpy's `np.power` on floats). */
  function Pow(x: real, k: nat): real
  {
    if k == 0 then 1.0 else x * Pow(x, k - 1)
  }

  function PowNum(x: Num, k: nat): Num
  {
    if x.Real? then Real(Pow(x.r, k)) else NaN
  }

  // Element-wise operations on aligned series (pandas `+`, `-`, `*`, `/`).

  function Plus(x: seq<Num>, y: seq<Num>): seq<Num>
    requires |x| == |y|
  {
    seq(|x|, i requires 0 <= i < |x| => Add(x[i], y[i]))
  }

  function Minus(x: seq<Num>, y: seq<Num>): seq<Num>
    requires |x| == |y|
  {
    seq(|x|, i requires 0 <= i < |x| => Sub(x[i], y[i]))
  }

  function Times(x: seq<Num>, y: seq<Num>): seq<Num>
    requires |x| == |y|
  {
    seq(|x|, i requires 0 <= i < |x| => Mul(x[i], y[i]))
  }

  function Over(x: seq<Num>, y: seq<Num>): seq<Num>
    requires |x| == |y|
  {
    seq(|x|, i requires 0 <= i < |x| => Div(x[i], y[i]))
  }

  function Negated(x: seq<Num>): seq<Num>
  {
    seq(|x|, i requires 0 <= i < |x| => Neg(x[i]))
  }

  /** Every entry multiplied by one scalar. */
  function Scaled(x: seq<Num>, c: Num): seq<Num>
  {
    seq(|x|, i requires 0 <= i < |x| => Mul(x[i], c))
  }

  /** Every entry divided by one scalar. */
  function DividedBy(x: seq<Num>, c: Num): seq<Num>
  {
    seq(|x|, i requires 0 <= i < |x| => Div(x[i], c))
  }

  // Reductions.

  /** Number of entries that are not NaN. */
  function DefinedCount(xs: seq<Num>): (n: nat)
    ensures n <= |xs|
  {
    if xs == [] then 0 else (if xs[0].Real? then 1 else 0) + DefinedCount(xs[1..])
  }

  /** Sum of the entries that are not NaN (pandas `Series.sum()`, which skips NaN
      and gives 0 for an all-NaN series). */
  function DefinedSum(xs: seq<Num>): real
  {
    if xs == [] then 0.0 else (if xs[0].Real? then xs[0].r else 0.0) + DefinedSum(xs[1..])
  }

  /** `np.nanmean`: the mean of the entries that are not NaN; NaN when there are none. */
  function NanMean(xs: seq<Num>): (m: Num)
    ensures m.Real? <==> DefinedCount(xs) > 0
    ensures m.Real? ==> m.r * (DefinedCount(xs) as real) == DefinedSum(xs)
  {
    if DefinedCount(xs) == 0 then NaN else Real(DefinedSum(xs) / DefinedCount(xs) as real)
  }

  // Lemmas about the reductions.

  lemma {:induction false} DefinedSumOfConstant(xs: seq<Num>, c: real)
    requires forall i :: 0 <= i < |xs| && xs[i].Real? ==> xs[i].r == c
    ensures DefinedSum(xs) == c * DefinedCount(xs) as real
  {
    if xs != [] {
      DefinedSumOfConstant(xs[1..], c);
    }
  }

  /** The mean over the defined entries, when each of them equals `c`, is `c`. */
  lemma NanMeanOfConstant(xs: seq<Num>, c: real)
    requires DefinedCount(xs) > 0
    requires forall i :: 0 <= i < |xs| && xs[i].Real? ==> xs[i].r == c
    ensures NanMean(xs) == Real(c)
  {
    DefinedSumOfConstant(xs, c);
    NanMeanFromSum(xs, c);
  }

  lemma NanMeanFromSum(xs: seq<Num>, c: real)
    requires DefinedCount(xs) > 0
    requires DefinedSum(xs) == c * DefinedCount(xs) as real
    ensures NanMean(xs) == Real(c)
  {
    DivCancel(c, DefinedCount(xs) as real);
  }

  lemma DivCancel(c: real, n: real)
    requires n != 0.0
    ensures (c * n) / n == c
  {
  }

  /** Scaling by a defined amount keeps exactly the defined entries defined,
      and scales their sum. */
  lemma {:induction false} DefinedScaled(xs: seq<Num>, c: real)
    ensures DefinedCount(Scaled(xs, Real(c))) == DefinedCount(xs)
    ensures DefinedSum(Scaled(xs, Real(c))) == c * DefinedSum(xs)
  {
    if xs != [] {
      DefinedScaled(xs[1..], c);
      assert Scaled(xs, Real(c))[1..] == Scaled(xs[1..], Real(c));
    }
  }

  /** `nanmean` is linear: scaling every entry by a defined amount scales the
      mean, and a mean of no defined entries stays NaN. */
  lemma NanMeanScaled(xs: seq<Num>, c: real)
    ensures NanMean(Scaled(xs, Real(c))) == Mul(NanMean(xs), Real(c))
  {
    DefinedScaled(xs, c);
    if DefinedCount(xs) > 0 {
      var n := DefinedCount(xs) as real;
      calc {
        DefinedSum(Scaled(xs, Real(c))) / n;
        (c * DefinedSum(xs)) / n;
        (DefinedSum(xs) / n) * c;
      }
    }
  }

  /** Adding three zeros to an amount leaves it unchanged, NaN included. */
  lemma AddZeros(x: Num)
    ensures Add(Add(Add(Real(0.0), Real(0.0)), Real(0.0)), x) == x
  {
    assert Add(Real(0.0), Real(0.0)) == Real(0.0);
    if x.Real? {
      assert Add(Real(0.0), x) == Real(0.0 + x.r);
    }
  }

  // Lemmas about powers.

  lemma {:induction false} PowOne(k: nat)
    ensures Pow(1.0, k) == 1.0
  {
    if k > 0 {
      PowOne(k - 1);
    }
  }

  lemma {:induction false} PowPositive(x: real, k: nat)
    requires x > 0.0
    ensures Pow(x, k) > 0.0
  {
    if k > 0 {
      PowPositive(x, k - 1);
    }
  }

  lemma {:induction false} PowNonZero(x: real, k: nat)
    requires x != 0.0
    ensures Pow(x, k) != 0.0
  {
    if k > 0 {
      PowNonZero(x, k - 1);
    }
  }

  lemma {:induction false} PowAdd(x: real, a: nat, b: nat)
    ensures Pow(x, a + b) == Pow(x, a) * Pow(x, b)
    decreases b
  {
    if b > 0 {
      PowAdd(x, a, b - 1);
      calc {
        Pow(x, a + b);
        x * Pow(x, a + b - 1);
        x * (Pow(x, a) * Pow(x, b - 1));
        Pow(x, a) * (x * Pow(x, b - 1));
      }
    }
  }
}
