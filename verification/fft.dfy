/** The recursive radix-2 decimation-in-time fast Fourier transform of the
    WAV scanner. Complex numbers are pairs of exact reals; the twiddle factor
    `exp(-2πik/N)` is held abstract, so what is proved here is the shape of
    the transform and the properties that hold whatever the twiddles are. */
module Fft {

  datatype Complex = Complex(re: real, im: real)

  const Zero: Complex := Complex(0.0, 0.0)
  const One: Complex := Complex(1.0, 0.0)

  function Add(a: Complex, b: Complex): Complex {
    Complex(a.re + b.re, a.im + b.im)
  }

  function Sub(a: Complex, b: Complex): Complex {
    Complex(a.re - b.re, a.im - b.im)
  }

  /** The complex product: `One` is its unit and `Zero` absorbs. */
  function Mul(a: Complex, b: Complex): (r: Complex)
    ensures b == One ==> r == a
    ensures b == Zero ==> r == Zero
  {
    Complex(a.re * b.re - a.im * b.im, a.re * b.im + a.im * b.re)
  }

  /** The twiddle factor for index `k` of a length-`n` transform,
      `exp(-2πik/n)`, as a function of `(k, n)`. */
  type Twiddle = (int, int) -> Complex

  predicate IsPowerOfTwo(n: nat)
    decreases n
  {
    n == 1 || (n >= 2 && n % 2 == 0 && IsPowerOfTwo(n / 2))
  }

  /** The lengths the recursion handles without dropping elements or
      indexing out of range: zero and the powers of two. */
  predicate ValidLength(n: nat) {
    n == 0 || IsPowerOfTwo(n)
  }

  /** `s[0::2]`. */
  function Evens<T>(s: seq<T>): (r: seq<T>)
    ensures |r| == (|s| + 1) / 2
  {
    seq((|s| + 1) / 2, i requires 0 <= i < (|s| + 1) / 2 => s[2 * i])
  }

  /** `s[1::2]`. */
  function Odds<T>(s: seq<T>): (r: seq<T>)
    ensures |r| == |s| / 2
  {
    seq(|s| / 2, i requires 0 <= i < |s| / 2 => s[2 * i + 1])
  }

  /** The recombination step of `fft`: with `T[k] = twiddle(k, N) * odd[k]`,
      the entries `even[k] + T[k]` followed by the entries `even[k] - T[k]`,
      where `N` is the combined length. */
  function Combine(tw: Twiddle, even: seq<Complex>, odd: seq<Complex>): (r: seq<Complex>)
    requires |even| == |odd|
    ensures |r| == 2 * |even|
    ensures forall i | 0 <= i < |r| ::
              r[i] == if i < |even| then Add(even[i], Mul(tw(i, |r|), odd[i]))
                      else Sub(even[i - |even|], Mul(tw(i - |even|, |r|), odd[i - |even|]))
  {
    var n := 2 * |even|;
    var t := seq(|even|, k requires 0 <= k < |even| => Mul(tw(k, n), odd[k]));
    seq(|even|, k requires 0 <= k < |even| => Add(even[k], t[k]))
      + seq(|even|, k requires 0 <= k < |even| => Sub(even[k], t[k]))
  }

  /** A power of two of at least two splits into two halves of equal length
      that are again powers of two. */
  lemma {:induction false} Halves<T>(s: seq<T>)
    requires |s| >= 2 && IsPowerOfTwo(|s|)
    ensures |Evens(s)| == |Odds(s)| == |s| / 2
    ensures 2 * (|s| / 2) == |s|
    ensures IsPowerOfTwo(|s| / 2)
  {
  }

  /** `fft(signal)`: a sequence of length at most one is its own transform;
      otherwise the even- and odd-indexed halves are transformed and
      recombined. The transform keeps the length. */
  function Transform(tw: Twiddle, s: seq<Complex>): (r: seq<Complex>)
    requires ValidLength(|s|)
    ensures |r| == |s|
    decreases |s|
  {
    if |s| <= 1 then s
    else Combine(tw, Transform(tw, Evens(s)), Transform(tw, Odds(s)))
  }

  /** A sequence of length at most one is returned unchanged. */
  lemma {:induction false} TransformOfShort(tw: Twiddle, s: seq<Complex>)
    requires |s| <= 1
    ensures Transform(tw, s) == s
  {
  }

  /** The butterfly layout: for `k < N/2`, entry `k` is `even[k] + T[k]` and
      entry `k + N/2` is `even[k] - T[k]`. */
  lemma {:induction false} Butterfly(tw: Twiddle, s: seq<Complex>, k: nat)
    requires |s| >= 2 && IsPowerOfTwo(|s|)
    requires k < |s| / 2
    ensures var n := |s|;
            var even := Transform(tw, Evens(s));
            var odd := Transform(tw, Odds(s));
            && Transform(tw, s)[k] == Add(even[k], Mul(tw(k, n), odd[k]))
            && Transform(tw, s)[k + n / 2] == Sub(even[k], Mul(tw(k, n), odd[k]))
  {
    Halves(s);
    TransformStep(tw, s);
    CombineAt(tw, Transform(tw, Evens(s)), Transform(tw, Odds(s)), k);
  }

  /** One step of the recursion. */
  lemma {:induction false} TransformStep(tw: Twiddle, s: seq<Complex>)
    requires |s| >= 2 && IsPowerOfTwo(|s|)
    ensures Transform(tw, s) == Combine(tw, Transform(tw, Evens(s)), Transform(tw, Odds(s)))
  {
  }

  /** The two entries of the recombination that use index `k` of the halves. */
  lemma {:induction false} CombineAt(tw: Twiddle, even: seq<Complex>, odd: seq<Complex>, k: nat)
    requires |even| == |odd| && k < |even|
    ensures Combine(tw, even, odd)[k] == Add(even[k], Mul(tw(k, 2 * |even|), odd[k]))
    ensures Combine(tw, even, odd)[k + |even|] == Sub(even[k], Mul(tw(k, 2 * |even|), odd[k]))
  {
    var r := Combine(tw, even, odd);
    var j := k + |even|;
    assert j - |even| == k;
    assert r[j] == Sub(even[j - |even|], Mul(tw(j - |even|, |r|), odd[j - |even|]));
  }

  // ---------------------------------------------------------------------------
  // Properties that hold for every choice of twiddle factors
  // ---------------------------------------------------------------------------

  function PointwiseAdd(a: seq<Complex>, b: seq<Complex>): (r: seq<Complex>)
    requires |a| == |b|
    ensures |r| == |a|
  {
    seq(|a|, i requires 0 <= i < |a| => Add(a[i], b[i]))
  }

  function Zeros(n: nat): (r: seq<Complex>)
    ensures |r| == n
  {
    seq(n, _ => Zero)
  }

  function Ones(n: nat): (r: seq<Complex>)
    ensures |r| == n
  {
    seq(n, _ => One)
  }

  /** The unit impulse of length `n`: one, then zeros. */
  function Impulse(n: nat): (r: seq<Complex>)
    requires n >= 1
    ensures |r| == n
  {
    [One] + Zeros(n - 1)
  }

  /** The transform is additive: transforming a sum of signals gives the sum
      of their transforms. */
  lemma {:induction false} TransformAdditive(tw: Twiddle, a: seq<Complex>, b: seq<Complex>)
    requires |a| == |b| && ValidLength(|a|)
    ensures Transform(tw, PointwiseAdd(a, b)) == PointwiseAdd(Transform(tw, a), Transform(tw, b))
    decreases |a|
  {
    if |a| >= 2 {
      var s := PointwiseAdd(a, b);
      Halves(a);
      Halves(b);
      Halves(s);
      SplitOfSum(a, b);
      TransformAdditive(tw, Evens(a), Evens(b));
      TransformAdditive(tw, Odds(a), Odds(b));
      TransformStep(tw, s);
      TransformStep(tw, a);
      TransformStep(tw, b);
      CombineAdditive(tw, Transform(tw, Evens(a)), Transform(tw, Odds(a)),
                      Transform(tw, Evens(b)), Transform(tw, Odds(b)));
    }
  }

  /** The halves of a sum are the sums of the halves. */
  lemma {:induction false} SplitOfSum(a: seq<Complex>, b: seq<Complex>)
    requires |a| == |b|
    ensures Evens(PointwiseAdd(a, b)) == PointwiseAdd(Evens(a), Evens(b))
    ensures Odds(PointwiseAdd(a, b)) == PointwiseAdd(Odds(a), Odds(b))
  {
  }

  lemma {:induction false} MulDistributes(w: Complex, x: Complex, y: Complex)
    ensures Mul(w, Add(x, y)) == Add(Mul(w, x), Mul(w, y))
  {
    assert w.re * (x.re + y.re) == w.re * x.re + w.re * y.re;
    assert w.im * (x.im + y.im) == w.im * x.im + w.im * y.im;
    assert w.re * (x.im + y.im) == w.re * x.im + w.re * y.im;
    assert w.im * (x.re + y.re) == w.im * x.re + w.im * y.re;
  }

  /** The recombination step is additive. */
  lemma {:induction false} CombineAdditive(tw: Twiddle, ea: seq<Complex>, oa: seq<Complex>,
                                           eb: seq<Complex>, ob: seq<Complex>)
    requires |ea| == |oa| == |eb| == |ob|
    ensures Combine(tw, PointwiseAdd(ea, eb), PointwiseAdd(oa, ob))
            == PointwiseAdd(Combine(tw, ea, oa), Combine(tw, eb, ob))
  {
    var es, os := PointwiseAdd(ea, eb), PointwiseAdd(oa, ob);
    var lhs, ra, rb := Combine(tw, es, os), Combine(tw, ea, oa), Combine(tw, eb, ob);
    var half := |ea|;
    forall i | 0 <= i < 2 * half
      ensures lhs[i] == Add(ra[i], rb[i])
    {
      var k := if i < half then i else i - half;
      CombineAt(tw, es, os, k);
      CombineAt(tw, ea, oa, k);
      CombineAt(tw, eb, ob, k);
      MulDistributes(tw(k, 2 * half), oa[k], ob[k]);
    }
    assert lhs == PointwiseAdd(ra, rb);
  }

  /** An all-zero signal transforms to all zeros: by additivity its
      transform equals twice itself. */
  lemma {:induction false} TransformOfZeros(tw: Twiddle, n: nat)
    requires ValidLength(n)
    ensures Transform(tw, Zeros(n)) == Zeros(n)
  {
    var z := Zeros(n);
    assert PointwiseAdd(z, z) == z;
    TransformAdditive(tw, z, z);
    var r := Transform(tw, z);
    forall i | 0 <= i < n
      ensures r[i] == Zero
    {
      assert r[i] == Add(r[i], r[i]);
    }
  }

  /** The unit impulse transforms to all ones: its spectrum is flat. */
  lemma {:induction false} TransformOfImpulse(tw: Twiddle, n: nat)
    requires IsPowerOfTwo(n)
    ensures Transform(tw, Impulse(n)) == Ones(n)
    decreases n
  {
    if n >= 2 {
      var s := Impulse(n);
      Halves(s);
      assert Evens(s) == Impulse(n / 2);
      assert Odds(s) == Zeros(n / 2);
      TransformOfImpulse(tw, n / 2);
      TransformOfZeros(tw, n / 2);
      var even, odd := Transform(tw, Evens(s)), Transform(tw, Odds(s));
      assert even == Ones(n / 2) && odd == Zeros(n / 2);
      TransformStep(tw, s);
      var r := Combine(tw, even, odd);
      forall i | 0 <= i < n
        ensures r[i] == One
      {
        var k := if i < n / 2 then i else i - n / 2;
        CombineAt(tw, even, odd, k);
        assert even[k] == One && odd[k] == Zero;
      }
      assert r == Ones(n);
    }
  }
}
