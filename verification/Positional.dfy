/** Numbers written in a base, most significant digit first. */
module Positional {

  predicate InBase(base: nat, ds: seq<nat>) {
    forall i :: 0 <= i < |ds| ==> ds[i] < base
  }

  function Value(base: nat, ds: seq<nat>): nat {
    if ds == [] then 0 else Value(base, ds[..|ds| - 1]) * base + ds[|ds| - 1]
  }

  function Pow(base: nat, n: nat): nat {
    if n == 0 then 1 else Pow(base, n - 1) * base
  }

  /** The shortest way to write a number: no zero in front, and zero itself is one zero. */
  predicate Minimal(ds: seq<nat>) {
    |ds| > 0 && (|ds| > 1 ==> ds[0] != 0)
  }

  function Zeros(n: nat): (zeros: seq<nat>)
    ensures |zeros| == n
  {
    seq(n, _ => 0)
  }

  lemma MulMonotone(a: nat, b: nat, c: nat)
    requires a <= b
    ensures a * c <= b * c
  {
  }

  lemma Distribute(a: nat, b: nat, c: nat, d: nat)
    ensures (a * b + c) * d == a * (b * d) + c * d
  {
  }

  lemma Below(v: nat, p: nat, d: nat, base: nat)
    requires v < p && d < base
    ensures v * base + d < p * base
  {
    MulMonotone(v + 1, p, base);
    assert (v + 1) * base == v * base + base;
  }

  lemma PowPositive(base: nat, n: nat)
    requires base > 0
    ensures Pow(base, n) > 0
  {
  }

  lemma {:induction false} ValueAppend(base: nat, ds: seq<nat>, d: nat)
    ensures Value(base, ds + [d]) == Value(base, ds) * base + d
  {
    assert (ds + [d])[..|ds|] == ds;
  }

  lemma {:induction false} ValueConcat(base: nat, a: seq<nat>, b: seq<nat>)
    ensures Value(base, a + b) == Value(base, a) * Pow(base, |b|) + Value(base, b)
  {
    if b == [] {
      assert a + b == a;
    } else {
      var front, d := b[..|b| - 1], b[|b| - 1];
      ValueConcat(base, a, front);
      assert a + b == (a + front) + [d];
      ValueAppend(base, a + front, d);
      Distribute(Value(base, a), Pow(base, |front|), Value(base, front), base);
    }
  }

  lemma ValuePrepend(base: nat, d: nat, ds: seq<nat>)
    ensures Value(base, [d] + ds) == d * Pow(base, |ds|) + Value(base, ds)
  {
    ValueConcat(base, [d], ds);
    assert [d] == [] + [d];
    ValueAppend(base, [], d);
  }

  lemma {:induction false} ValueZeros(base: nat, n: nat, ds: seq<nat>)
    ensures Value(base, Zeros(n) + ds) == Value(base, ds)
  {
    if n == 0 {
      assert Zeros(0) + ds == ds;
    } else {
      ValueZeros(base, n - 1, ds);
      assert Zeros(n) + ds == [0] + (Zeros(n - 1) + ds);
      ValuePrepend(base, 0, Zeros(n - 1) + ds);
    }
  }

  lemma {:induction false} ValueBound(base: nat, ds: seq<nat>)
    requires InBase(base, ds)
    ensures Value(base, ds) < Pow(base, |ds|)
  {
    if ds == [] {
    } else {
      var front := ds[..|ds| - 1];
      ValueBound(base, front);
      Below(Value(base, front), Pow(base, |front|), ds[|ds| - 1], base);
    }
  }

  /** A number in its shortest form is at least the power its length stands for. */
  lemma MinimalBound(base: nat, ds: seq<nat>)
    requires InBase(base, ds) && |ds| > 0 && ds[0] != 0
    ensures Pow(base, |ds| - 1) <= Value(base, ds)
  {
    assert ds == [ds[0]] + ds[1..];
    ValuePrepend(base, ds[0], ds[1..]);
    MulMonotone(1, ds[0], Pow(base, |ds| - 1));
  }

  lemma {:induction false} PowMonotone(base: nat, m: nat, n: nat)
    requires base > 0 && m <= n
    ensures Pow(base, m) <= Pow(base, n)
  {
    if m == n {
    } else {
      PowMonotone(base, m, n - 1);
      MulMonotone(1, base, Pow(base, n - 1));
    }
  }

  lemma {:induction false} SameLengthUnique(base: nat, a: seq<nat>, b: seq<nat>)
    requires InBase(base, a) && InBase(base, b) && |a| == |b| && Value(base, a) == Value(base, b)
    ensures a == b
  {
    if a == [] {
    } else {
      var n := |a| - 1;
      var x, y := Value(base, a[..n]), Value(base, b[..n]);
      assert x * base + a[n] == y * base + b[n] && a[n] < base && b[n] < base;
      DivisionUnique(base, x, a[n], y, b[n]);
      SameLengthUnique(base, a[..n], b[..n]);
      assert a == a[..n] + [a[n]] && b == b[..n] + [b[n]];
    }
  }

  lemma DivisionUnique(base: nat, x: nat, r: nat, y: nat, s: nat)
    requires r < base && s < base && x * base + r == y * base + s
    ensures x == y && r == s
  {
    if x < y {
      MulMonotone(x + 1, y, base);
    } else if y < x {
      MulMonotone(y + 1, x, base);
    }
  }

  /** Two ways of writing a number that do not begin with a zero are the same. */
  lemma LeadingUnique(base: nat, a: seq<nat>, b: seq<nat>)
    requires InBase(base, a) && InBase(base, b) && |a| > 0 && |b| > 0 && a[0] != 0 && b[0] != 0
    requires Value(base, a) == Value(base, b)
    ensures a == b
  {
    ValueBound(base, a);
    ValueBound(base, b);
    MinimalBound(base, a);
    MinimalBound(base, b);
    if |a| < |b| {
      PowMonotone(base, |a|, |b| - 1);
    } else if |b| < |a| {
      PowMonotone(base, |b|, |a| - 1);
    }
    SameLengthUnique(base, a, b);
  }

  /** The digits of `n` in their shortest form. */
  function Digits(base: nat, n: nat): (ds: seq<nat>)
    requires base >= 2
  {
    if n < base then [n]
    else
      QuotientSmaller(base, n);
      Digits(base, n / base) + [n % base]
  }

  lemma QuotientSmaller(base: nat, n: nat)
    requires base >= 2 && n >= base
    ensures 0 < n / base < n && n == n / base * base + n % base
  {
    MulMonotone(2, base, n / base);
  }

  lemma AppendedIsShortest(base: nat, ds: seq<nat>, d: nat)
    requires InBase(base, ds) && Minimal(ds) && ds[0] != 0 && d < base
    ensures InBase(base, ds + [d]) && Minimal(ds + [d]) && (ds + [d])[0] != 0
  {
  }

  lemma {:induction false} DigitsAreShortest(base: nat, n: nat)
    requires base >= 2
    ensures InBase(base, Digits(base, n)) && Minimal(Digits(base, n)) && Value(base, Digits(base, n)) == n
    ensures n > 0 ==> Digits(base, n)[0] != 0
  {
    if n < base {
      assert [n][..0] == [];
    } else {
      var q, r := n / base, n % base;
      QuotientSmaller(base, n);
      DigitsAreShortest(base, q);
      ValueAppend(base, Digits(base, q), r);
      AppendedIsShortest(base, Digits(base, q), r);
    }
  }
}
