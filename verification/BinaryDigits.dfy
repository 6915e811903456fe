/** Numbers as their binary digits, most significant first, and exclusive or on both. */
module BinaryDigits {
  import Positional

  type Bits = seq<bool>

  /** Digits as the numbers 0 and 1. */
  function Places(b: Bits): (ds: seq<nat>)
    ensures |ds| == |b| && Positional.InBase(2, ds)
  {
    seq(|b|, i requires 0 <= i < |b| => if b[i] then 1 else 0)
  }

  function Number(b: Bits): nat {
    Positional.Value(2, Places(b))
  }

  function Pow2(n: nat): (p: nat)
    ensures p > 0
  {
    Positional.PowPositive(2, n);
    Positional.Pow(2, n)
  }

  /** The lowest `width` digits of `n`. */
  function Digits(n: nat, width: nat): (b: Bits)
    ensures |b| == width
  {
    if width == 0 then [] else Digits(n / 2, width - 1) + [n % 2 == 1]
  }

  function Zeros(n: nat): (b: Bits)
    ensures |b| == n
  {
    seq(n, _ => false)
  }

  function Plus(a: Bits, b: Bits): (c: Bits)
    requires |a| == |b|
    ensures |c| == |a|
  {
    seq(|a|, i requires 0 <= i < |a| => a[i] != b[i])
  }

  /** Exclusive or of two numbers. */
  function Xor(a: nat, b: nat): nat
    decreases a + b
  {
    if a == 0 && b == 0 then 0 else 2 * Xor(a / 2, b / 2) + (if a % 2 != b % 2 then 1 else 0)
  }

  lemma NumberAppend(b: Bits, d: bool)
    ensures Number(b + [d]) == 2 * Number(b) + (if d then 1 else 0)
  {
    assert Places(b + [d]) == Places(b) + [if d then 1 else 0];
    Positional.ValueAppend(2, Places(b), if d then 1 else 0);
  }

  /** A number by its last digit and the rest. */
  lemma NumberSplit(b: Bits)
    requires b != []
    ensures Number(b) == 2 * Number(b[..|b| - 1]) + (if b[|b| - 1] then 1 else 0)
  {
    assert b == b[..|b| - 1] + [b[|b| - 1]];
    NumberAppend(b[..|b| - 1], b[|b| - 1]);
  }

  lemma {:induction false} NumberOfZeros(n: nat)
    ensures Number(Zeros(n)) == 0
  {
    assert Places(Zeros(n)) == Positional.Zeros(n) + [];
    Positional.ValueZeros(2, n, []);
  }

  lemma NumberConcat(a: Bits, b: Bits)
    ensures Number(a + b) == Number(a) * Pow2(|b|) + Number(b)
  {
    assert Places(a + b) == Places(a) + Places(b);
    Positional.ValueConcat(2, Places(a), Places(b));
  }

  lemma NumberBelow(b: Bits)
    ensures Number(b) < Pow2(|b|)
  {
    Positional.ValueBound(2, Places(b));
  }

  lemma {:induction false} NumberOfDigits(n: nat, width: nat)
    requires n < Pow2(width)
    ensures Number(Digits(n, width)) == n
  {
    if width == 0 {
    } else {
      NumberOfDigits(n / 2, width - 1);
      NumberAppend(Digits(n / 2, width - 1), n % 2 == 1);
    }
  }

  lemma NumberInjective(a: Bits, b: Bits)
    requires |a| == |b| && Number(a) == Number(b)
    ensures a == b
  {
    Positional.SameLengthUnique(2, Places(a), Places(b));
    forall i | 0 <= i < |a| ensures a[i] == b[i] {
      assert Places(a)[i] == Places(b)[i];
    }
  }

  /** Exclusive or of numbers is digit by digit. */
  lemma {:induction false} XorOfNumbers(a: Bits, b: Bits)
    requires |a| == |b|
    ensures Xor(Number(a), Number(b)) == Number(Plus(a, b))
  {
    if a == [] {
    } else {
      var n := |a| - 1;
      XorOfNumbers(a[..n], b[..n]);
      NumberSplit(a);
      NumberSplit(b);
      assert Plus(a, b) == Plus(a[..n], b[..n]) + [a[n] != b[n]];
      NumberAppend(Plus(a[..n], b[..n]), a[n] != b[n]);
      XorStep(Number(a[..n]), if a[n] then 1 else 0, Number(b[..n]), if b[n] then 1 else 0);
    }
  }

  lemma XorStep(x: nat, i: nat, y: nat, j: nat)
    requires i < 2 && j < 2
    ensures Xor(2 * x + i, 2 * y + j) == 2 * Xor(x, y) + (if i != j then 1 else 0)
  {
    var a, b := 2 * x + i, 2 * y + j;
    assert a / 2 == x && b / 2 == y && a % 2 == i && b % 2 == j;
  }

  /** The digits that two numbers share. */
  function And(a: nat, b: nat): nat
    decreases a + b
  {
    if a == 0 || b == 0 then 0 else 2 * And(a / 2, b / 2) + (if a % 2 == 1 && b % 2 == 1 then 1 else 0)
  }

  lemma Halves(a: nat, p: nat)
    requires p > 0
    ensures a % (2 * p) == 2 * (a / 2 % p) + a % 2
  {
    var q, r := a / 2 / p, a / 2 % p;
    assert a == 2 * (q * p + r) + a % 2;
    assert 2 * (q * p) == q * (2 * p);
    QuotientAndRest(a, 2 * p, q, 2 * r + a % 2);
  }

  lemma QuotientAndRest(a: nat, d: nat, q: nat, r: nat)
    requires r < d && a == q * d + r
    ensures a / d == q && a % d == r
  {
    Positional.DivisionUnique(d, a / d, a % d, q, r);
  }

  /** A mask of `n` ones keeps the remainder. */
  lemma {:induction false} AndMask(a: nat, n: nat)
    ensures And(a, Pow2(n) - 1) == a % Pow2(n)
    decreases n
  {
    if n == 0 {
    } else {
      var p := Pow2(n - 1);
      AndMask(a / 2, n - 1);
      Halves(a, p);
      assert (2 * p - 1) / 2 == p - 1 && (2 * p - 1) % 2 == 1;
    }
  }
}
