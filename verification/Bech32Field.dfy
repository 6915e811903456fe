/** The checksum of a P-Chain address over the field of 32 elements: a symbol is an element, doubled
    modulo x^5 + x^3 + 1, and a step with zero is linear over the field. */
module Bech32Field {
  import opened BinaryDigits
  import opened Bech32
  import opened Wrappers

  // Symbols as elements of the field.

  /** Every symbol of `s` doubled. */
  function Doubled(s: Bits): (r: Bits)
    requires |s| % 5 == 0
    ensures |r| == |s|
  {
    seq(|s|, i requires 0 <= i < |s| => DoubledAt(s, i))
  }

  predicate DoubledAt(s: Bits, i: nat)
    requires |s| % 5 == 0 && i < |s|
  {
    if i % 5 == 4 then s[i - 4] else if i % 5 == 1 then s[i + 1] != s[i - 1] else s[i + 1]
  }

  lemma DoubledPlus(a: Bits, b: Bits)
    requires |a| == |b| && |a| % 5 == 0
    ensures Doubled(Plus(a, b)) == Plus(Doubled(a), Doubled(b))
  {
  }

  lemma DoubledConcat(a: Bits, b: Bits)
    requires |a| % 5 == 0 && |b| % 5 == 0
    ensures Doubled(a + b) == Doubled(a) + Doubled(b)
  {
    forall i | 0 <= i < |a| ensures DoubledAt(a + b, i) == Doubled(a)[i] {
    }
    forall j | 0 <= j < |b| ensures DoubledAt(a + b, |a| + j) == Doubled(b)[j] {
      DoubledBehind(a, b, j);
    }
    assert Doubled(a + b)[|a|..] == Doubled(b);
  }

  lemma DoubledBehind(a: Bits, b: Bits, j: nat)
    requires |a| % 5 == 0 && |b| % 5 == 0 && j < |b|
    ensures DoubledAt(a + b, |a| + j) == DoubledAt(b, j)
  {
    assert (|a| + j) % 5 == j % 5;
  }

  lemma DoubledZeros(n: nat)
    requires n % 5 == 0
    ensures Doubled(Zeros(n)) == Zeros(n)
  {
  }

  function Times(b: bool, s: Bits): (r: Bits)
    ensures |r| == |s|
  {
    if b then s else Zeros(|s|)
  }

  /** Every symbol of `s` multiplied by the element with the digits `x`. */
  function Scaled(x: Bits, s: Bits): (r: Bits)
    requires |s| % 5 == 0
    ensures |r| == |s|
  {
    if x == [] then Zeros(|s|) else Plus(Doubled(Scaled(x[..|x| - 1], s)), Times(x[|x| - 1], s))
  }

  lemma {:induction false} ScaledConcat(x: Bits, a: Bits, b: Bits)
    requires |a| % 5 == 0 && |b| % 5 == 0
    ensures Scaled(x, a + b) == Scaled(x, a) + Scaled(x, b)
  {
    if x == [] {
    } else {
      var front := x[..|x| - 1];
      ScaledConcat(front, a, b);
      DoubledConcat(Scaled(front, a), Scaled(front, b));
      TimesConcat(x[|x| - 1], a, b);
      PlusConcat(Doubled(Scaled(front, a)), Doubled(Scaled(front, b)), Times(x[|x| - 1], a), Times(x[|x| - 1], b));
    }
  }

  lemma TimesConcat(d: bool, a: Bits, b: Bits)
    ensures Times(d, a + b) == Times(d, a) + Times(d, b)
  {
  }

  // The feedback is a multiple of the first generator.

  predicate DoublesTo(g: nat, h: nat) {
    Doubled(Digits(g, 30)) == Digits(h, 30)
  }

  /** Each generator is the one before it, doubled. */
  predicate Chain(gs: seq<nat>) {
    |gs| > 1 ==> DoublesTo(gs[0], gs[1]) && Chain(gs[1..])
  }

  lemma {:induction false} ChainFront(gs: seq<nat>, n: nat)
    requires Chain(gs) && n <= |gs|
    ensures Chain(gs[..n])
    decreases |gs|
  {
    if n <= 1 {
    } else {
      ChainFront(gs[1..], n - 1);
      assert gs[..n][1..] == gs[1..][..n - 1];
    }
  }

  lemma DoubledIf(x: bool, g: nat)
    ensures Doubled(If(x, g)) == if x then Doubled(Digits(g, 30)) else ZERO
  {
    DoubledZeros(30);
  }

  lemma {:induction false} FeedbackMoved(top: Bits, gs: seq<nat>)
    requires |gs| == |top| + 1 && Chain(gs)
    ensures Feedback(top, gs[1..]) == Doubled(Feedback(top, gs[..|top|]))
    decreases |top|
  {
    if top == [] {
      DoubledZeros(30);
    } else {
      var n := |top| - 1;
      var front, rest := top[..n], gs[1..];
      assert gs[1..][1..] == rest[1..] && gs[..|top|][1..] == rest[..n];
      FeedbackMoved(front, rest);
      DoubledIf(top[n], gs[0]);
      DoubledPlus(If(top[n], gs[0]), Feedback(front, rest[..n]));
    }
  }

  lemma PlusSwapped(a: Bits, b: Bits)
    requires |a| == |b|
    ensures Plus(a, b) == Plus(b, a)
  {
  }

  lemma {:induction false} FeedbackIsScaled(top: Bits, gs: seq<nat>, g: Sum)
    requires |gs| == |top| && Chain(gs) && (gs != [] ==> g == Digits(gs[0], 30))
    ensures Feedback(top, gs) == Scaled(top, g)
    decreases |top|
  {
    if top == [] {
    } else {
      var n := |top| - 1;
      FeedbackMoved(top[..n], gs);
      ChainFront(gs, n);
      FeedbackIsScaled(top[..n], gs[..n], g);
      LastGenerator(top, gs, g);
    }
  }

  lemma LastGenerator(top: Bits, gs: seq<nat>, g: Sum)
    requires |gs| == |top| > 0 && g == Digits(gs[0], 30)
    requires Feedback(top[..|top| - 1], gs[1..]) == Doubled(Scaled(top[..|top| - 1], g))
    ensures Feedback(top, gs) == Scaled(top, g)
  {
    PlusSwapped(If(top[|top| - 1], gs[0]), Doubled(Scaled(top[..|top| - 1], g)));
  }

  // Symbols one by one.

  /** A symbol by its digits, the highest first. */
  datatype Five = Five(a: bool, b: bool, c: bool, d: bool, e: bool)

  const NIL := Five(false, false, false, false, false)

  function List(x: Five): Symbol {
    [x.a, x.b, x.c, x.d, x.e]
  }

  const S1 := Five(false, false, false, false, true)
  const S2 := Five(false, false, false, true, false)
  const S3 := Five(false, false, false, true, true)
  const S4 := Five(false, false, true, false, false)
  const S5 := Five(false, false, true, false, true)
  const S6 := Five(false, false, true, true, false)
  const S7 := Five(false, false, true, true, true)
  const S8 := Five(false, true, false, false, false)
  const S9 := Five(false, true, false, false, true)
  const S10 := Five(false, true, false, true, false)
  const S11 := Five(false, true, false, true, true)
  const S12 := Five(false, true, true, false, false)
  const S13 := Five(false, true, true, false, true)
  const S14 := Five(false, true, true, true, false)
  const S15 := Five(false, true, true, true, true)
  const S16 := Five(true, false, false, false, false)
  const S17 := Five(true, false, false, false, true)
  const S18 := Five(true, false, false, true, false)
  const S19 := Five(true, false, false, true, true)
  const S20 := Five(true, false, true, false, false)
  const S21 := Five(true, false, true, false, true)
  const S22 := Five(true, false, true, true, false)
  const S23 := Five(true, false, true, true, true)
  const S24 := Five(true, true, false, false, false)
  const S25 := Five(true, true, false, false, true)
  const S26 := Five(true, true, false, true, false)
  const S27 := Five(true, true, false, true, true)
  const S28 := Five(true, true, true, false, false)
  const S29 := Five(true, true, true, false, true)
  const S30 := Five(true, true, true, true, false)
  const S31 := Five(true, true, true, true, true)

  function Sum2(x: Five, y: Five): Five {
    Five(x.a != y.a, x.b != y.b, x.c != y.c, x.d != y.d, x.e != y.e)
  }

  function Twice(x: Five): Five {
    Five(x.b, x.c != x.a, x.d, x.e, x.a)
  }

  function Part(b: bool, u: Five): Five {
    if b then u else NIL
  }

  /** The product of two elements of the field. */
  function Product(x: Five, u: Five): Five {
    Sum2(Twice(Sum2(Twice(Sum2(Twice(Sum2(Twice(Part(x.a, u)), Part(x.b, u))), Part(x.c, u))), Part(x.d, u))),
         Part(x.e, u))
  }

  /** It is a field: no product of others is zero. */
  lemma NoZeroDivisors(x: Five, u: Five)
    requires Product(x, u) == NIL
    ensures x == NIL || u == NIL
  {
  }

  lemma ListTwice(x: Five)
    ensures List(Twice(x)) == Doubled(List(x))
  {
  }

  lemma ListSum(x: Five, y: Five)
    ensures List(Sum2(x, y)) == Plus(List(x), List(y))
  {
    SumOfPlaces(List(x), List(y));
  }

  lemma SumOfPlaces(s: Symbol, t: Symbol)
    ensures Plus(s, t) == [s[0] != t[0], s[1] != t[1], s[2] != t[2], s[3] != t[3], s[4] != t[4]]
  {
  }

  lemma ListPart(b: bool, u: Five)
    ensures List(Part(b, u)) == Times(b, List(u))
  {
  }

  lemma Beginnings(x: Five)
    ensures [] + [x.a] == [x.a] && [x.a] + [x.b] == [x.a, x.b] && [x.a, x.b] + [x.c] == [x.a, x.b, x.c]
    ensures [x.a, x.b, x.c] + [x.d] == [x.a, x.b, x.c, x.d] && [x.a, x.b, x.c, x.d] + [x.e] == List(x)
  {
  }

  lemma ListNil()
    ensures List(NIL) == Zeros(5) == Scaled([], Zeros(5))
  {
  }

  /** The product with the element that has the digits `x`, one digit after another. */
  function Products(x: Bits, u: Five): Five {
    if x == [] then NIL else Sum2(Twice(Products(x[..|x| - 1], u)), Part(x[|x| - 1], u))
  }

  lemma ProductsMore(x: Bits, b: bool, u: Five)
    ensures Products(x + [b], u) == Sum2(Twice(Products(x, u)), Part(b, u))
  {
    assert (x + [b])[..|x|] == x;
  }

  lemma ProductIsProducts(x: Five, u: Five)
    ensures Product(x, u) == Products(List(x), u)
  {
    Beginnings(x);
    ProductsMore([], x.a, u);
    ProductsMore([x.a], x.b, u);
    ProductsMore([x.a, x.b], x.c, u);
    ProductsMore([x.a, x.b, x.c], x.d, u);
    ProductsMore([x.a, x.b, x.c, x.d], x.e, u);
    assert Sum2(Twice(NIL), Part(x.a, u)) == Part(x.a, u);
  }

  lemma {:induction false} ListProducts(x: Bits, u: Five)
    ensures List(Products(x, u)) == Scaled(x, List(u))
  {
    if x == [] {
      ListNil();
    } else {
      var front, b := x[..|x| - 1], x[|x| - 1];
      ListProducts(front, u);
      ListTwice(Products(front, u));
      ListPart(b, u);
      ListSum(Twice(Products(front, u)), Part(b, u));
    }
  }

  lemma ListProduct(x: Five, u: Five)
    ensures List(Product(x, u)) == Scaled(List(x), List(u))
  {
    ProductIsProducts(x, u);
    ListProducts(List(x), u);
  }

  // Sums by their symbols.

  datatype Six = Six(f5: Five, f4: Five, f3: Five, f2: Five, f1: Five, f0: Five)

  function Joint(s: Six): Sum {
    List(s.f5) + (List(s.f4) + (List(s.f3) + (List(s.f2) + (List(s.f1) + List(s.f0)))))
  }

  function TwiceAll(s: Six): Six {
    Six(Twice(s.f5), Twice(s.f4), Twice(s.f3), Twice(s.f2), Twice(s.f1), Twice(s.f0))
  }

  lemma JointTwice(s: Six)
    ensures Doubled(Joint(s)) == Joint(TwiceAll(s))
  {
    ListTwice(s.f5);
    ListTwice(s.f4);
    ListTwice(s.f3);
    ListTwice(s.f2);
    ListTwice(s.f1);
    ListTwice(s.f0);
    var t1 := List(s.f1) + List(s.f0);
    var t2 := List(s.f2) + t1;
    var t3 := List(s.f3) + t2;
    var t4 := List(s.f4) + t3;
    DoubledConcat(List(s.f1), List(s.f0));
    DoubledConcat(List(s.f2), t1);
    DoubledConcat(List(s.f3), t2);
    DoubledConcat(List(s.f4), t3);
    DoubledConcat(List(s.f5), t4);
  }

  function ProductAll(x: Five, s: Six): Six {
    Six(Product(x, s.f5), Product(x, s.f4), Product(x, s.f3), Product(x, s.f2), Product(x, s.f1), Product(x, s.f0))
  }

  lemma ScaledSix(x: Bits, a: Symbol, b: Symbol, c: Symbol, d: Symbol, e: Symbol, f: Symbol)
    ensures Scaled(x, a + (b + (c + (d + (e + f)))))
         == Scaled(x, a) + (Scaled(x, b) + (Scaled(x, c) + (Scaled(x, d) + (Scaled(x, e) + Scaled(x, f)))))
  {
    ScaledConcat(x, e, f);
    ScaledConcat(x, d, e + f);
    ScaledConcat(x, c, d + (e + f));
    ScaledConcat(x, b, c + (d + (e + f)));
    ScaledConcat(x, a, b + (c + (d + (e + f))));
  }

  lemma JointProduct(x: Five, s: Six)
    ensures Scaled(List(x), Joint(s)) == Joint(ProductAll(x, s))
  {
    ListProduct(x, s.f5);
    ListProduct(x, s.f4);
    ListProduct(x, s.f3);
    ListProduct(x, s.f2);
    ListProduct(x, s.f1);
    ListProduct(x, s.f0);
    ScaledSix(List(x), List(s.f5), List(s.f4), List(s.f3), List(s.f2), List(s.f1), List(s.f0));
  }

  // Stepping and doubling commute.

  function Val(x: Five): nat {
    (if x.a then 16 else 0) + (if x.b then 8 else 0) + (if x.c then 4 else 0) + (if x.d then 2 else 0)
    + (if x.e then 1 else 0)
  }

  lemma NumberOfFive(a: bool, b: bool, c: bool, d: bool, e: bool)
    ensures Number([a, b, c, d, e]) == (if a then 16 else 0) + (if b then 8 else 0) + (if c then 4 else 0)
                                       + (if d then 2 else 0) + (if e then 1 else 0)
  {
    NumberAppend([], a);
    NumberAppend([a], b);
    NumberAppend([a, b], c);
    NumberAppend([a, b, c], d);
    NumberAppend([a, b, c, d], e);
    assert [] + [a] == [a] && [a] + [b] == [a, b] && [a, b] + [c] == [a, b, c];
    assert [a, b, c] + [d] == [a, b, c, d] && [a, b, c, d] + [e] == [a, b, c, d, e];
  }

  lemma ListNumber(x: Five)
    ensures Number(List(x)) == Val(x)
  {
    NumberOfFive(x.a, x.b, x.c, x.d, x.e);
  }

  lemma JointNumber(s: Six)
    ensures Number(Joint(s)) == Val(s.f5) * 0x200_0000 + Val(s.f4) * 0x10_0000 + Val(s.f3) * 0x8000
                                + Val(s.f2) * 0x400 + Val(s.f1) * 0x20 + Val(s.f0)
  {
    ListNumber(s.f5);
    ListNumber(s.f4);
    ListNumber(s.f3);
    ListNumber(s.f2);
    ListNumber(s.f1);
    ListNumber(s.f0);
    PowersOfTwo();
    var t1 := List(s.f1) + List(s.f0);
    var t2 := List(s.f2) + t1;
    var t3 := List(s.f3) + t2;
    var t4 := List(s.f4) + t3;
    NumberConcat(List(s.f1), List(s.f0));
    NumberConcat(List(s.f2), t1);
    NumberConcat(List(s.f3), t2);
    NumberConcat(List(s.f4), t3);
    NumberConcat(List(s.f5), t4);
  }

  lemma DigitsAre(n: nat, s: Six)
    requires n == Val(s.f5) * 0x200_0000 + Val(s.f4) * 0x10_0000 + Val(s.f3) * 0x8000
                  + Val(s.f2) * 0x400 + Val(s.f1) * 0x20 + Val(s.f0)
    ensures Digits(n, 30) == Joint(s)
  {
    JointNumber(s);
    PowersOfTwo();
    NumberBelow(Joint(s));
    NumberOfDigits(n, 30);
    NumberInjective(Digits(n, 30), Joint(s));
  }

  const FIRST := Six(S29, S22, S20, S21, S29, S18)
  const SECOND := Six(S19, S5, S1, S3, S19, S13)
  const THIRD := Six(S15, S10, S2, S6, S15, S26)
  const FOURTH := Six(S30, S20, S4, S12, S30, S29)
  const FIFTH := Six(S21, S1, S8, S24, S21, S19)

  lemma FirstDigits()
    ensures Digits(0x3b6a_57b2, 30) == Joint(FIRST)
  {
    DigitsAre(0x3b6a_57b2, FIRST);
  }

  lemma SecondDigits()
    ensures Digits(0x2650_8e6d, 30) == Joint(SECOND)
  {
    DigitsAre(0x2650_8e6d, SECOND);
  }

  lemma ThirdDigits()
    ensures Digits(0x1ea1_19fa, 30) == Joint(THIRD)
  {
    DigitsAre(0x1ea1_19fa, THIRD);
  }

  lemma FourthDigits()
    ensures Digits(0x3d42_33dd, 30) == Joint(FOURTH)
  {
    DigitsAre(0x3d42_33dd, FOURTH);
  }

  lemma FifthDigits()
    ensures Digits(0x2a14_62b3, 30) == Joint(FIFTH)
  {
    DigitsAre(0x2a14_62b3, FIFTH);
  }

  lemma GeneratorsTwice()
    ensures TwiceAll(FIRST) == SECOND && TwiceAll(SECOND) == THIRD
    ensures TwiceAll(THIRD) == FOURTH && TwiceAll(FOURTH) == FIFTH
  {
  }

  lemma DoublesWhenTwice(g: nat, s: Six, h: nat, t: Six)
    requires Digits(g, 30) == Joint(s) && Digits(h, 30) == Joint(t) && TwiceAll(s) == t
    ensures DoublesTo(g, h)
  {
    JointTwice(s);
  }

  lemma GeneratorsDouble()
    ensures DoublesTo(0x3b6a_57b2, 0x2650_8e6d) && DoublesTo(0x2650_8e6d, 0x1ea1_19fa)
    ensures DoublesTo(0x1ea1_19fa, 0x3d42_33dd) && DoublesTo(0x3d42_33dd, 0x2a14_62b3)
  {
    FirstDigits();
    SecondDigits();
    ThirdDigits();
    FourthDigits();
    FifthDigits();
    GeneratorsTwice();
    DoublesWhenTwice(0x3b6a_57b2, FIRST, 0x2650_8e6d, SECOND);
    DoublesWhenTwice(0x2650_8e6d, SECOND, 0x1ea1_19fa, THIRD);
    DoublesWhenTwice(0x1ea1_19fa, THIRD, 0x3d42_33dd, FOURTH);
    DoublesWhenTwice(0x3d42_33dd, FOURTH, 0x2a14_62b3, FIFTH);
  }

  lemma ChainMore(g: nat, gs: seq<nat>)
    requires gs != [] && DoublesTo(g, gs[0]) && Chain(gs)
    ensures Chain([g] + gs)
  {
    assert ([g] + gs)[1..] == gs;
  }

  lemma ChainOfFive(g1: nat, g2: nat, g3: nat, g4: nat, g5: nat)
    requires DoublesTo(g1, g2) && DoublesTo(g2, g3) && DoublesTo(g3, g4) && DoublesTo(g4, g5)
    ensures Chain([g1, g2, g3, g4, g5])
  {
    ChainMore(g4, [g5]);
    ChainMore(g3, [g4] + [g5]);
    ChainMore(g2, [g3] + ([g4] + [g5]));
    ChainMore(g1, [g2] + ([g3] + ([g4] + [g5])));
    assert [g1] + ([g2] + ([g3] + ([g4] + [g5]))) == [g1, g2, g3, g4, g5];
  }

  lemma GeneratorsChain()
    ensures Chain(GENERATORS)
  {
    GeneratorsDouble();
    ChainOfFive(0x3b6a_57b2, 0x2650_8e6d, 0x1ea1_19fa, 0x3d42_33dd, 0x2a14_62b3);
  }

  /** The product with 29. */
  function By29(x: Five): Five {
    Five(x.a != (x.b != (x.d != x.e)), x.b != (x.c != x.e), x.a != (x.b != (x.c != x.e)),
         x.b != (x.c != x.d), x.a != (x.c != (x.d != x.e)))
  }

  lemma ProductBy29(x: Five)
    ensures By29(x) == Product(x, S29)
  {
  }

  /** The product with 22. */
  function By22(x: Five): Five {
    Five(x.b != x.e, x.c, x.b != (x.d != x.e), x.c != x.e, x.a != x.d)
  }

  lemma ProductBy22(x: Five)
    ensures By22(x) == Product(x, S22)
  {
  }

  /** The product with 20. */
  function By20(x: Five): Five {
    Five(x.e, x.a, x.b != x.e, x.c, x.d)
  }

  lemma ProductBy20(x: Five)
    ensures By20(x) == Product(x, S20)
  {
  }

  /** The product with 21. */
  function By21(x: Five): Five {
    Five(x.a != x.e, x.a != x.b, x.b != (x.c != x.e), x.c != x.d, x.d != x.e)
  }

  lemma ProductBy21(x: Five)
    ensures By21(x) == Product(x, S21)
  {
  }

  /** The product with 18. */
  function By18(x: Five): Five {
    Five(x.a != (x.b != (x.c != x.e)), x.b != (x.c != x.d), x.b != x.d, x.a != (x.c != x.e), x.a != (x.b != x.d))
  }

  lemma ProductBy18(x: Five)
    ensures By18(x) == Product(x, S18)
  {
  }

  function Fed(x: Five): Six {
    Six(By29(x), By22(x), By20(x), By21(x), By29(x), By18(x))
  }

  /** What falls out, times the first generator, is what is fed back. */
  lemma FeedbackIsFed(x: Five)
    ensures Feedback(List(x), GENERATORS) == Joint(Fed(x))
  {
    GeneratorsChain();
    FirstDigits();
    FeedbackIsScaled(List(x), GENERATORS, Joint(FIRST));
    JointProduct(x, FIRST);
    FedProduct(x);
  }

  lemma FedProduct(x: Five)
    ensures Fed(x) == ProductAll(x, FIRST)
  {
    ProductBy29(x);
    ProductBy22(x);
    ProductBy20(x);
    ProductBy21(x);
    ProductBy18(x);
  }

  lemma FedTwice(x: Five)
    ensures Fed(Twice(x)) == TwiceAll(Fed(x))
  {
  }

  lemma FeedbackDoubled(x: Five)
    ensures Feedback(Doubled(List(x)), GENERATORS) == Doubled(Feedback(List(x), GENERATORS))
  {
    ListTwice(x);
    FeedbackIsFed(x);
    FeedbackIsFed(Twice(x));
    FedTwice(x);
    JointTwice(Fed(x));
  }

  lemma IsList(s: Symbol) returns (x: Five)
    ensures List(x) == s
  {
    x := Five(s[0], s[1], s[2], s[3], s[4]);
  }

  lemma StepDoubled(s: Sum)
    ensures Step(Doubled(s), Zeros(5)) == Doubled(Step(s, Zeros(5)))
  {
    var x := IsList(s[..5]);
    FeedbackDoubled(x);
    assert s == s[..5] + s[5..];
    DoubledConcat(s[..5], s[5..]);
    DoubledConcat(s[5..], Zeros(5));
    DoubledZeros(5);
    assert Doubled(s)[..5] == Doubled(s[..5]) && Doubled(s)[5..] == Doubled(s[5..]);
    DoubledPlus(s[5..] + Zeros(5), Feedback(s[..5], GENERATORS));
  }

  lemma {:induction false} StepScaled(x: Bits, s: Sum)
    ensures Step(Scaled(x, s), Zeros(5)) == Scaled(x, Step(s, Zeros(5)))
  {
    if x == [] {
      StepOfZero();
    } else {
      var front, b := x[..|x| - 1], x[|x| - 1];
      StepScaled(front, s);
      StepDoubled(Scaled(front, s));
      StepOfZero();
      assert Plus(Zeros(5), Zeros(5)) == Zeros(5);
      StepLinear(Doubled(Scaled(front, s)), Zeros(5), Times(b, s), Zeros(5));
    }
  }

  // A step loses nothing.

  lemma LowestOf(s: Six)
    ensures Joint(s)[25..] == List(s.f0)
  {
  }

  lemma IsNil(x: Five)
    ensures List(x) == Zeros(5) <==> x == NIL
  {
    if List(x) == Zeros(5) {
      assert !List(x)[0] && !List(x)[1] && !List(x)[2] && !List(x)[3] && !List(x)[4];
    }
  }

  /** The lowest symbol of the feedback tells what fell out. */
  lemma FeedbackKernel(top: Symbol)
    requires Feedback(top, GENERATORS)[25..] == Zeros(5)
    ensures top == Zeros(5)
  {
    var x := IsList(top);
    FeedbackIsFed(x);
    LowestOf(Fed(x));
    IsNil(By18(x));
    ProductBy18(x);
    NoZeroDivisors(x, S18);
    IsNil(x);
  }

  lemma SameSum(a: Sum, b: Sum)
    requires Plus(a, b) == ZERO
    ensures a == b
  {
    PlusSame(a, b);
  }

  /** Nothing but zero steps to zero. */
  lemma StepKernel(s: Sum)
    ensures Step(s, Zeros(5)) == ZERO <==> s == ZERO
  {
    if Step(s, Zeros(5)) == ZERO {
      SameSum(s[5..] + Zeros(5), Feedback(s[..5], GENERATORS));
      ConcatParts(s[5..], Zeros(5));
      FeedbackKernel(s[..5]);
      StepWithRoom(s, Zeros(5));
      RestIsZero(s);
    } else {
      StepOfZero();
    }
  }

  lemma RestIsZero(s: Sum)
    requires s[..5] == Zeros(5) && s[5..] + Zeros(5) == ZERO
    ensures s == ZERO
  {
    assert s[5..] == (s[5..] + Zeros(5))[..25];
    assert s == s[..5] + s[5..];
  }

  lemma StepInjective(a: Sum, b: Sum, v: Symbol)
    requires Step(a, v) == Step(b, v)
    ensures a == b
  {
    StepLinear(a, v, b, v);
    PlusSame(v, v);
    PlusSame(Step(a, v), Step(b, v));
    StepKernel(Plus(a, b));
    PlusSame(a, b);
  }

  /** Zeros change nothing from zero, and never lead to zero from anything else. */
  lemma {:induction false} ChecksumOfZeros(s: Sum, vs: seq<Symbol>)
    requires AllZero(vs)
    ensures Checksum(s, vs) == ZERO <==> s == ZERO
  {
    if vs == [] {
    } else {
      var n := |vs| - 1;
      ChecksumOfZeros(s, vs[..n]);
      StepKernel(Checksum(s, vs[..n]));
    }
  }

  /** `step`, done `d` times. */
  function Iterated<T>(step: T -> T, s: T, d: nat): T {
    if d == 0 then s else step(Iterated(step, s, d - 1))
  }

  lemma {:induction false} IteratedFurther<T>(step: T -> T, s: T, c: nat, d: nat)
    ensures Iterated(step, Iterated(step, s, c), d) == Iterated(step, s, c + d)
  {
    if d == 0 {
    } else {
      IteratedFurther(step, s, c, d - 1);
    }
  }

  ghost predicate StepsOn<T>(step: T -> T, f: nat -> T, k: nat) {
    f(k + 1) == step(f(k))
  }

  /** What steps alike is where the steps lead. */
  lemma {:induction false} IteratedFollows<T>(step: T -> T, f: nat -> T, d: nat)
    requires forall k: nat :: StepsOn(step, f, k)
    ensures Iterated(step, f(0), d) == f(d)
  {
    if d == 0 {
    } else {
      IteratedFollows(step, f, d - 1);
      assert StepsOn(step, f, d - 1);
    }
  }

  function ZeroStep(): Sum -> Sum {
    s => Step(s, Zeros(5))
  }

  /** The sum after `d` zeros. */
  function Moved(s: Sum, d: nat): Sum {
    Iterated(ZeroStep(), s, d)
  }

  lemma MovedOnce(s: Sum, d: nat)
    requires d > 0
    ensures Moved(s, d) == Step(Moved(s, d - 1), Zeros(5))
  {
  }

  lemma ScaledSteps(x: Bits, s: Sum, k: nat)
    ensures Scaled(x, Moved(s, k + 1)) == Step(Scaled(x, Moved(s, k)), Zeros(5))
  {
    MovedOnce(s, k + 1);
    StepScaled(x, Moved(s, k));
  }

  lemma MovedScaled(x: Bits, s: Sum, d: nat)
    ensures Moved(Scaled(x, s), d) == Scaled(x, Moved(s, d))
  {
    var f: nat -> Sum := k => Scaled(x, Moved(s, k));
    forall k: nat ensures StepsOn(ZeroStep(), f, k) {
      ScaledSteps(x, s, k);
    }
    IteratedFollows(ZeroStep(), f, d);
  }

  // Where one symbol goes.

  function SumAll(s: Six, t: Six): Six {
    Six(Sum2(s.f5, t.f5), Sum2(s.f4, t.f4), Sum2(s.f3, t.f3), Sum2(s.f2, t.f2), Sum2(s.f1, t.f1), Sum2(s.f0, t.f0))
  }

  function Next(s: Six): Six {
    SumAll(Six(s.f4, s.f3, s.f2, s.f1, s.f0, NIL), Fed(s.f5))
  }

  lemma JointSum(s: Six, t: Six)
    ensures Plus(Joint(s), Joint(t)) == Joint(SumAll(s, t))
  {
    ListSum(s.f5, t.f5);
    ListSum(s.f4, t.f4);
    ListSum(s.f3, t.f3);
    ListSum(s.f2, t.f2);
    ListSum(s.f1, t.f1);
    ListSum(s.f0, t.f0);
    var s1, t1 := List(s.f1) + List(s.f0), List(t.f1) + List(t.f0);
    var s2, t2 := List(s.f2) + s1, List(t.f2) + t1;
    var s3, t3 := List(s.f3) + s2, List(t.f3) + t2;
    var s4, t4 := List(s.f4) + s3, List(t.f4) + t3;
    PlusConcat(List(s.f1), List(s.f0), List(t.f1), List(t.f0));
    PlusConcat(List(s.f2), s1, List(t.f2), t1);
    PlusConcat(List(s.f3), s2, List(t.f3), t2);
    PlusConcat(List(s.f4), s3, List(t.f4), t3);
    PlusConcat(List(s.f5), s4, List(t.f5), t4);
  }

  lemma PlusConcat(a: Bits, b: Bits, c: Bits, d: Bits)
    requires |a| == |c| && |b| == |d|
    ensures Plus(a + b, c + d) == Plus(a, c) + Plus(b, d)
  {
  }

  lemma JointParts(s: Six)
    ensures Joint(s)[..5] == List(s.f5)
    ensures Joint(s)[5..] + Zeros(5) == Joint(Six(s.f4, s.f3, s.f2, s.f1, s.f0, NIL))
  {
    ListNil();
  }

  lemma StepIsNext(s: Six)
    ensures Step(Joint(s), Zeros(5)) == Joint(Next(s))
  {
    JointParts(s);
    FeedbackIsFed(s.f5);
    JointSum(Six(s.f4, s.f3, s.f2, s.f1, s.f0, NIL), Fed(s.f5));
  }

  predicate Low(s: Six) {
    s.f5 == NIL && s.f4 == NIL && s.f3 == NIL && s.f2 == NIL && s.f1 == NIL
  }

  /** Where the lowest symbol 1 is after `d` zeros. */
  function At(d: nat): Six {
    if d == 0 then START else Next(At(d - 1))
  }

  const START := Six(NIL, NIL, NIL, NIL, NIL, S1)

  predicate NextAt(at: nat -> Six, k: nat) {
    at(k + 1) == Next(at(k))
  }

  ghost predicate Follows(at: nat -> Six) {
    forall k: nat :: NextAt(at, k)
  }

  lemma FollowsOn(at: nat -> Six, d: nat)
    requires Follows(at)
    ensures at(d + 1) == Next(at(d))
  {
    assert NextAt(at, d);
  }

  lemma WalkFrom0(at: nat -> Six, d: nat)
    requires Follows(at) && at(d) == START
    ensures at(d + 1) == Six(NIL, NIL, NIL, NIL, S1, NIL)
    ensures at(d + 2) == Six(NIL, NIL, NIL, S1, NIL, NIL)
    ensures at(d + 3) == Six(NIL, NIL, S1, NIL, NIL, NIL)
    ensures at(d + 4) == Six(NIL, S1, NIL, NIL, NIL, NIL)
    ensures at(d + 5) == Six(S1, NIL, NIL, NIL, NIL, NIL)
  {
    Shift1();
    Shift2();
    Shift3();
    Shift4();
    Shift5();
    FollowsOn(at, d);
    FollowsOn(at, d + 1);
    FollowsOn(at, d + 2);
    FollowsOn(at, d + 3);
    FollowsOn(at, d + 4);
  }

  lemma Shift1()
    ensures Next(Six(NIL, NIL, NIL, NIL, NIL, S1)) == Six(NIL, NIL, NIL, NIL, S1, NIL)
  {
  }

  lemma Shift2()
    ensures Next(Six(NIL, NIL, NIL, NIL, S1, NIL)) == Six(NIL, NIL, NIL, S1, NIL, NIL)
  {
  }

  lemma Shift3()
    ensures Next(Six(NIL, NIL, NIL, S1, NIL, NIL)) == Six(NIL, NIL, S1, NIL, NIL, NIL)
  {
  }

  lemma Shift4()
    ensures Next(Six(NIL, NIL, S1, NIL, NIL, NIL)) == Six(NIL, S1, NIL, NIL, NIL, NIL)
  {
  }

  lemma Shift5()
    ensures Next(Six(NIL, S1, NIL, NIL, NIL, NIL)) == Six(S1, NIL, NIL, NIL, NIL, NIL)
  {
  }

  lemma WalkFrom5(at: nat -> Six, d: nat)
    requires Follows(at) && at(d) == Six(S1, NIL, NIL, NIL, NIL, NIL)
    ensures at(d + 1) == Six(S29, S22, S20, S21, S29, S18)
    ensures at(d + 2) == Six(S15, S29, S15, S26, S11, S6)
    ensures at(d + 3) == Six(S2, S2, S9, S23, S25, S24)
  {
    assert NextAt(at, d);
    assert NextAt(at, d + 1);
    assert NextAt(at, d + 2);
  }

  lemma WalkFrom8(at: nat -> Six, d: nat)
    requires Follows(at) && at(d) == Six(S2, S2, S9, S23, S25, S24)
    ensures at(d + 1) == Six(S17, S12, S22, S26, S11, S13)
    ensures at(d + 2) == Six(S4, S1, S6, S6, S5, S1)
    ensures at(d + 3) == Six(S14, S12, S4, S3, S14, S26)
    ensures at(d + 4) == Six(S14, S31, S4, S7, S24, S10)
    ensures at(d + 5) == Six(S29, S31, NIL, S17, S8, S10)
    ensures at(d + 6) == Six(S6, S9, S11, S15, S19, S6)
    ensures at(d + 7) == Six(S21, S4, S12, S22, S26, S23)
    ensures at(d + 8) == Six(S3, S17, S8, S17, S16, S27)
  {
    assert NextAt(at, d);
    assert NextAt(at, d + 1);
    assert NextAt(at, d + 2);
    assert NextAt(at, d + 3);
    assert NextAt(at, d + 4);
    assert NextAt(at, d + 5);
    assert NextAt(at, d + 6);
    assert NextAt(at, d + 7);
  }

  lemma WalkFrom16(at: nat -> Six, d: nat)
    requires Follows(at) && at(d) == Six(S3, S17, S8, S17, S16, S27)
    ensures at(d + 1) == Six(S31, S27, S4, S6, S21, S31)
    ensures at(d + 2) == Six(S17, S8, S29, S17, S21, S11)
    ensures at(d + 3) == Six(NIL, S10, S13, S24, S3, S1)
    ensures at(d + 4) == Six(S10, S13, S24, S3, S1, NIL)
    ensures at(d + 5) == Six(NIL, S9, S6, S14, S13, S16)
    ensures at(d + 6) == Six(S9, S6, S14, S13, S16, NIL)
    ensures at(d + 7) == Six(S5, S12, S29, S9, S3, S15)
    ensures at(d + 8) == Six(S30, S1, S31, S16, S29, S8)
  {
    assert NextAt(at, d);
    assert NextAt(at, d + 1);
    assert NextAt(at, d + 2);
    assert NextAt(at, d + 3);
    assert NextAt(at, d + 4);
    assert NextAt(at, d + 5);
    assert NextAt(at, d + 6);
    assert NextAt(at, d + 7);
  }

  lemma WalkFrom24(at: nat -> Six, d: nat)
    requires Follows(at) && at(d) == Six(S30, S1, S31, S16, S29, S8)
    ensures at(d + 1) == Six(S22, S5, S31, S12, S31, S25)
    ensures at(d + 2) == Six(S12, S17, S7, S2, S16, S4)
    ensures at(d + 3) == Six(NIL, S25, S4, S26, S21, S7)
    ensures at(d + 4) == Six(S25, S4, S26, S21, S7, NIL)
    ensures at(d + 5) == Six(S18, S25, S13, S6, S22, S28)
    ensures at(d + 6) == Six(S31, S9, S15, S13, S26, S30)
    ensures at(d + 7) == Six(S3, S3, S22, S30, S20, S11)
    ensures at(d + 8) == Six(S13, S5, S11, S2, S5, S31)
  {
    assert NextAt(at, d);
    assert NextAt(at, d + 1);
    assert NextAt(at, d + 2);
    assert NextAt(at, d + 3);
    assert NextAt(at, d + 4);
    assert NextAt(at, d + 5);
    assert NextAt(at, d + 6);
    assert NextAt(at, d + 7);
  }

  lemma WalkFrom32(at: nat -> Six, d: nat)
    requires Follows(at) && at(d) == Six(S13, S5, S11, S2, S5, S31)
    ensures at(d + 1) == Six(S9, S3, S16, S26, S19, S21)
    ensures at(d + 2) == Six(NIL, S18, S10, S10, S22, S15)
    ensures at(d + 3) == Six(S18, S10, S10, S22, S15, NIL)
    ensures at(d + 4) == Six(S12, S14, S31, S20, S6, S30)
    ensures at(d + 5) == Six(S31, S1, S18, S12, S15, S7)
  {
    assert NextAt(at, d);
    assert NextAt(at, d + 1);
    assert NextAt(at, d + 2);
    assert NextAt(at, d + 3);
    assert NextAt(at, d + 4);
  }

  lemma AtNext(k: nat)
    ensures At(k + 1) == Next(At(k))
  {
  }

  lemma OneIsUnit()
    ensures ONE == Joint(START)
  {
  }

  lemma JointSteps(k: nat)
    ensures Joint(At(k + 1)) == Step(Joint(At(k)), Zeros(5))
  {
    StepIsNext(At(k));
  }

  lemma MovedOne(d: nat)
    ensures Moved(ONE, d) == Joint(At(d))
  {
    var f: nat -> Sum := k => Joint(At(k));
    forall k: nat ensures StepsOn(ZeroStep(), f, k) {
      JointSteps(k);
    }
    OneIsUnit();
    IteratedFollows(ZeroStep(), f, d);
  }

  lemma ProductUnit(x: Five)
    ensures Product(x, S1) == x && Product(x, NIL) == NIL
  {
  }

  lemma ScaledOne(x: Five)
    ensures Scaled(List(x), ONE) == Zeros(25) + List(x)
  {
    OneIsUnit();
    JointProduct(x, START);
    ProductUnit(x);
    LowJoint(x);
  }

  lemma LowJoint(x: Five)
    ensures Joint(Six(NIL, NIL, NIL, NIL, NIL, x)) == Zeros(25) + List(x)
  {
  }

  lemma JointLow(s: Six)
    requires Joint(s)[..25] == Zeros(25)
    ensures Low(s)
  {
    var b := Joint(s)[..25];
    assert !b[0] && !b[1] && !b[2] && !b[3] && !b[4] && !b[5] && !b[6] && !b[7] && !b[8] && !b[9];
    assert !b[10] && !b[11] && !b[12] && !b[13] && !b[14] && !b[15] && !b[16] && !b[17] && !b[18] && !b[19];
    assert !b[20] && !b[21] && !b[22] && !b[23] && !b[24];
  }

  lemma ProductNotLow(x: Five, s: Six)
    requires x != NIL && !Low(s)
    ensures !Low(ProductAll(x, s))
  {
    if s.f5 != NIL && Product(x, s.f5) == NIL {
      NoZeroDivisors(x, s.f5);
    }
    if s.f4 != NIL && Product(x, s.f4) == NIL {
      NoZeroDivisors(x, s.f4);
    }
    if s.f3 != NIL && Product(x, s.f3) == NIL {
      NoZeroDivisors(x, s.f3);
    }
    if s.f2 != NIL && Product(x, s.f2) == NIL {
      NoZeroDivisors(x, s.f2);
    }
    if s.f1 != NIL && Product(x, s.f1) == NIL {
      NoZeroDivisors(x, s.f1);
    }
  }

  // Sums of few symbols.

  function ZeroSymbols(n: nat): (vs: seq<Symbol>)
    ensures |vs| == n && AllZero(vs)
  {
    seq(n, _ => Zeros(5))
  }

  lemma {:induction false} ChecksumMoves(s: Sum, n: nat)
    ensures Checksum(s, ZeroSymbols(n)) == Moved(s, n)
  {
    if n == 0 {
    } else {
      ChecksumMoves(s, n - 1);
      assert ZeroSymbols(n)[..n - 1] == ZeroSymbols(n - 1);
      ChecksumLast(s, ZeroSymbols(n));
      MovedOnce(s, n);
    }
  }

  lemma ChecksumOfOne(s: Sum, v: Symbol)
    ensures Checksum(s, [v]) == Step(s, v)
  {
    assert [v][..0] == [];
  }

  /** A symbol from zero is just stored. */
  lemma StepFromZero(v: Symbol)
    ensures Step(ZERO, v) == Zeros(25) + v
  {
    StepWithRoom(ZERO, v);
    assert ZERO[5..] == Zeros(25);
  }

  lemma PlusLow(a: Sum, v: Symbol)
    requires a[..25] != Zeros(25)
    ensures Plus(a, Zeros(25) + v) != ZERO
  {
    PlusSame(a, Zeros(25) + v);
    assert (Zeros(25) + v)[..25] == Zeros(25);
  }

  lemma SymbolsConcat(vs: seq<nat>, ws: seq<nat>)
    ensures Symbols(vs + ws) == Symbols(vs) + Symbols(ws)
  {
  }

  lemma PrefixFirst(hrp: seq<nat>, body: string)
    requires OverAlphabet(body)
    ensures Checksum(ONE, Symbols(hrp + Values(body))) == Checksum(Checksum(ONE, Symbols(hrp)), Symbols(Values(body)))
  {
    SymbolsConcat(hrp, Values(body));
    ChecksumConcat(ONE, Symbols(hrp), Symbols(Values(body)));
  }

  lemma SymbolOf(body: string, k: nat)
    requires OverAlphabet(body) && k < |body|
    ensures ValueOf(body[k]).Some? && Symbols(Values(body))[k] == Digits(ValueOf(body[k]).value, 5)
  {
  }

  lemma SymbolsAlike(a: string, b: string, k: nat)
    requires OverAlphabet(a) && OverAlphabet(b) && |a| == |b| && k < |a|
    ensures Symbols(Values(a))[k] == Symbols(Values(b))[k] <==> a[k] == b[k]
  {
    SymbolOf(a, k);
    SymbolOf(b, k);
    var v, w := ValueOf(a[k]).value, ValueOf(b[k]).value;
    if Digits(v, 5) == Digits(w, 5) {
      SymbolsDistinct(v, w);
    }
  }
}
