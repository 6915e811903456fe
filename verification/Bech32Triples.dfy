/** Three changed characters of a P-Chain address, wherever they are, are always seen: the places a
    symbol goes to are, but for a factor, all different. */
module Bech32Triples {
  import opened Wrappers
  import opened BinaryDigits
  import opened Bech32
  import opened Bech32Field

  // The field.

  predicate Adds(f: Five -> Five, u: Five, v: Five) {
    f(Sum2(u, v)) == Sum2(f(u), f(v))
  }

  predicate Doubles(f: Five -> Five, u: Five) {
    f(Twice(u)) == Twice(f(u))
  }

  ghost predicate Linear(f: Five -> Five) {
    (forall u, v :: Adds(f, u, v)) && (forall u :: Doubles(f, u))
  }

  lemma SumMoves(p: Five, q: Five, r: Five, s: Five)
    ensures Sum2(Sum2(p, q), Sum2(r, s)) == Sum2(Sum2(p, r), Sum2(q, s))
  {
  }

  lemma TwiceSum(p: Five, q: Five)
    ensures Twice(Sum2(p, q)) == Sum2(Twice(p), Twice(q))
  {
  }

  lemma PartSum(b: bool, u: Five, v: Five)
    ensures Part(b, Sum2(u, v)) == Sum2(Part(b, u), Part(b, v))
    ensures Part(b, Twice(u)) == Twice(Part(b, u))
  {
  }

  lemma {:induction false} ProductsLinear(x: Bits, u: Five, v: Five)
    ensures Products(x, Sum2(u, v)) == Sum2(Products(x, u), Products(x, v))
    ensures Products(x, Twice(u)) == Twice(Products(x, u))
  {
    if x == [] {
    } else {
      var front, b := x[..|x| - 1], x[|x| - 1];
      var p, q := Products(front, u), Products(front, v);
      ProductsLinear(front, u, v);
      PartSum(b, u, v);
      TwiceSum(p, q);
      SumMoves(Twice(p), Twice(q), Part(b, u), Part(b, v));
      TwiceSum(Twice(p), Part(b, u));
    }
  }

  lemma ProductIsLinear(x: Five, u: Five, v: Five)
    ensures Product(x, Sum2(u, v)) == Sum2(Product(x, u), Product(x, v))
    ensures Product(x, Twice(u)) == Twice(Product(x, u))
  {
    ProductsLinear(List(x), u, v);
    ProductIsProducts(x, u);
    ProductIsProducts(x, v);
    ProductIsProducts(x, Sum2(u, v));
    ProductIsProducts(x, Twice(u));
  }

  lemma LinearAt(f: Five -> Five, p: Five, b: bool, u: Five)
    requires Linear(f)
    ensures f(NIL) == NIL && f(Sum2(Twice(p), Part(b, u))) == Sum2(Twice(f(p)), Part(b, f(u)))
  {
    assert Adds(f, NIL, NIL) && Sum2(NIL, NIL) == NIL;
    assert Adds(f, Twice(p), Part(b, u)) && Doubles(f, p);
  }

  lemma {:induction false} LinearProducts(f: Five -> Five, x: Bits, u: Five)
    requires Linear(f)
    ensures f(Products(x, u)) == Products(x, f(u))
  {
    if x == [] {
      LinearAt(f, NIL, false, u);
    } else {
      LinearProducts(f, x[..|x| - 1], u);
      LinearAt(f, Products(x[..|x| - 1], u), x[|x| - 1], u);
    }
  }

  /** What is linear is a product with what it makes of 1. */
  lemma LinearIsProduct(f: Five -> Five, u: Five)
    requires Linear(f)
    ensures f(u) == Product(u, f(S1))
  {
    LinearProducts(f, List(u), S1);
    ProductIsProducts(u, S1);
    ProductIsProducts(u, f(S1));
    ProductUnit(u);
  }

  function Multiply(x: Bits): Five -> Five {
    u => Products(x, u)
  }

  function MultiplyBoth(x: Bits, y: Bits): Five -> Five {
    u => Products(x, Products(y, u))
  }

  lemma MultiplyLinear(x: Bits, y: Bits)
    ensures Linear(Multiply(x)) && Linear(MultiplyBoth(x, y))
  {
    forall u, v ensures Adds(Multiply(x), u, v) && Adds(MultiplyBoth(x, y), u, v) {
      ProductsLinear(x, u, v);
      ProductsLinear(y, u, v);
      ProductsLinear(x, Products(y, u), Products(y, v));
    }
    forall u ensures Doubles(Multiply(x), u) && Doubles(MultiplyBoth(x, y), u) {
      ProductsLinear(x, u, u);
      ProductsLinear(y, u, u);
      ProductsLinear(x, Products(y, u), u);
    }
  }

  lemma ProductCommutes(x: Five, u: Five)
    ensures Product(x, u) == Product(u, x)
  {
    MultiplyLinear(List(x), []);
    LinearIsProduct(Multiply(List(x)), u);
    ProductIsProducts(x, u);
    ProductIsProducts(x, S1);
    ProductUnit(x);
  }

  lemma TwoIsProduct(x: Five, y: Five, u: Five)
    ensures Products(List(x), Products(List(y), u)) == Product(u, Product(x, y))
  {
    MultiplyLinear(List(x), List(y));
    LinearIsProduct(MultiplyBoth(List(x), List(y)), u);
    ProductOfTwo(x, y, S1);
    ProductUnit(y);
  }

  lemma ProductAssociates(x: Five, y: Five, u: Five)
    ensures Product(x, Product(y, u)) == Product(Product(x, y), u)
  {
    TwoIsProduct(x, y, u);
    ProductOfTwo(x, y, u);
    ProductCommutes(u, Product(x, y));
  }

  lemma ProductOfTwo(x: Five, y: Five, u: Five)
    ensures Products(List(x), Products(List(y), u)) == Product(x, Product(y, u))
  {
    ProductIsProducts(y, u);
    ProductIsProducts(x, Product(y, u));
  }

  lemma Cancels(x: Five, u: Five, v: Five)
    requires x != NIL && Product(x, u) == Product(x, v)
    ensures u == v
  {
    ProductIsLinear(x, u, v);
    SumIsNil(Product(x, u), Product(x, v));
    NoZeroDivisors(x, Sum2(u, v));
    SumIsNil(u, v);
  }

  lemma SumIsNil(u: Five, v: Five)
    ensures Sum2(u, v) == NIL <==> u == v
  {
  }

  // Three views of the upper symbols of a sum, of which the first one is never zero.

  function First(s: Six): Five {
    Sum2(Sum2(s.f5, s.f4), Sum2(Sum2(s.f3, s.f2), Twice(s.f1)))
  }

  function Second(s: Six): Five {
    s.f2
  }

  function Third(s: Six): Five {
    Sum2(Sum2(s.f4, Twice(s.f3)), s.f1)
  }

  /** The other two views of where 1 is after `d` places, divided by the first one. */
  function Row(d: nat): (Five, Five) {
    if d == 1 then (NIL, S20)
    else if d == 2 then (S1, NIL)
    else if d == 3 then (NIL, S2)
    else if d == 4 then (NIL, S1)
    else if d == 5 then (NIL, NIL)
    else if d == 6 then (S11, S15)
    else if d == 7 then (S3, S29)
    else if d == 8 then (S28, S26)
    else if d == 9 then (S24, S19)
    else if d == 10 then (S16, S14)
    else if d == 11 then (S22, S15)
    else if d == 12 then (S22, S12)
    else if d == 13 then (S15, S13)
    else if d == 14 then (S29, S3)
    else if d == 15 then (S1, S27)
    else if d == 16 then (S28, S28)
    else if d == 17 then (S25, S25)
    else if d == 18 then (S10, S22)
    else if d == 19 then (S20, S14)
    else if d == 20 then (S4, S2)
    else if d == 21 then (S16, S6)
    else if d == 22 then (S19, S2)
    else if d == 23 then (S24, S9)
    else if d == 24 then (S23, S30)
    else if d == 25 then (S11, S24)
    else if d == 26 then (S13, S24)
    else if d == 27 then (S18, S1)
    else if d == 28 then (S31, S27)
    else if d == 29 then (S25, S12)
    else if d == 30 then (S4, S4)
    else if d == 31 then (S13, S2)
    else if d == 32 then (S18, S2)
    else if d == 33 then (S5, S13)
    else if d == 34 then (S26, S3)
    else if d == 35 then (S27, S24)
    else if d == 36 then (S4, S14)
    else if d == 37 then (S16, S4)
    else (NIL, NIL)
  }

  /** But for a factor, the sum is seen as the one of place `d`. */
  predicate Seen(s: Six, d: nat) {
    && First(s) != NIL
    && Second(s) == Products(List(First(s)), Row(d).0)
    && Third(s) == Products(List(First(s)), Row(d).1)
  }

  ghost predicate Sees(see: (Six, nat) -> bool) {
    forall s, d {:trigger Seen(s, d)} :: Seen(s, d) ==> see(s, d)
  }

  lemma Spot(see: (Six, nat) -> bool, s: Six, d: nat, x: Five, q: Five, r: Five)
    requires Sees(see) && Row(d) == (q, r)
    requires First(s) == x != NIL && Second(s) == Product(x, q) && Third(s) == Product(x, r)
    ensures see(s, d)
  {
    ProductIsProducts(x, q);
    ProductIsProducts(x, r);
    assert Seen(s, d);
  }

  lemma RowsDiffer(a: nat, b: nat)
    requires 1 <= a < b <= 37
    ensures Row(a) != Row(b)
  {
  }

  lemma Spots1(see: (Six, nat) -> bool)
    requires Sees(see)
    ensures see(Six(NIL, NIL, NIL, NIL, S1, NIL), 1)
    ensures see(Six(NIL, NIL, NIL, S1, NIL, NIL), 2)
  {
    Spot(see, Six(NIL, NIL, NIL, NIL, S1, NIL), 1, S2, NIL, S20);
    Spot(see, Six(NIL, NIL, NIL, S1, NIL, NIL), 2, S1, S1, NIL);
  }

  lemma Spots3(see: (Six, nat) -> bool)
    requires Sees(see)
    ensures see(Six(NIL, NIL, S1, NIL, NIL, NIL), 3)
    ensures see(Six(NIL, S1, NIL, NIL, NIL, NIL), 4)
  {
    Spot(see, Six(NIL, NIL, S1, NIL, NIL, NIL), 3, S1, NIL, S2);
    Spot(see, Six(NIL, S1, NIL, NIL, NIL, NIL), 4, S1, NIL, S1);
  }

  lemma Spots5(see: (Six, nat) -> bool)
    requires Sees(see)
    ensures see(Six(S1, NIL, NIL, NIL, NIL, NIL), 5)
    ensures see(Six(S29, S22, S20, S21, S29, S18), 6)
    ensures see(Six(S15, S29, S15, S26, S11, S6), 7)
    ensures see(Six(S2, S2, S9, S23, S25, S24), 8)
  {
    Spot(see, Six(S1, NIL, NIL, NIL, NIL, NIL), 5, S1, NIL, NIL);
    Spot(see, Six(S29, S22, S20, S21, S29, S18), 6, S25, S11, S15);
    Spot(see, Six(S15, S29, S15, S26, S11, S6), 7, S17, S3, S29);
    Spot(see, Six(S2, S2, S9, S23, S25, S24), 8, S5, S28, S26);
  }

  lemma Seen1(see: (Six, nat) -> bool, at: nat -> Six)
    requires Sees(see) && Follows(at) && at(0) == START
    ensures forall k :: 0 < k <= 8 ==> see(at(k), k)
    ensures at(8) == Six(S2, S2, S9, S23, S25, S24)
  {
    WalkFrom0(at, 0);
    WalkFrom5(at, 5);
    Spots1(see);
    Spots3(see);
    Spots5(see);
  }

  lemma Seen9(see: (Six, nat) -> bool, at: nat -> Six)
    requires Sees(see) && Follows(at) && at(8) == Six(S2, S2, S9, S23, S25, S24)
    ensures see(at(9), 9) && see(at(10), 10) && see(at(11), 11) && see(at(12), 12)
  {
    WalkFrom8(at, 8);
    assert see(at(9), 9) by { Spot(see, at(9), 9, S7, S24, S19); }
    assert see(at(10), 10) by { Spot(see, at(10), 10, S15, S16, S14); }
    assert see(at(11), 11) by { Spot(see, at(11), 11, S25, S22, S15); }
    assert see(at(12), 12) by { Spot(see, at(12), 12, S11, S22, S12); }
  }

  lemma Seen13(see: (Six, nat) -> bool, at: nat -> Six)
    requires Sees(see) && Follows(at) && at(8) == Six(S2, S2, S9, S23, S25, S24)
    ensures see(at(13), 13) && see(at(14), 14) && see(at(15), 15) && see(at(16), 16)
    ensures at(16) == Six(S3, S17, S8, S17, S16, S27)
  {
    WalkFrom8(at, 8);
    assert see(at(13), 13) by { Spot(see, at(13), 13, S3, S15, S13); }
    assert see(at(14), 14) by { Spot(see, at(14), 14, S4, S29, S3); }
    assert see(at(15), 15) by { Spot(see, at(15), 15, S22, S1, S27); }
    assert see(at(16), 16) by { Spot(see, at(16), 16, S2, S28, S28); }
  }

  lemma Seen17(see: (Six, nat) -> bool, at: nat -> Six)
    requires Sees(see) && Follows(at) && at(16) == Six(S3, S17, S8, S17, S16, S27)
    ensures see(at(17), 17) && see(at(18), 18) && see(at(19), 19) && see(at(20), 20)
  {
    WalkFrom16(at, 16);
    assert see(at(17), 17) by { Spot(see, at(17), 17, S5, S25, S25); }
    assert see(at(18), 18) by { Spot(see, at(18), 18, S22, S10, S22); }
    assert see(at(19), 19) by { Spot(see, at(19), 19, S25, S20, S14); }
    assert see(at(20), 20) by { Spot(see, at(20), 20, S30, S4, S2); }
  }

  lemma Seen21(see: (Six, nat) -> bool, at: nat -> Six)
    requires Sees(see) && Follows(at) && at(16) == Six(S3, S17, S8, S17, S16, S27)
    ensures see(at(21), 21) && see(at(22), 22) && see(at(23), 23) && see(at(24), 24)
    ensures at(24) == Six(S30, S1, S31, S16, S29, S8)
  {
    WalkFrom16(at, 16);
    assert see(at(21), 21) by { Spot(see, at(21), 21, S27, S16, S6); }
    assert see(at(22), 22) by { Spot(see, at(22), 22, S5, S19, S2); }
    assert see(at(23), 23) by { Spot(see, at(23), 23, S27, S24, S9); }
    assert see(at(24), 24) by { Spot(see, at(24), 24, S3, S23, S30); }
  }

  lemma Seen25(see: (Six, nat) -> bool, at: nat -> Six)
    requires Sees(see) && Follows(at) && at(24) == Six(S30, S1, S31, S16, S29, S8)
    ensures see(at(25), 25) && see(at(26), 26) && see(at(27), 27) && see(at(28), 28)
  {
    WalkFrom24(at, 24);
    assert see(at(25), 25) by { Spot(see, at(25), 25, S23, S11, S24); }
    assert see(at(26), 26) by { Spot(see, at(26), 26, S17, S13, S24); }
    assert see(at(27), 27) by { Spot(see, at(27), 27, S4, S18, S1); }
    assert see(at(28), 28) by { Spot(see, at(28), 28, S28, S31, S27); }
  }

  lemma Seen29(see: (Six, nat) -> bool, at: nat -> Six)
    requires Sees(see) && Follows(at) && at(24) == Six(S30, S1, S31, S16, S29, S8)
    ensures see(at(29), 29) && see(at(30), 30) && see(at(31), 31) && see(at(32), 32)
    ensures at(32) == Six(S13, S5, S11, S2, S5, S31)
  {
    WalkFrom24(at, 24);
    assert see(at(29), 29) by { Spot(see, at(29), 29, S5, S25, S12); }
    assert see(at(30), 30) by { Spot(see, at(30), 30, S9, S4, S4); }
    assert see(at(31), 31) by { Spot(see, at(31), 31, S9, S13, S2); }
    assert see(at(32), 32) by { Spot(see, at(32), 32, S11, S18, S2); }
  }

  lemma Seen33(see: (Six, nat) -> bool, at: nat -> Six)
    requires Sees(see) && Follows(at) && at(32) == Six(S13, S5, S11, S2, S5, S31)
    ensures see(at(33), 33) && see(at(34), 34) && see(at(35), 35) && see(at(36), 36)
  {
    WalkFrom32(at, 32);
    assert see(at(33), 33) by { Spot(see, at(33), 33, S15, S5, S13); }
    assert see(at(34), 34) by { Spot(see, at(34), 34, S23, S26, S3); }
    assert see(at(35), 35) by { Spot(see, at(35), 35, S26, S27, S24); }
    assert see(at(36), 36) by { Spot(see, at(36), 36, S5, S4, S14); }
  }

  lemma Seen37(see: (Six, nat) -> bool, at: nat -> Six)
    requires Sees(see) && Follows(at) && at(32) == Six(S13, S5, S11, S2, S5, S31)
    ensures see(at(37), 37)
  {
    WalkFrom32(at, 32);
    assert see(at(37), 37) by { Spot(see, at(37), 37, S30, S16, S4); }
  }

  /** Where 1 goes is what the rows say. */
  lemma AllSeen(see: (Six, nat) -> bool, at: nat -> Six)
    requires Sees(see) && Follows(at) && at(0) == START
    ensures forall k :: 0 < k <= 37 ==> see(at(k), k)
  {
    Seen1(see, at);
    Seen9(see, at);
    Seen13(see, at);
    Seen17(see, at);
    Seen21(see, at);
    Seen25(see, at);
    Seen29(see, at);
    Seen33(see, at);
    Seen37(see, at);
  }

  function Path(): nat -> Six {
    (k: nat) => At(k)
  }

  function Sight(): (Six, nat) -> bool {
    (s: Six, d: nat) => Seen(s, d)
  }

  lemma PathFollows()
    ensures Follows(Path()) && Path()(0) == START
  {
    forall k: nat ensures NextAt(Path(), k) {
      AtNext(k);
    }
  }

  lemma SightSees()
    ensures Sees(Sight())
  {
  }

  lemma SightIsSeen(d: nat)
    ensures Sight()(Path()(d), d) == Seen(At(d), d)
  {
  }

  lemma AtIsSeen(d: nat)
    requires 1 <= d <= 37
    ensures Seen(At(d), d)
  {
    PathFollows();
    SightSees();
    AllSeen(Sight(), Path());
    SightIsSeen(d);
  }

  // Two symbols that have moved.

  lemma ViewScaled(x: Five, s: Six)
    ensures First(ProductAll(x, s)) == Product(x, First(s))
    ensures Second(ProductAll(x, s)) == Product(x, Second(s))
    ensures Third(ProductAll(x, s)) == Product(x, Third(s))
  {
    ProductIsLinear(x, s.f5, s.f4);
    ProductIsLinear(x, s.f3, s.f2);
    ProductIsLinear(x, s.f1, s.f1);
    ProductIsLinear(x, Sum2(s.f3, s.f2), Twice(s.f1));
    ProductIsLinear(x, Sum2(s.f5, s.f4), Sum2(Sum2(s.f3, s.f2), Twice(s.f1)));
    ProductIsLinear(x, s.f3, s.f3);
    ProductIsLinear(x, s.f4, Twice(s.f3));
    ProductIsLinear(x, Sum2(s.f4, Twice(s.f3)), s.f1);
  }

  predicate SameUpper(s: Six, t: Six) {
    s.f5 == t.f5 && s.f4 == t.f4 && s.f3 == t.f3 && s.f2 == t.f2 && s.f1 == t.f1
  }

  lemma SameRatio(x: Five, u: Five, p: Five, y: Five, v: Five, q: Five)
    requires Product(x, u) == Product(y, v) != NIL
    requires Product(x, Product(u, p)) == Product(y, Product(v, q))
    ensures p == q
  {
    ProductAssociates(x, u, p);
    ProductAssociates(y, v, q);
    Cancels(Product(x, u), p, q);
  }

  /** From two different places, they never come to the same upper symbols. */
  lemma MovedApart(x: Five, y: Five, a: nat, b: nat)
    requires 1 <= b < a <= 37 && SameUpper(ProductAll(x, At(a)), ProductAll(y, At(b)))
    ensures x == NIL && y == NIL
  {
    if x == NIL || y == NIL {
      OneMoved(x, y, a, b);
    } else {
      var s, t := At(a), At(b);
      AtIsSeen(a);
      AtIsSeen(b);
      ViewScaled(x, s);
      ViewScaled(y, t);
      if Product(x, First(s)) == NIL {
        NoZeroDivisors(x, First(s));
      }
      SeenRatio(s, a);
      SeenRatio(t, b);
      SameRatio(x, First(s), Row(a).0, y, First(t), Row(b).0);
      SameRatio(x, First(s), Row(a).1, y, First(t), Row(b).1);
      RowsDiffer(b, a);
      assert false;
    }
  }

  lemma OneMoved(x: Five, y: Five, a: nat, b: nat)
    requires 1 <= b < a <= 37 && SameUpper(ProductAll(x, At(a)), ProductAll(y, At(b)))
    requires x == NIL || y == NIL
    ensures x == NIL && y == NIL
  {
    SeenIsNotLow(a);
    SeenIsNotLow(b);
    if x != NIL {
      ProductNotLow(x, At(a));
      ProductNil(At(b));
    }
    if y != NIL {
      ProductNotLow(y, At(b));
      ProductNil(At(a));
    }
  }

  /** It is never alone at the lowest place again. */
  lemma SeenIsNotLow(d: nat)
    requires 1 <= d <= 37
    ensures !Low(At(d))
  {
    AtIsSeen(d);
  }

  lemma ProductNil(s: Six)
    ensures ProductAll(NIL, s) == Six(NIL, NIL, NIL, NIL, NIL, NIL)
  {
  }

  lemma SeenRatio(s: Six, d: nat)
    requires Seen(s, d)
    ensures Second(s) == Product(First(s), Row(d).0) && Third(s) == Product(First(s), Row(d).1)
  {
    ProductIsProducts(First(s), Row(d).0);
    ProductIsProducts(First(s), Row(d).1);
  }

  // Three changed symbols.

  function Lowest(v: Symbol): Sum {
    Zeros(25) + v
  }

  lemma PlusSteps(s: Sum, t: Sum)
    ensures Step(Plus(s, t), Zeros(5)) == Plus(Step(s, Zeros(5)), Step(t, Zeros(5)))
  {
    StepLinear(s, Zeros(5), t, Zeros(5));
    assert Plus(Zeros(5), Zeros(5)) == Zeros(5);
  }

  lemma MovedPlus(a: Sum, b: Sum, d: nat)
    ensures Moved(Plus(a, b), d) == Plus(Moved(a, d), Moved(b, d))
  {
    var f: nat -> Sum := k => Plus(Moved(a, k), Moved(b, k));
    forall k: nat ensures StepsOn(ZeroStep(), f, k) {
      MovedOnce(a, k + 1);
      MovedOnce(b, k + 1);
      PlusSteps(Moved(a, k), Moved(b, k));
    }
    IteratedFollows(ZeroStep(), f, d);
  }

  function Mover(step: Sum -> Sum): (Sum, nat) -> Sum {
    (s: Sum, d: nat) => Iterated(step, s, d)
  }

  lemma MoverMovesFurther(step: Sum -> Sum, s: Sum, c: nat, d: nat)
    ensures MovesFurther(Mover(step), s, c, d)
  {
    IteratedFurther(step, s, c, d);
  }

  /** A step is one with zero, and then the symbol is added at the lowest place. */
  lemma StepAdds(s: Sum, v: Symbol)
    ensures Step(s, v) == Plus(Step(s, Zeros(5)), Lowest(v))
  {
    StepLinear(s, Zeros(5), ZERO, v);
    PlusZero(s);
    assert Plus(Zeros(5), v) == v;
    StepFromZero(v);
  }

  lemma AfterGap(s: Sum, n: nat, v: Symbol)
    ensures Checksum(s, ZeroSymbols(n) + [v]) == Plus(Moved(s, n + 1), Lowest(v))
  {
    ChecksumConcat(s, ZeroSymbols(n), [v]);
    ChecksumMoves(s, n);
    ChecksumOfOne(Moved(s, n), v);
    StepAdds(Moved(s, n), v);
    MovedOnce(s, n + 1);
  }

  lemma MovedIsJoint(x: Five, d: nat)
    ensures Moved(Lowest(List(x)), d) == Joint(ProductAll(x, At(d)))
  {
    ScaledOne(x);
    MovedScaled(List(x), ONE, d);
    MovedOne(d);
    JointProduct(x, At(d));
  }

  lemma LowSum(s: Six, t: Six)
    requires Low(SumAll(s, t))
    ensures SameUpper(s, t)
  {
    SumIsNil(s.f5, t.f5);
    SumIsNil(s.f4, t.f4);
    SumIsNil(s.f3, t.f3);
    SumIsNil(s.f2, t.f2);
    SumIsNil(s.f1, t.f1);
  }

  /** Three symbols at different places, with the last one at the lowest, only cancel if all are zero. */
  lemma NoneCancel(x: Symbol, y: Symbol, z: Symbol, a: nat, b: nat)
    requires 1 <= b < a <= 37
    requires Plus(Plus(Moved(Lowest(x), a), Moved(Lowest(y), b)), Lowest(z)) == ZERO
    ensures x == y == z == Zeros(5)
  {
    var u := IsList(x);
    var v := IsList(y);
    var s, t := ProductAll(u, At(a)), ProductAll(v, At(b));
    MovedIsJoint(u, a);
    MovedIsJoint(v, b);
    JointSum(s, t);
    if Joint(SumAll(s, t))[..25] != Zeros(25) {
      PlusLow(Joint(SumAll(s, t)), z);
    }
    JointLow(SumAll(s, t));
    LowSum(s, t);
    MovedApart(u, v, a, b);
    ListNil();
    LastIsZero(s, t, z, At(a), At(b));
  }

  lemma LastIsZero(s: Six, t: Six, z: Symbol, p: Six, q: Six)
    requires s == ProductAll(NIL, p) && t == ProductAll(NIL, q)
    requires Plus(Joint(SumAll(s, t)), Lowest(z)) == ZERO
    ensures z == Zeros(5)
  {
    ProductNil(p);
    ProductNil(q);
    LowJoint(NIL);
    ListNil();
    assert Zeros(25) + Zeros(5) == ZERO;
    PlusZero(Lowest(z));
    assert Lowest(z)[25..] == z;
  }

  // How sums and moves go together, whatever they are.

  predicate Concats(sum: (Sum, seq<Symbol>) -> Sum, s: Sum, a: seq<Symbol>, b: seq<Symbol>) {
    sum(s, a + b) == sum(sum(s, a), b)
  }

  predicate CrossesGap(
    sum: (Sum, seq<Symbol>) -> Sum, move: (Sum, nat) -> Sum, s: Sum, n: nat, v: Symbol)
  {
    sum(s, ZeroSymbols(n) + [v]) == Plus(move(s, n + 1), Lowest(v))
  }

  predicate MovesSum(move: (Sum, nat) -> Sum, s: Sum, t: Sum, d: nat) {
    move(Plus(s, t), d) == Plus(move(s, d), move(t, d))
  }

  predicate MovesFurther(move: (Sum, nat) -> Sum, s: Sum, c: nat, d: nat) {
    move(move(s, c), d) == move(s, c + d)
  }

  ghost predicate Sums(sum: (Sum, seq<Symbol>) -> Sum, move: (Sum, nat) -> Sum) {
    && (forall s, a, b :: Concats(sum, s, a, b))
    && (forall s, n: nat, v :: CrossesGap(sum, move, s, n, v))
    && (forall s, t, d: nat :: MovesSum(move, s, t, d))
    && (forall s, c: nat, d: nat :: MovesFurther(move, s, c, d))
  }

  function Summation(): (Sum, seq<Symbol>) -> Sum {
    (s: Sum, vs: seq<Symbol>) => Checksum(s, vs)
  }

  lemma SummationConcats(s: Sum, a: seq<Symbol>, b: seq<Symbol>)
    ensures Concats(Summation(), s, a, b)
  {
    ChecksumConcat(s, a, b);
  }

  lemma SummationCrosses(s: Sum, n: nat, v: Symbol)
    ensures CrossesGap(Summation(), Mover(ZeroStep()), s, n, v)
  {
    AfterGap(s, n, v);
  }

  lemma MoverMovesSum(s: Sum, t: Sum, d: nat)
    ensures MovesSum(Mover(ZeroStep()), s, t, d)
  {
    MovedPlus(s, t, d);
  }

  lemma ChecksumSums()
    ensures Sums(Summation(), Mover(ZeroStep()))
  {
    forall s, a, b ensures Concats(Summation(), s, a, b) {
      SummationConcats(s, a, b);
    }
    forall s, n: nat, v ensures CrossesGap(Summation(), Mover(ZeroStep()), s, n, v) {
      SummationCrosses(s, n, v);
    }
    forall s, t, d: nat ensures MovesSum(Mover(ZeroStep()), s, t, d) {
      MoverMovesSum(s, t, d);
    }
    forall s, c: nat, d: nat ensures MovesFurther(Mover(ZeroStep()), s, c, d) {
      MoverMovesFurther(ZeroStep(), s, c, d);
    }
  }

  /** What three symbols come to: the first two moved, and the last one. */
  function Ended(move: (Sum, nat) -> Sum, x: Symbol, n: nat, y: Symbol, m: nat, z: Symbol): Sum {
    Plus(Plus(move(Lowest(x), n + 1 + (m + 1)), move(Lowest(y), m + 1)), Lowest(z))
  }

  lemma ThreeOn(
    sum: (Sum, seq<Symbol>) -> Sum, move: (Sum, nat) -> Sum,
    first: seq<Symbol>, x: Symbol, n: nat, y: Symbol, m: nat, z: Symbol, after: seq<Symbol>)
    requires Sums(sum, move) && sum(ZERO, first) == Lowest(x)
    ensures sum(ZERO, first + (ZeroSymbols(n) + [y]) + (ZeroSymbols(m) + [z]) + after)
         == sum(Ended(move, x, n, y, m, z), after)
  {
    var gap, last := ZeroSymbols(n) + [y], ZeroSymbols(m) + [z];
    assert Concats(sum, ZERO, first + gap + last, after);
    assert Concats(sum, ZERO, first + gap, last);
    assert Concats(sum, ZERO, first, gap);
    assert CrossesGap(sum, move, Lowest(x), n, y);
    assert CrossesGap(sum, move, Plus(move(Lowest(x), n + 1), Lowest(y)), m, z);
    assert MovesSum(move, move(Lowest(x), n + 1), Lowest(y), m + 1);
    assert MovesFurther(move, Lowest(x), n + 1, m + 1);
  }

  lemma AfterZeros(before: seq<Symbol>, x: Symbol)
    requires AllZero(before)
    ensures Checksum(ZERO, before + [x]) == Lowest(x)
  {
    ChecksumConcat(ZERO, before, [x]);
    ChecksumOfZeros(ZERO, before);
    ChecksumOfOne(ZERO, x);
    StepFromZero(x);
  }

  lemma TripleIsSeen(before: seq<Symbol>, x: Symbol, n: nat, y: Symbol, m: nat, z: Symbol, after: seq<Symbol>)
    requires AllZero(before) && AllZero(after) && n + m + 2 <= 37
    requires x != Zeros(5) || y != Zeros(5) || z != Zeros(5)
    ensures Summation()(ZERO, before + [x] + (ZeroSymbols(n) + [y]) + (ZeroSymbols(m) + [z]) + after) != ZERO
  {
    ChecksumSums();
    AfterZeros(before, x);
    ThreeOn(Summation(), Mover(ZeroStep()), before + [x], x, n, y, m, z, after);
    EndIsNotZero(x, n, y, m, z);
    StaysSeen(Ended(Mover(ZeroStep()), x, n, y, m, z), after);
  }

  lemma EndIsNotZero(x: Symbol, n: nat, y: Symbol, m: nat, z: Symbol)
    requires n + m + 2 <= 37
    requires x != Zeros(5) || y != Zeros(5) || z != Zeros(5)
    ensures Ended(Mover(ZeroStep()), x, n, y, m, z) != ZERO
  {
    if Ended(Mover(ZeroStep()), x, n, y, m, z) == ZERO {
      NoneCancel(x, y, z, n + 1 + (m + 1), m + 1);
    }
  }

  lemma StaysSeen(end: Sum, after: seq<Symbol>)
    requires AllZero(after) && end != ZERO
    ensures Summation()(end, after) != ZERO
  {
    ChecksumOfZeros(end, after);
  }

  lemma PartedAtThree(d: seq<Symbol>, i: nat, j: nat, k: nat) returns (before: seq<Symbol>, after: seq<Symbol>)
    requires i < j < k < |d|
    requires forall l :: 0 <= l < |d| && l != i && l != j && l != k ==> d[l] == Zeros(5)
    ensures AllZero(before) && AllZero(after)
    ensures d == before + [d[i]] + (ZeroSymbols(j - i - 1) + [d[j]]) + (ZeroSymbols(k - j - 1) + [d[k]]) + after
  {
    before, after := d[..i], d[k + 1..];
    assert d[i + 1..j] == ZeroSymbols(j - i - 1);
    assert d[j + 1..k] == ZeroSymbols(k - j - 1);
    assert d == before + [d[i]] + (d[i + 1..j] + [d[j]]) + (d[j + 1..k] + [d[k]]) + after;
  }

  /** Two strings of symbols that differ, in at most three places, at most 37 places apart, have
      different checksums. */
  lemma TripleChangesChecksum(s: Sum, vs: seq<Symbol>, ws: seq<Symbol>, i: nat, j: nat, k: nat)
    requires |vs| == |ws| && vs != ws && i < j < k < |vs| && k - i <= 37
    requires forall l :: 0 <= l < |vs| && l != i && l != j && l != k ==> vs[l] == ws[l]
    ensures Checksum(s, vs) != Checksum(s, ws)
  {
    var d := PlusAll(vs, ws);
    forall l | 0 <= l < |d| ensures d[l] == Zeros(5) <==> vs[l] == ws[l] {
      PlusSame(vs[l], ws[l]);
    }
    assert vs[i] != ws[i] || vs[j] != ws[j] || vs[k] != ws[k];
    DifferenceIsSeen(d, i, j, k);
    SummationIs(ZERO, d);
    DifferenceOfSums(s, vs, ws);
  }

  lemma DifferenceIsSeen(d: seq<Symbol>, i: nat, j: nat, k: nat)
    requires i < j < k < |d| && k - i <= 37
    requires d[i] != Zeros(5) || d[j] != Zeros(5) || d[k] != Zeros(5)
    requires forall l :: 0 <= l < |d| && l != i && l != j && l != k ==> d[l] == Zeros(5)
    ensures Summation()(ZERO, d) != ZERO
  {
    var before, after := PartedAtThree(d, i, j, k);
    TripleIsSeen(before, d[i], j - i - 1, d[j], k - j - 1, d[k], after);
  }

  lemma SummationIs(s: Sum, vs: seq<Symbol>)
    ensures Summation()(s, vs) == Checksum(s, vs)
  {
  }

  lemma BodyTriple(hrp: seq<nat>, a: string, b: string, i: nat, j: nat, k: nat)
    requires OverAlphabet(a) && OverAlphabet(b) && |a| == |b| && a != b && i < j < k < |a| && k - i <= 37
    requires forall l :: 0 <= l < |a| && l != i && l != j && l != k ==> a[l] == b[l]
    ensures Checksum(ONE, Symbols(hrp + Values(a))) != Checksum(ONE, Symbols(hrp + Values(b)))
  {
    PrefixFirst(hrp, a);
    PrefixFirst(hrp, b);
    BodyAlike(a, b, i, j, k);
    TripleChangesChecksum(Checksum(ONE, Symbols(hrp)), Symbols(Values(a)), Symbols(Values(b)), i, j, k);
  }

  lemma BodyAlike(a: string, b: string, i: nat, j: nat, k: nat)
    requires OverAlphabet(a) && OverAlphabet(b) && |a| == |b| && a != b
    requires forall l :: 0 <= l < |a| && l != i && l != j && l != k ==> a[l] == b[l]
    ensures var vs, ws := Symbols(Values(a)), Symbols(Values(b));
            vs != ws && forall l :: 0 <= l < |vs| && l != i && l != j && l != k ==> vs[l] == ws[l]
  {
    var p :| 0 <= p < |a| && a[p] != b[p];
    SymbolsAlike(a, b, p);
    forall l | 0 <= l < |a| && l != i && l != j && l != k
      ensures Symbols(Values(a))[l] == Symbols(Values(b))[l]
    {
      SymbolsAlike(a, b, l);
    }
  }

  lemma PlacesAreRejected(text: string, changed: string, network: Network, i: nat, j: nat, k: nat)
    requires IsAddress(text, network) && |changed| == |text| && changed != text
    requires 7 <= i < j < k < |text|
    requires forall l :: 0 <= l < |text| && l != i && l != j && l != k ==> changed[l] == text[l]
    ensures !IsAddress(changed, network)
  {
    if OverAlphabet(changed[7..]) {
      var a, b := text[7..], changed[7..];
      forall l | 0 <= l < |a| && l != i - 7 && l != j - 7 && l != k - 7 ensures a[l] == b[l] {
        assert changed[l + 7] == text[l + 7];
      }
      assert text == text[..7] + a && changed == changed[..7] + b && text[..7] == changed[..7];
      PrefixIsBytes(network);
      BodyTriple(Expanded(Prefix(network)), a, b, i - 7, j - 7, k - 7);
    }
  }

  /** The places at which two texts differ. */
  function Changes(text: string, changed: string): set<nat>
    requires |text| == |changed|
  {
    set i: nat | i < |text| && text[i] != changed[i]
  }

  /** Places from `lo` on, at most three, are among some three in order. */
  lemma {:induction false} InOrder(places: set<nat>, lo: nat, n: nat) returns (i: nat, j: nat, k: nat)
    requires |places| <= 3 && lo + 3 <= n && forall p :: p in places ==> lo <= p < n
    ensures lo <= i < j < k < n && places <= {i, j, k}
    decreases 3 - |places|
  {
    if |places| < 3 {
      var p :| p in {lo, lo + 1, lo + 2} && p !in places by {
        SomeIsFree(places, lo);
      }
      i, j, k := InOrder(places + {p}, lo, n);
    } else {
      var a, b, c := ThreeOf(places);
      i, j, k := Sorted(a, b, c);
    }
  }

  lemma ThreeOf(places: set<nat>) returns (a: nat, b: nat, c: nat)
    requires |places| == 3
    ensures a != b && a != c && b != c && places == {a, b, c}
  {
    a :| a in places;
    var two := places - {a};
    assert |two| == 2;
    b :| b in two;
    var one := two - {b};
    assert |one| == 1;
    c :| c in one;
    assert |one - {c}| == 0;
  }

  lemma SomeIsFree(places: set<nat>, lo: nat)
    requires |places| < 3
    ensures exists p :: p in {lo, lo + 1, lo + 2} && p !in places
  {
    if {lo, lo + 1, lo + 2} <= places {
      Fewer({lo, lo + 1, lo + 2}, places);
    }
  }

  lemma Sorted(a: nat, b: nat, c: nat) returns (i: nat, j: nat, k: nat)
    requires a != b && a != c && b != c
    ensures i < j < k && {i, j, k} == {a, b, c}
  {
    var low, high := if a < b then a else b, if a < b then b else a;
    i := if c < low then c else low;
    k := if c > high then c else high;
    j := if c < low then low else if c > high then high else c;
  }

  /** Changing one, two or three characters of an address's body, wherever they are, never gives an
      address. */
  lemma ThreeAreRejected(text: string, changed: string, network: Network)
    requires IsAddress(text, network) && |changed| == |text|
    requires 1 <= |Changes(text, changed)| <= 3
    requires forall p :: p in Changes(text, changed) ==> p >= 7
    ensures !IsAddress(changed, network)
  {
    var i, j, k := InOrder(Changes(text, changed), 7, |text|);
    var p :| p in Changes(text, changed);
    forall l: nat | l < |text| && l != i && l != j && l != k ensures changed[l] == text[l] {
      assert l !in Changes(text, changed);
    }
    PlacesAreRejected(text, changed, network, i, j, k);
  }
}
