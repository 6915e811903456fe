/** The checksum of a P-Chain address (`address_valid` in crates/erpc-chain-avax/src/registration.rs),
    as the Bech32 section of BIP 173 defines it. */
module Bech32 {
  import opened BinaryDigits
  import opened Wrappers

  type Symbol = b: Bits | |b| == 5 witness Zeros(5)
  /** The accumulator: six symbols, the oldest first. */
  type Sum = b: Bits | |b| == 30 witness Zeros(30)

  datatype Network = Mainnet | Fuji

  const ZERO: Sum := Zeros(30)
  const ONE: Sum := Zeros(29) + [true]
  const GENERATORS: seq<nat> := [0x3b6a_57b2, 0x2650_8e6d, 0x1ea1_19fa, 0x3d42_33dd, 0x2a14_62b3]

  function If(chosen: bool, g: nat): Sum {
    if chosen then Digits(g, 30) else ZERO
  }

  /** What falls out at the top chooses, lowest digit first, among the generators. */
  function Feedback(top: Bits, gs: seq<nat>): Sum
    requires |top| == |gs|
  {
    if gs == [] then ZERO else Plus(If(top[|top| - 1], gs[0]), Feedback(top[..|top| - 1], gs[1..]))
  }

  /** One symbol taken in: the sum moves up by one, and what falls out is fed back. */
  function Step(s: Sum, v: Symbol): Sum {
    Plus(s[5..] + v, Feedback(s[..5], GENERATORS))
  }

  function Checksum(s: Sum, vs: seq<Symbol>): Sum {
    if vs == [] then s else Step(Checksum(s, vs[..|vs| - 1]), vs[|vs| - 1])
  }

  // What the code does to its 32-bit number is one step.

  lemma PowersOfTwo()
    ensures Pow2(5) == 32 && Pow2(10) == 0x400 && Pow2(15) == 0x8000 && Pow2(20) == 0x10_0000
    ensures Pow2(25) == 0x200_0000 && Pow2(30) == 0x4000_0000
  {
    assert Pow2(10) == 1024;
    assert Pow2(15) == 32768;
    assert Pow2(20) == 0x10_0000;
    assert Pow2(25) == 0x200_0000;
  }

  /** The top five digits and the other twenty-five, as the code takes them. */
  lemma Parts(s: Sum)
    ensures Number(s) / 0x200_0000 == Number(s[..5]) && Number(s) % 0x200_0000 == Number(s[5..])
    ensures Number(s) < 0x4000_0000
  {
    PowersOfTwo();
    assert s == s[..5] + s[5..];
    NumberConcat(s[..5], s[5..]);
    NumberBelow(s[5..]);
    NumberBelow(s);
    QuotientAndRest(Number(s), 0x200_0000, Number(s[..5]), Number(s[5..]));
  }

  lemma ShiftedNumber(low: Bits)
    ensures Number(low + Zeros(5)) == Number(low) * 32
  {
    PowersOfTwo();
    NumberConcat(low, Zeros(5));
    NumberOfZeros(5);
  }

  lemma PaddedNumber(v: nat)
    requires v < 32
    ensures Number(Zeros(25) + Digits(v, 5)) == v
  {
    PowersOfTwo();
    NumberConcat(Zeros(25), Digits(v, 5));
    NumberOfZeros(25);
    NumberOfDigits(v, 5);
  }

  lemma PlusBehind(low: Bits, d: Bits)
    requires |low| == 25 && |d| == 5
    ensures Plus(low + Zeros(5), Zeros(25) + d) == low + d
  {
  }

  lemma MovedUp(low: Bits, v: nat)
    requires |low| == 25 && v < 32
    ensures Xor(Number(low) * 32, v) == Number(low + Digits(v, 5))
  {
    ShiftedNumber(low);
    PaddedNumber(v);
    XorOfNumbers(low + Zeros(5), Zeros(25) + Digits(v, 5));
    PlusBehind(low, Digits(v, 5));
  }

  /** What the code does to the 32-bit accumulator for one value. Below 2^30 it stays there. */
  method Take(chk: nat, v: nat, ghost s: Sum) returns (r: nat)
    requires chk == Number(s) && v < 32
    ensures r == Number(Step(s, Digits(v, 5))) && r < 0x4000_0000
  {
    var top := chk / 0x200_0000;
    r := Xor(chk % 0x200_0000 * 32, v);
    Parts(s);
    MovedUp(s[5..], v);
    ghost var up: Sum := s[5..] + Digits(v, 5);
    r := AddGenerators(r, top, GENERATORS, up, s[..5]);
    Parts(Step(s, Digits(v, 5)));
  }

  /** The generators from the `i`-th on, added to `sum`. */
  function WithRest(sum: Sum, digits: Bits, gs: seq<nat>, i: nat): Sum
    requires |digits| == |gs| && i <= |gs|
  {
    Plus(sum, Feedback(digits[..|gs| - i], gs[i..]))
  }

  method AddGenerators(chk: nat, top: nat, gs: seq<nat>, ghost up: Sum, ghost digits: Bits) returns (r: nat)
    requires chk == Number(up) && top == Number(digits) && |digits| == |gs|
    requires forall i :: 0 <= i < |gs| ==> gs[i] < 0x4000_0000
    ensures r == Number(Plus(up, Feedback(digits, gs)))
  {
    r := chk;
    var bits := top;
    ghost var sum: Sum := up;
    assert digits[..|gs|] == digits && gs[0..] == gs;
    for i := 0 to |gs|
      invariant bits == Number(digits[..|gs| - i]) && r == Number(sum)
      invariant WithRest(sum, digits, gs, i) == WithRest(up, digits, gs, 0)
    {
      AddOne(sum, digits, gs, i);
      LastDigit(digits, |gs| - i);
      if bits % 2 != 0 {
        r := AddGenerator(r, gs[i], sum);
      }
      sum := Plus(sum, If(digits[|gs| - i - 1], gs[i]));
      bits := bits / 2;
    }
    PlusZero(sum);
  }

  method AddGenerator(chk: nat, g: nat, ghost sum: Sum) returns (r: nat)
    requires chk == Number(sum) && g < 0x4000_0000
    ensures r == Number(Plus(sum, Digits(g, 30)))
  {
    r := Xor(chk, g);
    PowersOfTwo();
    NumberOfDigits(g, 30);
    XorOfNumbers(sum, Digits(g, 30));
  }

  lemma PlusZero(a: Sum)
    ensures Plus(a, ZERO) == a && Plus(ZERO, a) == a
  {
  }

  lemma PlusAssoc(a: Sum, b: Sum, c: Sum)
    ensures Plus(Plus(a, b), c) == Plus(a, Plus(b, c))
  {
  }

  lemma AddOne(sum: Sum, digits: Bits, gs: seq<nat>, i: nat)
    requires |digits| == |gs| && i < |gs|
    ensures WithRest(Plus(sum, If(digits[|gs| - i - 1], gs[i])), digits, gs, i + 1) == WithRest(sum, digits, gs, i)
    ensures !digits[|gs| - i - 1] ==> Plus(sum, If(digits[|gs| - i - 1], gs[i])) == sum
  {
    var left, last := digits[..|gs| - i], If(digits[|gs| - i - 1], gs[i]);
    assert left[..|left| - 1] == digits[..|gs| - i - 1] && gs[i..][1..] == gs[i + 1..];
    assert Feedback(left, gs[i..]) == Plus(last, Feedback(digits[..|gs| - i - 1], gs[i + 1..]));
    PlusAssoc(sum, last, Feedback(digits[..|gs| - i - 1], gs[i + 1..]));
    PlusZero(sum);
  }

  lemma LastDigit(digits: Bits, n: nat)
    requires 0 < n <= |digits|
    ensures Number(digits[..n]) % 2 == (if digits[n - 1] then 1 else 0)
    ensures Number(digits[..n]) / 2 == Number(digits[..n - 1])
  {
    NumberSplit(digits[..n]);
    assert digits[..n][..n - 1] == digits[..n - 1];
  }

  // Each step is linear.

  lemma PlusSwap(a: Bits, b: Bits, c: Bits, d: Bits)
    requires |a| == |b| == |c| == |d|
    ensures Plus(Plus(a, b), Plus(c, d)) == Plus(Plus(a, c), Plus(b, d))
  {
  }

  lemma IfLinear(x: bool, y: bool, g: nat)
    ensures If(x != y, g) == Plus(If(x, g), If(y, g))
  {
  }

  lemma {:induction false} FeedbackLinear(x: Bits, y: Bits, gs: seq<nat>)
    requires |x| == |y| == |gs|
    ensures Feedback(Plus(x, y), gs) == Plus(Feedback(x, gs), Feedback(y, gs))
    decreases |gs|
  {
    if gs == [] {
      PlusZero(ZERO);
    } else {
      var n := |x| - 1;
      FeedbackLinear(x[..n], y[..n], gs[1..]);
      assert Plus(x, y)[..n] == Plus(x[..n], y[..n]);
      IfLinear(x[n], y[n], gs[0]);
      PlusSwap(If(x[n], gs[0]), If(y[n], gs[0]), Feedback(x[..n], gs[1..]), Feedback(y[..n], gs[1..]));
    }
  }

  lemma StepLinear(a: Sum, v: Symbol, b: Sum, w: Symbol)
    ensures Step(Plus(a, b), Plus(v, w)) == Plus(Step(a, v), Step(b, w))
  {
    FeedbackLinear(a[..5], b[..5], GENERATORS);
    assert Plus(a, b)[..5] == Plus(a[..5], b[..5]);
    assert Plus(a, b)[5..] + Plus(v, w) == Plus(a[5..] + v, b[5..] + w);
    PlusSwap(a[5..] + v, b[5..] + w, Feedback(a[..5], GENERATORS), Feedback(b[..5], GENERATORS));
  }

  lemma {:induction false} FeedbackOfZeros(n: nat, gs: seq<nat>)
    requires n == |gs|
    ensures Feedback(Zeros(n), gs) == ZERO
    decreases n
  {
    if n == 0 {
    } else {
      assert Zeros(n)[..n - 1] == Zeros(n - 1);
      FeedbackOfZeros(n - 1, gs[1..]);
      PlusZero(ZERO);
    }
  }

  /** As long as nothing falls out, a symbol is just put at the end. */
  lemma StepWithRoom(s: Sum, v: Symbol)
    requires s[..5] == Zeros(5)
    ensures Step(s, v) == s[5..] + v
  {
    FeedbackOfZeros(5, GENERATORS);
    PlusZero(s[5..] + v);
  }

  lemma StepOfZero()
    ensures Step(ZERO, Zeros(5)) == ZERO
  {
    assert ZERO[..5] == Zeros(5) && ZERO[5..] + Zeros(5) == ZERO;
    StepWithRoom(ZERO, Zeros(5));
  }

  lemma PlusSame(a: Bits, b: Bits)
    requires |a| == |b|
    ensures Plus(a, b) == Zeros(|a|) <==> a == b
  {
    if Plus(a, b) == Zeros(|a|) {
      forall i | 0 <= i < |a| ensures a[i] == b[i] {
        assert !Plus(a, b)[i];
      }
    }
  }

  // The whole checksum.

  function PlusAll(vs: seq<Symbol>, ws: seq<Symbol>): (r: seq<Symbol>)
    requires |vs| == |ws|
    ensures |r| == |vs|
  {
    seq(|vs|, i requires 0 <= i < |vs| => Plus(vs[i], ws[i]))
  }

  lemma {:induction false} ChecksumLinear(a: Sum, vs: seq<Symbol>, b: Sum, ws: seq<Symbol>)
    requires |vs| == |ws|
    ensures Checksum(Plus(a, b), PlusAll(vs, ws)) == Plus(Checksum(a, vs), Checksum(b, ws))
  {
    if vs == [] {
    } else {
      var n := |vs| - 1;
      ChecksumLinear(a, vs[..n], b, ws[..n]);
      assert PlusAll(vs, ws)[..n] == PlusAll(vs[..n], ws[..n]);
      StepLinear(Checksum(a, vs[..n]), vs[n], Checksum(b, ws[..n]), ws[n]);
    }
  }

  lemma {:induction false} ChecksumConcat(s: Sum, vs: seq<Symbol>, ws: seq<Symbol>)
    ensures Checksum(s, vs + ws) == Checksum(Checksum(s, vs), ws)
  {
    if ws == [] {
      assert vs + ws == vs;
    } else {
      ChecksumConcat(s, vs, ws[..|ws| - 1]);
      FrontAndLast(vs, ws);
      ChecksumLast(s, vs + ws);
      ChecksumLast(Checksum(s, vs), ws);
    }
  }

  lemma FrontAndLast(vs: seq<Symbol>, ws: seq<Symbol>)
    requires ws != []
    ensures (vs + ws)[..|vs + ws| - 1] == vs + ws[..|ws| - 1] && (vs + ws)[|vs + ws| - 1] == ws[|ws| - 1]
  {
  }

  lemma ChecksumLast(s: Sum, vs: seq<Symbol>)
    requires vs != []
    ensures Checksum(s, vs) == Step(Checksum(s, vs[..|vs| - 1]), vs[|vs| - 1])
  {
  }

  predicate AllZero(vs: seq<Symbol>) {
    forall i :: 0 <= i < |vs| ==> vs[i] == Zeros(5)
  }

  lemma DifferenceOfSums(s: Sum, vs: seq<Symbol>, ws: seq<Symbol>)
    requires |vs| == |ws| && Checksum(ZERO, PlusAll(vs, ws)) != ZERO
    ensures Checksum(s, vs) != Checksum(s, ws)
  {
    ChecksumLinear(s, vs, s, ws);
    PlusSame(s, s);
    PlusSame(Checksum(s, vs), Checksum(s, ws));
  }

  // The address.

  const ALPHABET: string := "qpzry9x8" + "gf2tvdw0" + "s3jn54kh" + "ce6mua7l"
  const BODY: nat := 38

  function Prefix(network: Network): string {
    match network
    case Mainnet => "avax"
    case Fuji => "fuji"
  }

  predicate IsBytes(text: string) {
    forall i :: 0 <= i < |text| ==> text[i] < 256 as char
  }

  /** The prefix as the checksum takes it in: the high bits of its characters, a zero, and their low
      bits. */
  function Expanded(hrp: string): (vs: seq<nat>)
    requires IsBytes(hrp)
    ensures forall i :: 0 <= i < |vs| ==> vs[i] < 32
  {
    seq(|hrp|, i requires 0 <= i < |hrp| => hrp[i] as nat / 32) + [0]
    + seq(|hrp|, i requires 0 <= i < |hrp| => hrp[i] as nat % 32)
  }

  /** The first place of `c` in `text`. */
  function IndexOf(c: char, text: string): (v: Option<nat>)
    ensures v.Some? ==> v.value < |text| && text[v.value] == c
    ensures v.None? ==> c !in text
  {
    if text == "" then None
    else if text[0] == c then Some(0)
    else match IndexOf(c, text[1..]) case Some(i) => Some(i + 1) case None => None
  }

  function ValueOf(c: char): (v: Option<nat>)
    ensures v.Some? ==> v.value < 32 && ALPHABET[v.value] == c
  {
    IndexOf(c, ALPHABET)
  }

  predicate OverAlphabet(body: string) {
    forall i :: 0 <= i < |body| ==> ValueOf(body[i]).Some?
  }

  function Values(body: string): (vs: seq<nat>)
    requires OverAlphabet(body)
    ensures |vs| == |body| && forall i :: 0 <= i < |vs| ==> vs[i] < 32
  {
    seq(|body|, i requires 0 <= i < |body| => ValueOf(body[i]).value)
  }

  function Symbols(vs: seq<nat>): (r: seq<Symbol>)
    ensures |r| == |vs|
  {
    seq(|vs|, i requires 0 <= i < |vs| => Digits(vs[i], 5))
  }

  lemma PrefixIsBytes(network: Network)
    ensures IsBytes(Prefix(network))
  {
  }

  predicate HasShape(text: string, network: Network) {
    |text| == 7 + BODY && text[..2] == "P-" && text[2..6] == Prefix(network) && text[6] == '1'
  }

  predicate SumsToOne(body: string, network: Network)
    requires OverAlphabet(body)
  {
    PrefixIsBytes(network);
    Checksum(ONE, Symbols(Expanded(Prefix(network)) + Values(body))) == ONE
  }

  predicate IsAddress(text: string, network: Network) {
    HasShape(text, network) && OverAlphabet(text[7..]) && SumsToOne(text[7..], network)
  }

  /** The accumulator after all the values. */
  method Polymod(vs: seq<nat>) returns (chk: nat)
    requires forall i :: 0 <= i < |vs| ==> vs[i] < 32
    ensures chk == Number(Checksum(ONE, Symbols(vs))) && chk < 0x4000_0000
  {
    chk := 1;
    NumberOfZeros(29);
    NumberAppend(Zeros(29), true);
    for i := 0 to |vs|
      invariant chk == Number(Checksum(ONE, Symbols(vs[..i]))) && chk < 0x4000_0000
    {
      assert Symbols(vs[..i + 1])[..i] == Symbols(vs[..i]);
      chk := Take(chk, vs[i], Checksum(ONE, Symbols(vs[..i])));
    }
    assert vs[..|vs|] == vs;
  }

  method ReadValues(body: string) returns (values: Option<seq<nat>>)
    ensures values.Some? <==> OverAlphabet(body)
    ensures values.Some? ==> values.value == Values(body)
  {
    var vs: seq<nat> := [];
    for i := 0 to |body|
      invariant OverAlphabet(body[..i]) && vs == Values(body[..i])
    {
      var v := ValueOf(body[i]);
      if v.None? {
        return None;
      }
      vs := vs + [v.value];
      assert body[..i + 1] == body[..i] + [body[i]];
    }
    assert body[..|body|] == body;
    return Some(vs);
  }

  /** `value.rsplit_once('1')`: what stands before and after the last separator. */
  method SplitAtLast(value: string) returns (parts: Option<(string, string)>)
    ensures parts.None? <==> '1' !in value
    ensures parts.Some? ==> value == parts.value.0 + ['1'] + parts.value.1 && '1' !in parts.value.1
  {
    var at: nat := |value|;
    while at > 0 && value[at - 1] != '1'
      invariant at <= |value| && '1' !in value[at..]
    {
      at := at - 1;
    }
    if at == 0 {
      assert value[0..] == value;
      return None;
    }
    return Some((value[..at - 1], value[at..]));
  }

  lemma EarlierSeparator(a: string, b: string, c: string, d: string)
    requires a + ['1'] + b == c + ['1'] + d && |a| < |c|
    ensures '1' in b
  {
    var whole := a + ['1'] + b;
    assert whole[|c|] == b[|c| - |a| - 1];
  }

  lemma OneWayToSplit(a: string, b: string, c: string, d: string)
    requires a + ['1'] + b == c + ['1'] + d && '1' !in b && '1' !in d
    ensures a == c && b == d
  {
    if |a| < |c| {
      EarlierSeparator(a, b, c, d);
    } else if |c| < |a| {
      EarlierSeparator(c, d, a, b);
    }
    var whole := a + ['1'] + b;
    assert a == whole[..|a|] && c == whole[..|c|];
    assert b == whole[|a| + 1..] && d == whole[|c| + 1..];
  }

  lemma SeparatorIsNoLetter()
    ensures '1' !in ALPHABET
  {
    assert '1' !in "qpzry9x8" && '1' !in "gf2tvdw0";
    assert '1' !in "s3jn54kh" && '1' !in "ce6mua7l";
  }

  lemma NoSeparator(body: string)
    requires OverAlphabet(body)
    ensures '1' !in body
  {
    SeparatorIsNoLetter();
    forall i | 0 <= i < |body| ensures body[i] != '1' {
      var v := ValueOf(body[i]).value;
      assert ALPHABET[v] in ALPHABET;
    }
  }

  /** An address, read the way the code reads it. */
  lemma AddressParts(text: string, network: Network, hrp: string, body: string)
    requires "P-" <= text && text[2..] == hrp + ['1'] + body && '1' !in body
    ensures IsAddress(text, network) ==> hrp == Prefix(network) && text[7..] == body
  {
    if IsAddress(text, network) {
      assert text[2..] == text[2..6] + [text[6]] + text[7..];
      NoSeparator(text[7..]);
      OneWayToSplit(hrp, body, text[2..6], text[7..]);
    }
  }

  lemma PartsMakeShape(text: string, network: Network, hrp: string, body: string)
    requires "P-" <= text && text[2..] == hrp + ['1'] + body
    requires hrp == Prefix(network) && |body| == BODY
    ensures HasShape(text, network) && text[7..] == body
  {
    var rest := text[2..];
    assert text[2..6] == rest[..4] == hrp && text[6] == rest[4] && text[7..] == rest[5..] == body;
  }

  /** `address_valid`. */
  method AddressValid(text: string, network: Network) returns (valid: bool)
    ensures valid <==> IsAddress(text, network)
  {
    if !("P-" <= text) {
      return false;
    }
    var parts := SplitAtLast(text[2..]);
    if parts.None? {
      if IsAddress(text, network) {
        AddressHasSeparator(text, network);
      }
      return false;
    }
    var hrp, body := parts.value.0, parts.value.1;
    AddressParts(text, network, hrp, body);
    if hrp != Prefix(network) || |body| != BODY {
      return false;
    }
    PartsMakeShape(text, network, hrp, body);
    var values := ReadValues(body);
    if values.None? {
      return false;
    }
    PrefixIsBytes(network);
    var chk := Polymod(Expanded(hrp) + values.value);
    OneIsOne(Checksum(ONE, Symbols(Expanded(hrp) + values.value)));
    return chk == 1;
  }

  lemma OneIsOne(s: Sum)
    ensures Number(s) == 1 <==> s == ONE
  {
    NumberOfZeros(29);
    NumberAppend(Zeros(29), true);
    if Number(s) == 1 {
      NumberInjective(s, ONE);
    }
  }

  lemma AddressHasSeparator(text: string, network: Network)
    requires IsAddress(text, network)
    ensures '1' in text[2..]
  {
    assert text[2..][4] == text[6];
  }

  lemma SymbolsDistinct(v: nat, w: nat)
    requires v < 32 && w < 32 && Digits(v, 5) == Digits(w, 5)
    ensures v == w
  {
    PowersOfTwo();
    NumberOfDigits(v, 5);
    NumberOfDigits(w, 5);
  }

  /** The symbols of two bodies differ just where the bodies do. */
  lemma SymbolsDiffer(hrp: seq<nat>, a: string, b: string, i: nat)
    requires OverAlphabet(a) && OverAlphabet(b) && |a| == |b| && i < |hrp| + |a|
    ensures Symbols(hrp + Values(a))[i] == Symbols(hrp + Values(b))[i] <==> i < |hrp| || a[i - |hrp|] == b[i - |hrp|]
  {
    if i >= |hrp| {
      var j := i - |hrp|;
      var v, w := ValueOf(a[j]).value, ValueOf(b[j]).value;
      assert (hrp + Values(a))[i] == v && (hrp + Values(b))[i] == w;
      if Digits(v, 5) == Digits(w, 5) {
        SymbolsDistinct(v, w);
      }
    }
  }
}
