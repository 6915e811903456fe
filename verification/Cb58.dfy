/** Reading a NodeID: CB58 digits turned into bytes by multiplying and carrying in place
    (`node_id_valid` in crates/erpc-chain-avax/src/registration.rs). */
module Cb58 {
  import opened Wrappers
  import opened Positional

  const PREFIX := "NodeID-"

  /** The place of a character in the alphabet: the digits, the upper-case and the lower-case
      letters in order, without 0, I, O and l. */
  function DigitOf(c: char): (d: Option<nat>)
    ensures d.Some? ==> d.value < 58 && CharOf(d.value) == c
  {
    if '1' <= c <= '9' then Some(c as nat - '1' as nat)
    else if 'A' <= c <= 'H' then Some(9 + (c as nat - 'A' as nat))
    else if 'J' <= c <= 'N' then Some(17 + (c as nat - 'J' as nat))
    else if 'P' <= c <= 'Z' then Some(22 + (c as nat - 'P' as nat))
    else if 'a' <= c <= 'k' then Some(33 + (c as nat - 'a' as nat))
    else if 'm' <= c <= 'z' then Some(44 + (c as nat - 'm' as nat))
    else None
  }

  function CharOf(d: nat): char
    requires d < 58
  {
    if d < 9 then ('1' as nat + d) as char
    else if d < 17 then ('A' as nat + (d - 9)) as char
    else if d < 22 then ('J' as nat + (d - 17)) as char
    else if d < 33 then ('P' as nat + (d - 22)) as char
    else if d < 44 then ('a' as nat + (d - 33)) as char
    else ('m' as nat + (d - 44)) as char
  }

  predicate OverAlphabet(text: string) {
    forall i :: 0 <= i < |text| ==> DigitOf(text[i]).Some?
  }

  function Read(text: string): (ds: seq<nat>)
    requires OverAlphabet(text)
    ensures InBase(58, ds) && |ds| == |text|
  {
    seq(|text|, i requires 0 <= i < |text| => DigitOf(text[i]).value)
  }

  /** `n` zeros come first, and no more. */
  predicate BeginsWithZeros(ds: seq<nat>, n: nat) {
    n <= |ds| && (forall i :: 0 <= i < n ==> ds[i] == 0) && (n < |ds| ==> ds[n] != 0)
  }

  function LeadingZeros(ds: seq<nat>): (n: nat)
    ensures BeginsWithZeros(ds, n)
  {
    if ds == [] || ds[0] != 0 then 0 else 1 + LeadingZeros(ds[1..])
  }

  lemma ZerosUnique(ds: seq<nat>, m: nat, n: nat)
    requires BeginsWithZeros(ds, m) && BeginsWithZeros(ds, n)
    ensures m == n
  {
  }

  /** What a text stands for: a zero byte for each leading '1', then the number that its digits are,
      in its shortest form. */
  predicate Decodes(text: string, bytes: seq<nat>) {
    && OverAlphabet(text)
    && InBase(256, bytes)
    && var zeros := LeadingZeros(Read(text));
    && zeros < |bytes|
    && bytes[..zeros] == Zeros(zeros)
    && Minimal(bytes[zeros..])
    && Value(256, bytes[zeros..]) == Value(58, Read(text))
  }

  lemma ReadInjective(a: string, b: string)
    requires OverAlphabet(a) && OverAlphabet(b) && Read(a) == Read(b)
    ensures a == b
  {
    forall i | 0 <= i < |a| ensures a[i] == b[i] {
      assert Read(a)[i] == Read(b)[i];
    }
  }

  /** The number zero is one zero. */
  lemma ZeroIsOneByte(rest: seq<nat>)
    requires InBase(256, rest) && Minimal(rest) && Value(256, rest) == 0
    ensures rest == [0]
  {
    if rest[0] != 0 {
      MinimalBound(256, rest);
      PowPositive(256, |rest| - 1);
    }
  }

  /** Nor does any other begin with zero. */
  lemma NumberIsNotZero(low: seq<nat>, rest: seq<nat>)
    requires InBase(58, low) && low != [] && low[0] != 0
    requires Minimal(rest) && Value(256, rest) == Value(58, low)
    ensures rest[0] != 0
  {
    MinimalBound(58, low);
    PowPositive(58, |low| - 1);
    ZeroByteValue();
  }

  lemma ZeroByteValue()
    ensures Value(256, [0]) == 0
  {
    assert [0] == [] + [0];
    ValueAppend(256, [], 0);
  }

  lemma ZerosAndRest(ds: seq<nat>, n: nat)
    requires BeginsWithZeros(ds, n)
    ensures ds == Zeros(n) + ds[n..]
  {
  }

  lemma DigitsBehindZeros(ds: seq<nat>, n: nat)
    requires BeginsWithZeros(ds, n)
    ensures Value(58, ds) == Value(58, ds[n..])
  {
    ZerosAndRest(ds, n);
    ValueZeros(58, n, ds[n..]);
  }

  lemma ZerosThenZero(bytes: seq<nat>, n: nat)
    requires n <= |bytes| && bytes[..n] == Zeros(n) && bytes[n..] == [0]
    ensures bytes == Zeros(n + 1)
  {
    assert bytes == bytes[..n] + bytes[n..];
  }

  lemma ZeroValueOf(ds: seq<nat>, n: nat, bytes: seq<nat>)
    requires InBase(58, ds) && InBase(256, bytes) && BeginsWithZeros(ds, n) && n < |bytes| && bytes[..n] == Zeros(n)
    requires Minimal(bytes[n..]) && Value(256, bytes[n..]) == Value(58, ds)
    ensures if n == |ds| then bytes == Zeros(n + 1) else bytes[n] != 0
  {
    DigitsBehindZeros(ds, n);
    if n == |ds| {
      ZeroIsOneByte(bytes[n..]);
      ZerosThenZero(bytes, n);
    } else {
      NumberIsNotZero(ds[n..], bytes[n..]);
    }
  }

  /** A text stands for zero exactly when it is all '1's, and then its bytes are all zero. */
  lemma ZeroValue(text: string, bytes: seq<nat>)
    requires Decodes(text, bytes)
    ensures var ds := Read(text);
            if LeadingZeros(ds) == |ds| then bytes == Zeros(|ds| + 1)
            else bytes[LeadingZeros(ds)] != 0
  {
    ZeroValueOf(Read(text), LeadingZeros(Read(text)), bytes);
  }

  lemma ZerosInFront(bytes: seq<nat>, n: nat)
    requires n < |bytes| && bytes[..n] == Zeros(n) && bytes[n] != 0
    ensures BeginsWithZeros(bytes, n)
  {
    forall i | 0 <= i < n ensures bytes[i] == 0 {
      assert bytes[i] == bytes[..n][i];
    }
  }

  lemma SameDigits(x: seq<nat>, y: seq<nat>, n: nat)
    requires InBase(58, x) && InBase(58, y) && BeginsWithZeros(x, n) && BeginsWithZeros(y, n)
    requires n < |x| && n < |y| && Value(58, x) == Value(58, y)
    ensures x == y
  {
    assert x == Zeros(n) + x[n..] && y == Zeros(n) + y[n..];
    ValueZeros(58, n, x[n..]);
    ValueZeros(58, n, y[n..]);
    LeadingUnique(58, x[n..], y[n..]);
  }

  /** No two texts stand for the same bytes. */
  lemma DecodesInjective(a: string, b: string, bytes: seq<nat>)
    requires Decodes(a, bytes) && Decodes(b, bytes)
    ensures a == b
  {
    var x, y := Read(a), Read(b);
    var m, n := LeadingZeros(x), LeadingZeros(y);
    ZeroValue(a, bytes);
    ZeroValue(b, bytes);
    if m == |x| {
      assert n == |y|;
      assert x == Zeros(m) == y;
    } else {
      assert n < |y|;
      ZerosInFront(bytes, m);
      ZerosInFront(bytes, n);
      ZerosUnique(bytes, m, n);
      SameDigits(x, y, m);
    }
    ReadInjective(a, b);
  }

  /** Nor does one text stand for two. */
  lemma DecodesFunctional(text: string, a: seq<nat>, b: seq<nat>)
    requires Decodes(text, a) && Decodes(text, b)
    ensures a == b
  {
    var zeros := LeadingZeros(Read(text));
    ZeroValue(text, a);
    ZeroValue(text, b);
    if zeros < |Read(text)| {
      LeadingUnique(256, a[zeros..], b[zeros..]);
      assert a == a[..zeros] + a[zeros..] && b == b[..zeros] + b[zeros..];
    }
  }

  // The way back.

  function Write(ds: seq<nat>): (text: string)
    requires InBase(58, ds)
  {
    seq(|ds|, i requires 0 <= i < |ds| => CharOf(ds[i]))
  }

  /** The text for some bytes: a '1' for each leading zero -- but one fewer when there is nothing
      else -- then the number in base 58. */
  function Encode(bytes: seq<nat>): (text: string)
    requires InBase(256, bytes) && bytes != []
  {
    var zeros := LeadingZeros(bytes);
    if zeros == |bytes| then Write(Zeros(zeros - 1))
    else
      DigitsAreShortest(58, Value(256, bytes[zeros..]));
      Write(Zeros(zeros) + Digits(58, Value(256, bytes[zeros..])))
  }

  lemma ReadWrite(ds: seq<nat>)
    requires InBase(58, ds)
    ensures OverAlphabet(Write(ds)) && Read(Write(ds)) == ds
  {
    forall i | 0 <= i < |ds| ensures DigitOf(Write(ds)[i]) == Some(ds[i]) {
      assert ds[i] < 58;
    }
  }

  lemma {:induction false} LeadingZerosOf(n: nat, ds: seq<nat>)
    requires ds != [] ==> ds[0] != 0
    ensures LeadingZeros(Zeros(n) + ds) == n
  {
    ZerosUnique(Zeros(n) + ds, n, LeadingZeros(Zeros(n) + ds));
  }

  lemma InBaseConcat(base: nat, a: seq<nat>, b: seq<nat>)
    requires InBase(base, a) && InBase(base, b)
    ensures InBase(base, a + b)
  {
  }

  lemma ReadOf(n: nat, low: seq<nat>)
    requires InBase(58, Zeros(n) + low) && (low != [] ==> low[0] != 0)
    ensures var text := Write(Zeros(n) + low);
            OverAlphabet(text) && LeadingZeros(Read(text)) == n && Value(58, Read(text)) == Value(58, low)
  {
    ReadWrite(Zeros(n) + low);
    LeadingZerosOf(n, low);
    ValueZeros(58, n, low);
  }

  /** The same number, behind as many zeros. */
  lemma WrittenDecodes(n: nat, low: seq<nat>, rest: seq<nat>)
    requires InBase(58, Zeros(n) + low) && (low != [] ==> low[0] != 0)
    requires InBase(256, rest) && Minimal(rest) && Value(256, rest) == Value(58, low)
    ensures Decodes(Write(Zeros(n) + low), Zeros(n) + rest)
  {
    ReadOf(n, low);
    ConcatParts(Zeros(n), rest);
    InBaseConcat(256, Zeros(n), rest);
  }

  lemma ZerosDecode(n: nat)
    ensures Decodes(Write(Zeros(n)), Zeros(n) + [0])
  {
    assert Zeros(n) + [] == Zeros(n);
    ZeroByteValue();
    WrittenDecodes(n, [], [0]);
  }

  lemma PositiveDigits(rest: seq<nat>) returns (low: seq<nat>)
    requires InBase(256, rest) && rest != [] && rest[0] != 0
    ensures low == Digits(58, Value(256, rest))
    ensures InBase(58, low) && low != [] && low[0] != 0 && Value(58, low) == Value(256, rest)
  {
    MinimalBound(256, rest);
    PowPositive(256, |rest| - 1);
    DigitsAreShortest(58, Value(256, rest));
    low := Digits(58, Value(256, rest));
  }

  lemma NumberDecodes(n: nat, low: seq<nat>, rest: seq<nat>)
    requires InBase(58, low) && low != [] && low[0] != 0
    requires InBase(256, rest) && rest != [] && rest[0] != 0 && Value(58, low) == Value(256, rest)
    ensures InBase(58, Zeros(n) + low) && Decodes(Write(Zeros(n) + low), Zeros(n) + rest)
  {
    InBaseConcat(58, Zeros(n), low);
    WrittenDecodes(n, low, rest);
  }

  lemma OneZeroLess(bytes: seq<nat>)
    requires bytes != [] && BeginsWithZeros(bytes, |bytes|)
    ensures bytes == Zeros(|bytes| - 1) + [0]
  {
  }

  /** Every nonempty string of bytes has a text, which stands for it. */
  lemma EncodeDecodes(bytes: seq<nat>)
    requires InBase(256, bytes) && bytes != []
    ensures Decodes(Encode(bytes), bytes)
  {
    var n := LeadingZeros(bytes);
    if n == |bytes| {
      OneZeroLess(bytes);
      ZerosDecode(n - 1);
    } else {
      ZerosAndRest(bytes, n);
      var low := PositiveDigits(bytes[n..]);
      NumberDecodes(n, low, bytes[n..]);
    }
  }

  /** Encoding and decoding undo each other: texts over the alphabet and nonempty strings of bytes
      correspond one to one. */
  lemma EncodeUndoesDecode(text: string, bytes: seq<nat>)
    requires Decodes(text, bytes)
    ensures Encode(bytes) == text
  {
    EncodeDecodes(bytes);
    DecodesInjective(Encode(bytes), text, bytes);
  }

  // The loops.

  /** The product so far: the bytes from `i` on are done, with `carry` still to add before them. */
  predicate Multiplied(r: seq<nat>, carry: nat, bytes: seq<nat>, digit: nat, i: nat) {
    && i <= |r| == |bytes|
    && InBase(256, r) && InBase(256, bytes)
    && r[..i] == bytes[..i]
    && carry <= 57
    && Value(256, r[i..]) + carry * Pow(256, |r| - i) == Value(256, bytes[i..]) * 58 + digit
  }

  lemma MultiplyStep(r: seq<nat>, carry: nat, bytes: seq<nat>, digit: nat, i: nat)
    requires i < |r| && Multiplied(r, carry, bytes, digit, i + 1)
    ensures var sum := carry + r[i] * 58; Multiplied(r[i := sum % 256], sum / 256, bytes, digit, i)
  {
    var sum, tail, rest := carry + r[i] * 58, r[i + 1..], bytes[i + 1..];
    var r' := r[i := sum % 256];
    assert r[i] == r[..i + 1][i] == bytes[..i + 1][i] == bytes[i] < 256;
    assert r'[..i] == r[..i + 1][..i] == bytes[..i + 1][..i] == bytes[..i];
    assert r'[i..] == [sum % 256] + tail && bytes[i..] == [bytes[i]] + rest;
    ValuePrepend(256, sum % 256, tail);
    ValuePrepend(256, bytes[i], rest);
    CarryStep(carry, bytes[i], sum % 256, sum / 256, Pow(256, |tail|), Value(256, tail), Value(256, rest), digit);
  }

  /** Multiplies a number by 58 and adds a digit, in place from the last byte to the first. The
      carry never exceeds 57. */
  method Multiply(bytes: seq<nat>, digit: nat) returns (r: seq<nat>, carry: nat)
    requires InBase(256, bytes) && digit < 58
    ensures Multiplied(r, carry, bytes, digit, 0)
  {
    r, carry := bytes, digit;
    var i: nat := |r|;
    assert bytes[|r|..] == [];
    while i > 0
      invariant Multiplied(r, carry, bytes, digit, i)
    {
      i := i - 1;
      MultiplyStep(r, carry, bytes, digit, i);
      carry := carry + r[i] * 58;
      r, carry := r[i := carry % 256], carry / 256;
    }
  }

  /** One character read: the shortest form of a number becomes that of 58 times it and the digit,
      with at most one byte put in front. */
  method MultiplyAdd(bytes: seq<nat>, digit: nat) returns (r: seq<nat>)
    requires InBase(256, bytes) && Minimal(bytes) && digit < 58
    ensures InBase(256, r) && Minimal(r)
    ensures Value(256, r) == Value(256, bytes) * 58 + digit
    ensures |bytes| <= |r| <= |bytes| + 1
  {
    var carry;
    r, carry := Multiply(bytes, digit);
    assert r[0..] == r && bytes[0..] == bytes;
    ghost var product, over := r, carry;
    if carry == 0 {
      assert carry * Pow(256, |r|) == 0;
      StillMinimal(bytes, r, digit);
    }
    while carry > 0
      invariant InBase(256, r) && carry <= 57
      invariant if carry > 0 then r == product && carry == over
                else Minimal(r) && |product| <= |r| <= |product| + 1 && Value(256, r) == Value(256, bytes) * 58 + digit
    {
      assert carry % 256 == carry && carry / 256 == 0;
      ValuePrepend(256, carry, r);
      r, carry := [carry % 256] + r, carry / 256;
    }
  }

  lemma CarryStep(before: nat, byte: nat, low: nat, carry: nat, p: nat, tail: nat, rest: nat, digit: nat)
    requires before + byte * 58 == carry * 256 + low
    requires tail + before * p == rest * 58 + digit
    ensures low * p + tail + carry * (p * 256) == (byte * p + rest) * 58 + digit
  {
    calc {
      low * p + tail + carry * (p * 256);
      (carry * 256 + low) * p + tail;
      (before + byte * 58) * p + tail;
      before * p + byte * 58 * p + tail;
    }
  }

  lemma StillMinimal(bytes: seq<nat>, r: seq<nat>, digit: nat)
    requires InBase(256, bytes) && InBase(256, r) && Minimal(bytes) && |r| == |bytes|
    requires Value(256, r) == Value(256, bytes) * 58 + digit
    ensures Minimal(r)
  {
    if |r| > 1 && r[0] == 0 {
      MinimalBound(256, bytes);
      assert r == [0] + r[1..];
      ValuePrepend(256, 0, r[1..]);
      ValueBound(256, r[1..]);
    }
  }

  /** The number that a text is, in its shortest form; none when a character is not in the
      alphabet. */
  method ReadNumber(text: string) returns (number: Option<seq<nat>>)
    ensures number.Some? <==> OverAlphabet(text)
    ensures number.Some? ==>
      InBase(256, number.value) && Minimal(number.value) && Value(256, number.value) == Value(58, Read(text))
  {
    var bytes: seq<nat> := [0];
    ZeroByteValue();
    for i := 0 to |text|
      invariant OverAlphabet(text[..i])
      invariant InBase(256, bytes) && Minimal(bytes)
      invariant Value(256, bytes) == Value(58, Read(text[..i]))
    {
      var digit := DigitOf(text[i]);
      if digit.None? {
        return None;
      }
      bytes := MultiplyAdd(bytes, digit.value);
      ReadMore(text, i);
    }
    assert text[..|text|] == text;
    return Some(bytes);
  }

  lemma ReadMore(text: string, i: nat)
    requires i < |text| && OverAlphabet(text[..i]) && DigitOf(text[i]).Some?
    ensures OverAlphabet(text[..i + 1])
    ensures Value(58, Read(text[..i + 1])) == Value(58, Read(text[..i])) * 58 + DigitOf(text[i]).value
  {
    assert Read(text[..i + 1]) == Read(text[..i]) + [DigitOf(text[i]).value];
    ValueAppend(58, Read(text[..i]), DigitOf(text[i]).value);
  }

  /** The bytes a text stands for; none when a character is not in the alphabet. */
  method Decode(text: string) returns (bytes: Option<seq<nat>>)
    ensures bytes.Some? <==> OverAlphabet(text)
    ensures bytes.Some? ==> Decodes(text, bytes.value)
  {
    var number := ReadNumber(text);
    if number.None? {
      return None;
    }
    var ones, all := 0, number.value;
    while ones < |text| && text[ones] == '1'
      invariant ones <= |text| && forall k :: 0 <= k < ones ==> text[k] == '1'
      invariant all == Zeros(ones) + number.value
    {
      OneMoreZero(ones, number.value);
      ones, all := ones + 1, [0] + all;
    }
    LeadingOnes(text, ones);
    ZerosInFrontDecode(text, ones, number.value);
    return Some(all);
  }

  lemma ZerosInFrontDecode(text: string, n: nat, number: seq<nat>)
    requires OverAlphabet(text) && LeadingZeros(Read(text)) == n
    requires InBase(256, number) && Minimal(number) && Value(256, number) == Value(58, Read(text))
    ensures Decodes(text, Zeros(n) + number)
  {
    ZerosThen(n, number);
  }

  lemma OneMoreZero(n: nat, ds: seq<nat>)
    ensures [0] + (Zeros(n) + ds) == Zeros(n + 1) + ds
  {
  }

  lemma ZerosThen(n: nat, ds: seq<nat>)
    ensures (Zeros(n) + ds)[..n] == Zeros(n) && (Zeros(n) + ds)[n..] == ds
  {
  }

  lemma LeadingOnes(text: string, n: nat)
    requires OverAlphabet(text) && n <= |text|
    requires forall k :: 0 <= k < n ==> text[k] == '1'
    requires n < |text| ==> text[n] != '1'
    ensures LeadingZeros(Read(text)) == n
  {
    ZerosUnique(Read(text), n, LeadingZeros(Read(text)));
  }

  /** A NodeID is the prefix and at most 40 characters that stand for 20 bytes and their checksum. */
  predicate IsNodeId(id: string, bytes: seq<nat>, checksum: seq<nat> -> seq<nat>) {
    && PREFIX <= id
    && |id| - |PREFIX| <= 40
    && Decodes(id[|PREFIX|..], bytes)
    && |bytes| == 24
    && checksum(bytes[..20]) == bytes[20..]
  }

  /** `node_id_valid`. */
  method NodeIdValid(id: string, checksum: seq<nat> -> seq<nat>) returns (valid: bool)
    ensures valid <==> exists bytes :: IsNodeId(id, bytes, checksum)
  {
    if !(PREFIX <= id) {
      return false;
    }
    var text := id[|PREFIX|..];
    if |text| > 40 {
      return false;
    }
    var bytes := Decode(text);
    if bytes.None? {
      return false;
    }
    valid := |bytes.value| == 24 && checksum(bytes.value[..20]) == bytes.value[20..];
    if valid {
      assert IsNodeId(id, bytes.value, checksum);
    }
    forall other | IsNodeId(id, other, checksum) ensures valid {
      DecodesFunctional(text, bytes.value, other);
    }
  }

  /** An accepted NodeID is the only one for its 20 bytes. */
  lemma NodeIdUnique(a: string, b: string, x: seq<nat>, y: seq<nat>, checksum: seq<nat> -> seq<nat>)
    requires IsNodeId(a, x, checksum) && IsNodeId(b, y, checksum) && x[..20] == y[..20]
    ensures a == b
  {
    assert x == x[..20] + x[20..] && y == y[..20] + y[20..];
    DecodesInjective(a[|PREFIX|..], b[|PREFIX|..], x);
    assert a == PREFIX + a[|PREFIX|..] && b == PREFIX + b[|PREFIX|..];
  }
}
