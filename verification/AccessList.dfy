/** Address rules in one canonical form (`list` in crates/erpc-chain-op/src/access.rs). How an address
    and a prefix length are written is the parameter `Notation`. */
module AccessList {
  import opened Wrappers
  import opened Characters
  import opened BinaryDigits
  import Positional

  datatype Family = V4 | V6

  function Width(family: Family): nat {
    match family case V4 => 32 case V6 => 128
  }

  datatype Address = Address(family: Family, number: nat)

  predicate Proper(a: Address) {
    a.number < Pow2(Width(a.family))
  }

  /** The addresses that agree with `address` in the first `bits` bits. */
  datatype Rule = Rule(address: Address, bits: nat)

  function HostBits(r: Rule): nat
    requires r.bits <= Width(r.address.family)
  {
    Width(r.address.family) - r.bits
  }

  predicate Covers(r: Rule, a: Address)
    requires r.bits <= Width(r.address.family)
  {
    && Proper(a) && a.family == r.address.family
    && a.number / Pow2(HostBits(r)) == r.address.number / Pow2(HostBits(r))
  }

  predicate Canonical(r: Rule) {
    && r.bits <= Width(r.address.family) && Proper(r.address)
    && r.address.number % Pow2(HostBits(r)) == 0
  }

  // A canonical rule is the only one for its addresses.

  lemma OwnAddressIsCovered(r: Rule)
    requires Canonical(r)
    ensures Covers(r, r.address)
  {
  }

  /** One network of size `p` past a multiple of `q`, as plain numbers. */
  lemma NextNetwork(n: nat, p: nat, q: nat, m: nat)
    requires p > 0 && p < q && n % q == 0 && n < m * q
    ensures n + p < m * q && (n + p) / q == n / q && (n + p) / p == n / p + 1
  {
    var k := n / q;
    assert n == k * q;
    if k >= m {
      Positional.MulMonotone(m, k, q);
    }
    Positional.MulMonotone(k + 1, m, q);
    assert (k + 1) * q == k * q + q;
    QuotientAndRest(n + p, q, k, p);
    assert n + p == (n / p + 1) * p + n % p;
    QuotientAndRest(n + p, p, n / p + 1, n % p);
  }

  /** A wider network covers an address past the one it has in common with `small`. */
  lemma WiderCoversMore(small: Rule, large: Rule)
    requires Canonical(small) && Canonical(large) && small.address.family == large.address.family
    requires HostBits(small) < HostBits(large) && Covers(small, large.address)
    ensures var next := Address(large.address.family, large.address.number + Pow2(HostBits(small)));
            Covers(large, next) && !Covers(small, next)
  {
    Pow2Grows(HostBits(small), HostBits(large));
    Pow2Splits(large.bits, HostBits(large));
    NextNetwork(large.address.number, Pow2(HostBits(small)), Pow2(HostBits(large)), Pow2(large.bits));
  }

  lemma {:induction false} Pow2Splits(a: nat, b: nat)
    ensures Pow2(a + b) == Pow2(a) * Pow2(b)
  {
    if a == 0 {
    } else {
      Pow2Splits(a - 1, b);
      assert 2 * (Pow2(a - 1) * Pow2(b)) == (2 * Pow2(a - 1)) * Pow2(b);
    }
  }

  lemma {:induction false} Pow2Grows(a: nat, b: nat)
    requires a < b
    ensures 2 * Pow2(a) <= Pow2(b)
    decreases b
  {
    if b <= a + 1 {
    } else {
      Pow2Grows(a, b - 1);
    }
  }

  lemma SameQuotient(a: nat, b: nat, d: nat)
    requires d > 0 && a % d == 0 && b % d == 0 && a / d == b / d
    ensures a == b
  {
    assert a == a / d * d && b == b / d * d;
  }

  /** Two canonical rules that cover the same addresses are the same rule. */
  lemma SameAddressesSameRule(r: Rule, s: Rule)
    requires Canonical(r) && Canonical(s)
    requires forall a :: Covers(r, a) <==> Covers(s, a)
    ensures r == s
  {
    OwnAddressIsCovered(r);
    OwnAddressIsCovered(s);
    if HostBits(r) < HostBits(s) {
      WiderCoversMore(r, s);
    } else if HostBits(s) < HostBits(r) {
      WiderCoversMore(s, r);
    } else {
      SameQuotient(r.address.number, s.address.number, Pow2(HostBits(r)));
    }
  }

  // Reading and writing rules.

  datatype Notation = Notation(
    readAddress: string -> Option<Address>,
    writeAddress: Address -> string,
    readBits: string -> Option<nat>,
    writeBits: nat -> string)

  /** Addresses and prefix lengths are read back from what is written of them. */
  ghost predicate ReadsBack(n: Notation) {
    && (forall text :: n.readAddress(text).Some? ==> Proper(n.readAddress(text).value))
    && (forall a: Address :: Proper(a) ==> n.readAddress(n.writeAddress(a)) == Some(a) && Plain(n.writeAddress(a)))
    && (forall b: nat :: b < 256 ==> n.readBits(n.writeBits(b)) == Some(b) && Plain(n.writeBits(b)))
  }

  predicate Plain(text: string) {
    text != "" && Trimmed(text) && '/' !in text
  }

  datatype Error = NotAnAddress | NotAPrefix | OutsideRange | HostBitsSet

  /** `split_once('/')`. */
  function SplitOnce(text: string): Option<(string, string)> {
    if text == "" then None
    else if text[0] == '/' then Some(("", text[1..]))
    else match SplitOnce(text[1..]) case Some((a, b)) => Some(([text[0]] + a, b)) case None => None
  }

  /** What one value of the list says: nothing if it is blank, a rule, or why it is not one. */
  function ReadRule(value: string, allowOpen: bool, n: Notation): Result<Option<Rule>, Error> {
    var text := Trim(value);
    if text == "" then Ok(None)
    else
      var parts := SplitOnce(text);
      match n.readAddress(if parts.Some? then parts.value.0 else text)
      case None => Err(NotAnAddress)
      case Some(address) =>
        match (if parts.Some? then n.readBits(parts.value.1) else Some(Width(address.family)))
        case None => Err(NotAPrefix)
        case Some(bits) =>
          if bits > Width(address.family) || (bits == 0 && !allowOpen) then Err(OutsideRange)
          else if address.number % Pow2(Width(address.family) - bits) != 0 then Err(HostBitsSet)
          else Ok(Some(Rule(address, bits)))
  }

  function WriteRule(r: Rule, n: Notation): string {
    if r.bits == Width(r.address.family) then n.writeAddress(r.address)
    else n.writeAddress(r.address) + "/" + n.writeBits(r.bits)
  }

  predicate Permitted(r: Rule, allowOpen: bool) {
    Canonical(r) && (r.bits == 0 ==> allowOpen)
  }

  /** What is read is aligned and permitted. */
  lemma ReadIsPermitted(value: string, allowOpen: bool, n: Notation)
    requires ReadsBack(n)
    ensures match ReadRule(value, allowOpen, n)
            case Ok(Some(r)) => Permitted(r, allowOpen)
            case _ => true
  {
  }

  lemma {:induction false} NoSplit(text: string)
    requires '/' !in text
    ensures SplitOnce(text) == None
  {
    if text == "" {
    } else {
      NoSplit(text[1..]);
    }
  }

  lemma {:induction false} SplitAt(a: string, b: string)
    requires '/' !in a
    ensures SplitOnce(a + "/" + b) == Some((a, b))
  {
    var text := a + "/" + b;
    if a == "" {
      assert text[1..] == b;
    } else {
      SplitAt(a[1..], b);
      assert text[1..] == a[1..] + "/" + b;
      assert [a[0]] + a[1..] == a;
    }
  }

  lemma TrimmedStays(text: string)
    requires Trimmed(text)
    ensures Trim(text) == text
  {
  }

  /** A rule in canonical form is read back as itself. */
  lemma WriteReadsBack(r: Rule, allowOpen: bool, n: Notation)
    requires ReadsBack(n) && Permitted(r, allowOpen)
    ensures ReadRule(WriteRule(r, n), allowOpen, n) == Ok(Some(r))
  {
    var a, b, text := n.writeAddress(r.address), n.writeBits(r.bits), WriteRule(r, n);
    assert Plain(a) && Plain(b);
    assert Trimmed(text);
    TrimmedStays(text);
    if r.bits == Width(r.address.family) {
      NoSplit(a);
    } else {
      SplitAt(a, b);
    }
  }

  // The list.

  function Listed(values: seq<string>, allowOpen: bool, n: Notation): Result<seq<string>, Error> {
    if values == [] then Ok([])
    else match Listed(values[..|values| - 1], allowOpen, n)
      case Err(e) => Err(e)
      case Ok(before) =>
        match ReadRule(values[|values| - 1], allowOpen, n)
        case Err(e) => Err(e)
        case Ok(None) => Ok(before)
        case Ok(Some(r)) => Ok(if WriteRule(r, n) in before then before else before + [WriteRule(r, n)])
  }

  /** What 128 bits hold. */
  type U128 = n: nat | n < Pow2(128) witness 0

  /** `u128::MAX`. */
  function AllOnes(): U128 {
    Pow2(128) - 1
  }

  /** `1u128 << bits`, which 128 bits hold only up to a shift by 127. */
  function OneShifted(bits: nat): (n: U128)
    requires bits < 128
    ensures n > 0
  {
    Pow2Grows(bits, 128);
    Pow2(bits)
  }

  /** The mask of the host part: what it keeps of any number is the rest by the network's size, also
      where the shift would not fit. */
  method Mask(hostBits: nat) returns (mask: U128)
    requires hostBits <= 128
    ensures forall n: nat :: And(n, mask) == n % Pow2(hostBits)
  {
    if hostBits == 128 {
      mask := AllOnes();
    } else {
      mask := OneShifted(hostBits) - 1;
    }
    forall n: nat ensures And(n, mask) == n % Pow2(hostBits) {
      AndMask(n, hostBits);
    }
  }

  /** `list`. */
  method List(values: seq<string>, allowOpen: bool, n: Notation) returns (result: Result<seq<string>, Error>)
    ensures result == Listed(values, allowOpen, n)
  {
    var out: seq<string> := [];
    for i := 0 to |values|
      invariant Listed(values[..i], allowOpen, n) == Ok(out)
    {
      assert values[..i + 1][..i] == values[..i];
      var rule := One(values[i], allowOpen, n);
      if rule.Err? {
        ErrorStays(values, i + 1, allowOpen, n);
        return Err(rule.error);
      }
      if rule.value.Some? {
        var canonical := WriteRule(rule.value.value, n);
        if canonical !in out {
          out := out + [canonical];
        }
      }
    }
    assert values[..|values|] == values;
    return Ok(out);
  }

  /** One turn of the loop in `list`. */
  method One(value: string, allowOpen: bool, n: Notation) returns (rule: Result<Option<Rule>, Error>)
    ensures rule == ReadRule(value, allowOpen, n)
  {
    var text := Trim(value);
    if text == "" {
      return Ok(None);
    }
    var parts := SplitOnce(text);
    var address := n.readAddress(if parts.Some? then parts.value.0 else text);
    if address.None? {
      return Err(NotAnAddress);
    }
    var max := Width(address.value.family);
    var bits := Some(max);
    if parts.Some? {
      bits := n.readBits(parts.value.1);
    }
    if bits.None? {
      return Err(NotAPrefix);
    }
    if bits.value > max || (bits.value == 0 && !allowOpen) {
      return Err(OutsideRange);
    }
    var mask := Mask(max - bits.value);
    if And(address.value.number, mask) != 0 {
      return Err(HostBitsSet);
    }
    return Ok(Some(Rule(address.value, bits.value)));
  }

  lemma {:induction false} ErrorStays(values: seq<string>, i: nat, allowOpen: bool, n: Notation)
    requires i <= |values| && Listed(values[..i], allowOpen, n).Err?
    ensures Listed(values, allowOpen, n) == Listed(values[..i], allowOpen, n)
    decreases |values|
  {
    if i < |values| {
      var front := values[..|values| - 1];
      assert front[..i] == values[..i];
      ErrorStays(front, i, allowOpen, n);
    } else {
      assert values[..i] == values;
    }
  }

  predicate AllRead(values: seq<string>, allowOpen: bool, n: Notation) {
    forall i :: 0 <= i < |values| ==> ReadRule(values[i], allowOpen, n).Ok?
  }

  lemma AllReadMore(values: seq<string>, allowOpen: bool, n: Notation)
    requires values != []
    ensures AllRead(values, allowOpen, n) <==>
              AllRead(values[..|values| - 1], allowOpen, n) && ReadRule(values[|values| - 1], allowOpen, n).Ok?
  {
    var front := values[..|values| - 1];
    assert forall i :: 0 <= i < |front| ==> front[i] == values[i];
  }

  /** The list fails exactly when one of its values is no rule: nothing is passed over but blanks. */
  lemma {:induction false} FailsExactly(values: seq<string>, allowOpen: bool, n: Notation)
    ensures Listed(values, allowOpen, n).Ok? <==> AllRead(values, allowOpen, n)
  {
    if values == [] {
    } else {
      FailsExactly(values[..|values| - 1], allowOpen, n);
      AllReadMore(values, allowOpen, n);
    }
  }

  /** Some value of the list stands for `r`. */
  ghost predicate Says(values: seq<string>, r: Rule, allowOpen: bool, n: Notation) {
    exists i :: 0 <= i < |values| && ReadRule(values[i], allowOpen, n) == Ok(Some(r))
  }

  /** What is written is a rule in canonical form, none twice. */
  ghost predicate WellFormed(out: seq<string>, allowOpen: bool, n: Notation) {
    && (forall i :: 0 <= i < |out| ==> exists r :: Permitted(r, allowOpen) && out[i] == WriteRule(r, n))
    && (forall i, j :: 0 <= i < j < |out| ==> out[i] != out[j])
  }

  lemma {:induction false} ListedIsWellFormed(values: seq<string>, allowOpen: bool, n: Notation)
    requires ReadsBack(n) && Listed(values, allowOpen, n).Ok?
    ensures WellFormed(Listed(values, allowOpen, n).value, allowOpen, n)
  {
    if values == [] {
    } else {
      var before, last := values[..|values| - 1], values[|values| - 1];
      ListedIsWellFormed(before, allowOpen, n);
      ReadIsPermitted(last, allowOpen, n);
      var rule := ReadRule(last, allowOpen, n).value;
      if rule.Some? && WriteRule(rule.value, n) !in Listed(before, allowOpen, n).value {
        WellFormedMore(Listed(before, allowOpen, n).value, rule.value, allowOpen, n);
      }
    }
  }

  lemma WellFormedMore(out: seq<string>, r: Rule, allowOpen: bool, n: Notation)
    requires WellFormed(out, allowOpen, n) && Permitted(r, allowOpen) && WriteRule(r, n) !in out
    ensures WellFormed(out + [WriteRule(r, n)], allowOpen, n)
  {
  }

  lemma SaidInFront(values: seq<string>, last: string, r: Rule, allowOpen: bool, n: Notation)
    requires Says(values, r, allowOpen, n)
    ensures Says(values + [last], r, allowOpen, n)
  {
    var i :| 0 <= i < |values| && ReadRule(values[i], allowOpen, n) == Ok(Some(r));
    assert (values + [last])[i] == values[i];
  }

  lemma SaidBefore(values: seq<string>, last: string, r: Rule, allowOpen: bool, n: Notation)
    requires Says(values + [last], r, allowOpen, n) && ReadRule(last, allowOpen, n) != Ok(Some(r))
    ensures Says(values, r, allowOpen, n)
  {
    var i :| 0 <= i < |values + [last]| && ReadRule((values + [last])[i], allowOpen, n) == Ok(Some(r));
    assert (values + [last])[i] == values[i];
  }

  lemma SaysMore(values: seq<string>, r: Rule, allowOpen: bool, n: Notation)
    requires values != []
    ensures Says(values, r, allowOpen, n) <==>
              || Says(values[..|values| - 1], r, allowOpen, n)
              || ReadRule(values[|values| - 1], allowOpen, n) == Ok(Some(r))
  {
    var front, last := values[..|values| - 1], values[|values| - 1];
    assert front + [last] == values;
    if Says(front, r, allowOpen, n) {
      SaidInFront(front, last, r, allowOpen, n);
    } else if Says(values, r, allowOpen, n) && ReadRule(last, allowOpen, n) != Ok(Some(r)) {
      SaidBefore(front, last, r, allowOpen, n);
    }
  }

  /** A rule is in the output exactly when some value stands for it. */
  lemma {:induction false} ListedWrites(values: seq<string>, r: Rule, allowOpen: bool, n: Notation)
    requires ReadsBack(n) && Listed(values, allowOpen, n).Ok? && Permitted(r, allowOpen)
    ensures WriteRule(r, n) in Listed(values, allowOpen, n).value <==> Says(values, r, allowOpen, n)
  {
    if values == [] {
    } else {
      var last := values[|values| - 1];
      ListedWrites(values[..|values| - 1], r, allowOpen, n);
      SaysMore(values, r, allowOpen, n);
      match ReadRule(last, allowOpen, n)
      case Ok(Some(s)) =>
        ReadIsPermitted(last, allowOpen, n);
        WriteReadsBack(s, allowOpen, n);
        WriteReadsBack(r, allowOpen, n);
      case _ =>
    }
  }

  lemma SaidIsPermitted(values: seq<string>, r: Rule, allowOpen: bool, n: Notation)
    requires ReadsBack(n) && Says(values, r, allowOpen, n)
    ensures Permitted(r, allowOpen)
  {
    var i :| 0 <= i < |values| && ReadRule(values[i], allowOpen, n) == Ok(Some(r));
    ReadIsPermitted(values[i], allowOpen, n);
  }

  /** A list in canonical form says just the rules that are written in it. */
  lemma WrittenIsSaid(out: seq<string>, r: Rule, allowOpen: bool, n: Notation)
    requires ReadsBack(n) && WellFormed(out, allowOpen, n) && Permitted(r, allowOpen)
    ensures Says(out, r, allowOpen, n) <==> WriteRule(r, n) in out
  {
    WriteReadsBack(r, allowOpen, n);
    if Says(out, r, allowOpen, n) {
      var j :| 0 <= j < |out| && ReadRule(out[j], allowOpen, n) == Ok(Some(r));
      var s :| Permitted(s, allowOpen) && out[j] == WriteRule(s, n);
      WriteReadsBack(s, allowOpen, n);
    }
    if WriteRule(r, n) in out {
      var j :| 0 <= j < |out| && out[j] == WriteRule(r, n);
    }
  }

  /** The output stands for the very rules that the input stands for. */
  lemma OutputSaysTheSame(values: seq<string>, r: Rule, allowOpen: bool, n: Notation)
    requires ReadsBack(n) && Listed(values, allowOpen, n).Ok?
    ensures Says(Listed(values, allowOpen, n).value, r, allowOpen, n) <==> Says(values, r, allowOpen, n)
  {
    var out := Listed(values, allowOpen, n).value;
    if Says(values, r, allowOpen, n) || Says(out, r, allowOpen, n) {
      SaidIsPermitted(if Says(values, r, allowOpen, n) then values else out, r, allowOpen, n);
      ListedIsWellFormed(values, allowOpen, n);
      WrittenIsSaid(out, r, allowOpen, n);
      ListedWrites(values, r, allowOpen, n);
    }
  }

  /** Some value of the list covers the address. */
  ghost predicate Admits(values: seq<string>, a: Address, allowOpen: bool, n: Notation)
    requires ReadsBack(n)
  {
    exists r :: Says(values, r, allowOpen, n) && Permitted(r, allowOpen) && Covers(r, a)
  }

  /** The output covers exactly the addresses the input covers. */
  lemma SameAddressesAdmitted(values: seq<string>, a: Address, allowOpen: bool, n: Notation)
    requires ReadsBack(n) && Listed(values, allowOpen, n).Ok?
    ensures Admits(Listed(values, allowOpen, n).value, a, allowOpen, n) <==> Admits(values, a, allowOpen, n)
  {
    var out := Listed(values, allowOpen, n).value;
    if Admits(out, a, allowOpen, n) {
      var r :| Says(out, r, allowOpen, n) && Permitted(r, allowOpen) && Covers(r, a);
      OutputSaysTheSame(values, r, allowOpen, n);
    }
    if Admits(values, a, allowOpen, n) {
      var r :| Says(values, r, allowOpen, n) && Permitted(r, allowOpen) && Covers(r, a);
      OutputSaysTheSame(values, r, allowOpen, n);
    }
  }

  /** Two values are merged exactly when they stand for the same addresses. */
  lemma MergedExactly(r: Rule, s: Rule, allowOpen: bool, n: Notation)
    requires ReadsBack(n) && Permitted(r, allowOpen) && Permitted(s, allowOpen)
    ensures WriteRule(r, n) == WriteRule(s, n) <==> forall a :: Covers(r, a) <==> Covers(s, a)
  {
    WriteReadsBack(r, allowOpen, n);
    WriteReadsBack(s, allowOpen, n);
    if forall a :: Covers(r, a) <==> Covers(s, a) {
      SameAddressesSameRule(r, s);
    }
  }

  /** A list in canonical form, none twice, is its own canonical form. */
  lemma {:induction false} WellFormedStays(out: seq<string>, allowOpen: bool, n: Notation)
    requires ReadsBack(n) && WellFormed(out, allowOpen, n)
    ensures Listed(out, allowOpen, n) == Ok(out)
  {
    if out == [] {
    } else {
      var r := WellFormedLast(out, allowOpen, n);
      WellFormedStays(out[..|out| - 1], allowOpen, n);
      WriteReadsBack(r, allowOpen, n);
    }
  }

  lemma WellFormedLast(out: seq<string>, allowOpen: bool, n: Notation) returns (r: Rule)
    requires out != [] && WellFormed(out, allowOpen, n)
    ensures WellFormed(out[..|out| - 1], allowOpen, n)
    ensures Permitted(r, allowOpen) && out[|out| - 1] == WriteRule(r, n) && out[|out| - 1] !in out[..|out| - 1]
    ensures out[..|out| - 1] + [out[|out| - 1]] == out
  {
    var last := out[|out| - 1];
    r :| Permitted(r, allowOpen) && last == WriteRule(r, n);
  }

  lemma ListingTwice(values: seq<string>, allowOpen: bool, n: Notation)
    requires ReadsBack(n) && Listed(values, allowOpen, n).Ok?
    ensures Listed(Listed(values, allowOpen, n).value, allowOpen, n) == Listed(values, allowOpen, n)
  {
    ListedIsWellFormed(values, allowOpen, n);
    WellFormedStays(Listed(values, allowOpen, n).value, allowOpen, n);
  }
}
