/** Changed characters of a P-Chain address within six places in a row are always seen: a burst of
    symbols is stored as it is, and no step loses anything. */
module Bech32Bursts {
  import opened Wrappers
  import opened BinaryDigits
  import opened Bech32
  import opened Bech32Field

  function Joined(vs: seq<Symbol>): (b: Bits)
    ensures |b| == 5 * |vs|
  {
    if vs == [] then [] else Joined(vs[..|vs| - 1]) + vs[|vs| - 1]
  }

  /** Up to six symbols from zero are just stored. */
  lemma {:induction false} ChecksumOfSix(vs: seq<Symbol>)
    requires |vs| <= 6
    ensures Checksum(ZERO, vs) == Zeros(30 - 5 * |vs|) + Joined(vs)
  {
    if vs == [] {
      assert ZERO == Zeros(30) + [];
    } else {
      var front, v := vs[..|vs| - 1], vs[|vs| - 1];
      ChecksumOfSix(front);
      var s := Checksum(ZERO, front);
      ZerosInFront(30 - 5 * |front|, Joined(front));
      StepWithRoom(s, v);
      Regroup(Zeros(25 - 5 * |front|), Joined(front), v);
    }
  }

  lemma ZerosInFront(n: nat, b: Bits)
    requires n >= 5
    ensures (Zeros(n) + b)[..5] == Zeros(5) && (Zeros(n) + b)[5..] == Zeros(n - 5) + b
  {
  }

  lemma {:induction false} JoinedOfZeros(vs: seq<Symbol>)
    ensures Joined(vs) == Zeros(5 * |vs|) <==> AllZero(vs)
  {
    if vs == [] {
    } else {
      var n := |vs| - 1;
      JoinedOfZeros(vs[..n]);
      assert Joined(vs)[..5 * n] == Joined(vs[..n]) && Joined(vs)[5 * n..] == vs[n];
      assert Zeros(5 * |vs|)[..5 * n] == Zeros(5 * n) && Zeros(5 * |vs|)[5 * n..] == Zeros(5);
      assert Zeros(5 * |vs|) == Zeros(5 * n) + Zeros(5);
      if AllZero(vs[..n]) && vs[n] == Zeros(5) {
        assert vs == vs[..n] + [vs[n]];
      }
    }
  }

  /** A burst of six symbols among zeros never comes out as zero. */
  lemma BurstIsSeen(before: seq<Symbol>, burst: seq<Symbol>, after: seq<Symbol>)
    requires AllZero(before) && AllZero(after) && |burst| == 6 && !AllZero(burst)
    ensures Checksum(ZERO, before + burst + after) != ZERO
  {
    ChecksumConcat(ZERO, before + burst, after);
    ChecksumConcat(ZERO, before, burst);
    ChecksumOfZeros(ZERO, before);
    ChecksumOfSix(burst);
    JoinedOfZeros(burst);
    assert Zeros(0) + Joined(burst) == Joined(burst);
    ChecksumOfZeros(Checksum(ZERO, burst), after);
  }

  /** Two strings of symbols that differ, and only within six places in a row, have different
      checksums. */
  lemma BurstChangesChecksum(s: Sum, vs: seq<Symbol>, ws: seq<Symbol>, lo: nat)
    requires |vs| == |ws| && vs != ws && lo + 6 <= |vs|
    requires forall i :: 0 <= i < |vs| && vs[i] != ws[i] ==> lo <= i < lo + 6
    ensures Checksum(s, vs) != Checksum(s, ws)
  {
    var d := PlusAll(vs, ws);
    forall i | 0 <= i < |d| ensures d[i] == Zeros(5) <==> vs[i] == ws[i] {
      PlusSame(vs[i], ws[i]);
    }
    var k :| 0 <= k < |vs| && vs[k] != ws[k];
    OneBurst(d, lo, k);
    DifferenceOfSums(s, vs, ws);
  }

  lemma OneBurst(d: seq<Symbol>, lo: nat, k: nat)
    requires lo + 6 <= |d| && k < |d| && d[k] != Zeros(5)
    requires forall i :: 0 <= i < |d| && d[i] != Zeros(5) ==> lo <= i < lo + 6
    ensures Checksum(ZERO, d) != ZERO
  {
    var before, burst, after := d[..lo], d[lo..lo + 6], d[lo + 6..];
    assert burst[k - lo] == d[k];
    Parted(d, lo);
    BurstIsSeen(before, burst, after);
  }

  lemma Parted(d: seq<Symbol>, lo: nat)
    requires lo + 6 <= |d|
    ensures d[..lo] + d[lo..lo + 6] + d[lo + 6..] == d
  {
  }

  lemma BodyBurst(hrp: seq<nat>, a: string, b: string, from: nat)
    requires OverAlphabet(a) && OverAlphabet(b) && |a| == |b| && a != b && from + 6 <= |a|
    requires forall i :: 0 <= i < |a| && a[i] != b[i] ==> from <= i < from + 6
    ensures Checksum(ONE, Symbols(hrp + Values(a))) != Checksum(ONE, Symbols(hrp + Values(b)))
  {
    var vs, ws := Symbols(hrp + Values(a)), Symbols(hrp + Values(b));
    forall i | 0 <= i < |vs| ensures vs[i] == ws[i] <==> i < |hrp| || a[i - |hrp|] == b[i - |hrp|] {
      SymbolsDiffer(hrp, a, b, i);
    }
    var k :| 0 <= k < |a| && a[k] != b[k];
    assert vs[|hrp| + k] != ws[|hrp| + k];
    BurstChangesChecksum(ONE, vs, ws, |hrp| + from);
  }

  /** Changing any characters of an address's body, as long as they are within six places in a row,
      never gives an address. */
  lemma BurstIsRejected(text: string, changed: string, network: Network, lo: nat)
    requires IsAddress(text, network)
    requires |changed| == |text| && changed != text && 7 <= lo < |text|
    requires forall i :: 0 <= i < |text| && changed[i] != text[i] ==> lo <= i < lo + 6
    ensures !IsAddress(changed, network)
  {
    if OverAlphabet(changed[7..]) {
      var a, b := text[7..], changed[7..];
      var k :| 0 <= k < |text| && changed[k] != text[k];
      assert a[k - 7] != b[k - 7];
      PrefixIsBytes(network);
      BodyBurst(Expanded(Prefix(network)), a, b, if lo - 7 <= BODY - 6 then lo - 7 else BODY - 6);
    }
  }
}
