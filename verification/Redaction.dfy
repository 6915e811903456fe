/** Taking the keys out of a text (`redacted` in crates/erpc-ai/src/commands.rs). */
module Redaction {
  import opened Wrappers
  import opened Characters

  function LowerChar(c: char): char {
    if 'A' <= c <= 'Z' then (c as nat + 32) as char else c
  }

  /** `to_ascii_lowercase`. */
  function Lower(text: string): (lower: string)
    ensures |lower| == |text|
    ensures forall i :: 0 <= i < |text| ==> lower[i] == LowerChar(text[i])
  {
    seq(|text|, i requires 0 <= i < |text| => LowerChar(text[i]))
  }

  /** What ends a value. */
  predicate Delimiter(c: char) {
    || IsWhitespace(c)
    || c == '&' || c == '"' || c == '\'' || c == '<' || c == '>' || c == '(' || c == ')'
    || c == '[' || c == ']' || c == ',' || c == ';'
  }

  predicate Bare(text: string) {
    forall i :: 0 <= i < |text| ==> !Delimiter(text[i])
  }

  // What is replaced. `ends` tells whether a text ends with a marker, and `mark` takes the place of
  // the value behind it.

  datatype Rules = Rules(ends: string -> bool, mark: string)

  predicate Sound(rules: Rules) {
    !rules.ends("") && Bare(rules.mark)
  }

  /** The length, from `from` on, of the shortest beginning of `text` that ends with a marker. */
  function FirstEndFrom(text: string, from: nat, ends: string -> bool): (e: Option<nat>)
    ensures e.Some? ==> from <= e.value <= |text|
    decreases |text| - from
  {
    if from > |text| then None
    else if ends(text[..from]) then Some(from)
    else FirstEndFrom(text, from + 1, ends)
  }

  function FirstEnd(text: string, ends: string -> bool): (e: Option<nat>)
    ensures e.Some? ==> e.value <= |text|
  {
    FirstEndFrom(text, 0, ends)
  }

  predicate NoneUpTo(text: string, from: nat, end: nat, ends: string -> bool)
    requires end <= |text| + 1
  {
    forall i :: from <= i < end ==> !ends(text[..i])
  }

  lemma {:induction false} FirstEndFromIs(text: string, from: nat, ends: string -> bool)
    ensures match FirstEndFrom(text, from, ends)
            case Some(e) => ends(text[..e]) && NoneUpTo(text, from, e, ends)
            case None => NoneUpTo(text, from, |text| + 1, ends)
    decreases |text| - from
  {
    if from > |text| || ends(text[..from]) {
    } else {
      FirstEndFromIs(text, from + 1, ends);
    }
  }

  /** What `FirstEnd` finds is there, and the first of its kind. */
  lemma FirstEndIs(text: string, ends: string -> bool)
    ensures match FirstEnd(text, ends)
            case Some(e) => ends(text[..e]) && NoneUpTo(text, 0, e, ends)
            case None => NoneUpTo(text, 0, |text| + 1, ends)
  {
    FirstEndFromIs(text, 0, ends);
  }

  /** How far the value at the start of `text` goes. */
  function ValueLength(text: string): (n: nat)
    ensures n <= |text|
  {
    if text == "" || Delimiter(text[0]) then 0 else 1 + ValueLength(text[1..])
  }

  lemma {:induction false} ValueLengthIs(text: string)
    ensures Bare(text[..ValueLength(text)])
    ensures ValueLength(text) < |text| ==> Delimiter(text[ValueLength(text)])
  {
    if text == "" || Delimiter(text[0]) {
    } else {
      ValueLengthIs(text[1..]);
      var n := ValueLength(text[1..]);
      assert text[..n + 1] == [text[0]] + text[1..][..n];
    }
  }

  lemma MarkerIsNotEmpty(text: string, rules: Rules)
    requires Sound(rules) && FirstEnd(text, rules.ends).Some?
    ensures FirstEnd(text, rules.ends).value > 0
  {
    FirstEndIs(text, rules.ends);
    assert text[..0] == "";
  }

  function Redacted(text: string, rules: Rules): string
    requires Sound(rules)
    decreases |text|
  {
    match FirstEnd(text, rules.ends)
    case None => text
    case Some(e) =>
      MarkerIsNotEmpty(text, rules);
      text[..e] + rules.mark + Redacted(text[e + ValueLength(text[e..])..], rules)
  }

  lemma RedactedIs(text: string, e: nat, value: string, after: string, rules: Rules)
    requires Sound(rules) && FirstEnd(text, rules.ends) == Some(e)
    requires text[e..] == value + after && ValueLength(text[e..]) == |value|
    ensures Redacted(text, rules) == text[..e] + rules.mark + Redacted(after, rules)
  {
    MarkerIsNotEmpty(text, rules);
    assert text[e + |value|..] == text[e..][|value|..] == after;
  }

  // The value does not show.

  /** Where the first marker ends is decided by the text up to there. */
  lemma FirstEndSame(a: string, b: string, e: nat, ends: string -> bool)
    requires FirstEnd(a, ends) == Some(e) && e <= |b| && a[..e] == b[..e]
    ensures FirstEnd(b, ends) == Some(e)
  {
    FirstEndIs(a, ends);
    FirstEndIs(b, ends);
    forall i | 0 <= i <= e ensures a[..i] == b[..i] {
      assert a[..i] == a[..e][..i] && b[..i] == b[..e][..i];
    }
  }

  lemma {:induction false} ValueLengthBare(a: string, b: string)
    requires Bare(a)
    ensures ValueLength(a + b) == |a| + ValueLength(b)
  {
    if a == "" {
      assert a + b == b;
    } else {
      assert (a + b)[1..] == a[1..] + b;
      ValueLengthBare(a[1..], b);
    }
  }

  lemma {:induction false} ValueLengthStops(a: string, b: string)
    requires ValueLength(a) < |a|
    ensures ValueLength(a + b) == ValueLength(a)
  {
    if Delimiter(a[0]) {
    } else {
      assert (a + b)[1..] == a[1..] + b;
      ValueLengthStops(a[1..], b);
    }
  }

  /** The value of the first marker ends inside `am`. */
  lemma EndsInside(am: string, x: string, e: nat, rules: Rules)
    requires Sound(rules) && FirstEnd(am + x, rules.ends) == Some(e) && e <= |am| && ValueLength(am[e..]) < |am[e..]|
    ensures Redacted(am + x, rules) == am[..e] + rules.mark + Redacted(am[e + ValueLength(am[e..])..] + x, rules)
  {
    var d := ValueLength(am[e..]);
    assert (am + x)[..e] == am[..e] && (am + x)[e..] == am[e..] + x;
    ValueLengthStops(am[e..], x);
    assert am[e..] + x == am[e..][..d] + (am[e + d..] + x);
    RedactedIs(am + x, e, am[e..][..d], am[e + d..] + x, rules);
  }

  /** The value of the first marker goes on behind `am`, through `v`. */
  lemma EndsBehind(am: string, v: string, rest: string, e: nat, rules: Rules)
    requires Sound(rules) && FirstEnd(am + (v + rest), rules.ends) == Some(e) && e <= |am| && Bare(am[e..]) && Bare(v)
    ensures Redacted(am + (v + rest), rules) == am[..e] + rules.mark + Redacted(rest[ValueLength(rest)..], rules)
  {
    var n, value := ValueLength(rest), am[e..] + v;
    Reslice(am, v, rest, e, n);
    ValueLengthBare(value, rest);
    RedactedIs(am + (v + rest), e, value + rest[..n], rest[n..], rules);
  }

  lemma Reslice(am: string, v: string, rest: string, e: nat, n: nat)
    requires e <= |am| && n <= |rest|
    ensures var t := am + (v + rest);
            && t[..e] == am[..e]
            && t[e..] == (am[e..] + v) + rest == (am[e..] + v + rest[..n]) + rest[n..]
  {
  }

  /** Whatever stands before it, `m` is a marker. */
  ghost predicate Marker(m: string, rules: Rules) {
    Bare(m) && forall a: string :: rules.ends(a + m)
  }

  lemma FirstEndAtMost(a: string, m: string, rest: string, rules: Rules)
    requires Marker(m, rules)
    ensures FirstEnd(a + m + rest, rules.ends).Some? && FirstEnd(a + m + rest, rules.ends).value <= |a + m|
  {
    assert (a + m + rest)[..|a + m|] == a + m;
    FirstEndIs(a + m + rest, rules.ends);
  }

  /** Nothing of the value behind a marker is in the output: any other value gives the same. */
  lemma {:induction false} ValueDoesNotShow(a: string, m: string, v: string, w: string, rest: string, rules: Rules)
    requires Sound(rules) && Marker(m, rules) && Bare(v) && Bare(w)
    ensures Redacted(a + m + (v + rest), rules) == Redacted(a + m + (w + rest), rules)
    decreases |a|
  {
    var am := a + m;
    FirstEndAtMost(a, m, v + rest, rules);
    var e := FirstEnd(am + (v + rest), rules.ends).value;
    SameFront(am, v + rest, w + rest, e);
    FirstEndSame(am + (v + rest), am + (w + rest), e, rules.ends);
    MarkerIsNotEmpty(am + (v + rest), rules);
    var d := ValueLength(am[e..]);
    ValueLengthIs(am[e..]);
    if d < |am[e..]| {
      NotInMarker(a, m, e + d);
      RestOfFront(a, m, e + d);
      ValueDoesNotShow(a[e + d..], m, v, w, rest, rules);
      EndsInsideAlike(am, v + rest, w + rest, e, rules);
    } else {
      CutAt(am[e..], d);
      EndsBehind(am, v, rest, e, rules);
      EndsBehind(am, w, rest, e, rules);
    }
  }

  lemma EndsInsideAlike(am: string, x: string, y: string, e: nat, rules: Rules)
    requires Sound(rules) && e <= |am| && ValueLength(am[e..]) < |am[e..]|
    requires FirstEnd(am + x, rules.ends) == FirstEnd(am + y, rules.ends) == Some(e)
    requires var later := am[e + ValueLength(am[e..])..]; Redacted(later + x, rules) == Redacted(later + y, rules)
    ensures Redacted(am + x, rules) == Redacted(am + y, rules)
  {
    EndsInside(am, x, e, rules);
    EndsInside(am, y, e, rules);
  }

  lemma SameFront(front: string, x: string, y: string, e: nat)
    requires e <= |front|
    ensures (front + x)[..e] == front[..e] == (front + y)[..e]
  {
  }

  lemma RestOfFront(a: string, m: string, i: nat)
    requires i <= |a|
    ensures (a + m)[i..] == a[i..] + m
  {
  }

  lemma NotInMarker(a: string, m: string, i: nat)
    requires Bare(m) && i < |a + m| && Delimiter((a + m)[i])
    ensures i < |a|
  {
  }

  // Twice is as good as once.

  /** What comes after a value still begins with what ended it. */
  lemma RedactedBegins(text: string, rules: Rules)
    requires Sound(rules)
    ensures text != "" ==> Redacted(text, rules) != "" && Redacted(text, rules)[0] == text[0]
    ensures text == "" ==> Redacted(text, rules) == ""
  {
    if FirstEnd(text, rules.ends).Some? {
      MarkerIsNotEmpty(text, rules);
    }
  }

  /** A text in which the first value is the mark already. */
  lemma MarkedOnce(front: string, later: string, rules: Rules)
    requires Sound(rules) && FirstEnd(front + (rules.mark + later), rules.ends) == Some(|front|)
    requires later != "" ==> Delimiter(later[0])
    ensures Redacted(front + (rules.mark + later), rules) == front + rules.mark + Redacted(later, rules)
  {
    assert front[|front|..] == "" && front[..|front|] == front;
    assert ValueLength(later) == 0 && later[0..] == later;
    EndsBehind(front, rules.mark, later, |front|, rules);
  }

  lemma {:induction false} TwiceIsOnce(text: string, rules: Rules)
    requires Sound(rules)
    ensures Redacted(Redacted(text, rules), rules) == Redacted(text, rules)
    decreases |text|
  {
    if FirstEnd(text, rules.ends).None? {
    } else {
      var e, value, rest := FirstValue(text, rules);
      MarkedText(text, e, rest, Redacted(rest, rules), rules);
      TwiceIsOnce(rest, rules);
    }
  }

  /** With the mark in place of the first value, and the rest redacted, the first value is the mark. */
  lemma MarkedText(text: string, e: nat, rest: string, later: string, rules: Rules)
    requires Sound(rules) && FirstEnd(text, rules.ends) == Some(e) && e <= |text|
    requires (rest != "" ==> Delimiter(rest[0])) && later == Redacted(rest, rules)
    ensures Redacted(text[..e] + (rules.mark + later), rules) == text[..e] + (rules.mark + Redacted(later, rules))
  {
    var front := text[..e];
    ConcatParts(front, rules.mark + later);
    FirstEndSame(text, front + (rules.mark + later), e, rules.ends);
    RedactedBegins(rest, rules);
    MarkedOnce(front, later, rules);
    Regroup(front, rules.mark, Redacted(later, rules));
  }

  /** The first value, and what comes after it. */
  lemma FirstValue(text: string, rules: Rules) returns (e: nat, value: string, rest: string)
    requires Sound(rules) && FirstEnd(text, rules.ends).Some?
    ensures FirstEnd(text, rules.ends) == Some(e) && 0 < e <= |text| && text[e..] == value + rest && |rest| < |text|
    ensures rest != "" ==> Delimiter(rest[0])
    ensures Redacted(text, rules) == text[..e] + (rules.mark + Redacted(rest, rules))
  {
    e := FirstEnd(text, rules.ends).value;
    MarkerIsNotEmpty(text, rules);
    var n;
    n, value, rest := ValueAndRest(text[e..]);
    RedactedIs(text, e, value, rest, rules);
    Regroup(text[..e], rules.mark, Redacted(rest, rules));
  }

  lemma ValueAndRest(text: string) returns (n: nat, value: string, rest: string)
    ensures n == ValueLength(text) == |value| && text == value + rest
    ensures rest != "" ==> Delimiter(rest[0])
  {
    n := ValueLength(text);
    value, rest := text[..n], text[n..];
    ValueLengthIs(text);
  }

  // The markers of the code, in any letter case.

  const KEYS := ["api-key=", "api_key=", "apikey=", "token="]

  predicate EndsWith(text: string, key: string) {
    |key| <= |text| && Lower(text[|text| - |key|..]) == key
  }

  predicate EndsWithAny(text: string, keys: seq<string>) {
    exists k :: 0 <= k < |keys| && EndsWith(text, keys[k])
  }

  function KeyRules(keys: seq<string>): Rules {
    Rules(text => EndsWithAny(text, keys), "REDACTED")
  }

  predicate AreMarkers(keys: seq<string>) {
    forall k :: 0 <= k < |keys| ==> keys[k] != "" && Bare(keys[k])
  }

  lemma KeysAreMarkers()
    ensures AreMarkers(KEYS)
  {
    assert Bare("api-key=") && Bare("api_key=");
    assert Bare("apikey=") && Bare("token=");
  }

  lemma KeyRulesAreSound(keys: seq<string>)
    requires AreMarkers(keys)
    ensures Sound(KeyRules(keys))
  {
    assert Bare("REDACTED");
  }

  lemma AnyCaseIsMarker(m: string, k: nat, keys: seq<string>)
    requires AreMarkers(keys) && k < |keys| && Lower(m) == keys[k]
    ensures Marker(m, KeyRules(keys))
  {
    forall i | 0 <= i < |m| ensures !Delimiter(m[i]) {
      assert Lower(m)[i] == LowerChar(m[i]);
    }
    forall a: string ensures EndsWithAny(a + m, keys) {
      assert (a + m)[|a + m| - |keys[k]|..] == m;
      assert EndsWith(a + m, keys[k]);
    }
  }

  /** Two texts that differ only in the value behind a key, in whatever letter case the key is
      written, are shown alike. */
  lemma KeyValueDoesNotShow(a: string, m: string, v: string, w: string, rest: string)
    requires Lower(m) in KEYS && Bare(v) && Bare(w)
    ensures Sound(KeyRules(KEYS))
    ensures Redacted(a + m + (v + rest), KeyRules(KEYS)) == Redacted(a + m + (w + rest), KeyRules(KEYS))
  {
    KeysAreMarkers();
    KeyRulesAreSound(KEYS);
    var k :| 0 <= k < |KEYS| && KEYS[k] == Lower(m);
    AnyCaseIsMarker(m, k, KEYS);
    ValueDoesNotShow(a, m, v, w, rest, KeyRules(KEYS));
  }

  // The loop of the code.

  predicate MatchAt(text: string, key: string, i: nat) {
    i + |key| <= |text| && text[i..i + |key|] == key
  }

  /** `find`: the first place of `key` in `text` from `from` on. */
  function Find(text: string, key: string, from: nat): (at: Option<nat>)
    ensures at.Some? ==> from <= at.value && MatchAt(text, key, at.value)
    ensures forall i: nat :: from <= i && MatchAt(text, key, i) ==> at.Some? && at.value <= i
    decreases |text| - from
  {
    if from + |key| > |text| then None
    else if MatchAt(text, key, from) then Some(from)
    else Find(text, key, from + 1)
  }

  /** No marker `key` ends behind `at` before `bound`. */
  predicate NoneBefore(text: string, at: nat, key: string, bound: Option<nat>)
    requires at <= |text|
  {
    forall i :: 0 <= i <= |text| - at && EndsWith(text[at..][..i], key) ==> bound.Some? && bound.value <= at + i
  }

  lemma MatchIsEnd(text: string, at: nat, key: string, i: nat)
    requires at <= i && i + |key| <= |text|
    ensures MatchAt(Lower(text), key, i) <==> EndsWith(text[at..][..i + |key| - at], key)
  {
    var part := text[at..][..i + |key| - at];
    assert part[|part| - |key|..] == text[i..i + |key|];
    assert Lower(text[i..i + |key|]) == Lower(text)[i..i + |key|];
  }

  function EndOf(found: Option<nat>, key: string): Option<nat> {
    if found.Some? then Some(found.value + |key|) else None
  }

  predicate IsNext(text: string, at: nat, keys: seq<string>, start: Option<nat>)
    requires at <= |text|
  {
    && (start.Some? ==> at < start.value <= |text|)
    && FirstEnd(text[at..], KeyRules(keys).ends) == if start.Some? then Some(start.value - at) else None
  }

  /** `start` is the nearest end of the first `k` markers. */
  predicate NearestOf(text: string, at: nat, keys: seq<string>, k: nat, start: Option<nat>)
    requires at <= |text| && k <= |keys|
  {
    && (start.Some? ==> at < start.value <= |text| && EndsWithAny(text[at..][..start.value - at], keys))
    && forall j :: 0 <= j < k ==> NoneBefore(text, at, keys[j], start)
  }

  lemma KeyIsAny(text: string, keys: seq<string>, k: nat)
    requires k < |keys| && EndsWith(text, keys[k])
    ensures EndsWithAny(text, keys)
  {
  }

  lemma NoneBeforeNearer(text: string, at: nat, key: string, bound: Option<nat>, nearer: Option<nat>)
    requires at <= |text| && NoneBefore(text, at, key, bound)
    requires bound.Some? ==> nearer.Some? && nearer.value <= bound.value
    ensures NoneBefore(text, at, key, nearer)
  {
  }

  /** `end` is the nearest end of the marker `key`. */
  predicate NearestEnd(text: string, at: nat, key: string, end: Option<nat>)
    requires at <= |text|
  {
    && (end.Some? ==> at < end.value <= |text| && EndsWith(text[at..][..end.value - at], key))
    && NoneBefore(text, at, key, end)
  }

  lemma FoundEnds(text: string, at: nat, key: string, i: nat)
    requires at <= i && MatchAt(Lower(text), key, i)
    ensures EndsWith(text[at..][..i + |key| - at], key)
  {
    MatchIsEnd(text, at, key, i);
  }

  lemma FoundIsFirst(text: string, at: nat, key: string)
    requires at <= |text| && key != ""
    ensures NoneBefore(text, at, key, EndOf(Find(Lower(text), key, at), key))
  {
    var found := Find(Lower(text), key, at);
    forall i | 0 <= i <= |text| - at && EndsWith(text[at..][..i], key)
      ensures found.Some? && found.value + |key| <= at + i
    {
      MatchIsEnd(text, at, key, at + i - |key|);
    }
  }

  lemma FoundIsNearest(text: string, at: nat, key: string)
    requires at <= |text| && key != ""
    ensures NearestEnd(text, at, key, EndOf(Find(Lower(text), key, at), key))
  {
    var found := Find(Lower(text), key, at);
    FoundIsFirst(text, at, key);
    if found.Some? {
      FoundEnds(text, at, key, found.value);
    }
  }

  function Nearer(start: Option<nat>, end: Option<nat>): Option<nat> {
    if end.Some? && (start.None? || end.value < start.value) then end else start
  }

  lemma NearestStep(text: string, at: nat, keys: seq<string>, k: nat, start: Option<nat>, end: Option<nat>)
    requires at <= |text| && k < |keys| && NearestOf(text, at, keys, k, start) && NearestEnd(text, at, keys[k], end)
    ensures NearestOf(text, at, keys, k + 1, Nearer(start, end))
  {
    if end.Some? {
      KeyIsAny(text[at..][..end.value - at], keys, k);
    }
    NoneBeforeNearer(text, at, keys[k], end, Nearer(start, end));
    forall j | 0 <= j < k ensures NoneBefore(text, at, keys[j], Nearer(start, end)) {
      NoneBeforeNearer(text, at, keys[j], start, Nearer(start, end));
    }
  }

  /** The nearest end of a marker behind `at`. */
  method NextEnd(text: string, lower: string, at: nat, keys: seq<string>) returns (start: Option<nat>)
    requires at <= |text| && lower == Lower(text) && AreMarkers(keys)
    ensures IsNext(text, at, keys, start)
  {
    start := None;
    for k := 0 to |keys|
      invariant NearestOf(text, at, keys, k, start)
    {
      var found := Find(lower, keys[k], at);
      FoundIsNearest(text, at, keys[k]);
      NearestStep(text, at, keys, k, start, EndOf(found, keys[k]));
      start := Nearer(start, EndOf(found, keys[k]));
    }
    NearestIsNext(text, at, keys, start);
  }

  lemma NearestIsNext(text: string, at: nat, keys: seq<string>, start: Option<nat>)
    requires at <= |text| && NearestOf(text, at, keys, |keys|, start)
    ensures IsNext(text, at, keys, start)
  {
    FirstEndIs(text[at..], KeyRules(keys).ends);
    forall i | 0 <= i <= |text| - at && EndsWithAny(text[at..][..i], keys)
      ensures start.Some? && start.value <= at + i
    {
      var j :| 0 <= j < |keys| && EndsWith(text[at..][..i], keys[j]);
      assert NoneBefore(text, at, keys[j], start);
    }
  }

  /** `text[start..].find(…)`: where the value that begins at `start` ends. */
  method ValueEnd(text: string, start: nat) returns (end: nat)
    requires start <= |text|
    ensures end == start + ValueLength(text[start..]) <= |text|
  {
    end := start;
    while end < |text| && !Delimiter(text[end])
      invariant start <= end <= |text|
      invariant start + ValueLength(text[start..]) == end + ValueLength(text[end..])
    {
      assert text[end..][1..] == text[end + 1..];
      end := end + 1;
    }
  }

  /** `redacted`. */
  method Redact(text: string, keys: seq<string>) returns (out: string)
    requires AreMarkers(keys)
    ensures Sound(KeyRules(keys)) && out == Redacted(text, KeyRules(keys))
  {
    KeyRulesAreSound(keys);
    var rules := KeyRules(keys);
    var lower := Lower(text);
    out := "";
    var at := 0;
    var start := NextEnd(text, lower, at, keys);
    assert text[0..] == text;
    while start.Some?
      invariant at <= |text| && IsNext(text, at, keys, start)
      invariant Redacted(text, rules) == out + Redacted(text[at..], rules)
      decreases |text| - at, if start.Some? then 1 else 0
    {
      var end := ValueEnd(text, start.value);
      RedactedStep(text, at, start.value, end, out, rules);
      out := out + text[at..start.value] + rules.mark;
      at := end;
      start := NextEnd(text, lower, at, keys);
    }
    NothingLeft(text[at..], rules);
    out := out + text[at..];
  }

  lemma NothingLeft(text: string, rules: Rules)
    requires Sound(rules) && FirstEnd(text, rules.ends).None?
    ensures Redacted(text, rules) == text
  {
  }

  lemma RedactedStep(text: string, at: nat, start: nat, end: nat, out: string, rules: Rules)
    requires Sound(rules) && at < start <= |text| && FirstEnd(text[at..], rules.ends) == Some(start - at)
    requires end == start + ValueLength(text[start..])
    ensures out + Redacted(text[at..], rules) == (out + text[at..start] + rules.mark) + Redacted(text[end..], rules)
  {
    var rest := text[at..];
    assert rest[..start - at] == text[at..start] && rest[start - at..] == text[start..];
    assert text[start..] == text[start..end] + text[end..];
    RedactedIs(rest, start - at, text[start..end], text[end..], rules);
    Regroup(out, text[at..start], rules.mark);
    Regroup(out, text[at..start] + rules.mark, Redacted(text[end..], rules));
  }
}
