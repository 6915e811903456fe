/** Showing a command before it runs (`shown`, `quote` and `shown_script` in
    crates/erpc-ai/src/commands.rs), and reading what is shown back. */
module Printer {
  import opened Wrappers
  import opened Characters
  import Positional

  /** Whether `c` takes no room, breaks the line, or reorders the text around it. */
  predicate Hidden(c: char) {
    || c == '\U{00AD}' || c == '\U{034F}' || c == '\U{061C}' || c == '\U{180E}'
    || '\U{200B}' <= c <= '\U{200F}' || '\U{2028}' <= c <= '\U{202E}' || '\U{2060}' <= c <= '\U{206F}'
    || '\U{FE00}' <= c <= '\U{FE0F}' || c == '\U{FEFF}' || '\U{E0000}' <= c <= '\U{E0FFF}'
  }

  predicate Unseen(c: char) {
    IsControl(c) || Hidden(c)
  }

  // Characters by number.

  function HexDigit(d: nat): char {
    if d < 10 then ('0' as nat + d) as char else if d < 16 then ('a' as nat + d - 10) as char else '?'
  }

  function DigitOf(c: char): Option<nat> {
    if '0' <= c <= '9' then Some(c as nat - '0' as nat)
    else if 'a' <= c <= 'f' then Some(c as nat - 'a' as nat + 10)
    else None
  }

  function HexText(ds: seq<nat>): string {
    if ds == [] then "" else HexText(ds[..|ds| - 1]) + [HexDigit(ds[|ds| - 1])]
  }

  /** `\u{…}`, with as few digits as the number needs. */
  function Escape(c: char): string {
    "\\u{" + HexText(Positional.Digits(16, c as nat)) + "}"
  }

  /** The number written in the digits up to the brace that closes them, and what follows. */
  function ReadHex(text: string, before: nat): Option<(nat, string)>
  {
    if text == "" then None
    else if text[0] == '}' then Some((before, text[1..]))
    else match DigitOf(text[0]) case Some(d) => ReadHex(text[1..], before * 16 + d) case None => None
  }

  predicate IsScalar(n: nat) {
    n < 0xD800 || 0xE000 <= n < 0x11_0000
  }

  function ReadEscape(text: string): Option<(char, string)> {
    match ReadHex(text, 0)
    case Some((n, rest)) => if IsScalar(n) then Some((n as char, rest)) else None
    case None => None
  }

  lemma {:induction false} ReadHexDigits(ds: seq<nat>, rest: string)
    requires Positional.InBase(16, ds)
    ensures ReadHex(HexText(ds) + rest, 0) == ReadHex(rest, Positional.Value(16, ds))
  {
    if ds == [] {
      assert HexText(ds) + rest == rest;
    } else {
      var front, d := ds[..|ds| - 1], ds[|ds| - 1];
      var more := [HexDigit(d)] + rest;
      assert HexText(ds) + rest == HexText(front) + more;
      ReadHexDigits(front, more);
      HexDigitReads(d);
      assert more[1..] == rest;
    }
  }

  lemma HexDigitReads(d: nat)
    requires d < 16
    ensures HexDigit(d) != '}' && DigitOf(HexDigit(d)) == Some(d) && !Unseen(HexDigit(d))
  {
  }

  lemma ReadEscapeReads(c: char, rest: string)
    ensures ReadEscape(HexText(Positional.Digits(16, c as nat)) + "}" + rest) == Some((c, rest))
  {
    var ds := Positional.Digits(16, c as nat);
    Positional.DigitsAreShortest(16, c as nat);
    assert HexText(ds) + "}" + rest == HexText(ds) + ("}" + rest);
    ReadHexDigits(ds, "}" + rest);
    assert ("}" + rest)[1..] == rest;
  }

  /** Every character of `text` as `shows` shows it. */
  function Spelled(text: string, shows: char -> string): string {
    if text == "" then "" else Spelled(text[..|text| - 1], shows) + shows(text[|text| - 1])
  }

  lemma {:induction false} SpelledFront(c: char, text: string, shows: char -> string)
    ensures Spelled([c] + text, shows) == shows(c) + Spelled(text, shows)
  {
    if text == "" {
      assert [c] + text == [c] && [c][..0] == "";
    } else {
      var n := |text| - 1;
      var front, last := text[..n], text[n];
      SpelledFront(c, front, shows);
      SpelledAppend(front, last, shows);
      SpelledAppend([c] + front, last, shows);
      CutAt(text, n);
      assert text[n..] == [last];
      Regroup([c], front, [last]);
      Regroup(shows(c), Spelled(front, shows), shows(last));
    }
  }

  lemma SpelledAppend(text: string, c: char, shows: char -> string)
    ensures Spelled(text + [c], shows) == Spelled(text, shows) + shows(c)
  {
    assert (text + [c])[..|text|] == text;
  }

  lemma SpelledMore(text: string, i: nat, shows: char -> string)
    requires i < |text|
    ensures Spelled(text[..i + 1], shows) == Spelled(text[..i], shows) + shows(text[i])
  {
    assert text[..i + 1][..i] == text[..i];
  }

  // A script.

  function ScriptShows(c: char): string {
    if c == '\\' then "\\\\"
    else if c == '\n' then "\\n"
    else if c == '\t' then "\\t"
    else if Unseen(c) then Escape(c)
    else [c]
  }

  function ScriptLine(script: string): string {
    Spelled(script, ScriptShows)
  }

  /** `shown_script`. */
  method ShownScript(script: string) returns (out: string)
    ensures out == ScriptLine(script)
  {
    out := "";
    for i := 0 to |script|
      invariant out == ScriptLine(script[..i])
    {
      SpelledMore(script, i, ScriptShows);
      out := PushScript(out, script[i]);
    }
    assert script[..|script|] == script;
  }

  method PushScript(before: string, c: char) returns (out: string)
    ensures out == before + ScriptShows(c)
  {
    out := before;
    match c {
      case '\\' => out := out + "\\\\";
      case '\n' => out := out + "\\n";
      case '\t' => out := out + "\\t";
      case _ =>
        if IsControl(c) || Hidden(c) {
          out := out + Escape(c);
        } else {
          out := out + [c];
        }
    }
  }

  /** The first character that `text` shows, and what follows. */
  function ScriptCharacter(text: string): Option<(char, string)>
    requires text != ""
  {
    if text[0] != '\\' then Some((text[0], text[1..]))
    else if |text| == 1 then None
    else match text[1]
      case '\\' => Some(('\\', text[2..]))
      case 'n' => Some(('\n', text[2..]))
      case 't' => Some(('\t', text[2..]))
      case _ => ReadBraced(text)
  }

  function ReadBraced(text: string): Option<(char, string)> {
    if |text| > 2 && text[1] == 'u' && text[2] == '{' then ReadEscape(text[3..]) else None
  }

  lemma ReadBracedReads(c: char, rest: string)
    ensures ReadBraced(Escape(c) + rest) == Some((c, rest))
    ensures |Escape(c)| > 3 && Escape(c)[..3] == "\\u{"
  {
    var ds := HexText(Positional.Digits(16, c as nat));
    var text := Escape(c) + rest;
    assert text[1] == 'u' && text[2] == '{' && text[3..] == ds + "}" + rest;
    ReadEscapeReads(c, rest);
    Positional.DigitsAreShortest(16, c as nat);
  }

  /** A script, read back from what is shown of it. */
  function ReadScript(text: string): Option<string>
    decreases |text|
  {
    if text == "" then Some("")
    else match ScriptCharacter(text)
      case None => None
      case Some((c, rest)) =>
        if |rest| >= |text| then None
        else match ReadScript(rest) case Some(more) => Some([c] + more) case None => None
  }

  lemma ScriptCharacterReads(c: char, rest: string)
    ensures ScriptCharacter(ScriptShows(c) + rest) == Some((c, rest))
    ensures ScriptShows(c) != ""
  {
    var text := ScriptShows(c) + rest;
    if c == '\\' || c == '\n' || c == '\t' {
      assert |ScriptShows(c)| == 2 && text[0] == '\\' && text[2..] == rest;
    } else if Unseen(c) {
      ReadBracedReads(c, rest);
      assert text[0] == '\\' && text[1] == 'u';
    } else {
      assert text[1..] == rest;
    }
  }

  /** No two scripts are shown alike: what is shown can be read back. */
  lemma {:induction false} ScriptReadsBack(script: string)
    ensures ReadScript(ScriptLine(script)) == Some(script)
  {
    if script == "" {
    } else {
      var c, more := script[0], script[1..];
      assert script == [c] + more;
      SpelledFront(c, more, ScriptShows);
      ScriptReadsBack(more);
      ReadScriptStep(c, ScriptLine(more));
    }
  }

  lemma ReadScriptStep(c: char, rest: string)
    requires ReadScript(rest).Some?
    ensures ReadScript(ScriptShows(c) + rest) == Some([c] + ReadScript(rest).value)
  {
    ScriptCharacterReads(c, rest);
  }

  // A command.

  predicate PlainCharacter(c: char) {
    || 'a' <= c <= 'z' || 'A' <= c <= 'Z' || '0' <= c <= '9'
    || c == '-' || c == '_' || c == '.' || c == '/' || c == '=' || c == ':' || c == ',' || c == '+' || c == '@'
    || c == '%' || c == '^'
  }

  predicate AllPlain(text: string) {
    forall i :: 0 <= i < |text| ==> PlainCharacter(text[i])
  }

  predicate Plain(arg: string) {
    arg != "" && AllPlain(arg)
  }

  function QuoteShows(c: char): string {
    if c == '\'' then "'\\''"
    else if c == '\\' then "\\\\"
    else if Unseen(c) then Escape(c)
    else [c]
  }

  function QuoteBody(arg: string): string {
    Spelled(arg, QuoteShows)
  }

  function Quoted(arg: string): string {
    if Plain(arg) then arg else "'" + QuoteBody(arg) + "'"
  }

  /** `quote`. */
  method Quote(arg: string) returns (out: string)
    ensures out == Quoted(arg)
  {
    if Plain(arg) {
      return arg;
    }
    out := "'";
    for i := 0 to |arg|
      invariant out == "'" + QuoteBody(arg[..i])
    {
      SpelledMore(arg, i, QuoteShows);
      out := PushQuoted(out, arg[i]);
    }
    assert arg[..|arg|] == arg;
    out := out + "'";
  }

  method PushQuoted(before: string, c: char) returns (out: string)
    ensures out == before + QuoteShows(c)
  {
    out := before;
    match c {
      case '\'' => out := out + "'\\''";
      case '\\' => out := out + "\\\\";
      case _ =>
        if IsControl(c) || Hidden(c) {
          out := out + Escape(c);
        } else {
          out := out + [c];
        }
    }
  }

  /** `shown`: the arguments, quoted where they have to be, with a space between any two. */
  function Shown(argv: seq<string>): string {
    if argv == [] then "" else if |argv| == 1 then Quoted(argv[0]) else Quoted(argv[0]) + " " + Shown(argv[1..])
  }

  /** A quote inside a quoted argument: it closes the quotes, stands for itself, and opens them again. */
  predicate QuoteInside(text: string) {
    |text| >= 4 && text[0] == '\'' && text[1] == '\\' && text[2] == '\'' && text[3] == '\''
  }

  function QuoteCharacter(text: string): Option<(char, string)>
    requires text != ""
  {
    if QuoteInside(text) then Some(('\'', text[4..]))
    else if text[0] != '\\' then Some((text[0], text[1..]))
    else if |text| > 1 && text[1] == '\\' then Some(('\\', text[2..]))
    else ReadBraced(text)
  }

  /** An argument whose opening quote has been read, and what follows its closing one. */
  function ReadQuoted(text: string): Option<(string, string)>
    decreases |text|
  {
    if text == "" then None
    else if text[0] == '\'' && !QuoteInside(text) then Some(("", text[1..]))
    else match QuoteCharacter(text)
      case None => None
      case Some((c, rest)) =>
        if |rest| >= |text| then None
        else match ReadQuoted(rest) case Some((more, after)) => Some(([c] + more, after)) case None => None
  }

  function ReadPlain(text: string): (string, string) {
    if text == "" || !PlainCharacter(text[0]) then ("", text)
    else var (more, after) := ReadPlain(text[1..]); ([text[0]] + more, after)
  }

  function ReadArgument(text: string): Option<(string, string)> {
    if text != "" && text[0] == '\'' then ReadQuoted(text[1..]) else Some(ReadPlain(text))
  }

  /** The arguments, read back from what is shown of them. */
  function ReadCommand(text: string): Option<seq<string>>
    decreases |text|
  {
    if text == "" then Some([])
    else match ReadArgument(text)
      case None => None
      case Some((arg, after)) =>
        if after == "" then Some([arg])
        else if after[0] != ' ' || |after| >= |text| then None
        else match ReadCommand(after[1..]) case Some(more) => Some([arg] + more) case None => None
  }

  lemma QuoteCharacterReads(c: char, rest: string)
    ensures QuoteShows(c) != "" && QuoteCharacter(QuoteShows(c) + rest) == Some((c, rest))
    ensures (QuoteShows(c) + rest)[0] == '\'' <==> QuoteInside(QuoteShows(c) + rest)
  {
    var text := QuoteShows(c) + rest;
    if c == '\'' {
      assert QuoteInside(text) && text[4..] == rest;
    } else if c == '\\' {
      assert text[0] == '\\' && text[1] == '\\' && text[2..] == rest;
    } else if Unseen(c) {
      ReadBracedReads(c, rest);
      assert text[0] == '\\' && text[1] == 'u';
    } else {
      assert text[1..] == rest;
    }
  }

  /** What may stand behind an argument: nothing, or the space before the next. */
  predicate Behind(text: string) {
    text != "" ==> text[0] == ' '
  }

  lemma ReadQuotedStep(c: char, rest: string)
    requires ReadQuoted(rest).Some?
    ensures ReadQuoted(QuoteShows(c) + rest) == Some(([c] + ReadQuoted(rest).value.0, ReadQuoted(rest).value.1))
  {
    QuoteCharacterReads(c, rest);
  }

  lemma {:induction false} ReadQuotedReads(arg: string, after: string)
    requires Behind(after)
    ensures ReadQuoted(QuoteBody(arg) + ("'" + after)) == Some((arg, after))
    decreases |arg|
  {
    var closing := "'" + after;
    if arg == "" {
      assert QuoteBody(arg) + closing == closing && closing[1..] == after;
    } else {
      var c, more := arg[0], arg[1..];
      assert arg == [c] + more;
      SpelledFront(c, more, QuoteShows);
      assert QuoteBody(arg) + closing == QuoteShows(c) + (QuoteBody(more) + closing);
      ReadQuotedReads(more, after);
      ReadQuotedStep(c, QuoteBody(more) + closing);
    }
  }

  lemma {:induction false} ReadPlainReads(arg: string, after: string)
    requires Behind(after) && AllPlain(arg)
    ensures ReadPlain(arg + after) == (arg, after)
  {
    if arg == "" {
      assert arg + after == after;
    } else {
      assert (arg + after)[1..] == arg[1..] + after && (arg + after)[0] == arg[0];
      ReadPlainReads(arg[1..], after);
      assert [arg[0]] + arg[1..] == arg;
    }
  }

  lemma BeginsPlain(arg: string, after: string)
    requires Plain(arg)
    ensures arg + after != "" && (arg + after)[0] != '\''
  {
    assert PlainCharacter(arg[0]) && (arg + after)[0] == arg[0];
  }

  lemma BeginsQuoted(body: string, after: string)
    ensures var text := "'" + body + "'" + after; text[0] == '\'' && text[1..] == body + ("'" + after)
  {
  }

  lemma ReadArgumentReads(arg: string, after: string)
    requires Behind(after)
    ensures Quoted(arg) != "" && ReadArgument(Quoted(arg) + after) == Some((arg, after))
  {
    if Plain(arg) {
      ReadPlainReads(arg, after);
      BeginsPlain(arg, after);
    } else {
      ReadQuotedReads(arg, after);
      BeginsQuoted(QuoteBody(arg), after);
    }
  }

  lemma ReadCommandStep(quoted: string, arg: string, shown: string)
    requires quoted != "" && shown != "" && ReadCommand(shown).Some?
    requires ReadArgument(quoted + (" " + shown)) == Some((arg, " " + shown))
    ensures ReadCommand(quoted + (" " + shown)) == Some([arg] + ReadCommand(shown).value)
  {
    assert (" " + shown)[1..] == shown;
  }

  lemma ReadsOne(arg: string)
    ensures ReadCommand(Quoted(arg)) == Some([arg]) && Quoted(arg) != ""
  {
    ReadArgumentReads(arg, "");
    assert Quoted(arg) + "" == Quoted(arg);
  }

  lemma ReadsMore(arg: string, shown: string)
    requires shown != "" && ReadCommand(shown).Some?
    ensures ReadCommand(Quoted(arg) + " " + shown) == Some([arg] + ReadCommand(shown).value)
  {
    ReadArgumentReads(arg, " " + shown);
    ReadCommandStep(Quoted(arg), arg, shown);
    assert Quoted(arg) + " " + shown == Quoted(arg) + (" " + shown);
  }

  lemma ShownSomething(argv: seq<string>)
    requires argv != []
    ensures Shown(argv) != ""
  {
    ReadsOne(argv[0]);
  }

  /** No two commands are shown alike: what is shown can be read back. */
  lemma {:induction false} CommandReadsBack(argv: seq<string>)
    ensures ReadCommand(Shown(argv)) == Some(argv)
    decreases |argv|
  {
    if argv == [] {
    } else {
      FirstAndRest(argv, []);
      if |argv| == 1 {
        ReadsOne(argv[0]);
        assert argv == [argv[0]];
      } else {
        ShownSomething(argv[1..]);
        CommandReadsBack(argv[1..]);
        ReadsMore(argv[0], Shown(argv[1..]));
      }
    }
  }

  lemma ShownAlikeIsAlike(a: seq<string>, b: seq<string>)
    requires Shown(a) == Shown(b)
    ensures a == b
  {
    CommandReadsBack(a);
    CommandReadsBack(b);
  }

  // What is shown can be seen.

  predicate Seen(text: string) {
    forall i :: 0 <= i < |text| ==> !Unseen(text[i])
  }

  lemma {:induction false} HexIsSeen(ds: seq<nat>)
    requires Positional.InBase(16, ds)
    ensures Seen(HexText(ds))
  {
    if ds == [] {
    } else {
      HexIsSeen(ds[..|ds| - 1]);
      HexDigitReads(ds[|ds| - 1]);
    }
  }

  lemma EscapeIsSeen(c: char)
    ensures Seen(Escape(c))
  {
    Positional.DigitsAreShortest(16, c as nat);
    HexIsSeen(Positional.Digits(16, c as nat));
  }

  lemma SeenConcat(a: string, b: string)
    requires Seen(a) && Seen(b)
    ensures Seen(a + b)
  {
  }

  lemma {:induction false} SpelledIsSeen(text: string, shows: char -> string)
    requires forall c :: Seen(shows(c))
    ensures Seen(Spelled(text, shows))
  {
    if text == "" {
    } else {
      SpelledIsSeen(text[..|text| - 1], shows);
      SeenConcat(Spelled(text[..|text| - 1], shows), shows(text[|text| - 1]));
    }
  }

  /** A script is shown on one line, without a character that does not show. */
  lemma ScriptIsSeen(script: string)
    ensures Seen(ScriptLine(script))
  {
    forall c ensures Seen(ScriptShows(c)) {
      EscapeIsSeen(c);
    }
    SpelledIsSeen(script, ScriptShows);
  }

  lemma QuotedIsSeen(arg: string)
    ensures Seen(Quoted(arg))
  {
    forall c ensures Seen(QuoteShows(c)) {
      EscapeIsSeen(c);
    }
    SpelledIsSeen(arg, QuoteShows);
    if Plain(arg) {
      assert forall i :: 0 <= i < |arg| ==> PlainCharacter(arg[i]);
    } else {
      SeenConcat("'", QuoteBody(arg));
      SeenConcat("'" + QuoteBody(arg), "'");
    }
  }

  /** A command is shown on one line, without a character that does not show. */
  lemma {:induction false} CommandIsSeen(argv: seq<string>)
    ensures Seen(Shown(argv))
  {
    if argv == [] {
    } else {
      QuotedIsSeen(argv[0]);
      CommandIsSeen(argv[1..]);
      SeenConcat(Quoted(argv[0]), " ");
      SeenConcat(Quoted(argv[0]) + " ", Shown(argv[1..]));
    }
  }
}
