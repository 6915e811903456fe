/** Reading a server-sent event stream as its bytes arrive (`SseParser` in crates/erpc-api/src/ai.rs).
    Turning the bytes of a complete block into text is the parameter `decode`. */
module EventStream {
  import opened Wrappers
  import opened Characters

  type Byte = b: nat | b < 256
  type Bytes = seq<Byte>

  const LF: Byte := 10
  const CR: Byte := 13

  datatype Event = Event(name: string, data: string)

  /** The bytes that count: a carriage return is only ever part of a line ending. */
  function Clean(bytes: Bytes): Bytes {
    if bytes == [] then []
    else
      var n := |bytes| - 1;
      if bytes[n] == CR then Clean(bytes[..n]) else Clean(bytes[..n]) + [bytes[n]]
  }

  predicate BlankLineAt(bytes: Bytes, i: nat) {
    i + 1 < |bytes| && bytes[i] == LF && bytes[i + 1] == LF
  }

  /** Where the first blank line begins. */
  function BlockEnd(bytes: Bytes): (end: Option<nat>)
    ensures end.Some? ==> end.value + 1 < |bytes|
  {
    if |bytes| < 2 then None
    else if bytes[0] == LF && bytes[1] == LF then Some(0)
    else match BlockEnd(bytes[1..]) case Some(i) => Some(i + 1) case None => None
  }

  lemma {:induction false} BlockEndIsFirst(bytes: Bytes)
    ensures BlockEnd(bytes).Some? ==> BlankLineAt(bytes, BlockEnd(bytes).value)
    ensures forall i: nat :: BlankLineAt(bytes, i) ==> BlockEnd(bytes).Some? && BlockEnd(bytes).value <= i
  {
    if |bytes| < 2 {
    } else {
      BlockEndIsFirst(bytes[1..]);
      forall i: nat | BlankLineAt(bytes, i) ensures BlockEnd(bytes).Some? && BlockEnd(bytes).value <= i {
        if i > 0 {
          assert BlankLineAt(bytes[1..], i - 1);
        }
      }
    }
  }

  // The lines of a block.

  /** `text` cut at every line feed. */
  function Cut(text: string): (lines: seq<string>)
    ensures |lines| > 0
    ensures forall i :: 0 <= i < |lines| ==> '\n' !in lines[i]
  {
    if text == "" then [""]
    else if text[0] == '\n' then [""] + Cut(text[1..])
    else var rest := Cut(text[1..]); [[text[0]] + rest[0]] + rest[1..]
  }

  function Join(lines: seq<string>): string {
    if |lines| == 0 then "" else if |lines| == 1 then lines[0] else lines[0] + "\n" + Join(lines[1..])
  }

  /** `text.lines()`: nothing after the last line feed is no line. */
  function Lines(text: string): seq<string> {
    var lines := Cut(text);
    if lines[|lines| - 1] == "" then lines[..|lines| - 1] else lines
  }

  /** What the lines so far said: the event's name, and its data lines if there are any. */
  datatype Block = Block(name: string, data: seq<string>)

  function ReadLine(block: Block, line: string): Block {
    if "event:" <= line then block.(name := Trim(line[6..]))
    else if "data:" <= line then
      var v := line[5..];
      block.(data := block.data + [if " " <= v then v[1..] else v])
    else block
  }

  function ReadLines(block: Block, lines: seq<string>): Block {
    if lines == [] then block else ReadLine(ReadLines(block, lines[..|lines| - 1]), lines[|lines| - 1])
  }

  /** The event of one block, if it has any data. */
  function EventOf(text: string): (events: seq<Event>)
    ensures |events| <= 1
  {
    var block := ReadLines(Block("message", []), Lines(text));
    if block.data == [] then [] else [Event(block.name, Join(block.data))]
  }

  // What one block can carry.

  function DataLines(lines: seq<string>): (r: seq<string>)
    ensures |r| == |lines|
  {
    if lines == [] then [] else DataLines(lines[..|lines| - 1]) + ["data: " + lines[|lines| - 1]]
  }

  /** The lines of the block that carries `e`. */
  function WrittenLines(e: Event): seq<string> {
    ["event: " + e.name] + DataLines(Cut(e.data))
  }

  function Written(e: Event): string {
    Join(WrittenLines(e))
  }

  lemma {:induction false} JoinCut(text: string)
    ensures Join(Cut(text)) == text
  {
    if text == "" {
    } else {
      var rest := Cut(text[1..]);
      JoinCut(text[1..]);
      if text[0] == '\n' {
        assert Cut(text)[1..] == rest;
        assert Join(Cut(text)) == "" + "\n" + text[1..];
      } else {
        var lines := Cut(text);
        assert lines[1..] == rest[1..];
        assert Join(lines) == [text[0]] + Join(rest);
      }
    }
  }

  lemma CutFirstLine(line: string, rest: string)
    requires '\n' !in line
    ensures Cut(line + "\n" + rest) == [line] + Cut(rest)
    decreases line
  {
    var text := line + "\n" + rest;
    if line == "" {
      assert text[1..] == rest;
    } else {
      CutFirstLine(line[1..], rest);
      assert text[1..] == line[1..] + "\n" + rest;
      assert text[0] == line[0] && [line[0]] + line[1..] == line;
      assert ([line[1..]] + Cut(rest))[1..] == Cut(rest);
    }
  }

  lemma {:induction false} CutOneLine(line: string)
    requires '\n' !in line
    ensures Cut(line) == [line]
  {
    if line == "" {
    } else {
      CutOneLine(line[1..]);
      assert [line[0]] + line[1..] == line;
    }
  }

  lemma {:induction false} CutJoin(lines: seq<string>)
    requires |lines| > 0 && forall i :: 0 <= i < |lines| ==> '\n' !in lines[i]
    ensures Cut(Join(lines)) == lines
  {
    if |lines| == 1 {
      CutOneLine(lines[0]);
    } else {
      CutFirstLine(lines[0], Join(lines[1..]));
      CutJoin(lines[1..]);
    }
  }

  lemma {:induction false} DataLinesAt(lines: seq<string>, i: nat)
    requires i < |lines|
    ensures DataLines(lines)[i] == "data: " + lines[i]
  {
    if i == |lines| - 1 {
    } else {
      DataLinesAt(lines[..|lines| - 1], i);
    }
  }

  lemma NoLineFeed(a: string, b: string)
    requires '\n' !in a && '\n' !in b
    ensures '\n' !in a + b
  {
  }

  lemma DataLineAdds(block: Block, line: string)
    ensures ReadLine(block, "data: " + line) == block.(data := block.data + [line])
  {
    var whole := "data: " + line;
    assert whole[..5] == "data:" && whole[0] != 'e';
    assert whole[5..] == " " + line;
    assert (" " + line)[1..] == line;
  }

  lemma {:induction false} ReadDataLines(block: Block, lines: seq<string>)
    requires block.data == []
    ensures ReadLines(block, DataLines(lines)) == block.(data := lines)
  {
    if lines == [] {
    } else {
      var n := |lines| - 1;
      ReadDataLines(block, lines[..n]);
      assert DataLines(lines)[..n] == DataLines(lines[..n]);
      DataLineAdds(block.(data := lines[..n]), lines[n]);
      assert lines[..n] + [lines[n]] == lines;
    }
  }

  lemma {:induction false} ReadLinesConcat(block: Block, a: seq<string>, b: seq<string>)
    ensures ReadLines(block, a + b) == ReadLines(ReadLines(block, a), b)
  {
    if b == [] {
      assert a + b == a;
    } else {
      ReadLinesConcat(block, a, b[..|b| - 1]);
      assert (a + b)[..|a| + |b| - 1] == a + b[..|b| - 1];
    }
  }

  lemma NameLineNames(block: Block, name: string)
    requires Trimmed(name)
    ensures ReadLine(block, "event: " + name) == block.(name := name)
  {
    var whole := "event: " + name;
    assert whole[..6] == "event:";
    assert whole[6..] == " " + name;
    assert (" " + name)[1..] == name;
    assert TrimStart(" " + name) == TrimStart(name) == name;
  }

  /** Every event with a plain name can be carried, whatever its data. */
  lemma EventOfWritten(e: Event)
    requires Trimmed(e.name) && '\n' !in e.name
    ensures EventOf(Written(e)) == [e]
  {
    var data := DataLines(Cut(e.data));
    var lines := WrittenLines(e);
    WrittenLinesAreLines(e);
    CutJoin(lines);
    assert Lines(Written(e)) == lines;
    var start := Block("message", []);
    ReadLinesConcat(start, ["event: " + e.name], data);
    NameOnly(start, e.name);
    ReadDataLines(Block(e.name, []), Cut(e.data));
    JoinCut(e.data);
  }

  lemma NameOnly(block: Block, name: string)
    requires Trimmed(name)
    ensures ReadLines(block, ["event: " + name]) == block.(name := name)
  {
    var lines := ["event: " + name];
    assert lines[..0] == [];
    NameLineNames(block, name);
  }

  // The stream.

  datatype Drained = Drained(events: seq<Event>, rest: Bytes)

  /** The events of every complete block, and what is left. */
  function Drain(bytes: Bytes, decode: Bytes -> string): Drained {
    match BlockEnd(bytes)
    case None => Drained([], bytes)
    case Some(end) =>
      var later := Drain(bytes[end + 2..], decode);
      Drained(EventOf(decode(bytes[..end])) + later.events, later.rest)
  }

  /** More events, after these. */
  function Then(events: seq<Event>, later: Drained): Drained {
    later.(events := events + later.events)
  }

  lemma {:induction false} SameEnd(a: Bytes, b: Bytes)
    requires BlockEnd(a).Some?
    ensures BlockEnd(a + b) == BlockEnd(a)
  {
    if a[0] == LF && a[1] == LF {
    } else {
      SameEnd(a[1..], b);
      assert (a + b)[1..] == a[1..] + b;
    }
  }

  /** The same blocks are complete whatever arrives after them. */
  lemma {:induction false} DrainMore(a: Bytes, b: Bytes, decode: Bytes -> string)
    ensures Drain(a + b, decode) == Then(Drain(a, decode).events, Drain(Drain(a, decode).rest + b, decode))
    decreases |a|
  {
    if BlockEnd(a).None? {
    } else {
      var end := BlockEnd(a).value;
      SameEnd(a, b);
      assert (a + b)[..end] == a[..end];
      assert (a + b)[end + 2..] == a[end + 2..] + b;
      DrainMore(a[end + 2..], b, decode);
      Regroup(EventOf(decode(a[..end])), Drain(a[end + 2..], decode).events,
              Drain(Drain(a, decode).rest + b, decode).events);
    }
  }

  lemma {:induction false} CleanConcat(a: Bytes, b: Bytes)
    ensures Clean(a + b) == Clean(a) + Clean(b)
  {
    if b == [] {
      assert a + b == a;
    } else {
      var n := |b| - 1;
      CleanConcat(a, b[..n]);
      assert (a + b)[..|a| + n] == a + b[..n];
    }
  }

  lemma {:induction false} LeftIsUnfinished(bytes: Bytes, decode: Bytes -> string)
    ensures BlockEnd(Drain(bytes, decode).rest) == None
    decreases |bytes|
  {
    if BlockEnd(bytes).None? {
    } else {
      LeftIsUnfinished(bytes[BlockEnd(bytes).value + 2..], decode);
    }
  }

  function Concat(chunks: seq<Bytes>): Bytes {
    if chunks == [] then [] else Concat(chunks[..|chunks| - 1]) + chunks[|chunks| - 1]
  }

  /** What pushing the chunks one after another gives: all the events, and what is left at the end. */
  function PushAll(chunks: seq<Bytes>, decode: Bytes -> string): Drained {
    if chunks == [] then Drained([], [])
    else
      var before := PushAll(chunks[..|chunks| - 1], decode);
      Then(before.events, Drain(before.rest + Clean(chunks[|chunks| - 1]), decode))
  }

  /** However the bytes are cut into chunks, the events and what is left are those of the whole, and
      what is left holds no complete block. */
  lemma {:induction false} ChunksDoNotMatter(chunks: seq<Bytes>, decode: Bytes -> string)
    ensures PushAll(chunks, decode) == Drain(Clean(Concat(chunks)), decode)
    ensures BlockEnd(PushAll(chunks, decode).rest) == None
  {
    LeftIsUnfinished(Clean(Concat(chunks)), decode);
    if chunks == [] {
    } else {
      var before, last := chunks[..|chunks| - 1], chunks[|chunks| - 1];
      ChunksDoNotMatter(before, decode);
      CleanConcat(Concat(before), last);
      DrainMore(Clean(Concat(before)), Clean(last), decode);
    }
  }

  /** Blocks, each closed by a blank line. */
  function Wire(raws: seq<Bytes>): Bytes {
    if raws == [] then [] else raws[0] + [LF, LF] + Wire(raws[1..])
  }

  /** A block whose own bytes do not end it early. */
  predicate Whole(raw: Bytes) {
    BlockEnd(raw + [LF, LF]) == Some(|raw|)
  }

  /** A stream of whole blocks is read as the events they carry, one for one and in order. */
  lemma {:induction false} WireCarries(raws: seq<Bytes>, events: seq<Event>, decode: Bytes -> string)
    requires |raws| == |events|
    requires forall i :: 0 <= i < |raws| ==> Whole(raws[i]) && EventOf(decode(raws[i])) == [events[i]]
    ensures Drain(Wire(raws), decode) == Drained(events, [])
  {
    if raws == [] {
    } else {
      var closed, later := raws[0] + [LF, LF], Wire(raws[1..]);
      SameEnd(closed, later);
      assert (closed + later)[..|raws[0]|] == raws[0];
      assert (closed + later)[|raws[0]| + 2..] == later;
      WireCarries(raws[1..], events[1..], decode);
      assert [events[0]] + events[1..] == events;
    }
  }

  // Text on the wire.

  type Spelling = char -> Bytes

  function Encoded(text: string, spell: Spelling): Bytes {
    if text == "" then [] else spell(text[0]) + Encoded(text[1..], spell)
  }

  /** An encoding in which a line feed and a carriage return are one byte each, which nothing else
      uses, and which `decode` undoes: UTF-8 is one. */
  ghost predicate Undoes(decode: Bytes -> string, spell: Spelling) {
    && spell('\n') == [LF]
    && (forall c :: spell(c) != [] && (c != '\n' ==> LF !in spell(c)) && (c != '\r' ==> CR !in spell(c)))
    && (forall text :: decode(Encoded(text, spell)) == text)
  }

  /** No two line feeds in a row, and none at either end. */
  predicate NoGap(text: string) {
    && text != "" && text[0] != '\n' && text[|text| - 1] != '\n'
    && forall i :: 0 <= i < |text| - 1 ==> !(text[i] == '\n' && text[i + 1] == '\n')
  }

  lemma {:induction false} SkipPlain(a: Bytes, b: Bytes)
    requires LF !in a && BlockEnd(b).Some?
    ensures BlockEnd(a + b) == Some(|a| + BlockEnd(b).value)
  {
    if a == [] {
      assert a + b == b;
    } else {
      assert (a + b)[1..] == a[1..] + b && (a + b)[0] == a[0];
      SkipPlain(a[1..], b);
    }
  }

  /** A text without gaps, from any character of it on, ends its block where it ends itself. */
  lemma {:induction false} GaplessIsWhole(text: string, spell: Spelling, decode: Bytes -> string)
    requires Undoes(decode, spell)
    requires text != "" ==> text[|text| - 1] != '\n'
    requires forall i :: 0 <= i < |text| - 1 ==> !(text[i] == '\n' && text[i + 1] == '\n')
    ensures Whole(Encoded(text, spell))
  {
    var ending := [LF, LF];
    if text == "" {
      assert Encoded(text, spell) + ending == ending;
    } else {
      var c, rest := text[0], Encoded(text[1..], spell);
      GaplessIsWhole(text[1..], spell, decode);
      assert Encoded(text, spell) + ending == spell(c) + (rest + ending);
      if c != '\n' {
        SkipPlain(spell(c), rest + ending);
      } else {
        FirstByte(text[1..], spell, decode);
        AfterLineFeed(rest + ending);
      }
    }
  }

  lemma FirstByte(text: string, spell: Spelling, decode: Bytes -> string)
    requires Undoes(decode, spell) && text != "" && text[0] != '\n'
    ensures Encoded(text, spell) != [] && Encoded(text, spell)[0] != LF
  {
    assert spell(text[0])[0] in spell(text[0]);
  }

  lemma AfterLineFeed(bytes: Bytes)
    requires bytes != [] && bytes[0] != LF && BlockEnd(bytes).Some?
    ensures BlockEnd([LF] + bytes) == Some(1 + BlockEnd(bytes).value)
  {
    assert ([LF] + bytes)[1..] == bytes;
  }

  lemma {:induction false} JoinHasNoGap(lines: seq<string>)
    requires |lines| > 0 && forall i :: 0 <= i < |lines| ==> '\n' !in lines[i] && lines[i] != ""
    ensures NoGap(Join(lines))
  {
    if |lines| == 1 {
      assert forall i :: 0 <= i < |lines[0]| ==> lines[0][i] != '\n';
    } else {
      JoinHasNoGap(lines[1..]);
      OneMoreLine(lines[0], Join(lines[1..]));
    }
  }

  lemma OneMoreLine(line: string, rest: string)
    requires '\n' !in line && line != "" && NoGap(rest)
    ensures NoGap(line + "\n" + rest)
  {
    var text := line + "\n" + rest;
    assert text[0] == line[0] && line[0] in line;
    assert text[|text| - 1] == rest[|rest| - 1];
    forall i | 0 <= i < |text| - 1 ensures !(text[i] == '\n' && text[i + 1] == '\n') {
      if i < |line| {
        assert text[i] == line[i] && line[i] in line;
      } else if i == |line| {
        assert text[i + 1] == rest[0];
      } else {
        assert text[i] == rest[i - |line| - 1] && text[i + 1] == rest[i - |line|];
      }
    }
  }

  /** An event that a block can carry: its name is plain, and no carriage return is in it. */
  predicate Carriable(e: Event) {
    Trimmed(e.name) && '\n' !in e.name && '\r' !in e.name && '\r' !in e.data
  }

  lemma WrittenLinesAreLines(e: Event)
    requires '\n' !in e.name
    ensures var lines := WrittenLines(e);
            forall i :: 0 <= i < |lines| ==> '\n' !in lines[i] && lines[i] != ""
  {
    var lines := WrittenLines(e);
    forall i | 0 <= i < |lines| ensures '\n' !in lines[i] && lines[i] != "" {
      if i == 0 {
        NoLineFeed("event: ", e.name);
      } else {
        DataLinesAt(Cut(e.data), i - 1);
        NoLineFeed("data: ", Cut(e.data)[i - 1]);
      }
    }
  }

  lemma {:induction false} CutKeepsCharacters(text: string, c: char)
    requires c !in text
    ensures forall i :: 0 <= i < |Cut(text)| ==> c !in Cut(text)[i]
  {
    if text == "" {
    } else {
      CutKeepsCharacters(text[1..], c);
      assert text[0] in text;
    }
  }

  lemma {:induction false} JoinKeepsCharacters(lines: seq<string>, c: char)
    requires c != '\n' && forall i :: 0 <= i < |lines| ==> c !in lines[i]
    ensures c !in Join(lines)
  {
    if |lines| <= 1 {
    } else {
      JoinKeepsCharacters(lines[1..], c);
    }
  }

  lemma NoReturnBehind(head: string, tail: string)
    requires '\r' !in head && '\r' !in tail
    ensures '\r' !in head + tail
  {
  }

  lemma LineHasNoReturn(e: Event, i: nat)
    requires Carriable(e) && i < |WrittenLines(e)|
    ensures '\r' !in WrittenLines(e)[i]
  {
    HeadsHaveNoReturn();
    if i == 0 {
      NoReturnBehind("event: ", e.name);
    } else {
      DataLineHasNoReturn(Cut(e.data), e.data, i - 1);
    }
  }

  lemma HeadsHaveNoReturn()
    ensures '\r' !in "event: " && '\r' !in "data: "
  {
  }

  lemma DataLineHasNoReturn(lines: seq<string>, data: string, i: nat)
    requires '\r' !in data && lines == Cut(data) && i < |lines|
    ensures '\r' !in DataLines(lines)[i]
  {
    HeadsHaveNoReturn();
    CutKeepsCharacters(data, '\r');
    DataLinesAt(lines, i);
    NoReturnBehind("data: ", lines[i]);
  }

  lemma WrittenHasNoReturn(e: Event)
    requires Carriable(e)
    ensures '\r' !in Written(e)
  {
    forall i | 0 <= i < |WrittenLines(e)| ensures '\r' !in WrittenLines(e)[i] {
      LineHasNoReturn(e, i);
    }
    JoinKeepsCharacters(WrittenLines(e), '\r');
  }

  lemma {:induction false} EncodedHasNoReturn(text: string, spell: Spelling, decode: Bytes -> string)
    requires Undoes(decode, spell) && '\r' !in text
    ensures CR !in Encoded(text, spell)
  {
    if text == "" {
    } else {
      assert text[0] in text;
      EncodedHasNoReturn(text[1..], spell, decode);
    }
  }

  lemma {:induction false} CleanStays(bytes: Bytes)
    requires CR !in bytes
    ensures Clean(bytes) == bytes
  {
    if bytes == [] {
    } else {
      var n := |bytes| - 1;
      CleanStays(bytes[..n]);
      assert bytes[n] in bytes && bytes[..n] + [bytes[n]] == bytes;
    }
  }

  /** The events as a server sends them. */
  function Sent(events: seq<Event>, spell: Spelling): (raws: seq<Bytes>)
    ensures |raws| == |events|
  {
    seq(|events|, i requires 0 <= i < |events| => Encoded(Written(events[i]), spell))
  }

  lemma {:induction false} WireHasNoReturn(raws: seq<Bytes>)
    requires forall i :: 0 <= i < |raws| ==> CR !in raws[i]
    ensures CR !in Wire(raws)
  {
    if raws == [] {
    } else {
      WireHasNoReturn(raws[1..]);
    }
  }

  lemma EventIsCarried(e: Event, spell: Spelling, decode: Bytes -> string)
    requires Undoes(decode, spell) && Carriable(e)
    ensures var raw := Encoded(Written(e), spell); Whole(raw) && EventOf(decode(raw)) == [e] && CR !in raw
  {
    WrittenLinesAreLines(e);
    JoinHasNoGap(WrittenLines(e));
    GaplessIsWhole(Written(e), spell, decode);
    EventOfWritten(e);
    WrittenHasNoReturn(e);
    EncodedHasNoReturn(Written(e), spell, decode);
  }

  /** Any events with plain names, sent one after another and cut into any chunks on the way, are
      pushed out again as they were, and nothing is left. */
  lemma SentEventsArrive(events: seq<Event>, chunks: seq<Bytes>, spell: Spelling, decode: Bytes -> string)
    requires Undoes(decode, spell) && forall i :: 0 <= i < |events| ==> Carriable(events[i])
    requires Concat(chunks) == Wire(Sent(events, spell))
    ensures PushAll(chunks, decode) == Drained(events, [])
  {
    var raws := Sent(events, spell);
    forall i | 0 <= i < |raws| ensures Whole(raws[i]) && EventOf(decode(raws[i])) == [events[i]] && CR !in raws[i] {
      EventIsCarried(events[i], spell, decode);
    }
    WireHasNoReturn(raws);
    CleanStays(Wire(raws));
    WireCarries(raws, events, decode);
    ChunksDoNotMatter(chunks, decode);
  }

  /** `SseParser`. `read` is everything it was given. */
  class SseParser {
    var pending: Bytes
    ghost var read: Bytes

    ghost predicate Valid(decode: Bytes -> string)
      reads this
    {
      pending == Drain(Clean(read), decode).rest
    }

    constructor ()
      ensures pending == [] && read == []
      ensures forall decode :: Valid(decode)
    {
      pending, read := [], [];
    }

    /** The events the bytes complete: with those of before, the events of everything read. */
    method Push(bytes: Bytes, decode: Bytes -> string) returns (events: seq<Event>)
      requires Valid(decode)
      modifies this
      ensures Valid(decode) && read == old(read) + bytes
      ensures Drain(Clean(read), decode) == Then(old(Drain(Clean(read), decode).events), Drained(events, pending))
      ensures BlockEnd(pending) == None
    {
      ghost var was := pending;
      KeepCounted(bytes);
      events := TakeBlocks(decode);
      CleanConcat(read, bytes);
      DrainMore(Clean(read), Clean(bytes), decode);
      read := read + bytes;
    }

    /** Takes every complete block out of what is pending. */
    method TakeBlocks(decode: Bytes -> string) returns (events: seq<Event>)
      modifies this`pending
      ensures Drained(events, pending) == old(Drain(pending, decode))
      ensures BlockEnd(pending) == None
    {
      ghost var all := Drain(pending, decode);
      events := [];
      var end := BlockEnd(pending);
      while end.Some?
        invariant end == BlockEnd(pending)
        invariant all == Then(events, Drain(pending, decode))
        decreases |pending|
      {
        var raw := pending[..end.value + 2];
        var block := raw[..end.value];
        assert block == pending[..end.value];
        Regroup(events, EventOf(decode(block)), Drain(pending[end.value + 2..], decode).events);
        pending := pending[end.value + 2..];
        events := events + EventOf(decode(block));
        end := BlockEnd(pending);
      }
    }

    /** Takes in the bytes that count. */
    method KeepCounted(bytes: Bytes)
      modifies this`pending
      ensures pending == old(pending) + Clean(bytes)
    {
      for i := 0 to |bytes|
        invariant pending == old(pending) + Clean(bytes[..i])
      {
        assert bytes[..i + 1][..i] == bytes[..i];
        if bytes[i] != CR {
          pending := pending + [bytes[i]];
        }
      }
      assert bytes[..|bytes|] == bytes;
    }
  }
}
