/** Rebuilding an answer from the changes a stream announces (`apply` and `append` in
    crates/erpc-api/src/ai.rs). Reading JSON is the parameter `parse`. */
module Answer {
  import opened Wrappers
  import opened Characters
  import opened Json
  import opened EventStream

  type Parser = string -> Option<Value>

  datatype Refusal = Refusal(category: Option<string>, explanation: Option<string>)

  datatype Answer = Answer(
    text: string,
    content: seq<Value>,
    stopReason: Option<string>,
    refusal: Option<Refusal>,
    inputTokens: Option<nat>,
    cacheReadTokens: Option<nat>,
    outputTokens: Option<nat>)

  const EMPTY := Answer("", [], None, None, None, None, None)

  /** Where a tool call's input collects while it streams. */
  const PARTIAL_INPUT := "erpc_partial_input"

  // What an event announces.

  datatype Piece = Said(words: string) | Added(field: string, part: string) | Unknown

  datatype Change =
    | Started(input: Option<nat>, cached: Option<nat>)
    | BlockStarts(index: nat, block: Value)
    | BlockGrows(at: Option<nat>, piece: Piece)
    | BlockStops(stopped: Option<nat>)
    | Ended(reason: Option<string>, refused: Option<Refusal>, output: Option<nat>)
    | Failed(kind: string)
    | Ignored

  function PieceOf(delta: Option<Value>): Piece {
    match delta
    case None => Unknown
    case Some(d) =>
      var part := (kind: string, name: string, field: string) =>
        match AsText(Field(d, name)) case Some(text) => Added(field, text) case None => Unknown;
      match AsText(Field(d, "type"))
      case None => Unknown
      case Some(kind) =>
        if kind == "text_delta" then
          Said(match AsText(Field(d, "text")) case Some(text) => text case None => "")
        else if kind == "thinking_delta" then part(kind, "thinking", "thinking")
        else if kind == "signature_delta" then part(kind, "signature", "signature")
        else if kind == "input_json_delta" then part(kind, "partial_json", PARTIAL_INPUT)
        else Unknown
  }

  predicate Reorders(c: char) {
    || c == '\U{061C}' || c == '\U{200E}' || c == '\U{200F}'
    || '\U{202A}' <= c <= '\U{202E}' || '\U{2066}' <= c <= '\U{2069}'
  }

  predicate AllVisible(text: string) {
    forall i :: 0 <= i < |text| ==> !IsControl(text[i]) && !Reorders(text[i])
  }

  function Visible(text: string): (r: string)
    ensures AllVisible(r)
  {
    if text == "" then ""
    else (if IsControl(text[0]) || Reorders(text[0]) then "" else [text[0]]) + Visible(text[1..])
  }

  /** A message from the server, cut to one printable line. */
  function Printable(text: string): (r: string)
    ensures |r| <= 300 && AllVisible(r)
  {
    var shown := Visible(text);
    if |shown| <= 300 then shown else shown[..300]
  }

  /** A short printable text is left as it is. */
  lemma {:induction false} PrintableStays(text: string)
    requires AllVisible(text)
    ensures Visible(text) == text
    ensures |text| <= 300 ==> Printable(text) == text
  {
    if text == "" {
    } else {
      PrintableStays(text[1..]);
      assert [text[0]] + text[1..] == text;
    }
  }

  function Detail(v: Value, field: string): Option<string> {
    match AsText(At(v, ["delta", "stop_details", field])) case Some(text) => Some(Printable(text)) case None => None
  }

  function EndOf(v: Value): Change {
    var reason := AsText(At(v, ["delta", "stop_reason"]));
    var refused :=
      if reason == Some("refusal") then Some(Refusal(Detail(v, "category"), Detail(v, "explanation"))) else None;
    Ended(reason, refused, AsNat(At(v, ["usage", "output_tokens"])))
  }

  function ChangeOf(v: Value, event: string): Change {
    var kind := match AsText(Field(v, "type")) case Some(kind) => kind case None => event;
    var index := AsNat(Field(v, "index"));
    if kind == "message_start" then
      Started(AsNat(At(v, ["message", "usage", "input_tokens"])),
              AsNat(At(v, ["message", "usage", "cache_read_input_tokens"])))
    else if kind == "content_block_start" then
      match (index, Field(v, "content_block"))
      case (Some(i), Some(block)) => BlockStarts(i, block)
      case _ => Ignored
    else if kind == "content_block_delta" then BlockGrows(index, PieceOf(Field(v, "delta")))
    else if kind == "content_block_stop" then BlockStops(index)
    else if kind == "message_delta" then EndOf(v)
    else if kind == "error" then
      Failed(Printable(match AsText(At(v, ["error", "type"])) case Some(text) => text case None => "error"))
    else Ignored
  }

  /** Data that is no JSON announces nothing. */
  function Announced(e: Event, parse: Parser): Change {
    match parse(e.data) case Some(v) => ChangeOf(v, e.name) case None => Ignored
  }

  // What a change does to one block.

  function TextOf(block: Value, field: string): string {
    match AsText(Field(block, field)) case Some(text) => text case None => ""
  }

  /** Whether `field` can be appended to: it is text, or not there yet. */
  predicate Growable(block: Value, field: string) {
    block.Object? && (field in block.fields ==> block.fields[field].Text?)
  }

  function Append(block: Value, field: string, text: string): Value {
    if Growable(block, field) then block.(fields := block.fields[field := Text(TextOf(block, field) + text)]) else block
  }

  function Grow(block: Value, piece: Piece): Value {
    match piece
    case Said(words) => Append(block, "text", words)
    case Added(field, part) => Append(block, field, part)
    case Unknown => block
  }

  function WithoutPartial(block: Value): Value {
    if block.Object? then block.(fields := block.fields - {PARTIAL_INPUT}) else block
  }

  /** What collected becomes the input of the call. */
  function Finish(block: Value, parse: Parser): Result<Value, string> {
    var json := TextOf(block, PARTIAL_INPUT);
    if json == "" then Ok(WithoutPartial(block))
    else match parse(json)
      case Some(input) =>
        var rest := WithoutPartial(block);
        Ok(if rest.Object? then rest.(fields := rest.fields["input" := input]) else rest)
      case None => Err("a tool call's input was not JSON")
  }

  // What a change does to the answer.

  function Pad(content: seq<Value>, index: nat): (r: seq<Value>)
    ensures |r| == (if |content| <= index then index + 1 else |content|)
    ensures content <= r && forall i :: |content| <= i < |r| ==> r[i] == Null
    decreases index + 1 - |content|
  {
    if |content| <= index then Pad(content + [Null], index) else content
  }

  /** The answer, what `on_text` was called with, and the error that ends the reading. */
  datatype Reading = Reading(answer: Answer, heard: string, error: Option<string>)

  function SaidBy(c: Change): string {
    if c.BlockGrows? && c.piece.Said? then c.piece.words else ""
  }

  function Grown(content: seq<Value>, at: Option<nat>, piece: Piece): (r: seq<Value>)
    ensures |r| == |content|
  {
    match at
    case Some(i) => if i < |content| then content[i := Grow(content[i], piece)] else content
    case None => content
  }

  /** The content after a stop, and why the reading fails, if it does: what collected is gone in any case. */
  function Stopped(content: seq<Value>, at: Option<nat>, parse: Parser): (seq<Value>, Option<string>) {
    match at
    case Some(i) =>
      if i < |content| then
        match Finish(content[i], parse)
        case Ok(block) => (content[i := block], None)
        case Err(error) => (content[i := WithoutPartial(content[i])], Some(error))
      else (content, None)
    case None => (content, None)
  }

  function Apply(r: Reading, c: Change, parse: Parser): Reading {
    var a := r.answer;
    match c
    case Started(input, cached) => r.(answer := a.(inputTokens := input, cacheReadTokens := cached))
    case BlockStarts(index, block) => r.(answer := a.(content := Pad(a.content, index)[index := block]))
    case BlockGrows(at, piece) =>
      Reading(a.(content := Grown(a.content, at, piece), text := a.text + SaidBy(c)), r.heard + SaidBy(c), r.error)
    case BlockStops(at) =>
      var (content, error) := Stopped(a.content, at, parse);
      Reading(a.(content := content), r.heard, if error.Some? then error else r.error)
    case Ended(reason, refused, output) =>
      r.(answer := a.(stopReason := reason, outputTokens := output,
                      refusal := if refused.Some? then refused else a.refusal))
    case Failed(kind) => r.(error := Some(kind))
    case Ignored => r
  }

  /** The changes one after another, until one of them ends the reading. */
  function Run(r: Reading, cs: seq<Change>, parse: Parser): Reading {
    if cs == [] then r
    else
      var before := Run(r, cs[..|cs| - 1], parse);
      if before.error.Some? then before else Apply(before, cs[|cs| - 1], parse)
  }

  // The text of the answer is what was passed on.

  function AllSaid(cs: seq<Change>): string {
    if cs == [] then "" else AllSaid(cs[..|cs| - 1]) + SaidBy(cs[|cs| - 1])
  }

  /** At every moment, also when an error has ended the reading. */
  lemma {:induction false} TextIsWhatWasHeard(r: Reading, cs: seq<Change>, parse: Parser)
    requires r.answer.text == r.heard
    ensures Run(r, cs, parse).answer.text == Run(r, cs, parse).heard
    ensures Run(r, cs, parse).error.None? ==> Run(r, cs, parse).heard == r.heard + AllSaid(cs)
  {
    if cs == [] {
      assert r.heard + "" == r.heard;
    } else {
      var front, last := cs[..|cs| - 1], cs[|cs| - 1];
      TextIsWhatWasHeard(r, front, parse);
      SaysWhatItAdds(Run(r, front, parse), last, parse);
      Regroup(r.heard, AllSaid(front), SaidBy(last));
    }
  }

  lemma SaysWhatItAdds(r: Reading, c: Change, parse: Parser)
    ensures Apply(r, c, parse).answer.text == r.answer.text + SaidBy(c)
    ensures Apply(r, c, parse).heard == r.heard + SaidBy(c)
  {
    if !c.BlockGrows? {
      assert r.answer.text + "" == r.answer.text && r.heard + "" == r.heard;
    }
  }

  // One block depends on its own changes only.

  /** A block that is not there yet is as good as the placeholder for it. */
  function Nth(content: seq<Value>, i: nat): Value {
    if i < |content| then content[i] else Null
  }

  predicate Concerns(c: Change, i: nat) {
    || (c.BlockStarts? && c.index == i)
    || (c.BlockGrows? && c.at == Some(i))
    || (c.BlockStops? && c.stopped == Some(i))
  }

  function Own(cs: seq<Change>, i: nat): seq<Change> {
    if cs == [] then []
    else
      var last := cs[|cs| - 1];
      if Concerns(last, i) then Own(cs[..|cs| - 1], i) + [last] else Own(cs[..|cs| - 1], i)
  }

  function BlockAfter(block: Value, c: Change, parse: Parser): Result<Value, string> {
    match c
    case BlockStarts(_, started) => Ok(started)
    case BlockGrows(_, piece) => Ok(Grow(block, piece))
    case BlockStops(_) => Finish(block, parse)
    case _ => Ok(block)
  }

  function BlockRun(block: Value, cs: seq<Change>, parse: Parser): Result<Value, string> {
    if cs == [] then Ok(block)
    else match BlockRun(block, cs[..|cs| - 1], parse)
      case Ok(before) => BlockAfter(before, cs[|cs| - 1], parse)
      case Err(error) => Err(error)
  }

  /** However the changes of other blocks come in between, a block is what its own changes make it. */
  lemma {:induction false} OwnChangesOnly(r: Reading, cs: seq<Change>, i: nat, parse: Parser)
    requires Run(r, cs, parse).error.None?
    ensures BlockRun(Nth(r.answer.content, i), Own(cs, i), parse) == Ok(Nth(Run(r, cs, parse).answer.content, i))
  {
    if cs == [] {
    } else {
      var before, last := cs[..|cs| - 1], cs[|cs| - 1];
      OwnChangesOnly(r, before, i, parse);
      OneChange(Run(r, before, parse), last, i, parse);
      if Concerns(last, i) {
        assert Own(cs, i)[..|Own(cs, i)| - 1] == Own(before, i);
      }
    }
  }

  lemma OneChange(r: Reading, c: Change, i: nat, parse: Parser)
    requires Apply(r, c, parse).error.None? && r.error.None?
    ensures Concerns(c, i) ==>
              BlockAfter(Nth(r.answer.content, i), c, parse) == Ok(Nth(Apply(r, c, parse).answer.content, i))
    ensures !Concerns(c, i) ==> Nth(Apply(r, c, parse).answer.content, i) == Nth(r.answer.content, i)
  {
    assert WithoutPartial(Null) == Null;
  }

  // However its text is split, a block grows to the same.

  predicate Grows(cs: seq<Change>) {
    forall k :: 0 <= k < |cs| ==> cs[k].BlockGrows?
  }

  function FieldOf(piece: Piece): Option<string> {
    match piece case Said(_) => Some("text") case Added(field, _) => Some(field) case Unknown => None
  }

  function PartOf(piece: Piece, field: string): string {
    if FieldOf(piece) != Some(field) then ""
    else match piece case Said(words) => words case Added(_, part) => part case Unknown => ""
  }

  /** What the changes add to `field`, joined. */
  function Joined(cs: seq<Change>, field: string): string
    requires Grows(cs)
  {
    if cs == [] then "" else Joined(cs[..|cs| - 1], field) + PartOf(cs[|cs| - 1].piece, field)
  }

  function Touched(cs: seq<Change>): set<string>
    requires Grows(cs)
  {
    if cs == [] then {}
    else
      var last := FieldOf(cs[|cs| - 1].piece);
      Touched(cs[..|cs| - 1]) + (if last.Some? then {last.value} else {})
  }

  function FieldAfter(block: Value, cs: seq<Change>, field: string): Value
    requires Grows(cs) && block.Object? && field in block.fields.Keys + Touched(cs)
  {
    if field in Touched(cs) && Growable(block, field) then Text(TextOf(block, field) + Joined(cs, field))
    else if field in block.fields then block.fields[field] else Null
  }

  /** The block that the joined parts make of `block`. */
  function Filled(block: Value, cs: seq<Change>): Value
    requires Grows(cs) && block.Object?
  {
    Object(map field | field in block.fields.Keys + Touched(cs) :: FieldAfter(block, cs, field))
  }

  lemma {:induction false} UntouchedJoinsNothing(cs: seq<Change>, field: string)
    requires Grows(cs) && field !in Touched(cs)
    ensures Joined(cs, field) == ""
  {
    if cs == [] {
    } else {
      UntouchedJoinsNothing(cs[..|cs| - 1], field);
    }
  }

  lemma {:induction false} GrowsToTheJoin(block: Value, cs: seq<Change>, parse: Parser)
    requires Grows(cs) && block.Object?
    ensures BlockRun(block, cs, parse) == Ok(Filled(block, cs))
  {
    if cs == [] {
      assert Filled(block, cs).fields == block.fields;
    } else {
      var before := cs[..|cs| - 1];
      GrowsToTheJoin(block, before, parse);
      GrowOne(block, cs);
    }
  }

  lemma GrowOne(block: Value, cs: seq<Change>)
    requires Grows(cs) && block.Object? && cs != []
    ensures Grow(Filled(block, cs[..|cs| - 1]), cs[|cs| - 1].piece) == Filled(block, cs)
  {
    var before, piece := cs[..|cs| - 1], cs[|cs| - 1].piece;
    var was, now := Filled(block, before), Filled(block, cs);
    if FieldOf(piece).Some? {
      var field := FieldOf(piece).value;
      var grown := Append(was, field, PartOf(piece, field));
      GrowKeys(block, cs, field);
      forall f | f in now.fields ensures grown.fields[f] == now.fields[f] {
        GrowField(block, cs, field, f);
      }
      assert grown.fields == now.fields;
    } else {
      assert now.fields.Keys == was.fields.Keys;
      forall f | f in now.fields ensures was.fields[f] == now.fields[f] {
        JoinedSkips(cs, f);
      }
      assert was.fields == now.fields;
    }
  }

  lemma JoinedSkips(cs: seq<Change>, f: string)
    requires Grows(cs) && cs != [] && FieldOf(cs[|cs| - 1].piece) != Some(f)
    ensures Joined(cs, f) == Joined(cs[..|cs| - 1], f)
    ensures f in Touched(cs) <==> f in Touched(cs[..|cs| - 1])
  {
  }

  lemma JoinedTakes(cs: seq<Change>, f: string)
    requires Grows(cs) && cs != [] && FieldOf(cs[|cs| - 1].piece) == Some(f)
    ensures Joined(cs, f) == Joined(cs[..|cs| - 1], f) + PartOf(cs[|cs| - 1].piece, f)
    ensures f in Touched(cs)
    ensures f !in Touched(cs[..|cs| - 1]) ==> Joined(cs[..|cs| - 1], f) == ""
  {
    if f !in Touched(cs[..|cs| - 1]) {
      UntouchedJoinsNothing(cs[..|cs| - 1], f);
    }
  }

  lemma GrowKeys(block: Value, cs: seq<Change>, field: string)
    requires Grows(cs) && block.Object? && cs != [] && FieldOf(cs[|cs| - 1].piece) == Some(field)
    ensures Append(Filled(block, cs[..|cs| - 1]), field, PartOf(cs[|cs| - 1].piece, field)).fields.Keys
         == Filled(block, cs).fields.Keys
  {
    JoinedTakes(cs, field);
  }

  lemma GrowField(block: Value, cs: seq<Change>, field: string, f: string)
    requires Grows(cs) && block.Object? && cs != [] && FieldOf(cs[|cs| - 1].piece) == Some(field)
    requires f in Filled(block, cs).fields
    ensures f in Append(Filled(block, cs[..|cs| - 1]), field, PartOf(cs[|cs| - 1].piece, field)).fields
    ensures Append(Filled(block, cs[..|cs| - 1]), field, PartOf(cs[|cs| - 1].piece, field)).fields[f]
         == Filled(block, cs).fields[f]
  {
    if f == field {
      GrowsItsField(block, cs, f);
    } else {
      JoinedSkips(cs, f);
    }
  }

  lemma GrowsItsField(block: Value, cs: seq<Change>, f: string)
    requires Grows(cs) && block.Object? && cs != [] && FieldOf(cs[|cs| - 1].piece) == Some(f)
    requires f in Filled(block, cs).fields
    ensures var grown := Append(Filled(block, cs[..|cs| - 1]), f, PartOf(cs[|cs| - 1].piece, f));
            f in grown.fields && grown.fields[f] == Filled(block, cs).fields[f]
  {
    JoinedTakes(cs, f);
    Regroup(TextOf(block, f), Joined(cs[..|cs| - 1], f), PartOf(cs[|cs| - 1].piece, f));
  }

  /** Two ways of splitting the same parts make the same block. */
  lemma SplittingDoesNotMatter(block: Value, cs: seq<Change>, ds: seq<Change>, parse: Parser)
    requires Grows(cs) && Grows(ds) && block.Object?
    requires Touched(cs) == Touched(ds)
    requires forall field :: field in Touched(cs) ==> Joined(cs, field) == Joined(ds, field)
    ensures BlockRun(block, cs, parse) == BlockRun(block, ds, parse)
  {
    GrowsToTheJoin(block, cs, parse);
    GrowsToTheJoin(block, ds, parse);
    assert Filled(block, cs).fields == Filled(block, ds).fields;
  }

  // What is left when a block ends.

  predicate NoPartial(block: Value) {
    block.Object? ==> PARTIAL_INPUT !in block.fields
  }

  /** A block that starts, grows and stops, whatever the blocks around it do: the parts of its input
      are one JSON text, and nothing is left of them. */
  lemma StoppedBlock(r: Reading, cs: seq<Change>, i: nat, block: Value, grown: seq<Change>, parse: Parser)
    requires Run(r, cs, parse).error.None?
    requires block.Object? && PARTIAL_INPUT !in block.fields && Grows(grown)
    requires Own(cs, i) == [BlockStarts(i, block)] + grown + [BlockStops(Some(i))]
    ensures Finish(Filled(block, grown), parse) == Ok(Nth(Run(r, cs, parse).answer.content, i))
    ensures NoPartial(Nth(Run(r, cs, parse).answer.content, i))
    ensures Joined(grown, PARTIAL_INPUT) != "" ==>
              && parse(Joined(grown, PARTIAL_INPUT)).Some?
              && Field(Nth(Run(r, cs, parse).answer.content, i), "input") == parse(Joined(grown, PARTIAL_INPUT))
  {
    OwnChangesOnly(r, cs, i, parse);
    var start := [BlockStarts(i, block)];
    BlockRunConcat(Nth(r.answer.content, i), start, grown, parse);
    assert Own(cs, i)[..|Own(cs, i)| - 1] == start + grown;
    assert start[..0] == [];
    GrowsToTheJoin(block, grown, parse);
    PartialIsJoined(block, grown);
  }

  lemma PartialIsJoined(block: Value, grown: seq<Change>)
    requires block.Object? && PARTIAL_INPUT !in block.fields && Grows(grown)
    ensures TextOf(Filled(block, grown), PARTIAL_INPUT) == Joined(grown, PARTIAL_INPUT)
  {
    if PARTIAL_INPUT !in Touched(grown) {
      UntouchedJoinsNothing(grown, PARTIAL_INPUT);
    }
  }

  lemma {:induction false} BlockRunConcat(block: Value, a: seq<Change>, b: seq<Change>, parse: Parser)
    requires BlockRun(block, a, parse).Ok?
    ensures BlockRun(block, a + b, parse) == BlockRun(BlockRun(block, a, parse).value, b, parse)
  {
    if b == [] {
      assert a + b == a;
    } else {
      BlockRunConcat(block, a, b[..|b| - 1], parse);
      assert (a + b)[..|a| + |b| - 1] == a + b[..|b| - 1];
    }
  }

  /** After the last stop of a block, no part of its input is left in it. */
  lemma {:induction false} StopLeavesNoPartial(r: Reading, cs: seq<Change>, i: nat, parse: Parser)
    requires Run(r, cs, parse).error.None?
    requires Own(cs, i) != [] && Own(cs, i)[|Own(cs, i)| - 1].BlockStops?
    ensures NoPartial(Nth(Run(r, cs, parse).answer.content, i))
  {
    OwnChangesOnly(r, cs, i, parse);
  }

  /** The answer while it is read, changed in place. `heard` is what `on_text` was called with. */
  class Reply {
    var text: string
    var content: seq<Value>
    var stopReason: Option<string>
    var refusal: Option<Refusal>
    var inputTokens: Option<nat>
    var cacheReadTokens: Option<nat>
    var outputTokens: Option<nat>
    var heard: string

    constructor ()
      ensures Now() == Reading(EMPTY, "", None)
    {
      text, content, heard := "", [], "";
      stopReason, refusal := None, None;
      inputTokens, cacheReadTokens, outputTokens := None, None, None;
    }

    function Now(): Reading
      reads this
    {
      Reading(Answer(text, content, stopReason, refusal, inputTokens, cacheReadTokens, outputTokens), heard, None)
    }

    /** `append`. */
    method AppendTo(i: nat, field: string, more: string)
      requires i < |content|
      modifies this`content
      ensures content == old(content)[i := Append(old(content[i]), field, more)]
    {
      var block := content[i];
      if block.Object? {
        var fields := block.fields;
        if field !in fields {
          fields := fields[field := Text("")];
        }
        if fields[field].Text? {
          fields := fields[field := Text(fields[field].text + more)];
          assert fields == block.fields[field := Text(TextOf(block, field) + more)];
        }
        content := content[i := Object(fields)];
      }
    }

    method StartBlock(index: nat, block: Value)
      modifies this`content
      ensures content == Pad(old(content), index)[index := block]
    {
      while |content| <= index
        invariant Pad(content, index) == Pad(old(content), index)
        decreases index + 1 - |content|
      {
        content := content + [Null];
      }
      content := content[index := block];
    }

    method GrowBlock(at: Option<nat>, piece: Piece)
      modifies this`content, this`text, this`heard
      ensures content == Grown(old(content), at, piece)
      ensures text == old(text) + SaidBy(BlockGrows(at, piece)) && heard == old(heard) + SaidBy(BlockGrows(at, piece))
    {
      var there := at.Some? && at.value < |content|;
      match piece {
        case Said(words) =>
          if there {
            AppendTo(at.value, "text", words);
          }
          text := text + words;
          heard := heard + words;
        case Added(field, part) =>
          if there {
            AppendTo(at.value, field, part);
          }
        case Unknown =>
          if there {
            assert content[at.value := content[at.value]] == content;
          }
      }
    }

    method StopBlock(at: Option<nat>, parse: Parser) returns (error: Option<string>)
      modifies this`content
      ensures (content, error) == Stopped(old(content), at, parse)
    {
      error := None;
      if at.Some? && at.value < |content| && content[at.value].Object? {
        var fields := content[at.value].fields;
        var json := TextOf(content[at.value], PARTIAL_INPUT);
        fields := fields - {PARTIAL_INPUT};
        if json != "" {
          var input := parse(json);
          if input.None? {
            content := content[at.value := Object(fields)];
            return Some("a tool call's input was not JSON");
          }
          fields := fields["input" := input.value];
        }
        content := content[at.value := Object(fields)];
      } else if at.Some? && at.value < |content| {
        assert content[at.value := content[at.value]] == content;
      }
    }

    /** `apply`. */
    method Take(c: Change, parse: Parser) returns (error: Option<string>)
      modifies this
      ensures Now().(error := error) == Apply(old(Now()), c, parse)
    {
      error := None;
      match c {
        case Started(input, cached) =>
          inputTokens, cacheReadTokens := input, cached;
        case BlockStarts(index, block) =>
          StartBlock(index, block);
        case BlockGrows(at, piece) =>
          GrowBlock(at, piece);
        case BlockStops(at) =>
          error := StopBlock(at, parse);
        case Ended(reason, refused, output) =>
          stopReason := reason;
          if refused.Some? {
            refusal := refused;
          }
          outputTokens := output;
        case Failed(kind) =>
          error := Some(kind);
        case Ignored =>
      }
    }
  }

}
