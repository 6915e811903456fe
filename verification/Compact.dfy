/** The messages of a conversation, and keeping a long one short (crates/erpc-ai/src/compact.rs). */
module Compact {
  import opened Wrappers
  import opened Characters

  datatype Role = User | Assistant | OtherRole

  /** A tool result's content: text, or other JSON in its printed form. */
  datatype ResultContent = Text(text: string) | Json(text: string)

  datatype Block =
    | TextBlock(text: string)
    | ToolUse(id: string, name: string, input: string)
    | ToolResult(id: string, content: Option<ResultContent>, isError: bool)
    | OtherBlock(kind: string)
    | NullBlock

  datatype Content = Str(text: string) | Blocks(blocks: seq<Block>) | OtherContent | NoContent

  datatype Message = Message(role: Role, content: Content)

  const COMPACT_AT: nat := 160_000
  const KEEP_TURNS: nat := 2
  const RETRY_AFTER: nat := COMPACT_AT / 4
  const KEEP_RESULTS: nat := 4
  const MAX_PIECE: nat := 600
  const CUT_NOTE := " [erpc: cut short to keep the conversation short]"
  const SUMMARY_PREFIX := "[erpc: a summary of the conversation so far, made to keep it short]"
  const ACKNOWLEDGEMENT := "Understood; I will carry on from this summary."

  // Pairing: what the model API demands of a history.

  function Calls(blocks: seq<Block>): seq<Block> {
    if blocks == [] then []
    else (if blocks[0].ToolUse? then [blocks[0]] else []) + Calls(blocks[1..])
  }

  function CallsOf(m: Message): seq<Block> {
    if m.content.Blocks? then Calls(m.content.blocks) else []
  }

  predicate IsQuestion(m: Message) {
    m.role.User? && m.content.Str?
  }

  /** `m` holds exactly one result for each call, with its id, in the calls' order, and no more. */
  predicate Answers(m: Message, calls: seq<Block>) {
    && m.role.User? && m.content.Blocks?
    && |m.content.blocks| == |calls|
    && forall k :: 0 <= k < |calls| ==>
      m.content.blocks[k].ToolResult? && calls[k].ToolUse? && m.content.blocks[k].id == calls[k].id
  }

  /** Message `i` is in its place: assistants at odd places, the user at even ones, either with a
      question that leaves no call open, or with exactly the answers to the calls before it. */
  predicate Fits(h: seq<Message>, i: nat)
    requires i < |h|
  {
    if i % 2 == 1 then h[i].role.Assistant? && (h[i].content.Str? || h[i].content.Blocks?)
    else if i == 0 || CallsOf(h[i - 1]) == [] then IsQuestion(h[i])
    else Answers(h[i], CallsOf(h[i - 1]))
  }

  predicate Joined(h: seq<Message>) {
    forall i :: 0 <= i < |h| ==> Fits(h, i)
  }

  /** A whole conversation: it ends with an answer that calls nothing. */
  predicate Paired(h: seq<Message>) {
    && Joined(h)
    && |h| % 2 == 0
    && (h != [] ==> CallsOf(h[|h| - 1]) == [])
  }

  /** Whether a message fits depends on the one before it only. */
  lemma FitsByNeighbour(g: seq<Message>, h: seq<Message>, i: nat, j: nat)
    requires i < |g| && j < |h| && i % 2 == j % 2 && g[i] == h[j] && Fits(g, i)
    requires j > 0 && j % 2 == 0 ==> if i > 0 then g[i - 1] == h[j - 1] else CallsOf(h[j - 1]) == []
    requires i > 0 ==> j > 0
    ensures Fits(h, j)
  {
  }

  lemma JoinedConcat(a: seq<Message>, b: seq<Message>)
    requires Paired(a) && Joined(b)
    ensures Joined(a + b)
  {
    var h := a + b;
    forall i | 0 <= i < |h| ensures Fits(h, i) {
      if i < |a| {
        FitsByNeighbour(a, h, i, i);
      } else {
        FitsByNeighbour(b, h, i - |a|, i);
      }
    }
  }

  lemma PairedConcat(a: seq<Message>, b: seq<Message>)
    requires Paired(a) && Paired(b)
    ensures Paired(a + b)
  {
    JoinedConcat(a, b);
    assert b == [] ==> a + b == a;
  }

  /** A history can be parted at any question, and nowhere does that separate calls from results. */
  lemma PairedSplit(h: seq<Message>, at: nat)
    requires Paired(h) && at < |h| && IsQuestion(h[at])
    ensures at % 2 == 0 && Paired(h[..at]) && Paired(h[at..])
  {
    assert Fits(h, at);
    JoinedFront(h, at);
    JoinedRest(h, at);
    assert h[at..] != [] && h[at..][|h[at..]| - 1] == h[|h| - 1];
  }

  lemma JoinedFront(h: seq<Message>, at: nat)
    requires Joined(h) && at <= |h|
    ensures Joined(h[..at])
  {
    forall i | 0 <= i < at ensures Fits(h[..at], i) {
      assert Fits(h, i);
    }
  }

  lemma JoinedRest(h: seq<Message>, at: nat)
    requires Joined(h) && at < |h| && at % 2 == 0 && IsQuestion(h[at])
    ensures Joined(h[at..])
  {
    forall i | 0 <= i < |h| - at ensures Fits(h[at..], i) {
      assert Fits(h, at + i);
    }
  }

  // Where to cut.

  /** The places of the user's questions at or after `from`. */
  function Starts(h: seq<Message>, from: nat): (starts: seq<nat>)
    requires from <= |h|
    ensures forall k :: 0 <= k < |starts| ==> from <= starts[k] < |h| && IsQuestion(h[starts[k]])
    ensures forall k, l :: 0 <= k < l < |starts| ==> starts[k] < starts[l]
    ensures forall i :: from <= i < |h| && IsQuestion(h[i]) ==> i in starts
    decreases |h| - from
  {
    if from == |h| then []
    else if IsQuestion(h[from]) then [from] + Starts(h, from + 1)
    else Starts(h, from + 1)
  }

  /** Where the turns kept start. */
  function Cut(h: seq<Message>): Option<nat> {
    var starts := Starts(h, 0);
    if |starts| < KEEP_TURNS then None
    else
      var at := starts[|starts| - KEEP_TURNS];
      if at > 0 then Some(at) else None
  }

  /** A cut is at a question, with exactly one question after it, and parts the history into two
      that are each whole. */
  lemma CutKeepsTurnsWhole(h: seq<Message>)
    requires Paired(h) && Cut(h).Some?
    ensures
      var at := Cut(h).value;
      && 2 <= at < |h|
      && IsQuestion(h[at]) && Paired(h[..at]) && Paired(h[at..])
      && (exists last :: at < last < |h| && IsQuestion(h[last])
            && (forall i :: at < i < |h| && IsQuestion(h[i]) ==> i == last))
  {
    var starts := Starts(h, 0);
    var at := Cut(h).value;
    var last := starts[|starts| - 1];
    PairedSplit(h, at);
    forall i | at < i < |h| && IsQuestion(h[i]) ensures i == last {
      var k :| 0 <= k < |starts| && starts[k] == i;
    }
  }

  /** A history that begins again from `summary`. */
  function SummaryPair(summary: string): seq<Message> {
    [Message(User, Str(SUMMARY_PREFIX + "\n" + Trim(summary))),
     Message(Assistant, Blocks([TextBlock(ACKNOWLEDGEMENT)]))]
  }

  function Rebuilt(summary: string, kept: seq<Message>): seq<Message> {
    SummaryPair(summary) + kept
  }

  lemma RebuiltIsPaired(summary: string, kept: seq<Message>)
    requires Paired(kept)
    ensures Paired(Rebuilt(summary, kept))
  {
    var pair := SummaryPair(summary);
    assert Calls([TextBlock(ACKNOWLEDGEMENT)]) == [];
    assert Paired(pair);
    PairedConcat(pair, kept);
  }

  predicate Due(size: seq<Message> -> nat, h: seq<Message>, notBefore: nat) {
    size(h) > if COMPACT_AT < notBefore then notBefore else COMPACT_AT
  }

  // Cutting older tool results short.

  function Short(text: string): string {
    if |text| > MAX_PIECE then text[..MAX_PIECE] + "\U{2026}" else text
  }

  function CutShort(b: Block): Block
    requires b.ToolResult?
  {
    if b.content.Some? && |b.content.value.text| > MAX_PIECE * 2
    then b.(content := Some(Text(Short(b.content.value.text) + CUT_NOTE)))
    else b
  }

  function Results(blocks: seq<Block>): seq<Block> {
    if blocks == [] then []
    else (if blocks[0].ToolResult? then [blocks[0]] else []) + Results(blocks[1..])
  }

  function ResultsOf(m: Message): seq<Block> {
    if m.content.Blocks? then Results(m.content.blocks) else []
  }

  function AllResults(h: seq<Message>): seq<Block> {
    if h == [] then [] else ResultsOf(h[0]) + AllResults(h[1..])
  }

  /** How many of the history's results are cut. */
  function Older(h: seq<Message>): nat {
    SaturatingSub(|AllResults(h)|, KEEP_RESULTS)
  }

  /** The first `older` results of `blocks` cut short. */
  function ShrinkBlocks(blocks: seq<Block>, older: nat): (r: seq<Block>)
    ensures |r| == |blocks|
  {
    if blocks == [] then []
    else if !blocks[0].ToolResult? then [blocks[0]] + ShrinkBlocks(blocks[1..], older)
    else if older == 0 then blocks
    else [CutShort(blocks[0])] + ShrinkBlocks(blocks[1..], older - 1)
  }

  function ShrinkMessage(m: Message, older: nat): Message {
    if m.content.Blocks? then m.(content := Blocks(ShrinkBlocks(m.content.blocks, older))) else m
  }

  function ShrinkMessages(h: seq<Message>, older: nat): (r: seq<Message>)
    ensures |r| == |h|
  {
    if h == [] then []
    else [ShrinkMessage(h[0], older)] + ShrinkMessages(h[1..], SaturatingSub(older, |ResultsOf(h[0])|))
  }

  function Shrunk(h: seq<Message>): seq<Message> {
    ShrinkMessages(h, Older(h))
  }

  /** What shrinking never touches: everything but the content of tool results. */
  predicate SameButContent(a: Block, b: Block) {
    if a.ToolResult? then b.ToolResult? && b.id == a.id && b.isError == a.isError else b == a
  }

  predicate SameButResults(a: Message, b: Message) {
    && a.role == b.role
    && (if a.content.Blocks? then
          && b.content.Blocks?
          && |a.content.blocks| == |b.content.blocks|
          && forall k :: 0 <= k < |a.content.blocks| ==> SameButContent(a.content.blocks[k], b.content.blocks[k])
        else b.content == a.content)
  }

  lemma {:induction false} ShrinkBlocksKeeps(blocks: seq<Block>, older: nat)
    ensures forall k :: 0 <= k < |blocks| ==> SameButContent(blocks[k], ShrinkBlocks(blocks, older)[k])
  {
    if blocks == [] {
    } else {
      ShrinkBlocksKeeps(blocks[1..], if blocks[0].ToolResult? then SaturatingSub(older, 1) else older);
    }
  }

  lemma {:induction false} ShrinkKeeps(h: seq<Message>, older: nat)
    ensures forall i :: 0 <= i < |h| ==> SameButResults(h[i], ShrinkMessages(h, older)[i])
  {
    if h == [] {
    } else {
      if h[0].content.Blocks? {
        ShrinkBlocksKeeps(h[0].content.blocks, older);
      }
      ShrinkKeeps(h[1..], SaturatingSub(older, |ResultsOf(h[0])|));
    }
  }

  lemma {:induction false} SameCalls(a: seq<Block>, b: seq<Block>)
    requires |a| == |b| && forall k :: 0 <= k < |a| ==> SameButContent(a[k], b[k])
    ensures Calls(a) == Calls(b)
  {
    if a == [] {
    } else {
      assert forall k :: 0 <= k < |a[1..]| ==> a[1..][k] == a[k + 1] && b[1..][k] == b[k + 1];
      SameCalls(a[1..], b[1..]);
    }
  }

  /** Changing nothing but the contents of results leaves a history as paired as it was. */
  lemma SameButResultsIsPaired(h: seq<Message>, h': seq<Message>)
    requires Paired(h) && |h| == |h'| && forall i :: 0 <= i < |h| ==> SameButResults(h[i], h'[i])
    ensures Paired(h')
  {
    forall i | 0 <= i < |h| ensures CallsOf(h[i]) == CallsOf(h'[i]) {
      if h[i].content.Blocks? {
        SameCalls(h[i].content.blocks, h'[i].content.blocks);
      }
    }
    forall i | 0 <= i < |h'| ensures Fits(h', i) {
      assert Fits(h, i) && SameButResults(h[i], h'[i]);
    }
  }

  lemma ShrunkIsPaired(h: seq<Message>)
    requires Paired(h)
    ensures Paired(Shrunk(h))
  {
    ShrinkKeeps(h, Older(h));
    SameButResultsIsPaired(h, Shrunk(h));
  }

  predicate AllToolResults(results: seq<Block>) {
    forall k :: 0 <= k < |results| ==> results[k].ToolResult?
  }

  /** The first `older` results cut short and the others as they are. */
  function CutFirst(results: seq<Block>, older: nat): seq<Block>
    requires AllToolResults(results)
  {
    seq(|results|, k requires 0 <= k < |results| => if k < older then CutShort(results[k]) else results[k])
  }

  lemma {:induction false} ResultsAreResults(blocks: seq<Block>)
    ensures AllToolResults(Results(blocks))
  {
    if blocks == [] {
    } else {
      ResultsAreResults(blocks[1..]);
    }
  }

  lemma {:induction false} AllResultsAreResults(h: seq<Message>)
    ensures AllToolResults(AllResults(h))
  {
    if h == [] {
    } else {
      AllResultsAreResults(h[1..]);
      if h[0].content.Blocks? {
        ResultsAreResults(h[0].content.blocks);
      }
    }
  }

  lemma {:induction false} ShrinkBlocksCuts(blocks: seq<Block>, older: nat)
    ensures AllToolResults(Results(blocks))
    ensures Results(ShrinkBlocks(blocks, older)) == CutFirst(Results(blocks), older)
  {
    ResultsAreResults(blocks);
    if blocks == [] || (blocks[0].ToolResult? && older == 0) {
    } else {
      var rest := if blocks[0].ToolResult? then older - 1 else older;
      ShrinkBlocksCuts(blocks[1..], rest);
      assert ShrinkBlocks(blocks, older)[1..] == ShrinkBlocks(blocks[1..], rest);
    }
  }

  lemma CutFirstConcat(a: seq<Block>, b: seq<Block>, older: nat)
    requires AllToolResults(a) && AllToolResults(b)
    ensures AllToolResults(a + b)
    ensures CutFirst(a + b, older) == CutFirst(a, older) + CutFirst(b, SaturatingSub(older, |a|))
  {
  }

  lemma ShrinkMessageCuts(m: Message, older: nat)
    ensures AllToolResults(ResultsOf(m))
    ensures ResultsOf(ShrinkMessage(m, older)) == CutFirst(ResultsOf(m), older)
  {
    if m.content.Blocks? {
      ShrinkBlocksCuts(m.content.blocks, older);
    }
  }

  lemma {:induction false} ShrinkCuts(h: seq<Message>, older: nat)
    ensures AllToolResults(AllResults(h))
    ensures AllResults(ShrinkMessages(h, older)) == CutFirst(AllResults(h), older)
  {
    AllResultsAreResults(h);
    if h == [] {
    } else {
      var rest := SaturatingSub(older, |ResultsOf(h[0])|);
      ShrinkMessageCuts(h[0], older);
      ShrinkCuts(h[1..], rest);
      assert ShrinkMessages(h, older)[1..] == ShrinkMessages(h[1..], rest);
      CutFirstConcat(ResultsOf(h[0]), AllResults(h[1..]), older);
    }
  }

  /** Every result but the last `KEEP_RESULTS` is cut short, and those stay whole; and nothing but
      the contents of results is changed. */
  lemma ShrunkCutsAllButTheLast(h: seq<Message>)
    ensures AllToolResults(AllResults(h))
    ensures AllResults(Shrunk(h)) == CutFirst(AllResults(h), Older(h))
    ensures |Shrunk(h)| == |h| && forall i :: 0 <= i < |h| ==> SameButResults(h[i], Shrunk(h)[i])
  {
    ShrinkCuts(h, Older(h));
    ShrinkKeeps(h, Older(h));
  }

  lemma {:induction false} ShrinkBlocksAgain(blocks: seq<Block>, older: nat)
    ensures var once := ShrinkBlocks(blocks, older);
            |Results(once)| == |Results(blocks)| && ShrinkBlocks(once, older) == once
  {
    if blocks == [] {
    } else {
      var once := ShrinkBlocks(blocks, older);
      if blocks[0].ToolResult? && older == 0 {
      } else {
        var rest := if blocks[0].ToolResult? then older - 1 else older;
        ShrinkBlocksAgain(blocks[1..], rest);
        assert once[1..] == ShrinkBlocks(blocks[1..], rest);
      }
    }
  }

  lemma {:induction false} ShrinkAgain(h: seq<Message>, older: nat)
    ensures var once := ShrinkMessages(h, older);
            |AllResults(once)| == |AllResults(h)| && ShrinkMessages(once, older) == once
  {
    if h == [] {
    } else {
      var once := ShrinkMessages(h, older);
      var rest := SaturatingSub(older, |ResultsOf(h[0])|);
      if h[0].content.Blocks? {
        ShrinkBlocksAgain(h[0].content.blocks, older);
      }
      ShrinkAgain(h[1..], rest);
      assert once[1..] == ShrinkMessages(h[1..], rest);
    }
  }

  /** Nothing more is cut the second time: what is left of a result is short enough to stay. */
  lemma ShrunkTwiceIsShrunk(h: seq<Message>)
    ensures Shrunk(Shrunk(h)) == Shrunk(h)
  {
    ShrinkAgain(h, Older(h));
  }

  // One step of the loops that shrink.

  /** A sequence overwritten from the front agrees with what it was in the part still ahead. */
  lemma Overwrite<T>(s: seq<T>, was: seq<T>, i: nat, t: T)
    requires i < |s| == |was| && s[i..] == was[i..]
    ensures s[i] == was[i]
    ensures s[i := t][..i + 1] == s[..i] + [t] && s[i := t][i + 1..] == was[i + 1..]
    ensures s[i := t][..i + 1] != was[..i + 1] <==> s[..i] != was[..i] || t != was[i]
  {
    var s' := s[i := t];
    assert s'[..i + 1] == s[..i] + [t] && was[..i + 1] == was[..i] + [was[i]];
    if s'[..i + 1] == was[..i + 1] {
      assert s'[..i + 1][..i] == was[..i + 1][..i] && s'[..i + 1][i] == was[..i + 1][i];
    }
    assert s[i..][0] == was[i..][0];
    assert s[i + 1..] == s[i..][1..];
  }

  lemma {:induction false} ShrinkNothing(blocks: seq<Block>)
    ensures ShrinkBlocks(blocks, 0) == blocks
  {
    if blocks == [] || blocks[0].ToolResult? {
    } else {
      ShrinkNothing(blocks[1..]);
    }
  }

  function ShrinkBlock(b: Block, left: nat): Block {
    if b.ToolResult? && left > 0 then CutShort(b) else b
  }

  lemma ShrinkBlocksStep(done: seq<Block>, blocks: seq<Block>, j: nat, left: nat)
    requires j < |blocks|
    ensures
      var left' := if blocks[j].ToolResult? then SaturatingSub(left, 1) else left;
      && done + ShrinkBlocks(blocks[j..], left)
         == (done + [ShrinkBlock(blocks[j], left)]) + ShrinkBlocks(blocks[j + 1..], left')
      && SaturatingSub(left, |Results(blocks[j..])|) == SaturatingSub(left', |Results(blocks[j + 1..])|)
  {
    var rest := blocks[j..];
    assert rest[0] == blocks[j] && rest[1..] == blocks[j + 1..];
    ShrinkNothing(rest);
    ShrinkNothing(rest[1..]);
  }

  lemma ShrinkMessagesStep(done: seq<Message>, h: seq<Message>, i: nat, left: nat)
    requires i < |h|
    ensures done + ShrinkMessages(h[i..], left)
         == (done + [ShrinkMessage(h[i], left)]) + ShrinkMessages(h[i + 1..], SaturatingSub(left, |ResultsOf(h[i])|))
  {
    var rest := h[i..];
    assert rest[0] == h[i] && rest[1..] == h[i + 1..];
  }
}
