/** The session that holds a conversation: sending, compacting, restoring and resetting
    (`Session` in crates/erpc-ai/src/session.rs), over any number of these. */
module ChatSession {
  import opened Wrappers
  import opened Characters
  import opened Compact
  import opened Conversation

  /** `made` marks, along `archived + history`, the messages that compaction wrote itself. */
  datatype Chat = Chat(history: seq<Message>, archived: seq<Message>, notBefore: nat, made: seq<bool>) {
    function All(): seq<Message> {
      archived + history
    }

    predicate Marked() {
      |made| == |archived| + |history|
    }

    predicate Valid() {
      Marked() && Paired(history)
    }
  }

  type Sizer = seq<Message> -> nat

  function Plain(n: nat): (flags: seq<bool>)
    ensures |flags| == n
  {
    seq(n, _ => false)
  }

  // Compaction.

  /** The summary step: none when the abort came first, and whether it was done. */
  function Summarised(c: Chat, reply: SummaryReply): (r: Option<(Chat, bool)>)
    requires c.Marked()
    ensures r.Some? ==> r.value.0.Marked()
  {
    var cut := Cut(c.history);
    if cut.None? then Some((c, false))
    else
      var at := cut.value;
      match reply
      case SummaryAborted => None
      case SummaryFailed => Some((c, false))
      case Summary(refused, text) =>
        if refused || Blank(text) then Some((c, false))
        else
          var parted := |c.archived| + at;
          Some((Chat(Rebuilt(text, c.history[at..]), c.archived + c.history[..at], c.notBefore,
                     c.made[..parted] + [true, true] + c.made[parted..]), true))
  }

  function Compacted(c: Chat, reply: SummaryReply, size: Sizer): (r: Option<Chat>)
    requires c.Marked()
    ensures r.Some? ==> r.value.Marked()
  {
    match Summarised(c, reply)
    case None => None
    case Some((c', done)) =>
      if !done || size(c'.history) > COMPACT_AT then
        var h := Shrunk(c'.history);
        Some(c'.(history := h, notBefore := size(h) + RETRY_AFTER))
      else Some(c'.(notBefore := 0))
  }

  lemma SummarisedIsValid(c: Chat, reply: SummaryReply)
    requires c.Valid()
    ensures Summarised(c, reply).Some? ==> Summarised(c, reply).value.0.Valid()
  {
    if Cut(c.history).Some? {
      CutKeepsTurnsWhole(c.history);
      if reply.Summary? {
        RebuiltIsPaired(reply.text, c.history[Cut(c.history).value..]);
      }
    }
  }

  lemma CompactedIsValid(c: Chat, reply: SummaryReply, size: Sizer)
    requires c.Valid()
    ensures Compacted(c, reply, size).Some? ==> Compacted(c, reply, size).value.Valid()
  {
    SummarisedIsValid(c, reply);
    if Summarised(c, reply).Some? {
      ShrunkIsPaired(Summarised(c, reply).value.0.history);
    }
  }

  /** Once a compaction completes the conversation is not due for another; and after one with no
      usable summary it is not until it has grown by more than `RETRY_AFTER`. */
  lemma CompactedIsNotDue(c: Chat, reply: SummaryReply, size: Sizer)
    requires c.Valid() && Compacted(c, reply, size).Some?
    ensures var c' := Compacted(c, reply, size).value; !Due(size, c'.history, c'.notBefore)
    ensures
      var c' := Compacted(c, reply, size).value;
      !Summarised(c, reply).value.1 ==>
        forall h :: size(h) <= size(c'.history) + RETRY_AFTER ==> !Due(size, h, c'.notBefore)
  {
  }

  // Conservation.

  /** The messages that compaction did not write. */
  function Erased(messages: seq<Message>, made: seq<bool>): seq<Message>
    requires |messages| == |made|
  {
    if messages == [] then []
    else (if made[0] then [] else [messages[0]]) + Erased(messages[1..], made[1..])
  }

  lemma {:induction false} ErasedConcat(a: seq<Message>, b: seq<Message>, m: seq<bool>, n: seq<bool>)
    requires |a| == |m| && |b| == |n|
    ensures Erased(a + b, m + n) == Erased(a, m) + Erased(b, n)
  {
    if a == [] {
      assert a + b == b && m + n == n;
    } else {
      var head := if m[0] then [] else [a[0]];
      ErasedConcat(a[1..], b, m[1..], n);
      FirstAndRest(a, b);
      FirstAndRest(m, n);
      ErasedFirst(a + b, m + n);
      ErasedFirst(a, m);
      Regroup(head, Erased(a[1..], m[1..]), Erased(b, n));
    }
  }

  lemma ErasedFirst(a: seq<Message>, m: seq<bool>)
    requires |a| == |m| && a != []
    ensures Erased(a, m) == (if m[0] then [] else [a[0]]) + Erased(a[1..], m[1..])
  {
  }

  lemma {:induction false} ErasedPlain(a: seq<Message>)
    ensures Erased(a, Plain(|a|)) == a
  {
    if a == [] {
    } else {
      ErasedPlain(a[1..]);
      assert Plain(|a|)[1..] == Plain(|a[1..]|);
    }
  }

  function Conversed(c: Chat): seq<Message>
    requires c.Marked()
  {
    Erased(c.All(), c.made)
  }

  /** A summary takes the place of messages that are all kept: what was said is still there, in
      order, once the summary and its acknowledgement are taken out. */
  lemma SummarisedConserves(c: Chat, reply: SummaryReply)
    requires c.Valid() && Summarised(c, reply).Some?
    ensures
      Conversed(Summarised(c, reply).value.0) == Conversed(c)
  {
    var (c', done) := Summarised(c, reply).value;
    if done {
      var at := Cut(c.history).value;
      var parted := |c.archived| + at;
      PartedChat(c, at);
      Regroup(c.made[..parted], [true, true], c.made[parted..]);
      ErasedAround(c.archived + c.history[..at], SummaryPair(reply.text), c.history[at..], c.made[..parted],
                   c.made[parted..]);
    }
  }

  /** What is marked as made, between two parts, is erased. */
  lemma ErasedAround(a: seq<Message>, pair: seq<Message>, b: seq<Message>, m: seq<bool>, n: seq<bool>)
    requires |a| == |m| && |pair| == 2 && |b| == |n|
    ensures Erased(a + (pair + b), m + ([true, true] + n)) == Erased(a + b, m + n)
  {
    ErasedConcat(a, pair + b, m, [true, true] + n);
    ErasedConcat(pair, b, [true, true], n);
    ErasedPair(pair);
    assert [] + Erased(b, n) == Erased(b, n);
    ErasedConcat(a, b, m, n);
  }

  lemma PartedChat(c: Chat, at: nat)
    requires c.Marked() && at <= |c.history|
    ensures var parted := |c.archived| + at;
            && (c.archived + c.history[..at]) + c.history[at..] == c.All()
            && c.made[..parted] + c.made[parted..] == c.made
  {
    CutAt(c.history, at);
    Regroup(c.archived, c.history[..at], c.history[at..]);
    CutAt(c.made, |c.archived| + at);
  }

  lemma ErasedPair(pair: seq<Message>)
    requires |pair| == 2
    ensures Erased(pair, [true, true]) == []
  {
    assert [true, true][1..] == [true];
    assert Erased(pair[1..], [true]) == [];
  }

  /** The same messages, but for the contents of tool results. */
  predicate Alike(a: seq<Message>, b: seq<Message>) {
    |a| == |b| && forall i :: 0 <= i < |a| ==> SameButResults(a[i], b[i])
  }

  lemma {:induction false} ErasedKeepsShape(a: seq<Message>, b: seq<Message>, made: seq<bool>)
    requires |a| == |made| && Alike(a, b)
    ensures Alike(Erased(a, made), Erased(b, made))
  {
    if a == [] {
    } else {
      AlikeRest(a, b);
      ErasedKeepsShape(a[1..], b[1..], made[1..]);
      if !made[0] {
        AlikeConcat([a[0]], [b[0]], Erased(a[1..], made[1..]), Erased(b[1..], made[1..]));
      } else {
        assert [] + Erased(a[1..], made[1..]) == Erased(a[1..], made[1..]);
        assert [] + Erased(b[1..], made[1..]) == Erased(b[1..], made[1..]);
      }
    }
  }

  lemma AlikeRest(a: seq<Message>, b: seq<Message>)
    requires Alike(a, b) && a != []
    ensures Alike(a[1..], b[1..]) && Alike([a[0]], [b[0]])
  {
    assert forall i :: 0 <= i < |a[1..]| ==> a[1..][i] == a[i + 1] && b[1..][i] == b[i + 1];
  }

  lemma AlikeConcat(a: seq<Message>, b: seq<Message>, c: seq<Message>, e: seq<Message>)
    requires Alike(a, b) && Alike(c, e)
    ensures Alike(a + c, b + e)
  {
    forall i | 0 <= i < |a + c| ensures SameButResults((a + c)[i], (b + e)[i]) {
      if i < |a| {
        assert SameButResults(a[i], b[i]);
      } else {
        assert SameButResults(c[i - |a|], e[i - |a|]);
      }
    }
  }

  /** A compaction conserves the conversation: nothing said is lost, and when it cuts no tool result
      short, nothing is changed either. */
  lemma CompactedConserves(c: Chat, reply: SummaryReply, size: Sizer)
    requires c.Valid() && Compacted(c, reply, size).Some?
    ensures
      var c' := Compacted(c, reply, size).value;
      && Alike(Conversed(c), Conversed(c'))
      && (c'.history == Summarised(c, reply).value.0.history ==> Conversed(c') == Conversed(c))
  {
    var (s, done) := Summarised(c, reply).value;
    var c' := Compacted(c, reply, size).value;
    SummarisedConserves(c, reply);
    if c'.history != s.history {
      ShrinkKeeps(s.history, Older(s.history));
      ErasedKeepsShape(s.All(), c'.All(), s.made);
    } else {
      ErasedKeepsShape(s.All(), s.All(), s.made);
    }
  }

  // Sending.

  /** The conversation as the turn finds it: compacted if that was due, or none when the abort came
      during that. */
  function Readied(c: Chat, reply: SummaryReply, size: Sizer): (r: Option<Chat>)
    requires c.Marked()
    ensures r.Some? ==> r.value.Marked()
  {
    if Due(size, c.history, c.notBefore) then Compacted(c, reply, size) else Some(c)
  }

  /** The compaction, if one is due, cuts a tool result short. */
  predicate CutsResults(c: Chat, reply: SummaryReply, size: Sizer)
    requires c.Marked()
  {
    && Due(size, c.history, c.notBefore) && Compacted(c, reply, size).Some?
    && Compacted(c, reply, size).value.history != Summarised(c, reply).value.0.history
  }

  /** The marks for `n` messages, of which the first are those of `made`. */
  function Flags(made: seq<bool>, n: nat): (flags: seq<bool>)
    ensures |flags| == n
  {
    if n <= |made| then made[..n] else made + Plain(n - |made|)
  }

  lemma FlagsMore(made: seq<bool>, n: nat)
    ensures Flags(made, |made| + n) == made + Plain(n)
  {
  }

  function Turned(c: Chat, text: string, mets: seq<Met>): (r: (Chat, Turn))
    requires c.Marked()
    ensures r.0.Marked()
  {
    var (h, turn) := AfterTurn(c.history, text, mets);
    (c.(history := h, made := Flags(c.made, |c.archived| + |h|)), turn)
  }

  function Sent(c: Chat, text: string, reply: SummaryReply, mets: seq<Met>, size: Sizer): (r: (Chat, Turn))
    requires c.Marked()
    ensures r.0.Marked()
  {
    match Readied(c, reply, size)
    case None => (c, Aborted)
    case Some(c') => Turned(c', text, mets)
  }

  lemma ReadiedConserves(c: Chat, reply: SummaryReply, size: Sizer)
    requires c.Valid() && Readied(c, reply, size).Some?
    ensures
      var k := Readied(c, reply, size).value;
      && k.Valid()
      && Alike(Conversed(c), Conversed(k))
      && (!CutsResults(c, reply, size) ==> Conversed(k) == Conversed(c))
  {
    if Due(size, c.history, c.notBefore) {
      CompactedIsValid(c, reply, size);
      CompactedConserves(c, reply, size);
    }
  }

  lemma TurnedAddsItsTurn(c: Chat, text: string, mets: seq<Met>)
    requires c.Valid() && ProperRounds(mets)
    ensures Turned(c, text, mets).0.Valid()
    ensures Conversed(Turned(c, text, mets).0) == Conversed(c) + TurnAdds(text, mets)
  {
    var adds := TurnAdds(text, mets);
    TurnedIs(c, text, mets);
    ErasedConcat(c.All(), adds, c.made, Plain(|adds|));
    ErasedPlain(adds);
  }

  lemma TurnedIs(c: Chat, text: string, mets: seq<Met>)
    requires c.Valid() && ProperRounds(mets)
    ensures var adds, c' := TurnAdds(text, mets), Turned(c, text, mets).0;
            && c'.Valid() && c'.All() == c.All() + adds && c'.made == c.made + Plain(|adds|)
  {
    var adds := TurnAdds(text, mets);
    TurnIsClosedExactly(c.history, text, mets);
    Regroup(c.archived, c.history, adds);
    FlagsMore(c.made, |adds|);
  }

  // Any number of operations.

  datatype Operation =
    | Send(text: string, reply: SummaryReply, mets: seq<Met>)
    | Reset
    | Restore(history: seq<Message>)
    | SetArchived(archived: seq<Message>)

  /** What `restore` accepts: users and assistants in turn, ending with the assistant. */
  predicate Restorable(h: seq<Message>) {
    && (forall i :: 0 <= i < |h| ==>
      h[i].role == (if i % 2 == 0 then User else Assistant) && !h[i].content.NoContent?)
    && |h| % 2 == 0
  }

  function Perform(c: Chat, op: Operation, size: Sizer): (r: Chat)
    requires c.Marked()
    ensures r.Marked()
  {
    match op
    case Send(text, reply, mets) => Sent(c, text, reply, mets, size).0
    case Reset => Chat([], [], 0, [])
    case Restore(h) =>
      if Restorable(h) then c.(history := h, made := c.made[..|c.archived|] + Plain(|h|)) else c
    case SetArchived(a) => c.(archived := a, made := Plain(|a|) + c.made[|c.archived|..])
  }

  /** What a turn meets is what rounds come to. */
  ghost predicate RunsRounds(op: Operation) {
    op.Send? ==> ProperRounds(op.mets)
  }

  /** A history that `restore` takes is one the model API takes. */
  predicate RestoresPaired(op: Operation) {
    op.Restore? && Restorable(op.history) ==> Paired(op.history)
  }

  ghost predicate Sensible(op: Operation) {
    RunsRounds(op) && RestoresPaired(op)
  }

  /** `restore` looks at the roles only: it keeps the history one that the model API takes exactly
      when what it accepts is one. */
  lemma RestoreKeepsExactly(c: Chat, h: seq<Message>, size: Sizer)
    requires c.Valid()
    ensures Perform(c, Restore(h), size).Valid() <==> (Restorable(h) ==> Paired(h))
  {
  }

  /** And it accepts a history that is not: an assistant's call that nothing answers. */
  lemma RestoreTakesAnOpenCall(question: string, call: Block)
    requires call.ToolUse?
    ensures var h := [Message(User, Str(question)), Message(Assistant, Blocks([call]))]; Restorable(h) && !Paired(h)
  {
    var h := [Message(User, Str(question)), Message(Assistant, Blocks([call]))];
    assert Calls([call]) == [call] + Calls([call][1..]);
    assert CallsOf(h[|h| - 1]) != [];
  }

  lemma PerformKeepsValid(c: Chat, op: Operation, size: Sizer)
    requires c.Valid() && Sensible(op)
    ensures Perform(c, op, size).Valid()
  {
    if op.Send? && Readied(c, op.reply, size).Some? {
      ReadiedConserves(c, op.reply, size);
      TurnedAddsItsTurn(Readied(c, op.reply, size).value, op.text, op.mets);
    }
  }

  function PerformAll(c: Chat, ops: seq<Operation>, size: Sizer): (r: Chat)
    requires c.Marked()
    ensures r.Marked()
    decreases |ops|
  {
    if ops == [] then c else PerformAll(Perform(c, ops[0], size), ops[1..], size)
  }

  /** The invariant of every run: whatever is sent, aborted, fails, is compacted, restored or reset,
      the history is one the model API takes. */
  lemma {:induction false} EveryRunIsPaired(c: Chat, ops: seq<Operation>, size: Sizer)
    requires c.Valid() && forall i :: 0 <= i < |ops| ==> Sensible(ops[i])
    ensures PerformAll(c, ops, size).Valid()
    decreases |ops|
  {
    if ops == [] {
    } else {
      PerformKeepsValid(c, ops[0], size);
      EveryRunIsPaired(Perform(c, ops[0], size), ops[1..], size);
    }
  }

  lemma {:induction false} PerformOneMore(c: Chat, ops: seq<Operation>, op: Operation, size: Sizer)
    requires c.Marked()
    ensures PerformAll(c, ops + [op], size) == Perform(PerformAll(c, ops, size), op, size)
    decreases |ops|
  {
    if ops == [] {
      assert PerformAll(c, [op], size) == PerformAll(Perform(c, op, size), [], size);
    } else {
      PerformOneMore(Perform(c, ops[0], size), ops[1..], op, size);
      FirstAndRest(ops, [op]);
    }
  }

  /** The history is one the model API takes after every operation of a run exactly when every
      history that the run's restores take is one. */
  lemma EveryRunIsPairedExactly(c: Chat, ops: seq<Operation>, size: Sizer)
    requires c.Valid() && forall i :: 0 <= i < |ops| ==> RunsRounds(ops[i])
    ensures (forall n :: 0 <= n <= |ops| ==> PerformAll(c, ops[..n], size).Valid())
       <==> (forall i :: 0 <= i < |ops| ==> RestoresPaired(ops[i]))
  {
    if forall i :: 0 <= i < |ops| ==> RestoresPaired(ops[i]) {
      forall n | 0 <= n <= |ops| ensures PerformAll(c, ops[..n], size).Valid() {
        EveryRunIsPaired(c, ops[..n], size);
      }
    } else {
      var i :| 0 <= i < |ops| && !RestoresPaired(ops[i]);
      UnpairedRestore(c, ops, i, size);
    }
  }

  lemma UnpairedRestore(c: Chat, ops: seq<Operation>, i: nat, size: Sizer)
    requires c.Marked() && i < |ops| && !RestoresPaired(ops[i])
    ensures !PerformAll(c, ops[..i + 1], size).Valid()
  {
    assert ops[..i + 1] == ops[..i] + [ops[i]];
    PerformOneMore(c, ops[..i], ops[i], size);
  }

  predicate IsSend(op: Operation) {
    op.Send? && ProperRounds(op.mets)
  }

  /** What the turn of a message keeps: nothing when the compaction before it was aborted. */
  function TurnKept(c: Chat, op: Operation, size: Sizer): seq<Message>
    requires c.Marked() && op.Send?
  {
    if Readied(c, op.reply, size).Some? then TurnAdds(op.text, op.mets) else []
  }

  lemma AlikeAppend(a: seq<Message>, b: seq<Message>, adds: seq<Message>, all: seq<Message>)
    requires Alike(a, b) && Alike(b + adds, all)
    ensures Alike(a + adds, all)
  {
    forall i | 0 <= i < |all| ensures SameButResults((a + adds)[i], all[i]) {
      assert SameButResults((b + adds)[i], all[i]);
      if i < |a| {
        assert SameButResults(a[i], b[i]);
      }
    }
  }

  lemma Chained(a: seq<Message>, kept: seq<Message>, b: seq<Message>, later: seq<Message>, all: seq<Message>)
    requires Alike(a + kept, b) && Alike(b + later, all)
    ensures Alike(a + (kept + later), all)
    ensures b == a + kept && all == b + later ==> all == a + (kept + later)
  {
    AlikeAppend(a + kept, b, later, all);
    assert a + kept + later == a + (kept + later);
  }

  lemma AlikeSelf(a: seq<Message>)
    ensures Alike(a, a)
  {
  }

  lemma SendConserves(c: Chat, op: Operation, size: Sizer)
    requires c.Valid() && IsSend(op)
    ensures
      var c', kept := Perform(c, op, size), TurnKept(c, op, size);
      && Alike(Conversed(c) + kept, Conversed(c'))
      && (!CutsResults(c, op.reply, size) ==> Conversed(c') == Conversed(c) + kept)
  {
    if Readied(c, op.reply, size).Some? {
      var k := Readied(c, op.reply, size).value;
      var kept := TurnAdds(op.text, op.mets);
      ReadiedConserves(c, op.reply, size);
      TurnedAddsItsTurn(k, op.text, op.mets);
      AlikeSelf(Conversed(k) + kept);
      AlikeAppend(Conversed(c), Conversed(k), kept, Conversed(k) + kept);
    } else {
      AlikeSelf(Conversed(c));
      assert Conversed(c) + [] == Conversed(c);
    }
  }

  predicate AllSends(ops: seq<Operation>) {
    ops != [] ==> IsSend(ops[0]) && AllSends(ops[1..])
  }

  /** What the turns of a run keep. */
  function TurnsKept(c: Chat, ops: seq<Operation>, size: Sizer): seq<Message>
    requires c.Marked() && AllSends(ops)
    decreases |ops|
  {
    if ops == [] then []
    else TurnKept(c, ops[0], size) + TurnsKept(Perform(c, ops[0], size), ops[1..], size)
  }

  /** No compaction of the run cuts a tool result short. */
  predicate NeverCuts(c: Chat, ops: seq<Operation>, size: Sizer)
    requires c.Marked() && AllSends(ops)
    decreases |ops|
  {
    ops != [] ==> !CutsResults(c, ops[0].reply, size) && NeverCuts(Perform(c, ops[0], size), ops[1..], size)
  }

  /** Over any number of messages and compactions the conversation is conserved. `archived` and the
      history, with the summaries and acknowledgements taken out, are the messages that the turns
      kept, in order: but for tool results cut short, and exactly if none ever is. */
  lemma {:induction false} EveryRunConserves(c: Chat, ops: seq<Operation>, size: Sizer)
    requires c.Valid() && AllSends(ops)
    ensures Alike(Conversed(c) + TurnsKept(c, ops, size), Conversed(PerformAll(c, ops, size)))
    ensures NeverCuts(c, ops, size) ==>
      Conversed(PerformAll(c, ops, size)) == Conversed(c) + TurnsKept(c, ops, size)
    decreases |ops|
  {
    if ops == [] {
      AlikeSelf(Conversed(c));
      assert Conversed(c) + [] == Conversed(c);
    } else {
      var c' := Perform(c, ops[0], size);
      PerformKeepsValid(c, ops[0], size);
      SendConserves(c, ops[0], size);
      EveryRunConserves(c', ops[1..], size);
      Chained(Conversed(c), TurnKept(c, ops[0], size), Conversed(c'), TurnsKept(c', ops[1..], size),
              Conversed(PerformAll(c', ops[1..], size)));
    }
  }

  /** Every snapshot taken between turns can be restored. */
  lemma PairedIsRestorable(h: seq<Message>)
    requires Paired(h)
    ensures Restorable(h)
  {
    forall i | 0 <= i < |h|
      ensures h[i].role == (if i % 2 == 0 then User else Assistant) && !h[i].content.NoContent?
    {
      assert Fits(h, i);
    }
  }

  // Results occur only where they answer calls.

  /** No assistant message holds a tool result. */
  predicate NoStrayResults(h: seq<Message>) {
    forall i :: 0 <= i < |h| && h[i].role.Assistant? ==> ResultsOf(h[i]) == []
  }

  lemma {:induction false} KeptKeepsResults(blocks: seq<Block>, calling: bool)
    ensures Results(Kept(blocks, calling)) == Results(blocks)
  {
    if blocks == [] {
    } else {
      KeptKeepsResults(blocks[1..], calling);
      var head := if !blocks[0].NullBlock? && (calling || !blocks[0].ToolUse?) then [blocks[0]] else [];
      if head == [] {
        assert Kept(blocks, calling) == Kept(blocks[1..], calling);
      } else {
        assert Kept(blocks, calling)[1..] == Kept(blocks[1..], calling);
      }
    }
  }

  lemma {:induction false} SameResults(a: seq<Block>, b: seq<Block>)
    requires |a| == |b| && forall k :: 0 <= k < |a| ==> SameButContent(a[k], b[k])
    ensures Results(a) == [] <==> Results(b) == []
  {
    if a == [] {
    } else {
      assert forall k :: 0 <= k < |a[1..]| ==> a[1..][k] == a[k + 1] && b[1..][k] == b[k + 1];
      SameResults(a[1..], b[1..]);
    }
  }

  lemma ShrunkIsClean(h: seq<Message>)
    requires NoStrayResults(h)
    ensures NoStrayResults(Shrunk(h))
  {
    ShrinkKeeps(h, Older(h));
    forall i | 0 <= i < |h| && h[i].role.Assistant? ensures ResultsOf(Shrunk(h)[i]) == [] {
      assert SameButResults(h[i], Shrunk(h)[i]);
      if h[i].content.Blocks? {
        SameResults(h[i].content.blocks, Shrunk(h)[i].content.blocks);
      }
    }
  }

  lemma CleanSlice(h: seq<Message>, at: nat)
    requires NoStrayResults(h) && at <= |h|
    ensures NoStrayResults(h[at..])
  {
    assert forall i :: 0 <= i < |h[at..]| ==> h[at..][i] == h[at + i];
  }

  lemma CleanConcat(a: seq<Message>, b: seq<Message>)
    ensures NoStrayResults(a + b) <==> NoStrayResults(a) && NoStrayResults(b)
  {
    if NoStrayResults(a + b) {
      forall i | 0 <= i < |a| && a[i].role.Assistant? ensures ResultsOf(a[i]) == [] {
        assert (a + b)[i] == a[i];
      }
      forall i | 0 <= i < |b| && b[i].role.Assistant? ensures ResultsOf(b[i]) == [] {
        assert (a + b)[|a| + i] == b[i];
      }
    }
  }

  lemma SummarisedIsClean(c: Chat, reply: SummaryReply)
    requires c.Marked() && NoStrayResults(c.history) && Summarised(c, reply).Some?
    ensures NoStrayResults(Summarised(c, reply).value.0.history)
  {
    var s := Summarised(c, reply).value.0;
    if s.history != c.history {
      var at := Cut(c.history).value;
      assert ResultsOf(SummaryPair(reply.text)[1]) == Results([TextBlock(ACKNOWLEDGEMENT)]) == [];
      assert NoStrayResults(SummaryPair(reply.text));
      CleanSlice(c.history, at);
      CleanConcat(SummaryPair(reply.text), c.history[at..]);
    }
  }

  lemma ReadiedIsClean(c: Chat, reply: SummaryReply, size: Sizer)
    requires c.Marked() && NoStrayResults(c.history) && Readied(c, reply, size).Some?
    ensures NoStrayResults(Readied(c, reply, size).value.history)
  {
    if Due(size, c.history, c.notBefore) {
      SummarisedIsClean(c, reply);
      ShrunkIsClean(Summarised(c, reply).value.0.history);
    }
  }

  /** How many of the answers of a turn stay: those whose calls were answered, and a final one. */
  function KeptAnswers(mets: seq<Met>): (n: nat)
    ensures n <= |mets| && forall i :: 0 <= i < n ==> !mets[i].Ended?
  {
    if mets == [] || mets[0].Ended? then 0
    else if mets[0].Final? || mets[0].stopped then 1
    else 1 + KeptAnswers(mets[1..])
  }

  /** An answer that stays holds a result. */
  predicate KeepsStray(mets: seq<Met>) {
    exists i :: 0 <= i < KeptAnswers(mets) && ResultsOf(mets[i].answer) != []
  }

  lemma KeepsStrayStep(mets: seq<Met>)
    requires mets != [] && mets[0].Exchange? && !mets[0].stopped
    ensures KeepsStray(mets) <==> ResultsOf(mets[0].answer) != [] || KeepsStray(mets[1..])
  {
    if KeepsStray(mets) && ResultsOf(mets[0].answer) == [] {
      var i :| 0 <= i < KeptAnswers(mets) && ResultsOf(mets[i].answer) != [];
      assert mets[1..][i - 1] == mets[i];
    }
    if KeepsStray(mets[1..]) {
      var i :| 0 <= i < KeptAnswers(mets[1..]) && ResultsOf(mets[1..][i].answer) != [];
      assert mets[i + 1] == mets[1..][i];
    }
  }

  lemma ExchangeIsClean(met: Met)
    requires Proper(met) && met.Exchange?
    ensures NoStrayResults([met.answer, met.results]) <==> ResultsOf(met.answer) == []
  {
    var h := [met.answer, met.results];
    if NoStrayResults(h) {
      assert h[0].role.Assistant?;
    }
  }

  lemma {:induction false} ExchangesAreCleanExactly(mets: seq<Met>)
    requires ProperRounds(mets)
    ensures NoStrayResults(Exchanges(mets) + FinalAnswer(Ending(mets))) <==> !KeepsStray(mets)
  {
    if mets == [] || mets[0].Ended? {
    } else if mets[0].Final? || mets[0].stopped {
      OneAnswerIsClean(mets);
    } else {
      var both := [mets[0].answer, mets[0].results];
      ExchangeIsClean(mets[0]);
      ExchangesAreCleanExactly(mets[1..]);
      KeepsStrayStep(mets);
      Regroup(both, Exchanges(mets[1..]), FinalAnswer(Ending(mets)));
      CleanConcat(both, Exchanges(mets[1..]) + FinalAnswer(Ending(mets)));
    }
  }

  lemma OneAnswerIsClean(mets: seq<Met>)
    requires ProperRounds(mets) && mets != [] && (mets[0].Final? || (mets[0].Exchange? && mets[0].stopped))
    ensures NoStrayResults(Exchanges(mets) + FinalAnswer(Ending(mets))) <==> !KeepsStray(mets)
  {
    OneAnswerStays(mets);
    if mets[0].Final? {
      AnswerIsClean(mets[0].answer);
    } else {
      ExchangeIsClean(mets[0]);
    }
  }

  lemma OneAnswerStays(mets: seq<Met>)
    requires mets != [] && (mets[0].Final? || (mets[0].Exchange? && mets[0].stopped))
    ensures Exchanges(mets) + FinalAnswer(Ending(mets))
         == if mets[0].Final? then [mets[0].answer] else [mets[0].answer, mets[0].results]
    ensures KeepsStray(mets) <==> ResultsOf(mets[0].answer) != []
  {
    assert KeptAnswers(mets) == 1;
  }

  lemma AnswerIsClean(answer: Message)
    requires answer.role.Assistant?
    ensures NoStrayResults([answer]) <==> ResultsOf(answer) == []
  {
    assert [answer][0] == answer;
  }

  lemma TurnAddsCleanExactly(text: string, mets: seq<Met>)
    requires ProperRounds(mets)
    ensures NoStrayResults(TurnAdds(text, mets)) <==> !KeepsStray(mets)
  {
    var question := [Message(User, Str(text))];
    var kept := Exchanges(mets) + FinalAnswer(Ending(mets));
    ExchangesAreCleanExactly(mets);
    CleanConcat(question, kept);
    Regroup(question, Exchanges(mets), FinalAnswer(Ending(mets)));
    if Ending(mets).Ended? {
      var note := [ClosingNote(Ending(mets).turn.Aborted?)];
      assert kept == Exchanges(mets);
      assert NoStrayResults(note);
      CleanConcat(question + Exchanges(mets), note);
    }
  }

  lemma TurnedIsCleanExactly(k: Chat, text: string, mets: seq<Met>)
    requires k.Valid() && NoStrayResults(k.history) && ProperRounds(mets)
    ensures NoStrayResults(Turned(k, text, mets).0.history) <==> !KeepsStray(mets)
  {
    TurnIsClosedExactly(k.history, text, mets);
    TurnAddsCleanExactly(text, mets);
    CleanConcat(k.history, TurnAdds(text, mets));
  }

  // What that means for the replies.

  /** A reply whose blocks go into the history, with a tool result among them. */
  predicate SendsResult(round: Round) {
    && round.Reply? && Results(round.content) != []
    && ((round.stop.CallsTools? && Calls(round.content) != []) || SaysSomething(round.content))
  }

  lemma {:induction false} KeptHolds(blocks: seq<Block>, calling: bool, b: Block)
    ensures b in Kept(blocks, calling) <==> b in blocks && !b.NullBlock? && (calling || !b.ToolUse?)
  {
    if blocks == [] {
    } else {
      KeptHolds(blocks[1..], calling, b);
      assert b in blocks <==> b == blocks[0] || b in blocks[1..];
    }
  }

  lemma KeptSays(blocks: seq<Block>, calling: bool)
    ensures SaysSomething(Kept(blocks, calling)) <==> SaysSomething(blocks)
  {
    forall b: Block ensures b in Kept(blocks, calling) <==> b in blocks && !b.NullBlock? && (calling || !b.ToolUse?) {
      KeptHolds(blocks, calling, b);
    }
  }

  lemma {:induction false} KeptCalls(blocks: seq<Block>)
    ensures Calls(Kept(blocks, true)) == Calls(blocks)
  {
    if blocks == [] {
    } else {
      KeptCalls(blocks[1..]);
      if blocks[0].NullBlock? {
        assert Kept(blocks, true) == Kept(blocks[1..], true);
      } else {
        assert Kept(blocks, true)[1..] == Kept(blocks[1..], true);
      }
    }
  }

  /** Which replies leave results in the assistant's message: the session filters none out. */
  lemma AnswerHoldsResultsExactly(round: Round)
    requires round.Reply?
    ensures ResultsOf(AnswerMessage(round)) != [] <==> SendsResult(round)
  {
    KeptKeepsResults(round.content, round.stop.CallsTools?);
    KeptSays(round.content, round.stop.CallsTools?);
    if round.stop.CallsTools? {
      KeptCalls(round.content);
    } else {
      KeptHasNoCalls(round.content);
    }
  }

  /** A turn keeps a stray result exactly when one of the replies that stay sends one. */
  lemma KeepsStrayExactly(rounds: seq<Round>)
    ensures KeepsStray(MeetAll(rounds))
       <==> exists i :: 0 <= i < KeptAnswers(MeetAll(rounds)) && SendsResult(rounds[i])
  {
    forall i | 0 <= i < KeptAnswers(MeetAll(rounds))
      ensures ResultsOf(MeetAll(rounds)[i].answer) != [] <==> SendsResult(rounds[i])
    {
      AnswerHoldsResultsExactly(rounds[i]);
    }
  }

  /** And a service could: this reply stays, with its result. */
  lemma ServiceCanSendResults(stop: Stop, tools: nat -> ToolOutcome)
    requires !stop.CallsTools?
    ensures var round := Reply([TextBlock("Done."), ToolResult("1", None, false)], stop, "Done.", tools);
            SendsResult(round) && KeptAnswers(MeetAll([round])) == 1 && KeepsStray(MeetAll([round]))
  {
    var round := Reply([TextBlock("Done."), ToolResult("1", None, false)], stop, "Done.", tools);
    BesideWords("Done.", ToolResult("1", None, false));
    AnswerHoldsResultsExactly(round);
    KeptHasNoCalls(round.content);
    KeepsStrayExactly([round]);
  }

  lemma BesideWords(words: string, result: Block)
    requires words != "" && !IsWhitespace(words[0]) && result.ToolResult?
    ensures Results([TextBlock(words), result]) != [] && SaysSomething([TextBlock(words), result])
  {
    var content := [TextBlock(words), result];
    assert content[0] in content && content[1..] == [result];
  }

  // Any number of operations.

  /** What brings a stray result in: a reply that stays, or a history that `restore` takes. */
  predicate BringsStray(c: Chat, op: Operation, size: Sizer)
    requires c.Marked()
  {
    match op
    case Send(_, reply, mets) => Readied(c, reply, size).Some? && KeepsStray(mets)
    case Restore(h) => Restorable(h) && !NoStrayResults(h)
    case _ => false
  }

  lemma PerformIsCleanExactly(c: Chat, op: Operation, size: Sizer)
    requires c.Valid() && NoStrayResults(c.history) && Sensible(op)
    ensures NoStrayResults(Perform(c, op, size).history) <==> !BringsStray(c, op, size)
  {
    if op.Send? && Readied(c, op.reply, size).Some? {
      var k := Readied(c, op.reply, size).value;
      ReadiedIsClean(c, op.reply, size);
      ReadiedConserves(c, op.reply, size);
      TurnedIsCleanExactly(k, op.text, op.mets);
    }
  }

  /** No operation of the run brings a stray result in. */
  predicate BringNoStray(c: Chat, ops: seq<Operation>, size: Sizer)
    requires c.Marked()
    decreases |ops|
  {
    ops != [] ==> !BringsStray(c, ops[0], size) && BringNoStray(Perform(c, ops[0], size), ops[1..], size)
  }

  ghost predicate AlwaysClean(c: Chat, ops: seq<Operation>, size: Sizer)
    requires c.Marked()
  {
    forall n :: 0 <= n <= |ops| ==> NoStrayResults(PerformAll(c, ops[..n], size).history)
  }

  lemma AlwaysCleanStep(c: Chat, ops: seq<Operation>, size: Sizer)
    requires c.Marked() && ops != [] && NoStrayResults(c.history)
    ensures AlwaysClean(c, ops, size) <==> AlwaysClean(Perform(c, ops[0], size), ops[1..], size)
  {
    forall n | 0 <= n < |ops|
      ensures PerformAll(Perform(c, ops[0], size), ops[1..][..n], size) == PerformAll(c, ops[..n + 1], size)
    {
      assert ops[..n + 1][1..] == ops[1..][..n];
    }
    if AlwaysClean(Perform(c, ops[0], size), ops[1..], size) {
      forall n | 0 <= n <= |ops| ensures NoStrayResults(PerformAll(c, ops[..n], size).history) {
        if n > 0 {
          assert PerformAll(Perform(c, ops[0], size), ops[1..][..n - 1], size) == PerformAll(c, ops[..n - 1 + 1], size);
        }
      }
    }
  }

  /** Tool results stand nowhere but in the messages that answer calls, after every operation of a
      run, exactly when no reply that stays sends one and no restored history has one. */
  lemma {:induction false} EveryRunHasNoStrayResults(c: Chat, ops: seq<Operation>, size: Sizer)
    requires c.Valid() && NoStrayResults(c.history)
    requires forall i :: 0 <= i < |ops| ==> Sensible(ops[i])
    ensures AlwaysClean(c, ops, size) <==> BringNoStray(c, ops, size)
    decreases |ops|
  {
    if ops == [] {
    } else {
      AlwaysCleanStep(c, ops, size);
      PerformIsCleanExactly(c, ops[0], size);
      PerformKeepsValid(c, ops[0], size);
      if BringsStray(c, ops[0], size) {
        assert ops[1..][..0] == [];
      } else {
        EveryRunHasNoStrayResults(Perform(c, ops[0], size), ops[1..], size);
      }
    }
  }

  lemma {:induction false} MeetAllProper(rounds: seq<Round>)
    ensures ProperRounds(MeetAll(rounds))
  {
    forall i | 0 <= i < |rounds| ensures Proper(MeetAll(rounds)[i]) && MeetAll(rounds)[i] != Ended(Answered) {
      RoundsAreProper(rounds[i]);
    }
  }

  /** What a turn comes to, from what its rounds came to. */
  lemma AfterTurnIs(h: seq<Message>, text: string, mets: seq<Met>, ran: seq<Message>, turn: Turn)
    requires (ran, turn) == RunFrom(h + [Message(User, Str(text))], mets)
    ensures |h| <= |ran|
    ensures AfterTurn(h, text, mets) == (if turn.Answered? then ran else Closed(ran, |h|, turn.Aborted?), turn)
  {
    RunAdds(h + [Message(User, Str(text))], mets);
  }

  /** The session, its history changed in place as the code changes it. */
  class Session {
    var history: seq<Message>
    var archived: seq<Message>
    var notBefore: nat
    const size: Sizer
    ghost var made: seq<bool>

    ghost function View(): Chat
      reads this
    {
      Chat(history, archived, notBefore, made)
    }

    constructor (size: Sizer)
      ensures View() == Chat([], [], 0, []) && View().Valid() && this.size == size
    {
      history, archived, notBefore, made := [], [], 0, [];
      this.size := size;
    }

    method Reset()
      requires View().Valid()
      modifies this
      ensures View() == Perform(old(View()), Operation.Reset, size) && View().Valid()
    {
      history, archived, notBefore, made := [], [], 0, [];
    }

    method SetArchived(messages: seq<Message>)
      requires View().Valid()
      modifies this
      ensures View() == Perform(old(View()), Operation.SetArchived(messages), size) && View().Valid()
    {
      made := Plain(|messages|) + made[|archived|..];
      archived := messages;
    }

    /** Refuses a history that is not turns of a user then an assistant; takes any other as it is. */
    method Restore(messages: seq<Message>) returns (ok: bool)
      requires View().Valid()
      modifies this
      ensures ok == Restorable(messages)
      ensures View() == Perform(old(View()), Operation.Restore(messages), size)
      ensures Paired(messages) ==> ok && View().Valid() && history == messages
    {
      if Paired(messages) {
        PairedIsRestorable(messages);
      }
      ok := |messages| % 2 == 0;
      for i := 0 to |messages|
        invariant ok <==> |messages| % 2 == 0 && forall k :: 0 <= k < i ==>
          messages[k].role == (if k % 2 == 0 then User else Assistant) && !messages[k].content.NoContent?
      {
        var want := if i % 2 == 0 then User else Assistant;
        ok := ok && messages[i].role == want && !messages[i].content.NoContent?;
      }
      if ok {
        made := made[..|archived|] + Plain(|messages|);
        history := messages;
      }
    }

    /** Runs the tools called, in order: one result for each call, and whether the abort came. */
    method CallTools(calls: seq<Block>, tools: nat -> ToolOutcome) returns (results: seq<Block>, stopped: bool)
      requires AllCalls(calls)
      ensures results == ToolResults(calls, tools, |calls|)
      ensures stopped == StoppedBefore(tools, |calls|)
    {
      results, stopped := [], false;
      for k := 0 to |calls|
        invariant results == ToolResults(calls, tools, k)
        invariant stopped == StoppedBefore(tools, k)
      {
        if stopped {
          results := results + [NotRun(calls[k])];
        } else {
          stopped := !tools(k).finished;
          results := results + [Ran(calls[k], tools(k))];
        }
      }
    }

    /** Asks, runs the tools called and hands back their results, until the assistant answers. */
    method Run(rounds: seq<Round>) returns (turn: Turn)
      requires |rounds| == MAX_ROUNDS
      modifies this`history
      ensures (history, turn) == RunFrom(old(history), MeetAll(rounds))
    {
      ghost var mets := MeetAll(rounds);
      for i := 0 to MAX_ROUNDS
        invariant RunFrom(old(history), mets) == RunFrom(history, mets[i..])
      {
        assert mets[i..][0] == Meets(rounds[i]) && mets[i..][1..] == mets[i + 1..];
        match rounds[i] {
          case NoToken => return Failed;
          case AskAborted => return Aborted;
          case AskFailed => return Failed;
          case Refusal => return Failed;
          case Reply(_, _, _, tools) =>
            var answer := AnswerMessage(rounds[i]);
            var calls := CallsOf(answer);
            ghost var before := history;
            history := history + [answer];
            if calls == [] {
              return Answered;
            }
            CallsAreCalls(if answer.content.Blocks? then answer.content.blocks else []);
            var results, stopped := CallTools(calls, tools);
            history := history + [Message(User, Blocks(results))];
            assert history == before + [answer, ResultsMessage(rounds[i])];
            if stopped {
              return Aborted;
            }
        }
      }
      return Failed;
    }

    /** Leaves the history whole after a turn with no answer. */
    method CloseUnanswered(before: nat, stopped: bool)
      requires before <= |history|
      modifies this`history
      ensures history == Closed(old(history), before, stopped)
    {
      var i: nat := |history|;
      while i > before + 1 && !history[i - 1].role.User?
        invariant i <= |history|
        invariant LastUser(history, before, |history|) == LastUser(history, before, i)
      {
        i := i - 1;
      }
      if i <= before + 1 {
        history := history[..before];
      } else {
        history := history[..i] + [ClosingNote(stopped)];
      }
    }

    method CountResults() returns (results: nat)
      ensures results == |AllResults(history)|
    {
      results := 0;
      assert history[0..] == history;
      for i := 0 to |history|
        invariant results + |AllResults(history[i..])| == |AllResults(history)|
      {
        results := results + |ResultsOf(history[i])|;
        assert history[i..][1..] == history[i + 1..];
      }
    }

    /** Cuts the older tool results short, in place. Says whether anything was cut. */
    method Shrink() returns (cut: bool)
      modifies this`history
      ensures history == Shrunk(old(history))
      ensures cut <==> history != old(history)
    {
      ghost var was := history;
      var results := CountResults();
      var left := SaturatingSub(results, KEEP_RESULTS);
      assert was[0..] == was;
      cut := false;
      for i := 0 to |history|
        invariant |history| == |was| && history[i..] == was[i..]
        invariant ShrinkMessages(was, Older(was)) == history[..i] + ShrinkMessages(was[i..], left)
        invariant cut <==> history[..i] != was[..i]
      {
        left, cut := ShrinkAt(i, left, cut, was);
      }
      assert was[|was|..] == [] && history[..|was|] + [] == history && was[..|was|] == was;
    }

    /** One step of `Shrink`: cuts the first `older` results of message `i`. */
    method ShrinkAt(i: nat, older: nat, cutBefore: bool, ghost was: seq<Message>) returns (left: nat, cut: bool)
      requires i < |history| == |was| && history[i..] == was[i..]
      requires cutBefore <==> history[..i] != was[..i]
      modifies this`history
      ensures |history| == |was| && history[i + 1..] == was[i + 1..]
      ensures old(history)[..i] + ShrinkMessages(was[i..], older)
           == history[..i + 1] + ShrinkMessages(was[i + 1..], left)
      ensures cut <==> history[..i + 1] != was[..i + 1]
    {
      ShrinkMessagesStep(history[..i], was, i, older);
      var message;
      message, left := ShrinkOne(history[i], older);
      Overwrite(history, was, i, message);
      cut := cutBefore || message != history[i];
      history := history[i := message];
    }

    /** Cuts the first `older` results of one message, and says how many are left to cut. */
    method ShrinkOne(m: Message, older: nat) returns (r: Message, left: nat)
      ensures r == ShrinkMessage(m, older)
      ensures left == SaturatingSub(older, |ResultsOf(m)|)
    {
      left := older;
      if !m.content.Blocks? {
        return m, left;
      }
      ghost var was := m.content.blocks;
      var blocks := m.content.blocks;
      for j := 0 to |blocks|
        invariant |blocks| == |was| && blocks[j..] == was[j..]
        invariant ShrinkBlocks(was, older) == blocks[..j] + ShrinkBlocks(was[j..], left)
        invariant SaturatingSub(older, |Results(was)|) == SaturatingSub(left, |Results(was[j..])|)
      {
        ShrinkBlocksStep(blocks[..j], was, j, left);
        var block := ShrinkBlock(blocks[j], left);
        Overwrite(blocks, was, j, block);
        left := if blocks[j].ToolResult? then SaturatingSub(left, 1) else left;
        blocks := blocks[j := block];
      }
      assert was[|was|..] == [] && blocks[..|was|] + [] == blocks;
      r := m.(content := Blocks(blocks));
    }

    /** The summary step: whether it was done; none when the abort came first. */
    method Summarise(reply: SummaryReply) returns (done: Option<bool>)
      requires View().Valid()
      modifies this
      ensures match Summarised(old(View()), reply)
              case None => done == None && View() == old(View())
              case Some((c, d)) => done == Some(d) && View() == c
      ensures View().Valid()
    {
      SummarisedIsValid(View(), reply);
      var cut := Cut(history);
      if cut.None? {
        return Some(false);
      }
      if reply.SummaryAborted? {
        return None;
      }
      if reply.SummaryFailed? || reply.refused || Blank(reply.text) {
        return Some(false);
      }
      var kept := history[cut.value..];
      ghost var parted := |archived| + cut.value;
      archived := archived + history[..cut.value];
      history := Rebuilt(reply.text, kept);
      made := made[..parted] + [true, true] + made[parted..];
      return Some(true);
    }

    /** Compacts, unless the abort comes first. Once it completes, none is due. */
    method CompactNow(reply: SummaryReply) returns (completed: bool)
      requires View().Valid()
      modifies this
      ensures match Compacted(old(View()), reply, size)
              case None => !completed && View() == old(View())
              case Some(c) => completed && View() == c && !Due(size, history, notBefore)
      ensures View().Valid()
    {
      ghost var was := View();
      CompactedIsValid(was, reply, size);
      var done := Summarise(reply);
      if done.None? {
        return false;
      }
      CompactedIsNotDue(was, reply, size);
      Settle(done.value);
      return true;
    }

    /** The rest of a compaction: cuts results short if the summary was not enough. */
    method Settle(done: bool)
      modifies this`history, this`notBefore
      ensures history == if !done || size(old(history)) > COMPACT_AT then Shrunk(old(history)) else old(history)
      ensures notBefore == if !done || size(old(history)) > COMPACT_AT then size(history) + RETRY_AFTER else 0
    {
      if !done || size(history) > COMPACT_AT {
        var _ := Shrink();
        notBefore := size(history) + RETRY_AFTER;
      } else {
        notBefore := 0;
      }
    }

    /** The turn itself: the question, its rounds, and the closing of a turn with no answer. */
    method TakeTurn(text: string, rounds: seq<Round>, ghost mets: seq<Met>) returns (turn: Turn)
      requires |rounds| == MAX_ROUNDS && mets == MeetAll(rounds)
      modifies this`history
      ensures (history, turn) == AfterTurn(old(history), text, mets)
    {
      var before := |history|;
      ghost var was := history;
      history := history + [Message(User, Str(text))];
      turn := Run(rounds);
      ghost var ran := history;
      AfterTurnIs(was, text, mets, ran, turn);
      if !turn.Answered? {
        CloseUnanswered(before, turn.Aborted?);
      }
    }

    method Ask(text: string, rounds: seq<Round>, ghost mets: seq<Met>) returns (turn: Turn)
      requires View().Valid() && |rounds| == MAX_ROUNDS && mets == MeetAll(rounds)
      modifies this`history, this`made
      ensures (View(), turn) == Turned(old(View()), text, mets)
    {
      turn := TakeTurn(text, rounds, mets);
      made := Flags(made, |archived| + |history|);
    }

    /** Sends a message: compacts first when that is due. */
    method Send(text: string, reply: SummaryReply, rounds: seq<Round>) returns (turn: Turn)
      requires View().Valid() && |rounds| == MAX_ROUNDS
      modifies this
      ensures (View(), turn) == Sent(old(View()), text, reply, MeetAll(rounds), size)
      ensures View().Valid()
    {
      MeetAllProper(rounds);
      PerformKeepsValid(View(), Operation.Send(text, reply, MeetAll(rounds)), size);
      if Due(size, history, notBefore) {
        var completed := CompactNow(reply);
        if !completed {
          return Aborted;
        }
      }
      turn := Ask(text, rounds, MeetAll(rounds));
    }
  }
}
