/** A conversation with the assistant: its turns, tool rounds, aborts and compactions
    (crates/erpc-ai/src/session.rs), as functions of what the service, the tools and the person do.
 */
module Conversation {
  import opened Wrappers
  import opened Characters
  import opened Compact

  const MAX_ROUNDS: nat := 24
  const RUN_COMMAND := "run_command"

  // The wording of what the session writes itself, abbreviated.
  const NOTE_STOPPED := "(stopped)"
  const NOTE_FAILED := "(failed)"
  const NO_ANSWER := "(none)"
  const NOT_RUN := "not run"
  const NOT_FINISHED := "stopped"

  datatype Turn = Answered | Aborted | Failed

  datatype Stop = CallsTools | OtherStop

  /** What became of a tool: whether it finished before the abort, whether the person had agreed to
      it, and its result once it has one. */
  datatype ToolOutcome = ToolOutcome(finished: bool, agreed: bool, ok: bool, text: string)

  /** What one round of a turn met. */
  datatype Round =
    | NoToken
    | AskAborted
    | AskFailed
    | Refusal
    | Reply(content: seq<Block>, stop: Stop, text: string, tools: nat -> ToolOutcome)

  /** What asking for a summary met. */
  datatype SummaryReply = SummaryAborted | SummaryFailed | Summary(refused: bool, text: string)

  // One answer and its tools.

  /** The blocks that go into the history: calls only from an answer that stopped to call. */
  function Kept(blocks: seq<Block>, calling: bool): seq<Block> {
    if blocks == [] then []
    else
      (if !blocks[0].NullBlock? && (calling || !blocks[0].ToolUse?) then [blocks[0]] else [])
      + Kept(blocks[1..], calling)
  }

  predicate SaysSomething(blocks: seq<Block>) {
    exists b :: b in blocks && b.TextBlock? && !Blank(b.text)
  }

  function AnswerMessage(reply: Round): Message
    requires reply.Reply?
  {
    var content := Kept(reply.content, reply.stop.CallsTools?);
    Message(Assistant,
            if Calls(content) != [] || SaysSomething(content) then Blocks(content)
            else if Blank(reply.text) then Str(NO_ANSWER)
            else Str(reply.text))
  }

  predicate StoppedBefore(tools: nat -> ToolOutcome, k: nat) {
    exists j: nat :: j < k && !tools(j).finished
  }

  /** The result of a tool that was started. */
  function Ran(call: Block, outcome: ToolOutcome): Block
    requires call.ToolUse?
  {
    if outcome.finished || (outcome.agreed && call.name != RUN_COMMAND) then
      ToolResult(call.id, Some(Text(outcome.text)), !outcome.ok)
    else
      ToolResult(call.id, Some(Text(NOT_FINISHED)), true)
  }

  function NotRun(call: Block): Block
    requires call.ToolUse?
  {
    ToolResult(call.id, Some(Text(NOT_RUN)), true)
  }

  predicate AllCalls(calls: seq<Block>) {
    forall k :: 0 <= k < |calls| ==> calls[k].ToolUse?
  }

  /** The results of the first `n` calls. */
  function ToolResults(calls: seq<Block>, tools: nat -> ToolOutcome, n: nat): (results: seq<Block>)
    requires AllCalls(calls) && n <= |calls|
    ensures |results| == n
    ensures forall k :: 0 <= k < n ==> results[k].ToolResult? && results[k].id == calls[k].id
  {
    if n == 0 then []
    else
      ToolResults(calls, tools, n - 1)
      + [if StoppedBefore(tools, n - 1) then NotRun(calls[n - 1]) else Ran(calls[n - 1], tools(n - 1))]
  }

  lemma {:induction false} CallsAreCalls(blocks: seq<Block>)
    ensures AllCalls(Calls(blocks))
  {
    if blocks == [] {
    } else {
      CallsAreCalls(blocks[1..]);
    }
  }

  lemma {:induction false} KeptHasNoCalls(blocks: seq<Block>)
    ensures Calls(Kept(blocks, false)) == []
  {
    if blocks == [] {
    } else {
      KeptHasNoCalls(blocks[1..]);
      var head := if !blocks[0].NullBlock? && !blocks[0].ToolUse? then [blocks[0]] else [];
      assert Kept(blocks, false) == head + Kept(blocks[1..], false);
      if head == [] {
        assert Kept(blocks, false) == Kept(blocks[1..], false);
      } else {
        assert Kept(blocks, false)[1..] == Kept(blocks[1..], false);
      }
    }
  }

  /** Only an answer that stopped to call tools leaves calls in the history. */
  lemma OnlyCallingAnswersCall(reply: Round)
    requires reply.Reply? && !reply.stop.CallsTools?
    ensures CallsOf(AnswerMessage(reply)) == []
  {
    KeptHasNoCalls(reply.content);
  }

  function ResultsMessage(reply: Round): Message
    requires reply.Reply?
  {
    var calls := CallsOf(AnswerMessage(reply));
    CallsAreCalls(if AnswerMessage(reply).content.Blocks? then AnswerMessage(reply).content.blocks else []);
    Message(User, Blocks(ToolResults(calls, reply.tools, |calls|)))
  }

  /** However the tools end, every call gets exactly its result. */
  lemma ResultsAnswerCalls(reply: Round)
    requires reply.Reply?
    ensures Answers(ResultsMessage(reply), CallsOf(AnswerMessage(reply)))
  {
    var calls := CallsOf(AnswerMessage(reply));
    if AnswerMessage(reply).content.Blocks? {
      CallsAreCalls(AnswerMessage(reply).content.blocks);
    }
  }

  // A turn.

  /** What a round comes to: the turn ends without an answer, or with one, or tools were run and
      their results handed back. */
  datatype Met =
    | Ended(turn: Turn)
    | Final(answer: Message)
    | Exchange(answer: Message, results: Message, stopped: bool)

  function Meets(round: Round): Met {
    match round
    case NoToken => Ended(Failed)
    case AskAborted => Ended(Aborted)
    case AskFailed => Ended(Failed)
    case Refusal => Ended(Failed)
    case Reply(_, _, _, tools) =>
      var calls := CallsOf(AnswerMessage(round));
      if calls == [] then Final(AnswerMessage(round))
      else Exchange(AnswerMessage(round), ResultsMessage(round), StoppedBefore(tools, |calls|))
  }

  /** An answer is the assistant's; one that calls tools is followed by exactly their results. */
  predicate Proper(met: Met) {
    && (!met.Ended? ==> met.answer.role.Assistant? && (met.answer.content.Str? || met.answer.content.Blocks?))
    && (met.Final? ==> CallsOf(met.answer) == [])
    && (met.Exchange? ==> CallsOf(met.answer) != [] && Answers(met.results, CallsOf(met.answer)))
  }

  lemma RoundsAreProper(round: Round)
    ensures Proper(Meets(round))
  {
    if round.Reply? {
      ResultsAnswerCalls(round);
    }
  }

  function MeetAll(rounds: seq<Round>): (mets: seq<Met>)
    ensures |mets| == |rounds|
    ensures forall i :: 0 <= i < |rounds| ==> mets[i] == Meets(rounds[i])
  {
    if rounds == [] then [] else [Meets(rounds[0])] + MeetAll(rounds[1..])
  }

  /** The rounds of a turn: the history they leave, and how the turn ends. A turn that would need
      more rounds than there are fails. */
  function RunFrom(h: seq<Message>, mets: seq<Met>): (seq<Message>, Turn)
    decreases |mets|
  {
    if mets == [] then (h, Failed)
    else match mets[0]
      case Ended(turn) => (h, turn)
      case Final(answer) => (h + [answer], Answered)
      case Exchange(answer, results, stopped) =>
        if stopped then (h + [answer, results], Aborted)
        else RunFrom(h + [answer, results], mets[1..])
  }

  /** The place of the last user message after `before`, looking back from `i`. */
  function LastUser(h: seq<Message>, before: nat, i: nat): (at: Option<nat>)
    requires i <= |h|
    ensures at.Some? ==> before < at.value < i && h[at.value].role.User?
    decreases i
  {
    if i <= before + 1 then None
    else if h[i - 1].role.User? then Some(i - 1)
    else LastUser(h, before, i - 1)
  }

  function ClosingNote(stopped: bool): Message {
    Message(Assistant, Str(if stopped then NOTE_STOPPED else NOTE_FAILED))
  }

  /** The history after a turn with no answer, whose question is message `before`. */
  function Closed(h: seq<Message>, before: nat, stopped: bool): seq<Message>
    requires before <= |h|
  {
    var last := LastUser(h, before, |h|);
    var end := if last.Some? then last.value + 1 else before;
    if end <= before + 1 then h[..before] else h[..end] + [ClosingNote(stopped)]
  }

  function AfterTurn(h: seq<Message>, text: string, mets: seq<Met>): (seq<Message>, Turn) {
    RunAdds(h + [Message(User, Str(text))], mets);
    var (h', turn) := RunFrom(h + [Message(User, Str(text))], mets);
    (if turn.Answered? then h' else Closed(h', |h|, turn.Aborted?), turn)
  }

  // What a turn leaves, told without the history it is asked in.

  /** The finished tool rounds of a turn: each answer that calls, then its results. */
  function Exchanges(mets: seq<Met>): seq<Message> {
    if mets == [] || !mets[0].Exchange? then []
    else [mets[0].answer, mets[0].results] + (if mets[0].stopped then [] else Exchanges(mets[1..]))
  }

  /** How the turn ends. */
  function Ending(mets: seq<Met>): Met {
    if mets == [] then Ended(Failed)
    else if !mets[0].Exchange? then mets[0]
    else if mets[0].stopped then Ended(Aborted)
    else Ending(mets[1..])
  }

  function TurnOf(ending: Met): Turn {
    if ending.Ended? then ending.turn else Answered
  }

  function FinalAnswer(ending: Met): seq<Message> {
    if ending.Final? then [ending.answer] else []
  }

  predicate ProperRounds(mets: seq<Met>) {
    forall i :: 0 <= i < |mets| ==> Proper(mets[i]) && mets[i] != Ended(Answered)
  }

  lemma {:induction false} RunAdds(h: seq<Message>, mets: seq<Met>)
    ensures RunFrom(h, mets) == (h + Exchanges(mets) + FinalAnswer(Ending(mets)), TurnOf(Ending(mets)))
    ensures !Ending(mets).Exchange?
    decreases |mets|
  {
    if mets == [] || !mets[0].Exchange? {
      assert h + Exchanges(mets) == h;
      assert h + [] == h;
    } else {
      var adds := [mets[0].answer, mets[0].results];
      if mets[0].stopped {
        assert h + adds == h + Exchanges(mets) + FinalAnswer(Ending(mets));
      } else {
        RunAdds(h + adds, mets[1..]);
        assert (h + adds) + Exchanges(mets[1..]) == h + Exchanges(mets);
      }
    }
  }

  /** A history whose last message the assistant is to answer. */
  predicate Open(h: seq<Message>) {
    Joined(h) && |h| % 2 == 1
  }

  lemma OpenThenAnswer(h: seq<Message>, answer: Message)
    requires Open(h) && answer.role.Assistant? && (answer.content.Str? || answer.content.Blocks?)
    ensures Joined(h + [answer])
    ensures CallsOf(answer) == [] ==> Paired(h + [answer])
  {
    var h' := h + [answer];
    forall i | 0 <= i < |h'| ensures Fits(h', i) {
      if i < |h| {
        assert Fits(h, i);
      }
    }
  }

  lemma OpenThenExchange(h: seq<Message>, met: Met)
    requires Open(h) && met.Exchange? && Proper(met)
    ensures Open(h + [met.answer, met.results])
  {
    var h1, h2 := h + [met.answer], h + [met.answer, met.results];
    OpenThenAnswer(h, met.answer);
    forall i | 0 <= i < |h2| ensures Fits(h2, i) {
      if i < |h1| {
        assert Fits(h1, i);
      }
    }
  }

  lemma {:induction false} ExchangesKeepOpen(h: seq<Message>, mets: seq<Met>)
    requires Open(h) && ProperRounds(mets)
    ensures Open(h + Exchanges(mets))
    ensures Ending(mets).Exchange? || Ending(mets).Ended? || Paired(h + Exchanges(mets) + FinalAnswer(Ending(mets)))
    ensures TurnOf(Ending(mets)).Answered? <==> !Ending(mets).Ended?
    decreases |mets|
  {
    if mets == [] || !mets[0].Exchange? {
      assert h + Exchanges(mets) == h;
      if mets != [] && mets[0].Final? {
        OpenThenAnswer(h, mets[0].answer);
      }
    } else {
      var adds := [mets[0].answer, mets[0].results];
      OpenThenExchange(h, mets[0]);
      if mets[0].stopped {
        assert adds + [] == adds;
      } else {
        ExchangesKeepOpen(h + adds, mets[1..]);
        Regroup(h, adds, Exchanges(mets[1..]));
      }
    }
  }

  /** What a turn adds to the history it was asked in. */
  function TurnAdds(text: string, mets: seq<Met>): seq<Message> {
    var question := [Message(User, Str(text))];
    var ending := Ending(mets);
    if !ending.Ended? then question + Exchanges(mets) + FinalAnswer(ending)
    else if Exchanges(mets) == [] then []
    else question + Exchanges(mets) + [ClosingNote(ending.turn.Aborted?)]
  }

  lemma AskedIsOpen(h: seq<Message>, text: string)
    requires Paired(h)
    ensures Open(h + [Message(User, Str(text))])
  {
    assert Joined([Message(User, Str(text))]);
    JoinedConcat(h, [Message(User, Str(text))]);
  }

  lemma ClosesOpenTurn(h: seq<Message>, question: Message, exchanges: seq<Message>, stopped: bool)
    requires Paired(h) && Open(h + [question] + exchanges)
    ensures
      var closed := Closed(h + [question] + exchanges, |h|, stopped);
      && closed == h + (if exchanges == [] then [] else [question] + exchanges + [ClosingNote(stopped)])
      && Paired(closed)
  {
    var h' := h + [question] + exchanges;
    assert Fits(h', |h'| - 1);
    ClosedAtUser(h', |h|, stopped);
    Regroup(h, [question], exchanges);
    if exchanges == [] {
      ConcatParts(h, [question] + exchanges);
    } else {
      Regroup(h, [question] + exchanges, [ClosingNote(stopped)]);
      OpenThenAnswer(h', ClosingNote(stopped));
    }
  }

  lemma ClosedAtUser(h: seq<Message>, before: nat, stopped: bool)
    requires before < |h| && h[|h| - 1].role.User?
    ensures Closed(h, before, stopped) == if |h| == before + 1 then h[..before] else h + [ClosingNote(stopped)]
  {
    assert h[..|h|] == h;
  }

  lemma AnsweredTurn(h: seq<Message>, text: string, mets: seq<Met>)
    requires Paired(h) && ProperRounds(mets) && Ending(mets).Final?
    ensures AfterTurn(h, text, mets) == (h + TurnAdds(text, mets), Answered)
    ensures Paired(h + TurnAdds(text, mets))
  {
    var question := Message(User, Str(text));
    AskedIsOpen(h, text);
    RunAdds(h + [question], mets);
    ExchangesKeepOpen(h + [question], mets);
    Regroup(h, [question], Exchanges(mets));
    Regroup(h, [question] + Exchanges(mets), FinalAnswer(Ending(mets)));
  }

  lemma UnansweredTurn(h: seq<Message>, text: string, mets: seq<Met>)
    requires Paired(h) && ProperRounds(mets) && Ending(mets).Ended?
    ensures AfterTurn(h, text, mets) == (h + TurnAdds(text, mets), TurnOf(Ending(mets)))
    ensures Paired(h + TurnAdds(text, mets))
  {
    var question := Message(User, Str(text));
    AskedIsOpen(h, text);
    RunAdds(h + [question], mets);
    ExchangesKeepOpen(h + [question], mets);
    assert RunFrom(h + [question], mets).0 == h + [question] + Exchanges(mets);
    ClosesOpenTurn(h, question, Exchanges(mets), Ending(mets).turn.Aborted?);
  }

  /** A turn is closed exactly. Answered, it leaves its question, its tool rounds and the answer.
      Without an answer, it leaves nothing when no tool round finished; otherwise every call that
      was handed to the tools stays with its result, in order, followed by one note. */
  lemma TurnIsClosedExactly(h: seq<Message>, text: string, mets: seq<Met>)
    requires Paired(h) && ProperRounds(mets)
    ensures AfterTurn(h, text, mets) == (h + TurnAdds(text, mets), TurnOf(Ending(mets)))
    ensures Paired(h + TurnAdds(text, mets))
  {
    RunAdds([], mets);
    if Ending(mets).Ended? {
      UnansweredTurn(h, text, mets);
    } else {
      AnsweredTurn(h, text, mets);
    }
  }
}
