/** The reading loop of `chat` (crates/erpc-api/src/ai.rs): chunks of bytes in, one answer out. */
module Chat {
  import opened Wrappers
  import opened Json
  import opened EventStream
  import opened Answer

  const NOTHING := Reading(EMPTY, "", None)

  function ApplyEvents(r: Reading, events: seq<Event>, parse: Parser): Reading
    decreases |events|
  {
    if events == [] || r.error.Some? then r
    else ApplyEvents(Apply(r, Announced(events[0], parse), parse), events[1..], parse)
  }

  lemma {:induction false} ApplyEventsConcat(r: Reading, a: seq<Event>, b: seq<Event>, parse: Parser)
    ensures ApplyEvents(r, a + b, parse) == ApplyEvents(ApplyEvents(r, a, parse), b, parse)
    decreases |a|
  {
    if a == [] {
      assert a + b == b;
    } else if r.error.None? {
      assert (a + b)[1..] == a[1..] + b;
      ApplyEventsConcat(Apply(r, Announced(a[0], parse), parse), a[1..], b, parse);
    }
  }

  /** What the bytes of a reply say. */
  function Told(bytes: Bytes, decode: Bytes -> string, parse: Parser): Reading {
    ApplyEvents(NOTHING, Drain(Clean(bytes), decode).events, parse)
  }

  /** An error ends the reading for good. */
  lemma {:induction false} ToldMore(chunks: seq<Bytes>, n: nat, decode: Bytes -> string, parse: Parser)
    requires n <= |chunks| && Told(Concat(chunks[..n]), decode, parse).error.Some?
    ensures Told(Concat(chunks), decode, parse) == Told(Concat(chunks[..n]), decode, parse)
    decreases |chunks|
  {
    if n == |chunks| {
      assert chunks[..n] == chunks;
    } else {
      var before, last := chunks[..|chunks| - 1], chunks[|chunks| - 1];
      assert before[..n] == chunks[..n];
      ToldMore(before, n, decode, parse);
      CleanConcat(Concat(before), last);
      DrainMore(Clean(Concat(before)), Clean(last), decode);
      var all := Drain(Clean(Concat(before)), decode);
      ApplyEventsConcat(NOTHING, all.events, Drain(all.rest + Clean(last), decode).events, parse);
    }
  }

  datatype ChatError = Provider(kind: string) | Malformed(reason: string)

  function Outcome(told: Reading, broken: Option<string>): Result<Answer, ChatError> {
    if told.error.Some? then Err(Provider(told.error.value))
    else if broken.Some? then Err(Malformed(broken.value))
    else Ok(told.answer)
  }

  /** Takes the events of one chunk, until one of them ends the reading. */
  method TakeEvents(reply: Reply, events: seq<Event>, parse: Parser) returns (error: Option<string>)
    modifies reply
    ensures reply.Now().(error := error) == ApplyEvents(old(reply.Now()), events, parse)
  {
    for i := 0 to |events|
      invariant ApplyEvents(reply.Now(), events[i..], parse) == ApplyEvents(old(reply.Now()), events, parse)
    {
      assert events[i..][1..] == events[i + 1..];
      error := reply.Take(Announced(events[i], parse), parse);
      if error.Some? {
        return;
      }
    }
    error := None;
  }

  /** `broken` is how the connection ends after the last chunk, if it does not end well. However the
      bytes are cut into chunks, the answer or the first error, and the text passed on, are those of
      the whole. */
  method ReadReply(chunks: seq<Bytes>, broken: Option<string>, decode: Bytes -> string, parse: Parser)
    returns (result: Result<Answer, ChatError>, heard: string)
    ensures result == Outcome(Told(Concat(chunks), decode, parse), broken)
    ensures heard == Told(Concat(chunks), decode, parse).heard
  {
    var parser := new SseParser();
    var reply := new Reply();
    for n := 0 to |chunks|
      invariant parser.Valid(decode) && parser.read == Concat(chunks[..n])
      invariant reply.Now() == Told(Concat(chunks[..n]), decode, parse)
    {
      assert chunks[..n + 1][..n] == chunks[..n];
      ghost var before := Drain(Clean(parser.read), decode).events;
      var events := parser.Push(chunks[n], decode);
      ApplyEventsConcat(NOTHING, before, events, parse);
      var error := TakeEvents(reply, events, parse);
      if error.Some? {
        ToldMore(chunks, n + 1, decode, parse);
        return Err(Provider(error.value)), reply.heard;
      }
    }
    assert chunks[..|chunks|] == chunks;
    heard := reply.heard;
    result := if broken.Some? then Err(Malformed(broken.value)) else Ok(reply.Now().answer);
  }

  function Changes(events: seq<Event>, parse: Parser): seq<Change> {
    if events == [] then [] else Changes(events[..|events| - 1], parse) + [Announced(events[|events| - 1], parse)]
  }

  /** What the lemmas about a run of changes say holds of the events of a reply. */
  lemma {:induction false} EventsAreARun(r: Reading, events: seq<Event>, parse: Parser)
    requires r.error.None?
    ensures ApplyEvents(r, events, parse) == Run(r, Changes(events, parse), parse)
    decreases |events|
  {
    if events == [] {
    } else {
      var front, last := events[..|events| - 1], events[|events| - 1];
      EventsAreARun(r, front, parse);
      assert events == front + [last];
      OneMoreEvent(r, front, last, parse);
    }
  }

  lemma OneMoreEvent(r: Reading, events: seq<Event>, e: Event, parse: Parser)
    requires ApplyEvents(r, events, parse) == Run(r, Changes(events, parse), parse)
    ensures ApplyEvents(r, events + [e], parse) == Run(r, Changes(events + [e], parse), parse)
  {
    ApplyEventsConcat(r, events, [e], parse);
    OneEvent(ApplyEvents(r, events, parse), e, parse);
    ChangesMore(events, e, parse);
    OneMoreChange(r, Changes(events, parse), Announced(e, parse), parse);
  }

  lemma ChangesMore(events: seq<Event>, e: Event, parse: Parser)
    ensures Changes(events + [e], parse) == Changes(events, parse) + [Announced(e, parse)]
  {
    assert (events + [e])[..|events|] == events;
  }

  lemma OneEvent(r: Reading, e: Event, parse: Parser)
    ensures ApplyEvents(r, [e], parse) == if r.error.Some? then r else Apply(r, Announced(e, parse), parse)
  {
  }

  lemma OneMoreChange(r: Reading, cs: seq<Change>, c: Change, parse: Parser)
    ensures Run(r, cs + [c], parse)
         == if Run(r, cs, parse).error.Some? then Run(r, cs, parse) else Apply(Run(r, cs, parse), c, parse)
  {
    assert (cs + [c])[..|cs|] == cs;
  }

  /** The answer's text is what was passed on while its bytes came in. */
  lemma ToldIsHeard(bytes: Bytes, decode: Bytes -> string, parse: Parser)
    ensures Told(bytes, decode, parse).answer.text == Told(bytes, decode, parse).heard
    ensures Told(bytes, decode, parse).error.None? ==>
              Told(bytes, decode, parse).heard == AllSaid(Changes(Drain(Clean(bytes), decode).events, parse))
  {
    var events := Drain(Clean(bytes), decode).events;
    EventsAreARun(NOTHING, events, parse);
    TextIsWhatWasHeard(NOTHING, Changes(events, parse), parse);
    assert "" + AllSaid(Changes(events, parse)) == AllSaid(Changes(events, parse));
  }
}
