/** Buying credit: what may be said of a payment whose submit can be lost, delayed or answered
    ambiguously (`top_up_credit` from the submit on, in crates/erpc-ai/src/actions.rs).

    The server's session only moves forward. The submit is one message, which arrives at any time
    after it is sent, or never; a cancel has effect only before it has arrived. What the client is
    told of the session's state was true at some moment between its question and the answer.
 */
module TopUp {
  import opened Wrappers

  datatype SessionState = Ready | Submitted | Relayed | Granted | Stuck | Expired | Cancelled

  datatype Submit = NotSent | OnItsWay | Gone

  datatype Server = Server(session: SessionState, submit: Submit)

  /** The server has the signature, and the transfer may be made. */
  predicate Taken(s: SessionState) {
    s.Submitted? || s.Relayed? || s.Granted? || s.Stuck?
  }

  /** What can happen to the session without this client: the submit arrives or is lost, the relay
      and the grant go on, the offer expires, a cancel that was sent arrives. */
  predicate Moves(a: Server, b: Server) {
    || b == a
    || (a.submit.OnItsWay? && b == a.(submit := Gone))
    || (a.submit.OnItsWay? && a.session.Ready? && b == Server(Submitted, Gone))
    || (a.session.Ready? && (b == a.(session := Expired) || b == a.(session := Cancelled)))
    || (a.session.Submitted? && (b == a.(session := Relayed) || b == a.(session := Stuck)))
    || (a.session.Relayed? && (b == a.(session := Granted) || b == a.(session := Stuck)))
  }

  predicate IsHistory(path: seq<Server>) {
    && |path| > 0
    && forall i :: 0 <= i < |path| - 1 ==> Moves(path[i], path[i + 1])
  }

  ghost predicate Later(a: Server, b: Server) {
    exists path :: IsHistory(path) && path[0] == a && path[|path| - 1] == b
  }

  lemma LaterSelf(a: Server)
    ensures Later(a, a)
  {
    assert IsHistory([a]);
  }

  lemma LaterStep(a: Server, b: Server)
    requires Moves(a, b)
    ensures Later(a, b)
  {
    assert IsHistory([a, b]);
  }

  lemma LaterTrans(a: Server, b: Server, c: Server)
    requires Later(a, b) && Later(b, c)
    ensures Later(a, c)
  {
    var p :| IsHistory(p) && p[0] == a && p[|p| - 1] == b;
    var q :| IsHistory(q) && q[0] == b && q[|q| - 1] == c;
    var path := p + q[1..];
    forall i | 0 <= i < |path| - 1 ensures Moves(path[i], path[i + 1]) {
      if i < |p| - 1 {
        assert Moves(p[i], p[i + 1]);
      } else {
        assert Moves(q[i - |p| + 1], q[i - |p| + 2]);
      }
    }
    assert IsHistory(path);
  }

  /** The server does not have the signature, and never will. */
  ghost predicate NeverTaken(s: Server) {
    forall later :: Later(s, later) ==> !Taken(later.session)
  }

  predicate OutOfReach(s: Server) {
    s.session.Expired? || s.session.Cancelled? || (s.session.Ready? && s.submit.Gone?)
  }

  lemma {:induction false} OutOfReachStays(path: seq<Server>, i: nat)
    requires IsHistory(path) && OutOfReach(path[0]) && i < |path|
    ensures OutOfReach(path[i])
  {
    if i == 0 {
    } else {
      OutOfReachStays(path, i - 1);
    }
  }

  /** Exactly when nothing can be taken any more, once the submit has been sent. */
  lemma NeverTakenExactly(s: Server)
    requires !s.submit.NotSent?
    ensures NeverTaken(s) <==> OutOfReach(s)
  {
    if OutOfReach(s) {
      forall later | Later(s, later) ensures !Taken(later.session) {
        var path :| IsHistory(path) && path[0] == s && path[|path| - 1] == later;
        OutOfReachStays(path, |path| - 1);
      }
    } else if Taken(s.session) {
      LaterSelf(s);
    } else {
      LaterStep(s, Server(Submitted, Gone));
    }
  }

  lemma {:induction false} SettledStays(path: seq<Server>, i: nat)
    requires IsHistory(path) && i < |path| && IsSettled(Says(path[0].session))
    ensures path[i].session == path[0].session
  {
    if i == 0 {
    } else {
      SettledStays(path, i - 1);
    }
  }

  /** A settled state is the last one. */
  lemma SettledIsFinal(s: Server, later: Server)
    requires IsSettled(Says(s.session)) && Later(s, later)
    ensures later.session == s.session
  {
    var path :| IsHistory(path) && path[0] == s && path[|path| - 1] == later;
    SettledStays(path, |path| - 1);
  }

  // What the client is told.

  /** The `state` of a reply's body: none, one of the session's, or anything else. */
  datatype Said = Nothing | Says(state: SessionState) | Otherwise(text: string)

  /** `words`: the body has a `code` or a `message`. */
  datatype Reply = Reply(status: nat, said: Said, words: bool)

  datatype Submission = Accepted(reply: Reply) | Refused(reply: Reply) | Unclear

  predicate IsSuccess(status: nat) {
    200 <= status < 300
  }

  predicate IsSettled(said: Said) {
    said.Says? && (said.state.Granted? || said.state.Stuck? || said.state.Expired? || said.state.Cancelled?)
  }

  predicate SaysNothingTaken(said: Said) {
    said.Nothing? || (said.Says? && (said.state.Ready? || said.state.Expired? || said.state.Cancelled?))
  }

  /** Sorts a submit's answer. */
  function ClassifySubmit(answer: Option<Reply>): Submission {
    match answer
    case None => Unclear
    case Some(reply) =>
      if IsSuccess(reply.status) && !reply.said.Nothing? && reply.said != Says(Ready) then Accepted(reply)
      else if 400 <= reply.status < 500 && reply.status != 408 && reply.status != 429
              && reply.words && SaysNothingTaken(reply.said) then Refused(reply)
      else Unclear
  }

  predicate CancelsAfterUnclear(said: Said) {
    said == Says(Ready)
  }

  datatype ReportedState = Session(said: Said) | RefusedOutright | Unknown

  /** The report: its state, whether the purchase is done, and what it says of the payment. */
  datatype Report = Report(state: ReportedState, done: bool, paid: Option<bool>)

  function Refusal(reply: Reply): Report {
    Report(if reply.said.Nothing? then RefusedOutright else Session(reply.said), false, Some(false))
  }

  const UNKNOWN := Report(Unknown, false, None)

  function ReportOf(unclear: bool, last: Reply): Report {
    if IsSettled(last.said) then Report(Session(last.said), last.said == Says(Granted), None)
    else if last.said.Nothing? || unclear then UNKNOWN
    else Report(Session(last.said), false, None)
  }

  /** The report tells the person that nothing was paid. */
  predicate SaysNotPaid(r: Report) {
    || r.paid == Some(false)
    || r.state == Session(Says(Cancelled))
    || r.state == Session(Says(Expired))
  }

  predicate Honest(reply: Reply, server: Server) {
    reply.said.Says? ==> reply.said.state == server.session
  }

  /** A definite refusal of the submit, in user-api's own words, comes from what received the
      signature and did not take it. */
  predicate HonestSubmit(reply: Reply, server: Server) {
    && Honest(reply, server)
    && (ClassifySubmit(Some(reply)).Refused? ==> server.submit.Gone? && !Taken(server.session))
  }

  const MAX_POLLS: nat := 20

  // What the client does with what it is told.

  /** A session in this state is asked about again. */
  predicate GoesOn(reply: Reply) {
    !IsSettled(reply.said) && IsSuccess(reply.status)
  }

  /** The reply that poll `k` goes on from. */
  function Before(first: Reply, polled: seq<Option<Reply>>, k: nat): Reply
    requires k <= |polled| && forall i :: 0 <= i < k ==> polled[i].Some?
  {
    if k == 0 then first else polled[k - 1].value
  }

  /** `polled` are the answers, and failures, of polling on from `first`, and `last` the last reply:
      every poll had a reason, and polling ended with a state to stop at, a failure, or the last of
      the polls. */
  ghost predicate Followed(first: Reply, polled: seq<Option<Reply>>, last: Reply) {
    && |polled| <= MAX_POLLS
    && (forall k :: 0 <= k < |polled| - 1 ==> polled[k].Some?)
    && (forall k :: 0 <= k < |polled| ==> GoesOn(Before(first, polled, k)))
    && last == (if polled != [] && polled[|polled| - 1].None? then Before(first, polled, |polled| - 1)
                else Before(first, polled, |polled|))
    && (GoesOn(last) ==> |polled| == MAX_POLLS || (polled != [] && polled[|polled| - 1].None?))
  }

  /** What the report has to be, from the submit's answer, the answers of all status requests in
      order, and whether a cancel was sent. */
  ghost predicate Reports(report: Report, submit: Option<Reply>, answers: seq<Option<Reply>>, cancelled: bool) {
    match ClassifySubmit(submit)
    case Refused(reply) => answers == [] && !cancelled && report == Refusal(reply)
    case Accepted(reply) =>
      !cancelled && exists last :: Followed(reply, answers, last) && report == ReportOf(false, last)
    case Unclear =>
      && answers != []
      && match answers[0]
         case None => |answers| == 1 && !cancelled && report == UNKNOWN
         case Some(first) => exists last, n: nat :: ReportsUnclear(report, first, last, answers, n, cancelled)
  }

  /** The session was followed up to answer `n`; one last seen ready was cancelled and asked about
      once more. */
  ghost predicate ReportsUnclear(
    report: Report, first: Reply, last: Reply, answers: seq<Option<Reply>>, n: nat, cancelled: bool)
  {
    && 1 <= n <= |answers|
    && Followed(first, answers[1..n], last)
    && cancelled == CancelsAfterUnclear(last.said)
    && (if cancelled then
          && n + 1 == |answers|
          && report == ReportOf(true, if answers[n].Some? then answers[n].value else last)
        else n == |answers| && report == ReportOf(true, last))
  }

  /** A settled state that was the last thing the client was told is what it reports. */
  lemma SettledIsReported(report: Report, submit: Option<Reply>, answers: seq<Option<Reply>>, cancelled: bool)
    requires Reports(report, submit, answers, cancelled)
    requires answers != [] && answers[|answers| - 1].Some? && IsSettled(answers[|answers| - 1].value.said)
    ensures var said := answers[|answers| - 1].value.said; report == Report(Session(said), said == Says(Granted), None)
  {
    var reply := answers[|answers| - 1].value;
    match ClassifySubmit(submit)
    case Accepted(first) =>
      var last :| Followed(first, answers, last) && report == ReportOf(false, last);
      assert last == reply;
    case Unclear =>
      var last, n: nat :| ReportsUnclear(report, answers[0].value, last, answers, n, cancelled);
      var polled := answers[1..n];
      if !cancelled && polled != [] {
        assert polled[|polled| - 1] == answers[|answers| - 1];
      }
    case _ =>
  }

  // The exchange, with the server going on in between in any way it can.

  lemma {:induction false} SentStays(path: seq<Server>, i: nat)
    requires IsHistory(path) && !path[0].submit.NotSent? && i < |path|
    ensures !path[i].submit.NotSent?
  {
    if i == 0 {
    } else {
      SentStays(path, i - 1);
    }
  }

  /** `moment` is a moment since the submit was sent, and not after `now`. */
  ghost predicate Since(moment: Server, now: Server) {
    !moment.submit.NotSent? && Later(moment, now)
  }

  lemma SinceLater(moment: Server, now: Server, later: Server)
    requires Since(moment, now) && Later(now, later)
    ensures Since(moment, later) && Since(now, later) && Since(later, later)
  {
    var path :| IsHistory(path) && path[0] == moment && path[|path| - 1] == now;
    SentStays(path, |path| - 1);
    LaterTrans(moment, now, later);
    var rest :| IsHistory(rest) && rest[0] == now && rest[|rest| - 1] == later;
    SentStays(rest, |rest| - 1);
    LaterSelf(later);
  }

  /** What is sent stays sent. */
  lemma SentSince(moment: Server, now: Server)
    requires Since(moment, now)
    ensures !now.submit.NotSent?
  {
    LaterSelf(now);
    SinceLater(moment, now, now);
  }

  class Exchange {
    var server: Server
    // What the client had last been told when it sent a cancel.
    ghost var cancelledOn: seq<Said>
    // The answers of the submits, in order, and of the status requests.
    ghost var submits: seq<Option<Reply>>
    ghost var answers: seq<Option<Reply>>

    constructor ()
      ensures server == Server(Ready, NotSent) && cancelledOn == [] && submits == [] && answers == []
    {
      server := Server(Ready, NotSent);
      cancelledOn, submits, answers := [], [], [];
    }

    /** Any number of the server's moves. */
    method Meanwhile()
      modifies this`server
      ensures Later(old(server), server)
    {
      ghost var start := server;
      LaterSelf(server);
      var moves: nat :| true;
      for i := 0 to moves
        invariant Later(start, server)
      {
        var next: Server := *;
        if Moves(server, next) {
          LaterStep(server, next);
          LaterTrans(start, server, next);
          server := next;
        }
      }
    }

    /** Sends the signature. An answer, if one comes, was true when it was given. */
    method SubmitSignature() returns (answer: Option<Reply>, ghost moment: Server)
      requires server.submit.NotSent?
      modifies this`server, this`submits
      ensures Since(moment, server)
      ensures submits == old(submits) + [answer]
      ensures answer.Some? ==> HonestSubmit(answer.value, moment)
    {
      server := server.(submit := OnItsWay);
      LaterSelf(server);
      ghost var start := server;
      Meanwhile();
      SinceLater(start, start, server);
      moment := server;
      var reply: Reply := *;
      answer := if HonestSubmit(reply, server) then Some(reply) else None;
      submits := submits + [answer];
      Meanwhile();
    }

    /** Asks for the session's state. */
    method Status(ghost seen: Server) returns (answer: Option<Reply>, ghost moment: Server)
      requires Since(seen, server)
      modifies this`server, this`answers
      ensures answers == old(answers) + [answer]
      ensures Since(seen, server) && Since(moment, server)
      ensures answer.Some? ==> Honest(answer.value, moment)
    {
      ghost var start := server;
      Meanwhile();
      SinceLater(seen, start, server);
      moment := server;
      var reply: Reply := *;
      answer := if Honest(reply, server) then Some(reply) else None;
      answers := answers + [answer];
      Meanwhile();
      SinceLater(seen, moment, server);
    }

    /** Sends a cancel, which may be lost, or come later as one of the server's moves. */
    method Cancel(ghost told: Said, ghost seen: Server)
      requires Since(seen, server)
      modifies this`server, this`cancelledOn
      ensures Since(seen, server)
      ensures cancelledOn == old(cancelledOn) + [told]
    {
      cancelledOn := cancelledOn + [told];
      ghost var start := server;
      var arrives: bool := *;
      if arrives && server.session.Ready? {
        server := server.(session := Cancelled);
        LaterStep(start, server);
      } else {
        LaterSelf(server);
      }
      ghost var after := server;
      SinceLater(seen, start, after);
      Meanwhile();
      SinceLater(seen, after, server);
    }

    /** Follows a submitted session until it is granted or settled otherwise. */
    method Follow(submitted: Reply, ghost at: Server)
      returns (last: Reply, ghost seen: Server, ghost polled: seq<Option<Reply>>)
      requires Since(at, server) && Honest(submitted, at)
      modifies this`server, this`answers
      ensures Since(seen, server) && Honest(last, seen)
      ensures answers == old(answers) + polled && Followed(submitted, polled, last)
    {
      last, seen, polled := submitted, at, [];
      for i := 0 to MAX_POLLS
        invariant Since(seen, server) && Honest(last, seen)
        invariant |polled| == i && answers == old(answers) + polled
        invariant forall k :: 0 <= k < i ==> polled[k].Some?
        invariant forall k :: 0 <= k < i ==> GoesOn(Before(submitted, polled, k))
        invariant last == Before(submitted, polled, i)
      {
        if IsSettled(last.said) || !IsSuccess(last.status) {
          return;
        }
        var answer: Option<Reply>;
        ghost var moment;
        answer, moment := Status(seen);
        OneMorePoll(submitted, polled, answer);
        polled := polled + [answer];
        if answer.None? {
          return;
        }
        last, seen := answer.value, moment;
      }
    }

    /** `top_up_credit` from the submit on. Whatever is lost, delayed or repeated: when the report
        says that nothing was paid, the server never takes the signature, then or later; it says
        done only when the credit is granted; a cancel is only ever sent to a session that was last
        seen without the signature; and the signature is submitted once, the session followed, and
        the report made, as `Reports` says. */
    method TopUp() returns (report: Report)
      requires server.submit.NotSent? && cancelledOn == [] && submits == [] && answers == []
      modifies this
      ensures !server.submit.NotSent?
      ensures SaysNotPaid(report) ==> NeverTaken(server)
      ensures report.done ==> server.session == Granted
      ensures report.state == Session(Says(Granted)) <==> report.done
      ensures |cancelledOn| <= 1 && forall told :: told in cancelledOn ==> told == Says(Ready)
      ensures |submits| == 1 && Reports(report, submits[0], answers, cancelledOn != [])
    {
      var answer: Option<Reply>;
      ghost var moment;
      answer, moment := SubmitSignature();
      SentSince(moment, server);
      var submission := ClassifySubmit(answer);
      if submission.Refused? {
        NeverTakenExactly(moment);
        NeverTakenLater(moment, server);
        return Refusal(submission.reply);
      }
      if submission.Accepted? {
        report := AfterAccepted(submission.reply, moment);
        return;
      }
      answer, moment := Status(moment);
      SentSince(moment, server);
      if answer.None? {
        return UNKNOWN;
      }
      ghost var cancelled;
      report, cancelled := AfterUnclear(answer.value, moment);
    }

    /** After a submit that was accepted. */
    method AfterAccepted(first: Reply, ghost moment: Server) returns (report: Report)
      requires Since(moment, server) && Honest(first, moment) && answers == []
      modifies this`server, this`answers
      ensures SaysNotPaid(report) ==> NeverTaken(server)
      ensures report.done ==> server.session == Granted
      ensures report.state == Session(Says(Granted)) <==> report.done
      ensures exists last :: Followed(first, answers, last) && report == ReportOf(false, last)
      ensures !server.submit.NotSent?
    {
      var last: Reply;
      ghost var seen, polled;
      last, seen, polled := Follow(first, moment);
      assert [] + polled == polled;
      report := ReportOf(false, last);
      ReportIsTrue(false, last, seen, server);
      SentSince(seen, server);
    }

    /** After a submit whose answer was unclear, and a session that could be asked about. */
    method AfterUnclear(first: Reply, ghost moment: Server) returns (report: Report, ghost cancelled: bool)
      requires Since(moment, server) && Honest(first, moment) && cancelledOn == [] && answers == [Some(first)]
      modifies this`server, this`answers, this`cancelledOn
      ensures !server.submit.NotSent?
      ensures SaysNotPaid(report) ==> NeverTaken(server)
      ensures report.done ==> server.session == Granted
      ensures report.state == Session(Says(Granted)) <==> report.done
      ensures |cancelledOn| <= 1 && forall told :: told in cancelledOn ==> told == Says(Ready)
      ensures answers != [] && answers[0] == Some(first)
      ensures cancelled == (cancelledOn != [])
      ensures exists last, n: nat :: ReportsUnclear(report, first, last, answers, n, cancelled)
    {
      var last: Reply;
      ghost var seen, polled;
      last, seen, polled := Follow(first, moment);
      ghost var followed, n := last, |answers|;
      assert answers[1..n] == polled;
      if CancelsAfterUnclear(last.said) {
        Cancel(last.said, seen);
        var answer: Option<Reply>;
        ghost var later;
        answer, later := Status(seen);
        assert answers[1..n] == polled;
        if answer.Some? {
          last, seen := answer.value, later;
        }
      }
      report := ReportOf(true, last);
      ReportIsTrue(true, last, seen, server);
      SentSince(seen, server);
      cancelled := cancelledOn != [];
      assert ReportsUnclear(report, first, followed, answers, n, cancelled);
    }
  }

  lemma OneMorePoll(first: Reply, polled: seq<Option<Reply>>, answer: Option<Reply>)
    requires forall k :: 0 <= k < |polled| ==> polled[k].Some?
    ensures forall k :: 0 <= k <= |polled| ==> Before(first, polled + [answer], k) == Before(first, polled, k)
  {
  }

  /** A report of a state that was true at a moment since the submit is true now. */
  lemma ReportIsTrue(unclear: bool, last: Reply, seen: Server, now: Server)
    requires Since(seen, now) && Honest(last, seen)
    ensures SaysNotPaid(ReportOf(unclear, last)) ==> NeverTaken(now)
    ensures ReportOf(unclear, last).done ==> now.session == Granted
  {
    if IsSettled(last.said) {
      SettledIsFinal(seen, now);
      NeverTakenExactly(seen);
      if OutOfReach(seen) {
        NeverTakenLater(seen, now);
      }
    }
  }

  lemma NeverTakenLater(s: Server, later: Server)
    requires NeverTaken(s) && Later(s, later)
    ensures NeverTaken(later)
  {
    forall end | Later(later, end) ensures !Taken(end.session) {
      LaterTrans(s, later, end);
    }
  }
}
