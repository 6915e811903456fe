/** The polling loop of a device login (`Poller` in crates/erpc-auth/src/device_flow.rs), by section
    3.5 of RFC 8628. Durations are in nanoseconds, as many as the program's durations can hold. */
module Polling {
  import opened Wrappers

  const SECOND: nat := 1_000_000_000
  const MIN_INTERVAL: nat := 5 * SECOND
  const SLOW_DOWN_STEP: nat := 5 * SECOND
  const MAX_INTERVAL: nat := 60 * SECOND
  const LONGEST: nat := 0x1_0000_0000_0000_0000 * SECOND - 1

  type Duration = d: nat | d <= LONGEST

  datatype Approved = Approved(accessToken: string, refreshToken: string, expiresIn: Duration)

  datatype Outcome =
    | Pending
    | SlowDown
    | Accepted(tokens: Approved)
    | Denied
    | Expired
    | Failed(code: string)
    | NetworkError

  datatype LoginError = WasDenied | HasExpired | Server(code: string) | BadToken(reason: string)

  datatype Next = Wait(interval: Duration) | Stop(result: Result<Approved, LoginError>)

  function Max(a: nat, b: nat): nat {
    if a < b then b else a
  }

  function Min(a: nat, b: nat): nat {
    if a < b then a else b
  }

  function SaturatingAdd(a: Duration, b: Duration): Duration {
    Min(a + b, LONGEST)
  }

  function SaturatingMul(a: Duration, times: nat): Duration {
    Min(a * times, LONGEST)
  }

  /** The client's own back-off, bounded, and never below `current`. */
  function BackOff(current: Duration, proposed: Duration): Duration {
    Max(Min(proposed, MAX_INTERVAL), current)
  }

  datatype Poll = Poll(interval: Duration, elapsed: Duration, budget: Duration)

  function Start(interval: Duration, expiresIn: Duration): Poll {
    Poll(Max(interval, MIN_INTERVAL), 0, expiresIn)
  }

  /** The interval an outcome leads to, if polling goes on after it. */
  function IntervalAfter(interval: Duration, outcome: Outcome): Option<Duration> {
    match outcome
    case Pending => Some(interval)
    case SlowDown => Some(SaturatingAdd(interval, SLOW_DOWN_STEP))
    case NetworkError => Some(BackOff(interval, SaturatingMul(interval, 2)))
    case _ => None
  }

  /** Whether one more wait fits into what is left of the budget. */
  predicate Fits(p: Poll) {
    SaturatingSub(p.budget, p.elapsed) > p.interval
  }

  function After(p: Poll, outcome: Outcome): Poll {
    match IntervalAfter(p.interval, outcome)
    case None => p
    case Some(interval) =>
      var next := p.(interval := interval);
      if Fits(next) then next.(elapsed := p.elapsed + interval) else next
  }

  predicate Waits(p: Poll, outcome: Outcome) {
    match IntervalAfter(p.interval, outcome)
    case None => false
    case Some(interval) => Fits(p.(interval := interval))
  }

  /** What polling ends with, when it ends at `outcome`: a login only with two tokens in form, and
      an outcome that would have allowed a further wait ends it for want of time. */
  function Verdict(outcome: Outcome, flaw: string -> Option<string>): (r: Result<Approved, LoginError>)
    ensures r.Ok? <==> && outcome.Accepted? && flaw(outcome.tokens.accessToken).None?
                       && flaw(outcome.tokens.refreshToken).None?
    ensures r.Ok? ==> r.value == outcome.tokens
    ensures r.Err? && r.error.BadToken? ==>
              && outcome.Accepted?
              && var flaws := {flaw(outcome.tokens.accessToken), flaw(outcome.tokens.refreshToken)};
                 Some(r.error.reason) in flaws
    ensures r == Err(HasExpired) <==> outcome == Expired || IntervalAfter(0, outcome).Some?
  {
    match outcome
    case Accepted(tokens) =>
      var access, renewal := flaw(tokens.accessToken), flaw(tokens.refreshToken);
      if access.Some? then Err(BadToken(access.value))
      else if renewal.Some? then Err(BadToken(renewal.value))
      else Ok(tokens)
    case Denied => Err(WasDenied)
    case Failed(code) => Err(Server(code))
    case _ => Err(HasExpired)
  }

  // What every run of waits keeps.

  /** The state after the outcomes, if every one of them led to a wait. */
  function Run(p: Poll, outcomes: seq<Outcome>): Option<Poll> {
    if outcomes == [] then Some(p)
    else match Run(p, outcomes[..|outcomes| - 1])
      case None => None
      case Some(q) => if Waits(q, outcomes[|outcomes| - 1]) then Some(After(q, outcomes[|outcomes| - 1])) else None
  }

  function SlowDowns(outcomes: seq<Outcome>): nat {
    if outcomes == [] then 0
    else SlowDowns(outcomes[..|outcomes| - 1]) + (if outcomes[|outcomes| - 1] == SlowDown then 1 else 0)
  }

  /** A wait keeps the budget, and its interval is at least what it was: by a full step more after the
      server asked for less, and at most doubled, up to a minute, after a network error. */
  lemma WaitKeeps(p: Poll, outcome: Outcome)
    requires Waits(p, outcome)
    ensures var q := After(p, outcome);
            && q.budget == p.budget
            && q.interval >= p.interval
            && q.elapsed == p.elapsed + q.interval < p.budget
            && (outcome == SlowDown ==> q.interval == p.interval + SLOW_DOWN_STEP)
            && (outcome == NetworkError ==> q.interval == Max(p.interval, Min(2 * p.interval, MAX_INTERVAL)))
            && (outcome == Pending ==> q.interval == p.interval)
  {
  }

  /** The time that `n` waits of at least `first` take, when after `s` of the outcomes each further
      wait is longer by `step`: twice of it, so that no half is lost. */
  function TwiceTheLeast(first: nat, step: nat, n: nat, s: nat): nat {
    2 * (n * first) + step * (s * (s + 1))
  }

  lemma LeastGrows(first: nat, step: nat, n: nat, s: nat)
    ensures TwiceTheLeast(first, step, n + 1, s) == TwiceTheLeast(first, step, n, s) + 2 * first
    ensures TwiceTheLeast(first, step, n + 1, s + 1) == TwiceTheLeast(first, step, n, s) + 2 * (first + step * (s + 1))
  {
    assert (n + 1) * first == n * first + first;
    assert (s + 1) * (s + 2) == s * (s + 1) + 2 * (s + 1);
    assert step * (s * (s + 1) + 2 * (s + 1)) == step * (s * (s + 1)) + 2 * (step * (s + 1));
  }

  /** One more wait, as plain numbers. */
  lemma OneMoreWait(first: nat, step: nat, n: nat, s: nat, elapsed: nat, interval: nat, slower: bool)
    requires TwiceTheLeast(first, step, n, s) <= 2 * elapsed
    requires interval >= first + step * (if slower then s + 1 else s)
    ensures TwiceTheLeast(first, step, n + 1, if slower then s + 1 else s) <= 2 * (elapsed + interval)
  {
    LeastGrows(first, step, n, s);
  }

  predicate Bounded(first: nat, outcomes: seq<Outcome>, p: Poll) {
    && p.interval >= first + SLOW_DOWN_STEP * SlowDowns(outcomes)
    && TwiceTheLeast(first, SLOW_DOWN_STEP, |outcomes|, SlowDowns(outcomes)) <= 2 * p.elapsed
    && (outcomes != [] ==> p.elapsed < p.budget)
  }

  lemma WaitKeepsBound(first: nat, outcomes: seq<Outcome>, p: Poll)
    requires outcomes != [] && Bounded(first, outcomes[..|outcomes| - 1], p) && Waits(p, outcomes[|outcomes| - 1])
    ensures Bounded(first, outcomes, After(p, outcomes[|outcomes| - 1]))
  {
    var before, last := outcomes[..|outcomes| - 1], outcomes[|outcomes| - 1];
    var q, s := After(p, last), SlowDowns(before);
    WaitKeeps(p, last);
    assert SLOW_DOWN_STEP * (s + 1) == SLOW_DOWN_STEP * s + SLOW_DOWN_STEP;
    OneMoreWait(first, SLOW_DOWN_STEP, |before|, s, p.elapsed, q.interval, last == SlowDown);
  }

  /** However the polls come out, the waits stay inside the budget, the interval never falls below the
      server's or the five seconds, and each request to slow down counts for every wait after it. */
  lemma {:induction false} WaitsStayInBudget(interval: Duration, expiresIn: Duration, outcomes: seq<Outcome>)
    requires Run(Start(interval, expiresIn), outcomes).Some?
    ensures var first, p := Start(interval, expiresIn).interval, Run(Start(interval, expiresIn), outcomes).value;
            && first >= MIN_INTERVAL && first >= interval
            && p.budget == expiresIn && Bounded(first, outcomes, p)
  {
    if outcomes == [] {
    } else {
      var before, last := outcomes[..|outcomes| - 1], outcomes[|outcomes| - 1];
      WaitsStayInBudget(interval, expiresIn, before);
      WaitKeeps(Run(Start(interval, expiresIn), before).value, last);
      WaitKeepsBound(Start(interval, expiresIn).interval, outcomes, Run(Start(interval, expiresIn), before).value);
    }
  }

  lemma FewWaits(first: nat, least: nat, step: nat, n: nat, s: nat, elapsed: nat)
    requires TwiceTheLeast(first, step, n, s) <= 2 * elapsed && least <= first
    ensures n * least <= elapsed && step * (s * (s + 1)) <= 2 * elapsed
  {
    assert n * least <= n * first;
  }

  /** So polling ends: there is room for so many waits only, and for fewer after requests to slow down. */
  lemma WaitsAreFew(interval: Duration, expiresIn: Duration, outcomes: seq<Outcome>)
    requires Run(Start(interval, expiresIn), outcomes).Some? && outcomes != []
    ensures |outcomes| * MIN_INTERVAL < expiresIn
    ensures SLOW_DOWN_STEP * (SlowDowns(outcomes) * (SlowDowns(outcomes) + 1)) < 2 * expiresIn
  {
    WaitsStayInBudget(interval, expiresIn, outcomes);
    FewWaits(Start(interval, expiresIn).interval, MIN_INTERVAL, SLOW_DOWN_STEP, |outcomes|, SlowDowns(outcomes),
             Run(Start(interval, expiresIn), outcomes).value.elapsed);
  }

  /** `Poller`. */
  class Poller {
    var interval: Duration
    var elapsed: Duration
    var budget: Duration

    constructor (asked: Duration, expiresIn: Duration)
      ensures Now() == Start(asked, expiresIn)
    {
      interval, elapsed, budget := Max(asked, MIN_INTERVAL), 0, expiresIn;
    }

    function Now(): Poll
      reads this
    {
      Poll(interval, elapsed, budget)
    }

    /** `next_wait`. The shape of a token is checked by the parameter `flaw`. */
    method NextWait(outcome: Outcome, flaw: string -> Option<string>) returns (next: Next)
      modifies this
      ensures Now() == After(old(Now()), outcome)
      ensures next.Wait? <==> Waits(old(Now()), outcome)
      ensures next.Wait? ==> next.interval == interval && elapsed == old(elapsed) + interval < budget
      ensures next.Stop? ==> next.result == Verdict(outcome, flaw)
    {
      match outcome {
        case Accepted(tokens) =>
          var bad := flaw(tokens.accessToken);
          if bad.Some? {
            return Stop(Err(BadToken(bad.value)));
          }
          bad := flaw(tokens.refreshToken);
          if bad.Some? {
            return Stop(Err(BadToken(bad.value)));
          }
          return Stop(Ok(tokens));
        case Denied =>
          return Stop(Err(WasDenied));
        case Expired =>
          return Stop(Err(HasExpired));
        case Failed(code) =>
          return Stop(Err(Server(code)));
        case Pending =>
          next := Advance();
        case SlowDown =>
          interval := SaturatingAdd(interval, SLOW_DOWN_STEP);
          next := Advance();
        case NetworkError =>
          interval := BackOff(interval, SaturatingMul(interval, 2));
          next := Advance();
      }
    }

    /** Charges the interval against the budget, or stops. The sum cannot overflow. */
    method Advance() returns (next: Next)
      modifies this`elapsed
      ensures Fits(old(Now())) ==> next == Wait(interval) && elapsed == old(elapsed) + interval < budget
      ensures !Fits(old(Now())) ==> next == Stop(Err(HasExpired)) && elapsed == old(elapsed)
    {
      if SaturatingSub(budget, elapsed) <= interval {
        return Stop(Err(HasExpired));
      }
      elapsed := elapsed + interval;
      return Wait(interval);
    }
  }

  /** The loop of `run_device_grant`: it polls as long as the answers let it wait, it does stop, and
      the answer it stops at decides what it returns. */
  method PollUntilStopped(asked: Duration, expiresIn: Duration, answers: nat -> Outcome, flaw: string -> Option<string>)
    returns (result: Result<Approved, LoginError>, ghost outcomes: seq<Outcome>)
    ensures forall k :: 0 <= k < |outcomes| ==> outcomes[k] == answers(k)
    ensures var p := Run(Start(asked, expiresIn), outcomes); p.Some? && !Waits(p.value, answers(|outcomes|))
    ensures result == Verdict(answers(|outcomes|), flaw)
    ensures outcomes != [] ==> |outcomes| * MIN_INTERVAL < expiresIn
  {
    var poller := new Poller(asked, expiresIn);
    var n: nat := 0;
    outcomes := [];
    while true
      invariant n == |outcomes|
      invariant forall k :: 0 <= k < n ==> outcomes[k] == answers(k)
      invariant Run(Start(asked, expiresIn), outcomes) == Some(poller.Now())
      decreases poller.budget - poller.elapsed
    {
      var next := poller.NextWait(answers(n), flaw);
      match next {
        case Wait(_) =>
          assert (outcomes + [answers(n)])[..n] == outcomes;
          outcomes := outcomes + [answers(n)];
          n := n + 1;
          WaitsStayInBudget(asked, expiresIn, outcomes);
        case Stop(r) =>
          if outcomes != [] {
            WaitsAreFew(asked, expiresIn, outcomes);
          }
          return r, outcomes;
      }
    }
  }
}
