/** The three operations that hold the refresh lock, statement by statement
    (`current_session`, `sign_out` and `store_new_session` in crates/erpc-auth/src/session.rs).

    `Machine` is what the processes share. Its real fields change as the code changes them. The
    ghost `run` is the run of the protocol so far, and every method extends it: so whatever is
    proved of all runs holds of this code. The ghost `faults` are the departures from what the code
    relies on that have happened so far; as long as there are none, the safety theorems apply.
 */
module Session {
  import opened Wrappers
  import opened RotationProtocol
  import opened RotationSafety
  import opened Leaving

  datatype SessionError = StoreFailed | NoSession | Expired | RefreshFailed | LeavingNow | SavedToFallback | ParkFailed

  datatype Revocation = Confirmed | NotConfirmed | NothingToRevoke

  /** What a store read gives a writer: `readable` sorts an unreadable record from a store that
      could not be reached. */
  datatype ReadOutcome = Readable | Unreadable | NoStore

  datatype ParkedReport = ParkedReport(revoked: bool, removed: bool)

  datatype SignInReport = SignInReport(parked: Option<ParkedReport>, previousUnreadable: bool)

  // What the environment does during each operation.

  /** During `read_locked`: whether the lock is taken, the parked file can be read, the store can be
      read for the first time, what saving the parked session comes to, whether the parked file is
      removed, and whether the store can be read for the last time. */
  datatype Reads = Reads(acquired: bool, readable: bool, first: bool, refile: Saved, removed: bool, last: bool)

  /** During `current_session`: also whether the session needs refreshing, what the issuer answers
      and issues, whether what it answers instead is that the token is no good (status 400, 401 or
      403), whether the pool takes the save, what the save comes to, and whether parking works. */
  datatype Uses = Uses(
    reading: Reads, due: bool, answer: Answer, issued: Token, refused: bool, pooled: bool, saved: Saved, parks: bool)

  /** During `sign_out`. */
  datatype SignsOut = SignsOut(
    acquired: bool, read: ReadOutcome, agreed: bool, parkedReadable: bool, parkedAgreed: bool,
    removed: bool, deleted: bool)

  /** During `store_new_session`. */
  datatype SignsIn = SignsIn(
    acquired: bool, read: ReadOutcome, saved: Saved, parkedReadable: bool, parkedAgreed: bool,
    removed: bool, previousAgreed: bool)

  /** The store write that a process had begun when it ended. */
  datatype Pending = NoWrite | Saves(token: Token) | Removes

  ghost function PendingOf(s: State, q: Process): Pending {
    if !HoldsLock(s, q) then NoWrite
    else match s.holder.phase
      case Refiling(file) => Saves(file.session)
      case Filing(ToSave, _, now, _, _) => Saves(now)
      case SigningIn(token) => Saves(token)
      case Deleting(_) => Removes
      case _ => NoWrite
  }

  function AfterWrite(store: map<Slot, Token>, pending: Pending): map<Slot, Token> {
    match pending
    case NoWrite => store
    case Saves(token) => store[HOME := token]
    case Removes => store - {HOME}
  }

  // What reading comes to.

  /** The parked session is filed away: the store still holds what it replaced. */
  predicate Refiles(held: Option<Token>, parked: Option<Parked>, e: Reads) {
    parked.Some? && e.readable && e.first && parked.value.Supersedes(held)
  }

  predicate ReadSucceeds(held: Option<Token>, parked: Option<Parked>, e: Reads) {
    && e.acquired && e.last
    && (parked.Some? && e.readable ==> e.first && (parked.value.Supersedes(held) ==> e.refile.Landed?))
  }

  function HeldAfterRead(held: Option<Token>, parked: Option<Parked>, e: Reads): Option<Token> {
    if e.acquired && Refiles(held, parked, e) && !e.refile.Refused? then Some(parked.value.session) else held
  }

  function ParkedAfterRead(held: Option<Token>, parked: Option<Parked>, e: Reads): Option<Parked> {
    if && e.acquired && parked.Some? && e.readable && e.first && e.removed
       && (if parked.value.Supersedes(held) then e.refile.Landed? else parked.value.IsHeldIn(held))
    then None else parked
  }

  /** A parked file that cannot be read is passed over. */
  function ReadFaults(parked: Option<Parked>, e: Reads): set<Fault> {
    if e.acquired && parked.Some? && !e.readable then {ParkUnreadable} else {}
  }

  // What using the session comes to.

  /** The issuer rotates: it answers, it knows the family, and the token is not spent. */
  predicate IssuerRotates(issuer: Issuer, held: Token, answer: Answer) {
    !answer.Failed? && issuer.Live(held) && !issuer.DetectsReuse(held)
  }

  function IssuerAfter(issuer: Issuer, held: Token, e: Uses): Issuer {
    if issuer.DetectsReuse(held) then issuer.Revoke(held)
    else if IssuerRotates(issuer, held, e.answer) then issuer.Rotate(held, e.issued)
    else issuer
  }

  predicate GetsAnswer(issuer: Issuer, held: Token, e: Uses) {
    IssuerRotates(issuer, held, e.answer) && e.answer.Rotated?
  }

  function HeldAfterRotation(issuer: Issuer, held: Token, e: Uses): Option<Token> {
    Some(if GetsAnswer(issuer, held, e) && e.pooled && !e.saved.Refused? then e.issued else held)
  }

  function ParkedAfterRotation(parked: Option<Parked>, issuer: Issuer, held: Token, e: Uses): Option<Parked> {
    if GetsAnswer(issuer, held, e) && e.pooled && !e.saved.Landed? && e.parks then Some(Parked(e.issued, held))
    else parked
  }

  function RotationResult(issuer: Issuer, held: Token, e: Uses): Result<Token, SessionError> {
    if !GetsAnswer(issuer, held, e) then Err(if e.refused then Expired else RefreshFailed)
    else if !e.pooled then Err(StoreFailed)
    else if e.saved.Landed? then Ok(e.issued)
    else if e.parks then Err(SavedToFallback)
    else Err(ParkFailed)
  }

  function FaultsOf(issuer: Issuer, held: Token, e: Uses): set<Fault> {
    if IssuerRotates(issuer, held, e.answer) && e.answer.Lost? then {LostAnswer}
    else if !GetsAnswer(issuer, held, e) then {}
    else if !e.pooled then {PoolRefused}
    else if !e.saved.Landed? && !e.parks then {ParkRefused}
    else {}
  }

  /** What `current_session` gives its caller, from what the store holds. */
  function HeldResult(held: Option<Token>, issuer: Issuer, leaving: bool, e: Uses): Result<Token, SessionError> {
    match held
    case None => Err(NoSession)
    case Some(existing) =>
      if !e.due then Ok(existing) else if leaving then Err(LeavingNow) else RotationResult(issuer, existing, e)
  }

  /** What `current_session` gives its caller, from what is there when it starts. */
  function UseResult(held: Option<Token>, parked: Option<Parked>, issuer: Issuer, leaving: bool, e: Uses)
    : Result<Token, SessionError>
  {
    if ReadSucceeds(held, parked, e.reading) then HeldResult(HeldAfterRead(held, parked, e.reading), issuer, leaving, e)
    else Err(StoreFailed)
  }

  // Runs that grow.

  predicate Begins(before: Run, after: Run) {
    before.states <= after.states && before.steps <= after.steps
  }

  /** The steps from `before` to `after` belong to no sign-in or sign-out that writes the store. */
  predicate KeepsSession(before: Run, after: Run) {
    && Begins(before, after)
    && |after.states| == |after.steps| + 1
    && forall k :: |before.steps| <= k < |after.steps| ==> !EndsSession(after.states[k], after.steps[k])
  }

  lemma KeepsSessionTrans(a: Run, b: Run, c: Run)
    requires KeepsSession(a, b) && KeepsSession(b, c)
    ensures KeepsSession(a, c)
  {
    BeginsTrans(a, b, c);
    forall k | |a.steps| <= k < |c.steps| ensures !EndsSession(c.states[k], c.steps[k]) {
      if k < |b.steps| {
        assert c.states[k] == b.states[k] && c.steps[k] == b.steps[k];
      }
    }
  }

  lemma BeginsTrans(a: Run, b: Run, c: Run)
    requires Begins(a, b) && Begins(b, c)
    ensures Begins(a, c)
  {
  }

  lemma KeepsNothing(a: Run)
    requires |a.states| == |a.steps| + 1
    ensures KeepsSession(a, a)
  {
  }

  /** The store holds a session or a rotation of it, whatever comes next but a sign-in or sign-out. */
  lemma SessionStandsBetween(before: Run, after: Run, y: Token)
    requires IsRun(before, {}) && IsRun(after, {}) && KeepsSession(before, after)
    requires HoldsSessionOf(before.Last(), y)
    ensures HoldsSessionOf(after.Last(), y)
  {
    assert after.states[|before.steps|] == before.Last();
    SessionStands(after, |before.steps|, |after.steps|, y);
  }

  class Machine {
    var issuer: Issuer
    var store: map<Slot, Token>
    var parked: Option<Parked>
    var locked: Option<Process>
    var leaving: set<Process>
    ghost var at: State
    ghost var run: Run
    ghost var faults: set<Fault>

    /** The fields are the state that the run so far has reached. */
    ghost predicate Valid()
      reads this
    {
      && IsRun(run, faults) && run.Last() == at
      && at.issuer == issuer && at.store == store && at.parked == parked && at.leaving == leaving
      && (match at.holder
          case Nobody => locked == None
          case Op(p, slot, _) => locked == Some(p) && slot == HOME)
    }

    ghost predicate Unlocked()
      reads this
    {
      Valid() && at.holder == Nobody
    }

    ghost predicate InPhase(p: Process, phase: Phase)
      reads this
    {
      Valid() && at.holder == Op(p, HOME, phase)
    }

    function Held(): Option<Token>
      reads this`store
    {
      if HOME in store then Some(store[HOME]) else None
    }

    /** What the store holds may be presented, and no parked file is newer. */
    ghost predicate StoreIsNewest()
      reads this
    {
      && (Held().Some? ==> Held().value in issuer.root && !issuer.DetectsReuse(Held().value))
      && (parked.Some? ==> !parked.value.Supersedes(Held()))
    }

    constructor ()
      ensures Unlocked() && store == map[] && parked == None && leaving == {} && faults == {}
    {
      issuer, store, parked, locked, leaving := INITIAL.issuer, map[], None, None, {};
      at, run, faults := INITIAL, Run([INITIAL], []), {};
    }

    /** Records that the fields are about to change by `step`, with the faults it takes. */
    ghost method Take(step: Step, more: set<Fault>)
      requires IsRun(run, faults) && run.Last() == at && CanStep(at, step, faults + more)
      modifies this`run, this`at, this`faults
      ensures faults == old(faults) + more
      ensures CanStep(old(at), step, faults) && at == Do(old(at), step, faults)
      ensures IsRun(run, faults) && run.Last() == at
      ensures Begins(old(run), run) && run.steps == old(run.steps) + [step]
      ensures !EndsSession(old(at), step) ==> KeepsSession(old(run), run)
    {
      faults := faults + more;
      at := Do(at, step, faults);
      run := Run(run.states + [at], run.steps + [step]);
    }

    lemma Recall()
      requires IsRun(run, faults) && run.Last() == at && faults == {}
      ensures Invariant(at)
    {
      RunKeepsInvariant(run, |run.states| - 1);
    }

    // The calls the three operations are made of.

    method Lock(p: Process, purpose: Purpose)
      requires Unlocked() && !purpose.SignIn?
      modifies this`locked, this`run, this`at, this`faults
      ensures InPhase(p, if purpose.Use? then Locked else SigningOut)
      ensures faults == old(faults) && KeepsSession(old(run), run)
    {
      Take(Acquire(p, HOME, purpose), {});
      locked := Some(p);
    }

    method LockToSignIn(p: Process, token: Token)
      requires Unlocked() && token !in issuer.root && token !in issuer.dead
      modifies this`locked, this`issuer, this`run, this`at, this`faults
      ensures InPhase(p, SigningIn(token)) && issuer == old(issuer).Grant(token)
      ensures faults == old(faults) && KeepsSession(old(run), run)
    {
      Take(Acquire(p, HOME, SignIn(token)), {});
      issuer := issuer.Grant(token);
      locked := Some(p);
    }

    /** Decides what the parked file, compared with what the store holds, calls for. A parked file
        that cannot be read is passed over. */
    method Compare(p: Process, readable: bool, reachable: bool)
      requires InPhase(p, Locked)
      modifies this`locked, this`run, this`at, this`faults
      ensures faults == old(faults) + (if parked.Some? && !readable then {ParkUnreadable} else {})
      ensures KeepsSession(old(run), run)
      ensures
        if parked.None? || !readable then InPhase(p, Reading)
        else if !reachable then Unlocked()
        else if parked.value.Supersedes(Held()) then InPhase(p, Refiling(parked.value))
        else if parked.value.IsHeldIn(Held()) then InPhase(p, Clearing)
        else InPhase(p, Reading)
      ensures faults == {} && InPhase(p, Reading) ==> StoreIsNewest()
    {
      Take(Recover(readable, reachable), if parked.Some? && !readable then {ParkUnreadable} else {});
      if faults == {} {
        Recall();
      }
      locked := if parked.Some? && readable && !reachable then None else locked;
    }

    method SaveParked(p: Process, file: Parked, saved: Saved)
      requires InPhase(p, Refiling(file))
      modifies this`locked, this`store, this`run, this`at, this`faults
      ensures faults == old(faults) && KeepsSession(old(run), run)
      ensures store == if saved.Refused? then old(store) else old(store)[HOME := file.session]
      ensures if saved.Landed? then InPhase(p, Clearing) else Unlocked()
    {
      Take(Refile(saved), {});
      store := if saved.Refused? then store else store[HOME := file.session];
      locked := if saved.Landed? then locked else None;
    }

    method ClearParked(p: Process, ghost phase: Phase, removed: bool)
      requires phase.Clearing? || phase.Unparking? || phase.Removing?
      requires InPhase(p, phase)
      modifies this`parked, this`run, this`at, this`faults
      ensures faults == old(faults) && KeepsSession(old(run), run)
      ensures parked == if removed then None else old(parked)
      ensures match phase
              case Unparking(before) => InPhase(p, Retiring(before))
              case Removing => InPhase(p, Deleting(removed && old(parked).Some?))
              case _ => InPhase(p, Reading) && (faults == {} ==> StoreIsNewest())
    {
      Take(Clear(removed), {});
      if faults == {} {
        Recall();
      }
      parked := if removed then None else parked;
    }

    /** The operation ends with what it read from the store, or with a failure to read it. */
    method GiveUp(p: Process, ghost loaded: Loaded)
      requires InPhase(p, Reading) && (loaded.Due? ==> Held().None? || p in leaving)
      modifies this`locked, this`run, this`at, this`faults
      ensures Unlocked()
      ensures faults == old(faults) && KeepsSession(old(run), run)
    {
      Take(Load(loaded), {});
      locked := None;
    }

    /** About to present what the store holds: without faults, not a spent token of a live family. */
    method AboutToRefresh(p: Process, held: Token)
      requires InPhase(p, Reading) && Held() == Some(held) && p !in leaving
      modifies this`run, this`at, this`faults
      ensures InPhase(p, Sending(held)) && faults == old(faults) && KeepsSession(old(run), run)
      ensures faults == {} ==> !issuer.DetectsReuse(held)
    {
      Take(Load(Due), {});
      if faults == {} {
        Recall();
        assert !AboutToReuse(at);
      }
    }

    /** Presents `held` to the issuer, which ends the family of a token that was spent before. An
        answer that is lost leaves the process as a failure does, and the issuer with the rotation
        done. */
    method Present(p: Process, held: Token, answer: Answer, issued: Token) returns (rotated: bool)
      requires InPhase(p, Sending(held)) && issued !in issuer.root && issued !in issuer.dead
      modifies this`locked, this`issuer, this`run, this`at, this`faults
      ensures KeepsSession(old(run), run)
      ensures rotated == (IssuerRotates(old(issuer), held, answer) && answer.Rotated?)
      ensures issuer == if old(issuer).DetectsReuse(held) then old(issuer).Revoke(held)
                        else if IssuerRotates(old(issuer), held, answer) then old(issuer).Rotate(held, issued)
                        else old(issuer)
      ensures faults == old(faults)
                        + (if IssuerRotates(old(issuer), held, answer) && answer.Lost? then {LostAnswer} else {})
      ensures if rotated then InPhase(p, Received(held, issued)) else Unlocked()
    {
      var given := if IssuerRotates(issuer, held, answer) then answer else Failed;
      Take(Step.Present(given, issued), if given.Lost? then {LostAnswer} else {});
      rotated := given.Rotated?;
      issuer := if issuer.DetectsReuse(held) then issuer.Revoke(held)
                else if given.Failed? then issuer
                else issuer.Rotate(held, issued);
      locked := if rotated then locked else None;
    }

    method RecordRotation(p: Process, was: Token, now: Token)
      requires InPhase(p, Received(was, now))
      modifies this`run, this`at, this`faults
      ensures InPhase(p, Filing(ToSave, was, now, true, false))
      ensures faults == old(faults) && KeepsSession(old(run), run)
      ensures faults == {} ==> now !in issuer.spent
    {
      Take(Record, {});
      if faults == {} {
        Recall();
      }
    }

    /** Refreshes what the store holds, and records a rotation before anything else is done. Without
        faults, what is presented is never a spent token of a live family. */
    method Refresh(p: Process, held: Token, answer: Answer, issued: Token) returns (rotated: bool)
      requires InPhase(p, Reading) && Held() == Some(held) && p !in leaving
      requires issued !in issuer.root && issued !in issuer.dead
      modifies this`locked, this`issuer, this`run, this`at, this`faults
      ensures KeepsSession(old(run), run)
      ensures old(faults) == {} ==> !old(issuer).DetectsReuse(held)
      ensures rotated == (IssuerRotates(old(issuer), held, answer) && answer.Rotated?)
      ensures issuer == if old(issuer).DetectsReuse(held) then old(issuer).Revoke(held)
                        else if IssuerRotates(old(issuer), held, answer) then old(issuer).Rotate(held, issued)
                        else old(issuer)
      ensures faults == old(faults)
                        + (if IssuerRotates(old(issuer), held, answer) && answer.Lost? then {LostAnswer} else {})
      ensures if rotated then InPhase(p, Filing(ToSave, held, issued, true, false)) else Unlocked()
      ensures rotated && faults == {} ==> issued !in issuer.spent
    {
      ghost var start := run;
      AboutToRefresh(p, held);
      ghost var loaded := run;
      rotated := Present(p, held, answer, issued);
      KeepsSessionTrans(start, loaded, run);
      if rotated {
        ghost var presented := run;
        RecordRotation(p, held, issued);
        KeepsSessionTrans(start, presented, run);
      }
    }

    method StoreRotated(p: Process, was: Token, now: Token, saved: Saved)
      requires InPhase(p, Filing(ToSave, was, now, true, false))
      modifies this`store, this`run, this`at, this`faults
      ensures faults == old(faults) && KeepsSession(old(run), run)
      ensures store == if saved.Refused? then old(store) else old(store)[HOME := now]
      ensures InPhase(p, Filing(if saved.Landed? then ToFinish else ToPark, was, now, true, false))
    {
      Take(Save(saved), {});
      store := if saved.Refused? then store else store[HOME := now];
    }

    method ParkRotated(p: Process, was: Token, now: Token, parks: bool)
      requires InPhase(p, Filing(ToPark, was, now, true, false))
      modifies this`parked, this`run, this`at, this`faults
      ensures faults == old(faults) + (if parks then {} else {ParkRefused}) && KeepsSession(old(run), run)
      ensures parked == if parks then Some(Parked(now, was)) else old(parked)
      ensures InPhase(p, Filing(ToFinish, was, now, true, false))
    {
      Take(Park(parks), if parks then {} else {ParkRefused});
      parked := if parks then Some(Parked(now, was)) else parked;
    }

    method Filed(p: Process, was: Token, now: Token)
      requires InPhase(p, Filing(ToFinish, was, now, true, false))
      modifies this`locked, this`run, this`at, this`faults
      ensures Unlocked()
      ensures faults == old(faults) && KeepsSession(old(run), run)
    {
      Take(Finish, {});
      locked := None;
    }

    /** The pool refuses the save: the rotation is dropped as if it had been filed. */
    method NotPooled(p: Process, was: Token, now: Token)
      requires InPhase(p, Filing(ToSave, was, now, true, false))
      modifies this`locked, this`run, this`at, this`faults
      ensures Unlocked()
      ensures faults == old(faults) + {PoolRefused} && KeepsSession(old(run), run)
    {
      Take(RefusePool, {PoolRefused});
      locked := None;
    }

    method StoreSignedIn(p: Process, token: Token, reachable: bool, saved: Saved)
      requires InPhase(p, SigningIn(token))
      modifies this`locked, this`store, this`run, this`at, this`faults
      ensures faults == old(faults) && Begins(old(run), run)
      ensures store == if reachable && !saved.Refused? then old(store)[HOME := token] else old(store)
      ensures if reachable && saved.Landed? then InPhase(p, Stored(old(Held()))) && (faults == {} ==> StoreIsNewest())
              else Unlocked()
    {
      Take(StoreSignIn(reachable, saved), {});
      if faults == {} {
        Recall();
      }
      store := if reachable && !saved.Refused? then store[HOME := token] else store;
      locked := if reachable && saved.Landed? then locked else None;
    }

    /** Revokes the parked session, if there is one that can be read. Says whether the issuer
        agreed, or None when nothing is parked. */
    method RevokeParkedSession(p: Process, ghost phase: Phase, readable: bool, agreed: bool)
      returns (revoked: Option<bool>)
      requires phase.Stored? || phase.RevokingParked?
      requires InPhase(p, phase)
      modifies this`issuer, this`run, this`at, this`faults
      ensures faults == old(faults) && KeepsSession(old(run), run)
      ensures revoked == if parked.Some? then Some(readable && agreed) else None
      ensures issuer == if revoked == Some(true) then old(issuer).Revoke(parked.value.session) else old(issuer)
      ensures InPhase(p, if phase.Stored? then Unparking(phase.before) else Removing)
    {
      Take(RevokeParked(readable && agreed), {});
      revoked := if parked.Some? then Some(readable && agreed) else None;
      issuer := if revoked == Some(true) then issuer.Revoke(parked.value.session) else issuer;
    }

    method RevokePrevious(p: Process, ghost before: Option<Token>, previous: Option<Token>, agreed: bool)
      requires InPhase(p, Retiring(before)) && (previous.Some? ==> previous == before)
      modifies this`issuer, this`locked, this`run, this`at, this`faults
      ensures Unlocked()
      ensures faults == old(faults) && KeepsSession(old(run), run)
      ensures issuer == if agreed && previous.Some? then old(issuer).Revoke(previous.value) else old(issuer)
    {
      Take(RevokeBefore(agreed && previous.Some?), {});
      issuer := if agreed && previous.Some? then issuer.Revoke(previous.value) else issuer;
      locked := None;
    }

    /** Reads the store and revokes what it holds. Says whether the issuer agreed, or None when
        nothing is held. */
    method RevokeStoredSession(p: Process, read: ReadOutcome, agreed: bool) returns (revoked: Option<bool>)
      requires InPhase(p, SigningOut) && !read.NoStore?
      modifies this`issuer, this`run, this`at, this`faults
      ensures faults == old(faults) && Begins(old(run), run)
      ensures revoked == if read.Unreadable? then Some(false) else if Held().Some? then Some(agreed) else None
      ensures issuer == if revoked == Some(true) then old(issuer).Revoke(Held().value) else old(issuer)
      ensures InPhase(p, RevokingParked)
    {
      Take(RevokeStored(true, read.Readable? && agreed), {});
      revoked := if read.Unreadable? then Some(false) else if Held().Some? then Some(agreed) else None;
      issuer := if revoked == Some(true) then issuer.Revoke(Held().value) else issuer;
    }

    method StoreUnreachable(p: Process)
      requires InPhase(p, SigningOut)
      modifies this`locked, this`run, this`at, this`faults
      ensures Unlocked()
      ensures faults == old(faults) && KeepsSession(old(run), run)
    {
      Take(RevokeStored(false, false), {});
      locked := None;
    }

    /** A delete that fails after the parked file was removed is the fault `HalfSignOut`. */
    method DeleteStored(p: Process, unparked: bool, done: bool)
      requires InPhase(p, Deleting(unparked))
      modifies this`store, this`locked, this`run, this`at, this`faults
      ensures Unlocked() && Begins(old(run), run)
      ensures faults == old(faults) + (if unparked && !done then {HalfSignOut} else {})
      ensures store == if done then old(store) - {HOME} else old(store)
    {
      Take(Delete(done), if unparked && !done then {HalfSignOut} else {});
      store := if done then store - {HOME} else store;
      locked := None;
    }

    // What a process does that is dropped, leaves or ends while it holds the lock, or while another does.

    /** A rotation is dropped before it is filed: it parks what it has. */
    method DropRotation(p: Process, ghost stage: Stage, was: Token, now: Token, ghost out: bool, started: bool)
      requires InPhase(p, Filing(stage, was, now, true, out)) && (started || stage.ToSave?)
      modifies this`locked, this`parked, this`run, this`at, this`faults
      ensures parked == Some(Parked(now, was))
      ensures if started then InPhase(p, Filing(stage, was, now, false, out)) else Unlocked()
      ensures faults == old(faults) && KeepsSession(old(run), run)
    {
      Take(Cancel(started), {});
      parked := Some(Parked(now, was));
      locked := if started then locked else None;
    }

    method StartLeaving(q: Process)
      requires Valid()
      modifies this`leaving, this`run, this`at, this`faults
      ensures Valid() && at.holder == old(at).holder
      ensures leaving == old(leaving) + {q}
      ensures faults == old(faults) && KeepsSession(old(run), run)
    {
      Take(Step.StartLeaving(q), {});
      leaving := leaving + {q};
    }

    /** `Leaving::park`, of the one session that is recorded as unsaved. */
    method ParkUnsaved(q: Process, ghost stage: Stage, was: Token, now: Token, ghost out: bool)
      requires q in leaving && InPhase(q, Filing(stage, was, now, true, out))
      modifies this`parked, this`run, this`at, this`faults
      ensures InPhase(q, Filing(stage, was, now, true, true)) && parked == Some(Parked(now, was))
      ensures faults == old(faults) && KeepsSession(old(run), run)
    {
      Take(LeavePark(q), {});
      parked := Some(Parked(now, was));
    }

    /** The process ends. `landed` tells whether the store write that it had begun still lands. */
    method EndProcess(q: Process, pending: Pending, landed: bool)
      requires Valid() && MayEnd(at, q, {}) && pending == PendingOf(at, q)
      modifies this`locked, this`store, this`leaving, this`run, this`at, this`faults
      ensures Valid() && leaving == old(leaving) - {q}
      ensures at.holder == if HoldsLock(old(at), q) then Nobody else old(at).holder
      ensures store == if landed then AfterWrite(old(store), pending) else old(store)
      ensures faults == old(faults) && Begins(old(run), run)
      ensures !EndsSession(old(at), End(q, landed)) ==> KeepsSession(old(run), run)
    {
      Take(End(q, landed), {});
      leaving := leaving - {q};
      store := if landed then AfterWrite(store, pending) else store;
      locked := if locked == Some(q) then None else locked;
    }

    /** `leave`, while a rotated session of the process is not filed yet: it is parked, and whatever
        becomes of the save that was begun, the next process finds it. */
    method LeaveUnfiled(q: Process, saving: bool, ghost stage: Stage, was: Token, now: Token, landed: bool)
      requires InPhase(q, Filing(stage, was, now, true, false)) && saving == stage.ToSave?
      requires Held() in {Some(was), Some(now)}
      modifies this`locked, this`store, this`parked, this`leaving, this`run, this`at, this`faults
      ensures Unlocked() && parked == Some(Parked(now, was))
      ensures Held() == if saving && landed then Some(now) else old(Held())
      ensures parked.value.Supersedes(Held()) || parked.value.IsHeldIn(Held())
      ensures faults == old(faults) && KeepsSession(old(run), run)
    {
      ghost var start := run;
      StartLeaving(q);
      ghost var leaves := run;
      ParkUnsaved(q, stage, was, now, false);
      KeepsSessionTrans(start, leaves, run);
      ghost var parkedRun := run;
      EndProcess(q, if saving then Saves(now) else NoWrite, landed);
      KeepsSessionTrans(start, parkedRun, run);
    }

    // The operations.

    /** `read_locked` once it has the lock: files a parked session that is newer than the stored one. */
    method Recovers(p: Process, e: Reads) returns (ok: bool)
      requires InPhase(p, Locked) && e.acquired
      modifies this`locked, this`store, this`parked, this`run, this`at, this`faults
      ensures ok <==> ReadSucceeds(old(Held()), old(parked), e.(last := true))
      ensures if ok then InPhase(p, Reading) && (faults == {} ==> StoreIsNewest()) else Unlocked()
      ensures Held() == HeldAfterRead(old(Held()), old(parked), e)
      ensures parked == ParkedAfterRead(old(Held()), old(parked), e)
      ensures faults == old(faults) + ReadFaults(old(parked), e)
      ensures KeepsSession(old(run), run)
    {
      ghost var start := run;
      Compare(p, e.readable, e.first);
      if parked.None? || !e.readable {
        return true;
      }
      if !e.first {
        return false;
      }
      var file := parked.value;
      if file.Supersedes(Held()) {
        ghost var compared := run;
        SaveParked(p, file, e.refile);
        ghost var saved := run;
        KeepsSessionTrans(start, compared, saved);
        if !e.refile.Landed? {
          return false;
        }
        ClearParked(p, Clearing, e.removed);
        KeepsSessionTrans(start, saved, run);
      } else if file.IsHeldIn(Held()) {
        ghost var compared := run;
        ClearParked(p, Clearing, e.removed);
        KeepsSessionTrans(start, compared, run);
      }
      return true;
    }

    /** `read_locked`: takes the lock, files a parked session that is newer than the stored one,
        and reads the store. */
    method ReadLocked(p: Process, e: Reads) returns (r: Result<Option<Token>, SessionError>)
      requires Unlocked()
      modifies this`locked, this`store, this`parked, this`run, this`at, this`faults
      ensures r == if ReadSucceeds(old(Held()), old(parked), e) then Ok(Held()) else Err(StoreFailed)
      ensures if r.Ok? then InPhase(p, Reading) && (faults == {} ==> StoreIsNewest()) else Unlocked()
      ensures Held() == HeldAfterRead(old(Held()), old(parked), e)
      ensures parked == ParkedAfterRead(old(Held()), old(parked), e)
      ensures faults == old(faults) + ReadFaults(old(parked), e)
      ensures KeepsSession(old(run), run)
    {
      if !e.acquired {
        KeepsNothing(run);
        return Err(StoreFailed);
      }
      ghost var start := run;
      Lock(p, Use);
      ghost var taken := run;
      var ok := Recovers(p, e);
      KeepsSessionTrans(start, taken, run);
      if !ok {
        return Err(StoreFailed);
      }
      if !e.last {
        ghost var recovered := run;
        GiveUp(p, Unreachable);
        KeepsSessionTrans(start, recovered, run);
        return Err(StoreFailed);
      }
      return Ok(Held());
    }

    /** `file_rotation`, and `Rotating::filed` after it. */
    method FileRotation(p: Process, was: Token, now: Token, saved: Saved, parks: bool)
      returns (r: Result<Token, SessionError>)
      requires InPhase(p, Filing(ToSave, was, now, true, false))
      modifies this`locked, this`store, this`parked, this`run, this`at, this`faults
      ensures Unlocked()
      ensures r == if saved.Landed? then Ok(now) else if parks then Err(SavedToFallback) else Err(ParkFailed)
      ensures store == if saved.Refused? then old(store) else old(store)[HOME := now]
      ensures parked == if !saved.Landed? && parks then Some(Parked(now, was)) else old(parked)
      ensures faults == old(faults) + (if !saved.Landed? && !parks then {ParkRefused} else {})
      ensures KeepsSession(old(run), run)
    {
      ghost var start := run;
      StoreRotated(p, was, now, saved);
      ghost var stored := run;
      if !saved.Landed? {
        ParkRotated(p, was, now, parks);
        ghost var parkedRun := run;
        KeepsSessionTrans(start, stored, parkedRun);
        Filed(p, was, now);
        KeepsSessionTrans(start, parkedRun, run);
        return Err(if parks then SavedToFallback else ParkFailed);
      }
      Filed(p, was, now);
      KeepsSessionTrans(start, stored, run);
      return Ok(now);
    }

    /** `Rotation::run`: refreshes `held` and files what comes back. */
    method Rotate(p: Process, held: Token, e: Uses) returns (r: Result<Token, SessionError>)
      requires InPhase(p, Reading) && Held() == Some(held) && p !in leaving
      requires e.issued !in issuer.root && e.issued !in issuer.dead
      modifies this`locked, this`issuer, this`store, this`parked, this`run, this`at, this`faults
      ensures Unlocked() && KeepsSession(old(run), run)
      ensures old(faults) == {} ==> !old(issuer).DetectsReuse(held)
      ensures r == RotationResult(old(issuer), held, e)
      ensures issuer == IssuerAfter(old(issuer), held, e)
      ensures Held() == HeldAfterRotation(old(issuer), held, e)
      ensures parked == ParkedAfterRotation(old(parked), old(issuer), held, e)
      ensures faults == old(faults) + FaultsOf(old(issuer), held, e)
      ensures r.Ok? && faults == {} ==> e.issued !in issuer.spent
    {
      ghost var start := run;
      var rotated := Refresh(p, held, e.answer, e.issued);
      if !rotated {
        return Err(if e.refused then Expired else RefreshFailed);
      }
      ghost var refreshed := run;
      if !e.pooled {
        NotPooled(p, held, e.issued);
        KeepsSessionTrans(start, refreshed, run);
        return Err(StoreFailed);
      }
      r := FileRotation(p, held, e.issued, e.saved, e.parks);
      KeepsSessionTrans(start, refreshed, run);
    }

    /** `current_session` once the store is read. */
    method UseHeld(p: Process, held: Option<Token>, e: Uses) returns (r: Result<Token, SessionError>)
      requires InPhase(p, Reading) && Held() == held && (faults == {} ==> StoreIsNewest())
      requires e.issued !in issuer.root && e.issued !in issuer.dead
      modifies this`locked, this`issuer, this`store, this`parked, this`run, this`at, this`faults
      ensures Unlocked() && KeepsSession(old(run), run)
      ensures r == HeldResult(held, old(issuer), p in leaving, e)
      ensures r.Ok? ==> Held() == Some(r.value) && (faults == {} ==> !issuer.DetectsReuse(r.value))
      ensures held.Some? && e.due && p !in leaving ==>
        && Held() == HeldAfterRotation(old(issuer), held.value, e)
        && parked == ParkedAfterRotation(old(parked), old(issuer), held.value, e)
        && issuer == IssuerAfter(old(issuer), held.value, e)
        && faults == old(faults) + FaultsOf(old(issuer), held.value, e)
      ensures held.None? || !e.due || p in leaving ==>
        issuer == old(issuer) && store == old(store) && parked == old(parked) && faults == old(faults)
    {
      if held.None? {
        GiveUp(p, Due);
        return Err(NoSession);
      }
      if !e.due {
        GiveUp(p, StillGood);
        return Ok(held.value);
      }
      if p in leaving {
        GiveUp(p, Due);
        return Err(LeavingNow);
      }
      r := Rotate(p, held.value, e);
    }

    /** `current_session`: exactly what the caller is given, and where the current session is
        afterwards. */
    method CurrentSession(p: Process, e: Uses) returns (r: Result<Token, SessionError>)
      requires Unlocked() && e.issued !in issuer.root && e.issued !in issuer.dead
      modifies this`locked, this`issuer, this`store, this`parked, this`run, this`at, this`faults
      ensures Unlocked() && KeepsSession(old(run), run)
      ensures r == UseResult(old(Held()), old(parked), old(issuer), p in leaving, e)
      ensures r.Ok? ==> Held() == Some(r.value) && (faults == {} ==> !issuer.DetectsReuse(r.value))
      ensures r == Err(SavedToFallback) ==>
        parked.Some? && parked.value.session == e.issued
        && (Held() == Some(e.issued) || parked.value.Supersedes(Held()))
      ensures
        var held := HeldAfterRead(old(Held()), old(parked), e.reading);
        var file := ParkedAfterRead(old(Held()), old(parked), e.reading);
        if ReadSucceeds(old(Held()), old(parked), e.reading) && held.Some? && e.due && p !in leaving then
          && Held() == HeldAfterRotation(old(issuer), held.value, e)
          && parked == ParkedAfterRotation(file, old(issuer), held.value, e)
          && issuer == IssuerAfter(old(issuer), held.value, e)
          && faults == old(faults) + ReadFaults(old(parked), e.reading) + FaultsOf(old(issuer), held.value, e)
        else
          && Held() == held && parked == file && issuer == old(issuer)
          && faults == old(faults) + ReadFaults(old(parked), e.reading)
    {
      ghost var start := run;
      var held := ReadLocked(p, e.reading);
      if held.Err? {
        return Err(held.error);
      }
      ghost var read := run;
      r := UseHeld(p, held.value, e);
      KeepsSessionTrans(start, read, run);
    }

    /** `sign_out`. */
    method SignOut(p: Process, e: SignsOut) returns (r: Result<Revocation, SessionError>)
      requires Unlocked()
      modifies this`locked, this`issuer, this`store, this`parked, this`run, this`at, this`faults
      ensures Unlocked() && Begins(old(run), run)
      ensures r.Ok? <==> e.acquired && !e.read.NoStore? && e.removed && e.deleted
      ensures r.Err? ==> r.error == StoreFailed
      ensures r.Ok? ==> Held() == None && parked == None
      ensures r == Ok(NothingToRevoke) <==> r.Ok? && e.read.Readable? && old(Held()) == None && old(parked) == None
      ensures r == Ok(Confirmed) <==>
        && r.Ok? && e.read.Readable? && (old(Held()).Some? || old(parked).Some?)
        && (old(Held()).Some? ==> e.agreed) && (old(parked).Some? ==> e.parkedReadable && e.parkedAgreed)
      ensures r == Ok(Confirmed) ==>
        && (old(Held()).Some? ==> !issuer.Live(old(Held()).value))
        && (old(parked).Some? ==> !issuer.Live(old(parked).value.session))
      ensures !e.acquired || e.read.NoStore? ==> store == old(store) && parked == old(parked) && issuer == old(issuer)
      ensures e.acquired && !e.read.NoStore? ==>
        && parked == (if e.removed then None else old(parked))
        && store == (if e.deleted then old(store) - {HOME} else old(store))
      ensures faults == old(faults)
        + (if e.acquired && !e.read.NoStore? && old(parked).Some? && e.removed && !e.deleted then {HalfSignOut} else {})
    {
      if !e.acquired {
        return Err(StoreFailed);
      }
      ghost var start := run;
      Lock(p, Purpose.SignOut);
      ghost var taken := run;
      if e.read.NoStore? {
        StoreUnreachable(p);
        BeginsTrans(start, taken, run);
        return Err(StoreFailed);
      }
      r := SignOutLocked(p, start, e);
    }

    /** `sign_out` once it has the lock and a store to read. */
    method SignOutLocked(p: Process, ghost start: Run, e: SignsOut) returns (r: Result<Revocation, SessionError>)
      requires InPhase(p, SigningOut) && Begins(start, run) && !e.read.NoStore?
      modifies this`locked, this`issuer, this`store, this`parked, this`run, this`at, this`faults
      ensures Unlocked() && Begins(start, run)
      ensures r.Ok? <==> e.removed && e.deleted
      ensures r.Err? ==> r.error == StoreFailed
      ensures r == Ok(NothingToRevoke) <==> r.Ok? && e.read.Readable? && old(Held()) == None && old(parked) == None
      ensures r == Ok(Confirmed) <==>
        && r.Ok? && e.read.Readable? && (old(Held()).Some? || old(parked).Some?)
        && (old(Held()).Some? ==> e.agreed) && (old(parked).Some? ==> e.parkedReadable && e.parkedAgreed)
      ensures r == Ok(Confirmed) ==>
        && (old(Held()).Some? ==> !issuer.Live(old(Held()).value))
        && (old(parked).Some? ==> !issuer.Live(old(parked).value.session))
      ensures parked == if e.removed then None else old(parked)
      ensures store == if e.deleted then old(store) - {HOME} else old(store)
      ensures faults == old(faults) + (if old(parked).Some? && e.removed && !e.deleted then {HalfSignOut} else {})
    {
      ghost var taken := run;
      var storedRevoked := RevokeStoredSession(p, e.read, e.agreed);
      BeginsTrans(start, taken, run);
      ghost var revoked := run;
      var parkedRevoked := RevokeParkedSession(p, RevokingParked, e.parkedReadable, e.parkedAgreed);
      BeginsTrans(start, revoked, run);
      RemoveBoth(p, start, e.removed, e.deleted);
      if !e.removed || !e.deleted {
        return Err(StoreFailed);
      }
      return Ok(
        if storedRevoked.None? && parkedRevoked.None? then NothingToRevoke
        else if storedRevoked == Some(false) || parkedRevoked == Some(false) then NotConfirmed
        else Confirmed);
    }

    /** Both removals, whatever the first one does. */
    method RemoveBoth(p: Process, ghost start: Run, removed: bool, deleted: bool)
      requires InPhase(p, Removing) && Begins(start, run)
      modifies this`locked, this`store, this`parked, this`run, this`at, this`faults
      ensures Unlocked() && Begins(start, run)
      ensures parked == if removed then None else old(parked)
      ensures store == if deleted then old(store) - {HOME} else old(store)
      ensures faults == old(faults) + (if old(parked).Some? && removed && !deleted then {HalfSignOut} else {})
    {
      ghost var before := run;
      var unparked := removed && parked.Some?;
      ClearParked(p, Removing, removed);
      BeginsTrans(start, before, run);
      ghost var cleared := run;
      DeleteStored(p, unparked, deleted);
      BeginsTrans(start, cleared, run);
    }

    /** `store_new_session`, with the sign-in's token granted by the issuer. */
    method StoreNewSession(p: Process, token: Token, e: SignsIn) returns (r: Result<SignInReport, SessionError>)
      requires Unlocked() && token !in issuer.root && token !in issuer.dead
      modifies this`locked, this`issuer, this`store, this`parked, this`run, this`at, this`faults
      ensures Unlocked() && Begins(old(run), run) && faults == old(faults)
      ensures r.Ok? <==> e.acquired && !e.read.NoStore? && e.saved.Landed?
      ensures r.Err? ==> r.error == StoreFailed && parked == old(parked)
      ensures store
           == if e.acquired && !e.read.NoStore? && !e.saved.Refused? then old(store)[HOME := token] else old(store)
      ensures r.Ok? ==> HoldsSessionOf(at, token) && Held() == Some(token)
      ensures r.Ok? ==> parked == if e.removed then None else old(parked)
      ensures r.Ok? && faults == {} ==> parked.Some? ==> !parked.value.Supersedes(Held())
      ensures r.Ok? ==>
        && r.value.previousUnreadable == e.read.Unreadable?
        && r.value.parked == if old(parked).Some? && !(e.parkedReadable && e.parkedAgreed && e.removed)
                             then Some(ParkedReport(e.parkedReadable && e.parkedAgreed, e.removed)) else None
      ensures r.Ok? && r.value.parked == None && old(parked).Some? ==>
        parked == None && !issuer.Live(old(parked).value.session)
      ensures r.Ok? && e.read.Readable? && old(Held()).Some? && e.previousAgreed ==> !issuer.Live(old(Held()).value)
    {
      if !e.acquired {
        return Err(StoreFailed);
      }
      ghost var start := run;
      LockToSignIn(p, token);
      ghost var taken := run;
      ghost var before := Held();
      var previous := if e.read.Readable? then Held() else None;
      StoreSignedIn(p, token, !e.read.NoStore?, e.saved);
      BeginsTrans(start, taken, run);
      if e.read.NoStore? || !e.saved.Landed? {
        return Err(StoreFailed);
      }
      var parkedReport := RetireOthers(p, start, before, previous, e);
      return Ok(SignInReport(parkedReport, e.read.Unreadable?));
    }

    /** What follows the save of a sign-in: nothing in it can fail. */
    method RetireOthers(p: Process, ghost start: Run, ghost before: Option<Token>, previous: Option<Token>, e: SignsIn)
      returns (report: Option<ParkedReport>)
      requires InPhase(p, Stored(before)) && Begins(start, run) && (previous.Some? ==> previous == before)
      modifies this`locked, this`issuer, this`parked, this`run, this`at, this`faults
      ensures Unlocked() && Begins(start, run) && faults == old(faults)
      ensures issuer.root == old(issuer).root && old(issuer).dead <= issuer.dead
      ensures parked == if e.removed then None else old(parked)
      ensures report == if old(parked).Some? && !(e.parkedReadable && e.parkedAgreed && e.removed)
                        then Some(ParkedReport(e.parkedReadable && e.parkedAgreed, e.removed)) else None
      ensures old(parked).Some? && e.parkedReadable && e.parkedAgreed ==> !issuer.Live(old(parked).value.session)
      ensures previous.Some? && e.previousAgreed ==> !issuer.Live(previous.value)
    {
      ghost var stored := run;
      var parkedRevoked := RevokeParkedSession(p, Stored(before), e.parkedReadable, e.parkedAgreed);
      BeginsTrans(start, stored, run);
      ghost var revoked := run;
      ClearParked(p, Unparking(before), e.removed);
      BeginsTrans(start, revoked, run);
      ghost var cleared := run;
      RevokePrevious(p, before, previous, e.previousAgreed);
      BeginsTrans(start, cleared, run);
      report := if parkedRevoked.Some? && !(parkedRevoked.value && e.removed)
        then Some(ParkedReport(parkedRevoked.value, e.removed)) else None;
    }
  }

  /** A sign-in, and then any number of uses by any processes, whatever the stores and the issuer do
      to them: as long as no fault happens, the store holds that session or a rotation of it. */
  method SignInAndUse(m: Machine, p: Process, token: Token, signIn: SignsIn, uses: seq<(Process, Uses)>)
    returns (signedIn: bool)
    requires m.Unlocked() && token !in m.issuer.root && token !in m.issuer.dead
    modifies m
    ensures m.Unlocked()
    ensures signedIn <==> signIn.acquired && !signIn.read.NoStore? && signIn.saved.Landed?
    ensures signedIn && m.faults == {} ==> m.Held().Some? && HoldsSessionOf(m.at, token)
  {
    var r := m.StoreNewSession(p, token, signIn);
    signedIn := r.Ok?;
    ghost var before := m.run;
    KeepsNothing(m.run);
    for i := 0 to |uses|
      invariant m.Unlocked() && KeepsSession(before, m.run)
      invariant m.faults == {} ==> IsRun(before, {})
    {
      var (q, use) := uses[i];
      if use.issued !in m.issuer.root && use.issued !in m.issuer.dead {
        ghost var middle := m.run;
        var _ := m.CurrentSession(q, use);
        KeepsSessionTrans(before, middle, m.run);
      }
    }
    if signedIn && m.faults == {} {
      SessionStandsBetween(before, m.run, token);
    }
  }

  /** A process leaves with a rotated session that it has not filed, and another one reads: what it
      gets is that session, whatever became of the save. */
  method LeaveAndRead(
    m: Machine, q: Process, saving: bool, ghost stage: Stage, was: Token, now: Token, landed: bool,
    p: Process, reading: Reads)
    returns (r: Result<Option<Token>, SessionError>)
    requires m.InPhase(q, Filing(stage, was, now, true, false)) && saving == stage.ToSave?
    requires m.Held() in {Some(was), Some(now)} && reading.readable
    modifies m
    ensures r.Ok? ==> r.value == Some(now) == m.Held() && m.InPhase(p, Reading)
    ensures r.Err? ==> m.Unlocked()
    ensures m.faults == old(m.faults) && KeepsSession(old(m.run), m.run)
  {
    ghost var start := m.run;
    m.LeaveUnfiled(q, saving, stage, was, now, landed);
    ghost var gone := m.run;
    r := m.ReadLocked(p, reading);
    KeepsSessionTrans(start, gone, m.run);
  }
}
