/** Refresh-token rotation between processes that share one credential store, one lock and one
    parked file (crates/erpc-auth/src/session.rs and lock.rs).

    The lock admits one operation at a time, so the machine has one `holder`, whose phase says how
    far its program has come; every store call, file operation and request to the issuer is one
    step. What the environment decides -- whether a save lands and what it reports, whether a
    removal or a revocation succeeds, what the issuer answers -- is an argument of the step.

    A `Fault` is a departure from what the code relies on. `CanStep` takes the set of faults that
    may happen; with the empty set the machine is the one the code is written for.
 */
module RotationProtocol {
  import opened Wrappers

  type Token = nat
  type Process = nat

  /** An account in a store. All of them share the lock and the parked file. */
  type Slot = nat
  const HOME: Slot := 0

  /** What the issuer knows. A family is named by the token its sign-in obtained, so `root[t] == y`
      says that `t` is `y` or was obtained from it by rotations. */
  datatype Issuer = Issuer(root: map<Token, Token>, spent: set<Token>, dead: set<Token>) {
    predicate Live(t: Token) {
      t in root && root[t] !in dead
    }

    /** Presenting `t` now is what makes the issuer revoke the family. */
    predicate DetectsReuse(t: Token) {
      Live(t) && t in spent
    }

    function Grant(t: Token): Issuer {
      this.(root := root[t := t])
    }

    function Rotate(was: Token, now: Token): Issuer
      requires was in root
    {
      Issuer(root[now := root[was]], spent + {was}, dead)
    }

    function Revoke(t: Token): Issuer {
      if t in root then this.(dead := dead + {root[t]}) else this
    }
  }

  /** The parked file: a rotated session, and the token its rotation spent. */
  datatype Parked = Parked(session: Token, inPlaceOf: Token) {
    predicate Supersedes(held: Option<Token>) {
      held == Some(inPlaceOf)
    }

    predicate IsHeldIn(held: Option<Token>) {
      held == Some(session)
    }
  }

  /** Which part of `file_rotation` comes next: the save, the park, or its return. */
  datatype Stage = ToSave | ToPark | ToFinish

  datatype Phase =
    // current_session
    | Locked
    | Refiling(file: Parked)
    | Clearing
    | Reading
    | Sending(held: Token)
    | Received(was: Token, now: Token)
      // `kept`: the unsaved record exists; `out`: a leaving process has parked from it.
    | Filing(stage: Stage, was: Token, now: Token, kept: bool, out: bool)
      // store_new_session
    | SigningIn(token: Token)
    | Stored(before: Option<Token>)
    | Unparking(before: Option<Token>)
    | Retiring(before: Option<Token>)
      // sign_out
    | SigningOut
    | RevokingParked
    | Removing
    | Deleting(unparked: bool)

  datatype Holder = Nobody | Op(p: Process, slot: Slot, phase: Phase)

  datatype State = State(
    issuer: Issuer,
    store: map<Slot, Token>,
    parked: Option<Parked>,
    holder: Holder,
    leaving: set<Process>,
    // Only faults put anything in the last two.
    copies: map<Process, Parked>,
    late: set<(Slot, Token)>)
  {
    function Held(slot: Slot): Option<Token> {
      if slot in store then Some(store[slot]) else None
    }

    /** The lock holder goes on to `phase`. */
    function Go(phase: Phase): State
      requires holder.Op?
    {
      this.(holder := holder.(phase := phase))
    }

    function Release(): State {
      this.(holder := Nobody)
    }

    function Put(slot: Slot, t: Token): State {
      this.(store := store[slot := t])
    }
  }

  const INITIAL := State(Issuer(map[], {}, {}), map[], None, Nobody, {}, map[], {})

  datatype Saved = Landed | Refused | LandedButFailed

  datatype Loaded = Unreachable | StillGood | Due

  datatype Answer = Rotated | Failed | Lost

  datatype Purpose = Use | SignIn(token: Token) | SignOut

  datatype Step =
    | Acquire(p: Process, slot: Slot, purpose: Purpose)
    | Recover(readable: bool, reachable: bool)
    | Refile(saved: Saved)
    | Clear(removed: bool)
    | Load(loaded: Loaded)
    | Present(answer: Answer, issued: Token)
    | Record
    | Save(saved: Saved)
    | Park(written: bool)
    | Finish
    | Cancel(started: bool)
    | StoreSignIn(reachable: bool, saved: Saved)
    | RevokeParked(agreed: bool)
    | RevokeBefore(agreed: bool)
    | RevokeStored(reachable: bool, agreed: bool)
    | Delete(done: bool)
    | StartLeaving(q: Process)
    | StopLeaving(q: Process)
    | LeavePark(q: Process)
    | End(q: Process, landed: bool)
    | FamilyEnds(root: Token)
      // Only with a fault.
    | RefusePool
    | SplitCancel
    | CopyUnsaved(q: Process)
    | WriteCopy(q: Process)
    | EndLate(q: Process)
    | LandLate(slot: Slot, token: Token)

  datatype Fault =
    | LostAnswer      // `refresh` fails although the issuer rotated
    | CutOff          // a process ends between sending a refresh and parking its answer
    | SplitDrop       // a process ends inside `Rotating::drop`, between uncounting and parking
    | SplitPark       // `Leaving::park` writes its copy after the record it came from is gone
    | LateWrite       // a dead process's store write lands later
    | PoolRefused     // the blocking pool refuses a save that a live task asked for
    | ParkRefused     // `park_credential` fails
    | ParkUnreadable  // `read_parked` fails although a session is parked
    | HalfSignOut     // a sign-out removes the parked file and not the stored session
    | SharedPath      // a second account or store uses the same parked path

  /** Whether process `q` holds the lock with a rotated session recorded as unsaved. */
  predicate Keeps(s: State, q: Process) {
    s.holder.Op? && s.holder.p == q && s.holder.phase.Filing? && s.holder.phase.kept
  }

  /** Whether `q` may end here: `leave` waits until every rotation is settled, or answered and
      parked. A process with no rotation under way may end anywhere, except that a sign-out cut
      off between its two removals is the fault `HalfSignOut`. */
  predicate MayEnd(s: State, q: Process, faults: set<Fault>) {
    if !s.holder.Op? || s.holder.p != q then true
    else match s.holder.phase
      case Sending(_) => CutOff in faults
      case Received(_, _) => CutOff in faults
      case Filing(_, _, _, kept, out) => !kept || out || CutOff in faults
      case Deleting(unparked) => !unparked || HalfSignOut in faults
      case _ => true
  }

  /** What a process's own write leaves behind when the process ends during it. */
  function WithPendingWrite(s: State): State
    requires s.holder.Op?
  {
    match s.holder.phase
    case Refiling(file) => s.Put(s.holder.slot, file.session)
    case Filing(ToSave, _, now, _, _) => s.Put(s.holder.slot, now)
    case SigningIn(token) => s.Put(s.holder.slot, token)
    case Deleting(_) => s.(store := s.store - {s.holder.slot})
    case _ => s
  }

  predicate CanStep(s: State, step: Step, faults: set<Fault>) {
    match step
    case Acquire(_, slot, purpose) =>
      && s.holder.Nobody?
      && (slot == HOME || SharedPath in faults)
      && (purpose.SignIn? ==> purpose.token !in s.issuer.root && purpose.token !in s.issuer.dead)
    case Recover(readable, _) =>
      && s.holder.Op? && s.holder.phase.Locked?
      && (readable || s.parked.None? || ParkUnreadable in faults)
    case Refile(_) => s.holder.Op? && s.holder.phase.Refiling?
    case Clear(_) => s.holder.Op? && (s.holder.phase.Clearing? || s.holder.phase.Unparking? || s.holder.phase.Removing?)
    case Load(_) => s.holder.Op? && s.holder.phase.Reading?
    case Present(answer, issued) =>
      && s.holder.Op? && s.holder.phase.Sending?
      && (!answer.Failed? ==>
            s.issuer.Live(s.holder.phase.held) && issued !in s.issuer.root && issued !in s.issuer.dead)
      && (answer.Lost? ==> LostAnswer in faults)
    case Record => s.holder.Op? && s.holder.phase.Received?
    case Save(_) => s.holder.Op? && s.holder.phase.Filing? && s.holder.phase.stage.ToSave?
    case Park(written) =>
      && s.holder.Op? && s.holder.phase.Filing? && s.holder.phase.stage.ToPark?
      && (written || ParkRefused in faults)
    case Finish => s.holder.Op? && s.holder.phase.Filing? && s.holder.phase.stage.ToFinish?
    case Cancel(started) =>
      && s.holder.Op? && s.holder.phase.Filing? && s.holder.phase.kept
      && (started || s.holder.phase.stage.ToSave?)
    case StoreSignIn(_, _) => s.holder.Op? && s.holder.phase.SigningIn?
    case RevokeParked(_) => s.holder.Op? && (s.holder.phase.Stored? || s.holder.phase.RevokingParked?)
    case RevokeBefore(_) => s.holder.Op? && s.holder.phase.Retiring?
    case RevokeStored(_, _) => s.holder.Op? && s.holder.phase.SigningOut?
    case Delete(done) =>
      && s.holder.Op? && s.holder.phase.Deleting?
      && (done || !s.holder.phase.unparked || HalfSignOut in faults)
    case StartLeaving(_) => true
    case StopLeaving(q) => q in s.leaving
    case LeavePark(q) => q in s.leaving && Keeps(s, q)
    case End(q, _) => MayEnd(s, q, faults)
    case FamilyEnds(_) => true
    case RefusePool =>
      && PoolRefused in faults
      && s.holder.Op? && s.holder.phase.Filing? && s.holder.phase.kept && s.holder.phase.stage.ToSave?
    case SplitCancel => SplitDrop in faults && s.holder.Op? && s.holder.phase.Filing? && s.holder.phase.kept
    case CopyUnsaved(q) => SplitPark in faults && q in s.leaving && Keeps(s, q)
    case WriteCopy(q) => SplitPark in faults && q in s.copies
    case EndLate(q) => LateWrite in faults && MayEnd(s, q, faults) && Keeps(s, q) && s.holder.phase.stage.ToSave?
    case LandLate(slot, token) => LateWrite in faults && (slot, token) in s.late
  }

  function DoAcquire(s: State, p: Process, slot: Slot, purpose: Purpose): State {
    match purpose
    case Use => s.(holder := Op(p, slot, Locked))
    case SignIn(t) => s.(holder := Op(p, slot, SigningIn(t)), issuer := s.issuer.Grant(t))
    case SignOut => s.(holder := Op(p, slot, SigningOut))
  }

  function DoRecover(s: State, readable: bool, reachable: bool): State
    requires s.holder.Op?
  {
    if s.parked.None? || !readable then s.Go(Reading)
    else if !reachable then s.Release()
    else if s.parked.value.Supersedes(s.Held(s.holder.slot)) then s.Go(Refiling(s.parked.value))
    else if s.parked.value.IsHeldIn(s.Held(s.holder.slot)) then s.Go(Clearing)
    else s.Go(Reading)
  }

  function DoRefile(s: State, saved: Saved): State
    requires s.holder.Op? && s.holder.phase.Refiling?
  {
    var landed := s.Put(s.holder.slot, s.holder.phase.file.session);
    match saved
    case Landed => landed.Go(Clearing)
    case Refused => s.Release()
    case LandedButFailed => landed.Release()
  }

  function DoClear(s: State, removed: bool): State
    requires s.holder.Op?
  {
    var cleared := if removed then s.(parked := None) else s;
    match s.holder.phase
    case Unparking(before) => cleared.Go(Retiring(before))
    case Removing => cleared.Go(Deleting(removed && s.parked.Some?))
    case _ => cleared.Go(Reading)
  }

  function DoLoad(s: State, loaded: Loaded): State
    requires s.holder.Op?
  {
    if !loaded.Due? || s.holder.slot !in s.store || s.holder.p in s.leaving then s.Release()
    else s.Go(Sending(s.store[s.holder.slot]))
  }

  function DoPresent(s: State, answer: Answer, issued: Token): State
    requires s.holder.Op? && s.holder.phase.Sending?
    requires !answer.Failed? ==> s.issuer.Live(s.holder.phase.held)
  {
    var held := s.holder.phase.held;
    if s.issuer.DetectsReuse(held) then s.(issuer := s.issuer.Revoke(held)).Release()
    else if answer.Failed? then s.Release()
    else
      var rotated := s.(issuer := s.issuer.Rotate(held, issued));
      if answer.Rotated? then rotated.Go(Received(held, issued)) else rotated.Release()
  }

  function DoSave(s: State, saved: Saved): State
    requires s.holder.Op? && s.holder.phase.Filing?
  {
    var tried := if saved.Refused? then s else s.Put(s.holder.slot, s.holder.phase.now);
    tried.Go(s.holder.phase.(stage := if saved.Landed? then ToFinish else ToPark))
  }

  /** The parked file as the rotation under way writes it. */
  function WithParked(s: State): State
    requires s.holder.Op? && s.holder.phase.Filing?
  {
    s.(parked := Some(Parked(s.holder.phase.now, s.holder.phase.was)))
  }

  function DoStoreSignIn(s: State, reachable: bool, saved: Saved): State
    requires s.holder.Op? && s.holder.phase.SigningIn?
  {
    var landed := s.Put(s.holder.slot, s.holder.phase.token);
    if !reachable || saved.Refused? then s.Release()
    else if saved.Landed? then landed.Go(Stored(s.Held(s.holder.slot)))
    else landed.Release()
  }

  function Revoking(s: State, agreed: bool, token: Option<Token>): State {
    if agreed && token.Some? then s.(issuer := s.issuer.Revoke(token.value)) else s
  }

  function DoEnd(s: State, q: Process, landed: bool): State {
    var gone := s.(leaving := s.leaving - {q}, copies := s.copies - {q});
    if !s.holder.Op? || s.holder.p != q then gone
    else if landed then WithPendingWrite(gone).Release()
    else gone.Release()
  }

  function Do(s: State, step: Step, faults: set<Fault>): State
    requires CanStep(s, step, faults)
  {
    match step
    case Acquire(p, slot, purpose) => DoAcquire(s, p, slot, purpose)
    case Recover(readable, reachable) => DoRecover(s, readable, reachable)
    case Refile(saved) => DoRefile(s, saved)
    case Clear(removed) => DoClear(s, removed)
    case Load(loaded) => DoLoad(s, loaded)
    case Present(answer, issued) => DoPresent(s, answer, issued)
    case Record => s.Go(Filing(ToSave, s.holder.phase.was, s.holder.phase.now, true, false))
    case Save(saved) => DoSave(s, saved)
    case Park(written) => (if written then WithParked(s) else s).Go(s.holder.phase.(stage := ToFinish))
    case Finish => s.Release()
    case Cancel(started) =>
      if started then WithParked(s).Go(s.holder.phase.(kept := false)) else WithParked(s).Release()
    case StoreSignIn(reachable, saved) => DoStoreSignIn(s, reachable, saved)
    case RevokeParked(agreed) =>
      Revoking(s, agreed, if s.parked.Some? then Some(s.parked.value.session) else None).Go(
        if s.holder.phase.Stored? then Unparking(s.holder.phase.before) else Removing)
    case RevokeBefore(agreed) => Revoking(s, agreed, s.holder.phase.before).Release()
    case RevokeStored(reachable, agreed) =>
      if reachable then Revoking(s, agreed, s.Held(s.holder.slot)).Go(RevokingParked) else s.Release()
    case Delete(done) => (if done then s.(store := s.store - {s.holder.slot}) else s).Release()
    case StartLeaving(q) => s.(leaving := s.leaving + {q})
    case StopLeaving(q) => s.(leaving := s.leaving - {q})
    case LeavePark(_) => WithParked(s).Go(s.holder.phase.(out := true))
    case End(q, landed) => DoEnd(s, q, landed)
    case FamilyEnds(root) => s.(issuer := s.issuer.(dead := s.issuer.dead + {root}))
    case RefusePool => s.Release()
    case SplitCancel => s.Go(s.holder.phase.(kept := false))
    case CopyUnsaved(q) => s.(copies := s.copies[q := Parked(s.holder.phase.now, s.holder.phase.was)])
    case WriteCopy(q) => s.(parked := Some(s.copies[q]), copies := s.copies - {q})
    case EndLate(q) => DoEnd(s, q, false).(late := s.late + {(s.holder.slot, s.holder.phase.now)})
    case LandLate(slot, token) => s.Put(slot, token).(late := s.late - {(slot, token)})
  }

  /** A run: the states it goes through and the steps between them. */
  datatype Run = Run(states: seq<State>, steps: seq<Step>) {
    function Last(): State
      requires |states| > 0
    {
      states[|states| - 1]
    }
  }

  ghost predicate IsRun(r: Run, faults: set<Fault>) {
    && |r.states| == |r.steps| + 1
    && r.states[0] == INITIAL
    && forall i :: 0 <= i < |r.steps| ==>
      CanStep(r.states[i], r.steps[i], faults) && r.states[i + 1] == Do(r.states[i], r.steps[i], faults)
  }

  /** The lock holder is about to present a token that an earlier rotation spent, and whose family
      the issuer has not ended. */
  predicate AboutToReuse(s: State) {
    s.holder.Op? && s.holder.phase.Sending? && s.issuer.DetectsReuse(s.holder.phase.held)
  }

  /** No run with these faults ever presents a spent token of a live family. */
  ghost predicate NeverReuses(faults: set<Fault>) {
    forall r, i :: IsRun(r, faults) && 0 <= i < |r.states| ==> !AboutToReuse(r.states[i])
  }
}
