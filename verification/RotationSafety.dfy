/** What every run of the rotation protocol without faults keeps. */
module RotationSafety {
  import opened Wrappers
  import opened RotationProtocol

  /** A family has at most one token that is not spent. */
  ghost predicate OneCurrent(i: Issuer) {
    forall a, b :: a in i.root && b in i.root && i.root[a] == i.root[b] && a !in i.spent && b !in i.spent ==> a == b
  }

  ghost predicate IssuerOk(i: Issuer) {
    && i.spent <= i.root.Keys
    && (forall t :: t in i.root ==> i.root[t] in i.root)
    && OneCurrent(i)
  }

  predicate Rotates(i: Issuer, was: Token, now: Token) {
    && was in i.root && now in i.root
    && i.root[was] == i.root[now]
    && was in i.spent
  }

  /** The parked file names a token that its rotation spent; and while the store still holds that
      token, the file holds the family's current one. */
  predicate ParkedOk(s: State) {
    s.parked.Some? ==>
      && Rotates(s.issuer, s.parked.value.inPlaceOf, s.parked.value.session)
      && (s.parked.value.Supersedes(s.Held(HOME)) ==> s.parked.value.session !in s.issuer.spent)
  }

  predicate Superseded(s: State) {
    s.parked.Some? && s.parked.value.Supersedes(s.Held(HOME))
  }

  /** The stored token, if there is one, can be presented, or its family is gone. */
  predicate StoreIsCurrent(s: State) {
    HOME in s.store ==> !s.issuer.DetectsReuse(s.store[HOME])
  }

  /** What holds besides, by how far the lock holder has come. */
  predicate PhaseOk(s: State) {
    match s.holder
    case Nobody => StoreIsCurrent(s) || Superseded(s)
    case Op(_, slot, phase) =>
      slot == HOME &&
      match phase
      case Refiling(file) => s.parked == Some(file) && file.Supersedes(s.Held(HOME))
      case Clearing => StoreIsCurrent(s) && !Superseded(s)
      case Reading => StoreIsCurrent(s) && !Superseded(s)
      case Sending(held) => StoreIsCurrent(s) && !Superseded(s) && s.Held(HOME) == Some(held)
      case Received(was, now) =>
        && Rotates(s.issuer, was, now) && now !in s.issuer.spent
        && s.Held(HOME) == Some(was) && !Superseded(s)
      case Filing(stage, was, now, kept, out) =>
        && Rotates(s.issuer, was, now) && now !in s.issuer.spent
        && (s.Held(HOME) == Some(was) || s.Held(HOME) == Some(now))
        && (Superseded(s) ==> s.parked == Some(Parked(now, was)))
        && (stage.ToSave? ==> s.Held(HOME) == Some(was))
        && ((stage.ToFinish? || !kept || out) ==> s.Held(HOME) == Some(now) || s.parked == Some(Parked(now, was)))
      case SigningIn(token) =>
        && token in s.issuer.root && s.issuer.root[token] == token && token !in s.issuer.spent
        && (StoreIsCurrent(s) || Superseded(s))
      case Stored(_) => StoreIsCurrent(s) && !Superseded(s)
      case Unparking(_) => StoreIsCurrent(s) && !Superseded(s)
      case Retiring(_) => StoreIsCurrent(s)
      case Deleting(unparked) => !unparked ==> StoreIsCurrent(s) || Superseded(s)
      case _ => StoreIsCurrent(s) || Superseded(s)
  }

  ghost predicate Invariant(s: State) {
    && IssuerOk(s.issuer)
    && s.store.Keys <= {HOME}
    && (HOME in s.store ==> s.store[HOME] in s.issuer.root)
    && ParkedOk(s)
    && PhaseOk(s)
  }

  /** Families only end, and nothing the invariant says is about a family that must live. */
  lemma DeathKeeps(s: State, dead: set<Token>)
    requires Invariant(s) && s.issuer.dead <= dead
    ensures Invariant(s.(issuer := s.issuer.(dead := dead)))
  {
  }

  /** Writing a token that is not spent settles the store: no parked file supersedes it. */
  lemma Settles(s: State, t: Token)
    requires IssuerOk(s.issuer) && ParkedOk(s)
    requires t in s.issuer.root && t !in s.issuer.spent
    ensures var s' := s.Put(HOME, t); ParkedOk(s') && StoreIsCurrent(s') && !Superseded(s')
  {
  }

  lemma AcquireKeeps(s: State, step: Step)
    requires Invariant(s) && CanStep(s, step, {})
    requires step.Acquire?
    ensures Invariant(Do(s, step, {}))
  {
    match step.purpose
    case SignIn(token) => GrantKeeps(s, token);
    case _ =>
  }

  lemma GrantKeeps(s: State, token: Token)
    requires IssuerOk(s.issuer) && ParkedOk(s) && token !in s.issuer.root
    ensures var s' := s.(issuer := s.issuer.Grant(token)); IssuerOk(s'.issuer) && ParkedOk(s')
  {
  }

  lemma RecoverKeeps(s: State, step: Step)
    requires Invariant(s) && CanStep(s, step, {})
    requires step.Recover?
    ensures Invariant(Do(s, step, {}))
  {
    if s.parked.Some? && step.readable && !step.reachable {
      assert Do(s, step, {}) == s.Release();
    }
  }

  lemma RefileKeeps(s: State, step: Step)
    requires Invariant(s) && CanStep(s, step, {})
    requires step.Refile?
    ensures Invariant(Do(s, step, {}))
  {
  }

  lemma ClearKeeps(s: State, step: Step)
    requires Invariant(s) && CanStep(s, step, {})
    requires step.Clear?
    ensures Invariant(Do(s, step, {}))
  {
  }

  lemma LoadKeeps(s: State, step: Step)
    requires Invariant(s) && CanStep(s, step, {})
    requires step.Load?
    ensures Invariant(Do(s, step, {}))
  {
  }

  lemma FailedPresentKeeps(s: State, step: Step)
    requires Invariant(s) && CanStep(s, step, {})
    requires step.Present? && step.answer.Failed?
    ensures Invariant(Do(s, step, {}))
  {
  }

  /** A rotation of an unspent token keeps the issuer in order, and the token it issues is the one
      to present next. */
  lemma RotateKeepsIssuer(i: Issuer, was: Token, now: Token)
    requires IssuerOk(i) && was in i.root && was !in i.spent && now !in i.root && now !in i.dead
    ensures IssuerOk(i.Rotate(was, now)) && Rotates(i.Rotate(was, now), was, now) && now !in i.Rotate(was, now).spent
  {
  }

  lemma RotateKeepsParked(s: State, was: Token, now: Token)
    requires IssuerOk(s.issuer) && ParkedOk(s) && !Superseded(s)
    requires was in s.issuer.root && now !in s.issuer.root
    ensures ParkedOk(s.(issuer := s.issuer.Rotate(was, now)))
  {
  }

  lemma RotatingPresentKeeps(s: State, step: Step)
    requires Invariant(s) && CanStep(s, step, {})
    requires step.Present? && !step.answer.Failed?
    ensures Invariant(Do(s, step, {}))
  {
    var held := s.holder.phase.held;
    RotateKeepsIssuer(s.issuer, held, step.issued);
    RotateKeepsParked(s, held, step.issued);
    assert Do(s, step, {}) == s.(issuer := s.issuer.Rotate(held, step.issued)).Go(Received(held, step.issued));
  }

  lemma PresentKeeps(s: State, step: Step)
    requires Invariant(s) && CanStep(s, step, {})
    requires step.Present?
    ensures Invariant(Do(s, step, {}))
  {
    if step.answer.Failed? {
      FailedPresentKeeps(s, step);
    } else {
      RotatingPresentKeeps(s, step);
    }
  }

  lemma RecordKeeps(s: State, step: Step)
    requires Invariant(s) && CanStep(s, step, {})
    requires step.Record? || step.Save?
    ensures Invariant(Do(s, step, {}))
  {
  }

  lemma ParkKeeps(s: State, step: Step)
    requires Invariant(s) && CanStep(s, step, {})
    requires step.Park? || step.Finish?
    ensures Invariant(Do(s, step, {}))
  {
  }

  lemma CancelKeeps(s: State, step: Step)
    requires Invariant(s) && CanStep(s, step, {})
    requires step.Cancel? || step.LeavePark?
    ensures Invariant(Do(s, step, {}))
  {
  }

  lemma StoreSignInKeeps(s: State, step: Step)
    requires Invariant(s) && CanStep(s, step, {})
    requires step.StoreSignIn?
    ensures Invariant(Do(s, step, {}))
  {
    Settles(s, s.holder.phase.token);
  }

  lemma RevokingKeeps(s: State, agreed: bool, token: Option<Token>)
    requires Invariant(s)
    ensures Invariant(Revoking(s, agreed, token))
  {
    var dead := Revoking(s, agreed, token).issuer.dead;
    DeathKeeps(s, dead);
    assert Revoking(s, agreed, token) == s.(issuer := s.issuer.(dead := dead));
  }

  lemma RevokeParkedKeeps(s: State, step: Step)
    requires Invariant(s) && CanStep(s, step, {}) && step.RevokeParked?
    ensures Invariant(Do(s, step, {}))
  {
    RevokingKeeps(s, step.agreed, if s.parked.Some? then Some(s.parked.value.session) else None);
  }

  lemma RevokeBeforeKeeps(s: State, step: Step)
    requires Invariant(s) && CanStep(s, step, {}) && step.RevokeBefore?
    ensures Invariant(Do(s, step, {}))
  {
    RevokingKeeps(s, step.agreed, s.holder.phase.before);
  }

  lemma RevokeStoredKeeps(s: State, step: Step)
    requires Invariant(s) && CanStep(s, step, {}) && step.RevokeStored?
    ensures Invariant(Do(s, step, {}))
  {
    RevokingKeeps(s, step.agreed, s.Held(s.holder.slot));
  }

  lemma DeleteKeeps(s: State, step: Step)
    requires Invariant(s) && CanStep(s, step, {})
    requires step.Delete?
    ensures Invariant(Do(s, step, {}))
  {
  }

  lemma LeavingKeeps(s: State, step: Step)
    requires Invariant(s) && CanStep(s, step, {})
    requires step.StartLeaving? || step.StopLeaving? || step.FamilyEnds?
    ensures Invariant(Do(s, step, {}))
  {
    DeathKeeps(s, Do(s, step, {}).issuer.dead);
  }

  /** A process without the lock ends. */
  lemma BystanderEndKeeps(s: State, step: Step)
    requires Invariant(s) && CanStep(s, step, {})
    requires step.End? && !(s.holder.Op? && s.holder.p == step.q)
    ensures Invariant(Do(s, step, {}))
  {
  }

  /** The lock holder ends, and its write has not landed. */
  lemma LostEndKeeps(s: State, step: Step)
    requires Invariant(s) && CanStep(s, step, {})
    requires step.End? && s.holder.Op? && s.holder.p == step.q && !step.landed
    ensures Invariant(Do(s, step, {}))
  {
  }

  /** The lock holder ends, and its write has landed. */
  lemma LandedEndKeeps(s: State, step: Step)
    requires Invariant(s) && CanStep(s, step, {})
    requires step.End? && s.holder.Op? && s.holder.p == step.q && step.landed
    ensures Invariant(Do(s, step, {}))
  {
    var gone := s.(leaving := s.leaving - {step.q}, copies := s.copies - {step.q});
    assert Do(s, step, {}) == WithPendingWrite(gone).Release();
  }

  lemma EndKeeps(s: State, step: Step)
    requires Invariant(s) && CanStep(s, step, {})
    requires step.End?
    ensures Invariant(Do(s, step, {}))
  {
    if !(s.holder.Op? && s.holder.p == step.q) {
      BystanderEndKeeps(s, step);
    } else if step.landed {
      LandedEndKeeps(s, step);
    } else {
      LostEndKeeps(s, step);
    }
  }

  lemma StepKeepsInvariant(s: State, step: Step)
    requires Invariant(s) && CanStep(s, step, {})
    ensures Invariant(Do(s, step, {}))
  {
    if
    case step.Acquire? => AcquireKeeps(s, step);
    case step.Recover? => RecoverKeeps(s, step);
    case step.Refile? => RefileKeeps(s, step);
    case step.Clear? => ClearKeeps(s, step);
    case step.Load? => LoadKeeps(s, step);
    case step.Present? => PresentKeeps(s, step);
    case step.Record? || step.Save? => RecordKeeps(s, step);
    case step.Park? || step.Finish? => ParkKeeps(s, step);
    case step.Cancel? || step.LeavePark? => CancelKeeps(s, step);
    case step.StoreSignIn? => StoreSignInKeeps(s, step);
    case step.RevokeParked? => RevokeParkedKeeps(s, step);
    case step.RevokeBefore? => RevokeBeforeKeeps(s, step);
    case step.RevokeStored? => RevokeStoredKeeps(s, step);
    case step.Delete? => DeleteKeeps(s, step);
    case step.StartLeaving? || step.StopLeaving? || step.FamilyEnds? => LeavingKeeps(s, step);
    case step.End? => EndKeeps(s, step);
    case step.RefusePool? || step.SplitCancel? || step.CopyUnsaved? || step.WriteCopy?
      || step.EndLate? || step.LandLate? =>
      assert false;
  }

  lemma {:induction false} RunKeepsInvariant(r: Run, i: nat)
    requires IsRun(r, {}) && i < |r.states|
    ensures Invariant(r.states[i])
  {
    if i == 0 {
    } else {
      RunKeepsInvariant(r, i - 1);
      StepKeepsInvariant(r.states[i - 1], r.steps[i - 1]);
    }
  }

  /** Without faults, no interleaving of any number of processes presents a spent token of a family
      that is still live. */
  lemma NoReuseWithoutFaults()
    ensures NeverReuses({})
  {
    forall r, i | IsRun(r, {}) && 0 <= i < |r.states| ensures !AboutToReuse(r.states[i]) {
      RunKeepsInvariant(r, i);
    }
  }

  /** A rotated session is not lost. From the issuer's answer until the lock is let go it is in the
      hands of the rotation, which has nothing else to do than to record it; then in the unsaved
      record, the store or the parked file. */
  lemma RotatedSessionIsSomewhere(r: Run, i: nat)
    requires IsRun(r, {}) && i < |r.states|
    requires r.states[i].holder.Op? && (r.states[i].holder.phase.Received? || r.states[i].holder.phase.Filing?)
    ensures
      var s := r.states[i];
      var phase := s.holder.phase;
      && Rotates(s.issuer, phase.was, phase.now) && phase.now !in s.issuer.spent
      && (|| phase.Received?
          || phase.kept
          || s.Held(HOME) == Some(phase.now)
          || s.parked == Some(Parked(phase.now, phase.was)))
    ensures r.states[i].holder.phase.Received? && i < |r.steps| ==>
      var s, next := r.states[i], r.states[i + 1];
      next.holder == s.holder || Keeps(next, s.holder.p)
  {
    RunKeepsInvariant(r, i);
  }

  /** Whenever the lock is free, the current token of the family that the store's session belongs
      to is in the store, or in a parked file that names exactly what the store holds. */
  lemma LiveTokenIsHeld(r: Run, i: nat)
    requires IsRun(r, {}) && i < |r.states|
    requires r.states[i].holder.Nobody? && HOME in r.states[i].store
    requires r.states[i].issuer.Live(r.states[i].store[HOME])
    ensures
      var s := r.states[i];
      exists t :: t in s.issuer.root && s.issuer.root[t] == s.issuer.root[s.store[HOME]] && t !in s.issuer.spent
        && (s.store[HOME] == t || s.parked == Some(Parked(t, s.store[HOME])))
  {
    RunKeepsInvariant(r, i);
    var s := r.states[i];
    var t := if Superseded(s) then s.parked.value.session else s.store[HOME];
    assert t in s.issuer.root && s.issuer.root[t] == s.issuer.root[s.store[HOME]];
  }

  /** A step by which a later sign-in or sign-out writes the store: its own, or the write that the
      end of its process leaves behind. */
  predicate EndsSession(s: State, step: Step) {
    || (step.StoreSignIn? && step.reachable && !step.saved.Refused?)
    || (step.Delete? && step.done)
    || (step.End? && step.landed && s.holder.Op? && s.holder.p == step.q
        && (s.holder.phase.SigningIn? || s.holder.phase.Deleting?))
  }

  /** The store holds the session `y` signed in with, or one obtained from it by rotations. */
  predicate HoldsSessionOf(s: State, y: Token) {
    HOME in s.store && s.store[HOME] in s.issuer.root && s.issuer.root[s.store[HOME]] == y
  }

  lemma StepKeepsRoots(s: State, step: Step, t: Token)
    requires CanStep(s, step, {}) && t in s.issuer.root
    ensures var root := Do(s, step, {}).issuer.root; t in root && root[t] == s.issuer.root[t]
  {
    if !step.Acquire? && !step.Present? {
      OtherStepsKeepRoots(s, step);
    }
  }

  lemma OtherStepsKeepRoots(s: State, step: Step)
    requires CanStep(s, step, {}) && !step.Acquire? && !step.Present?
    ensures Do(s, step, {}).issuer.root == s.issuer.root
  {
    match step
    case RevokeParked(_) =>
    case RevokeStored(_, _) =>
    case Clear(_) =>
    case _ =>
  }

  /** A step that may write the store without ending the session. */
  predicate WritesStore(step: Step) {
    step.Refile? || step.Save? || step.End?
  }

  lemma OtherStepsKeepStore(s: State, step: Step)
    requires CanStep(s, step, {}) && !WritesStore(step) && !EndsSession(s, step)
    ensures Do(s, step, {}).store == s.store
  {
    if !step.Acquire? && !step.Recover? && !step.Present? {
      FurtherStepsKeepStore(s, step);
    }
  }

  lemma FurtherStepsKeepStore(s: State, step: Step)
    requires CanStep(s, step, {}) && !WritesStore(step) && !EndsSession(s, step)
    requires !step.Acquire? && !step.Recover? && !step.Present?
    ensures Do(s, step, {}).store == s.store
  {
    match step
    case Clear(_) =>
    case Cancel(_) =>
    case _ =>
  }

  lemma RefileWritesRotation(s: State, step: Step, y: Token)
    requires Invariant(s) && CanStep(s, step, {}) && step.Refile? && HoldsSessionOf(s, y)
    ensures HoldsSessionOf(Do(s, step, {}), y)
  {
  }

  lemma SaveWritesRotation(s: State, step: Step, y: Token)
    requires Invariant(s) && CanStep(s, step, {}) && step.Save? && HoldsSessionOf(s, y)
    ensures HoldsSessionOf(Do(s, step, {}), y)
  {
  }

  lemma EndWritesRotation(s: State, step: Step, y: Token)
    requires Invariant(s) && CanStep(s, step, {}) && step.End? && !EndsSession(s, step) && HoldsSessionOf(s, y)
    ensures HoldsSessionOf(Do(s, step, {}), y)
  {
  }

  /** The steps that write the store without ending the session write a rotation of what it holds. */
  lemma StepKeepsSession(s: State, step: Step, y: Token)
    requires Invariant(s) && CanStep(s, step, {})
    requires HoldsSessionOf(s, y) && !EndsSession(s, step)
    ensures HoldsSessionOf(Do(s, step, {}), y)
  {
    if step.Refile? {
      RefileWritesRotation(s, step, y);
    } else if step.Save? {
      SaveWritesRotation(s, step, y);
    } else if step.End? {
      EndWritesRotation(s, step, y);
    } else {
      StepKeepsRoots(s, step, s.store[HOME]);
      OtherStepsKeepStore(s, step);
    }
  }

  lemma {:induction false} SessionStands(r: Run, i: nat, j: nat, y: Token)
    requires IsRun(r, {}) && i <= j < |r.states|
    requires HoldsSessionOf(r.states[i], y)
    requires forall k :: i <= k < j ==> !EndsSession(r.states[k], r.steps[k])
    ensures HoldsSessionOf(r.states[j], y)
    decreases j - i
  {
    if i == j {
    } else {
      RunKeepsInvariant(r, i);
      StepKeepsSession(r.states[i], r.steps[i], y);
      SessionStands(r, i + 1, j, y);
    }
  }

  /** A sign-in is never undone: once `store_new_session` has saved `y`, then whatever becomes of
      the parked file, the store holds `y` or a rotation of it until the next sign-in or sign-out
      writes the store. */
  lemma SignInStands(r: Run, i: nat, j: nat)
    requires IsRun(r, {}) && i < j < |r.states|
    requires r.steps[i].StoreSignIn? && r.steps[i].reachable && r.steps[i].saved.Landed?
    requires forall k :: i < k < j ==> !EndsSession(r.states[k], r.steps[k])
    ensures HoldsSessionOf(r.states[j], r.states[i].holder.phase.token)
  {
    RunKeepsInvariant(r, i);
    SessionStands(r, i + 1, j, r.states[i].holder.phase.token);
  }
}
