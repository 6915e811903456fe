/** Each thing the rotation protocol relies on is needed: with any one fault there is a run that
    presents a spent token of a live family. */
module RotationFaults {
  import opened Wrappers
  import opened RotationProtocol
  import opened RotationSafety

  lemma Start(faults: set<Fault>) returns (r: Run)
    ensures IsRun(r, faults) && r.Last() == INITIAL
  {
    r := Run([INITIAL], []);
  }

  lemma Then(r: Run, step: Step, faults: set<Fault>) returns (r': Run)
    requires IsRun(r, faults) && CanStep(r.Last(), step, faults)
    ensures IsRun(r', faults) && r'.Last() == Do(r.Last(), step, faults)
  {
    r' := Run(r.states + [Do(r.Last(), step, faults)], r.steps + [step]);
  }

  lemma Shown(r: Run, faults: set<Fault>)
    requires IsRun(r, faults) && AboutToReuse(r.Last())
    ensures !NeverReuses(faults)
  {
    assert AboutToReuse(r.states[|r.states| - 1]);
  }

  /** A process signs in to `slot` with `t`, and ends once the store has it. */
  lemma SignsIn(r: Run, slot: Slot, t: Token, faults: set<Fault>) returns (r': Run)
    requires IsRun(r, faults) && r.Last().holder.Nobody? && (slot == HOME || SharedPath in faults)
    requires t !in r.Last().issuer.root && t !in r.Last().issuer.dead
    ensures IsRun(r', faults)
    ensures
      var s := r.Last();
      r'.Last() == s.(issuer := s.issuer.Grant(t), store := s.store[slot := t], leaving := s.leaving - {1},
                      copies := s.copies - {1})
  {
    r' := Then(r, Acquire(1, slot, SignIn(t)), faults);
    r' := Then(r', StoreSignIn(true, Landed), faults);
    r' := Then(r', End(1, true), faults);
  }

  /** Process `p` takes the free lock, and with no parked file to act on is about to refresh what
      the store holds. */
  lemma Refreshes(r: Run, p: Process, slot: Slot, faults: set<Fault>) returns (r': Run)
    requires IsRun(r, faults) && r.Last().holder.Nobody? && (slot == HOME || SharedPath in faults)
    requires slot in r.Last().store && p !in r.Last().leaving
    requires
      var held, parked := r.Last().Held(slot), r.Last().parked;
      parked.Some? ==> (!parked.value.Supersedes(held) && !parked.value.IsHeldIn(held)) || ParkUnreadable in faults
    ensures IsRun(r', faults)
    ensures r'.Last() == r.Last().(holder := Op(p, slot, Sending(r.Last().store[slot])))
  {
    r' := Then(r, Acquire(p, slot, Use), faults);
    r' := Then(r', Recover(ParkUnreadable !in faults, true), faults);
    r' := Then(r', Load(Due), faults);
  }

  /** The issuer answers with `now`, which is recorded. */
  lemma Rotates(r: Run, now: Token, faults: set<Fault>) returns (r': Run)
    requires IsRun(r, faults) && r.Last().holder.Op? && r.Last().holder.phase.Sending?
    requires
      var issuer, held := r.Last().issuer, r.Last().holder.phase.held;
      issuer.Live(held) && held !in issuer.spent && now !in issuer.root && now !in issuer.dead
    ensures IsRun(r', faults)
    ensures
      var s := r.Last();
      var held := s.holder.phase.held;
      r'.Last() == s.(issuer := s.issuer.Rotate(held, now)).Go(Filing(ToSave, held, now, true, false))
  {
    r' := Then(r, Present(Rotated, now), faults);
    r' := Then(r', Record, faults);
  }

  /** The store takes the rotated session. */
  lemma Saves(r: Run, faults: set<Fault>) returns (r': Run)
    requires IsRun(r, faults) && r.Last().holder.Op?
    requires r.Last().holder.phase.Filing? && r.Last().holder.phase.stage.ToSave?
    ensures IsRun(r', faults)
    ensures r'.Last() == r.Last().Put(r.Last().holder.slot, r.Last().holder.phase.now).Release()
  {
    r' := Then(r, Save(Landed), faults);
    r' := Then(r', Finish, faults);
  }

  /** The store refuses the rotated session, which is parked. */
  lemma Parks(r: Run, faults: set<Fault>) returns (r': Run)
    requires IsRun(r, faults) && r.Last().holder.Op?
    requires r.Last().holder.phase.Filing? && r.Last().holder.phase.stage.ToSave?
    ensures IsRun(r', faults)
    ensures
      var s := r.Last();
      r'.Last() == s.(parked := Some(Parked(s.holder.phase.now, s.holder.phase.was)), holder := Nobody)
  {
    r' := Then(r, Save(Refused), faults);
    r' := Then(r', Park(true), faults);
    r' := Then(r', Finish, faults);
  }

  /** Process 1 has signed in with token 1 and is about to refresh it. */
  lemma Refreshing(faults: set<Fault>) returns (r: Run)
    ensures IsRun(r, faults)
    ensures r.Last() == State(
      Issuer(map[1 := 1], {}, {}), map[HOME := 1], None, Op(1, HOME, Sending(1)), {}, map[], {})
  {
    r := Start(faults);
    r := SignsIn(r, HOME, 1, faults);
    r := Refreshes(r, 1, HOME, faults);
  }

  /** Process 1 has rotated token 1 to token 2, which is recorded and not saved. */
  lemma Unsaved(faults: set<Fault>) returns (r: Run)
    ensures IsRun(r, faults)
    ensures r.Last() == State(
      Issuer(map[1 := 1, 2 := 1], {1}, {}), map[HOME := 1], None,
      Op(1, HOME, Filing(ToSave, 1, 2, true, false)), {}, map[], {})
  {
    r := Refreshing(faults);
    r := Rotates(r, 2, faults);
  }

  lemma LostAnswerBreaks()
    ensures !NeverReuses({LostAnswer})
  {
    var f := {LostAnswer};
    var r := Refreshing(f);
    r := Then(r, Present(Lost, 2), f);
    r := Refreshes(r, 2, HOME, f);
    Shown(r, f);
  }

  lemma CutOffBreaks()
    ensures !NeverReuses({CutOff})
  {
    var f := {CutOff};
    var r := Unsaved(f);
    r := Then(r, End(1, false), f);
    r := Refreshes(r, 2, HOME, f);
    Shown(r, f);
  }

  lemma SplitDropBreaks()
    ensures !NeverReuses({SplitDrop})
  {
    var f := {SplitDrop};
    var r := Unsaved(f);
    r := Then(r, SplitCancel, f);
    r := Then(r, End(1, false), f);
    r := Refreshes(r, 2, HOME, f);
    Shown(r, f);
  }

  lemma PoolRefusedBreaks()
    ensures !NeverReuses({PoolRefused})
  {
    var f := {PoolRefused};
    var r := Unsaved(f);
    r := Then(r, RefusePool, f);
    r := Refreshes(r, 2, HOME, f);
    Shown(r, f);
  }

  lemma ParkRefusedBreaks()
    ensures !NeverReuses({ParkRefused})
  {
    var f := {ParkRefused};
    var r := Unsaved(f);
    r := Then(r, Save(Refused), f);
    r := Then(r, Park(false), f);
    r := Then(r, Finish, f);
    r := Refreshes(r, 2, HOME, f);
    Shown(r, f);
  }

  lemma ParkUnreadableBreaks()
    ensures !NeverReuses({ParkUnreadable})
  {
    var f := {ParkUnreadable};
    var r := Unsaved(f);
    r := Parks(r, f);
    r := Refreshes(r, 2, HOME, f);
    Shown(r, f);
  }

  lemma HalfSignOutBreaks()
    ensures !NeverReuses({HalfSignOut})
  {
    var f := {HalfSignOut};
    var r := Unsaved(f);
    r := Parks(r, f);
    r := Then(r, Acquire(1, HOME, SignOut), f);
    r := Then(r, RevokeStored(true, false), f);
    r := Then(r, RevokeParked(false), f);
    r := Then(r, Clear(true), f);
    r := Then(r, Delete(false), f);
    r := Refreshes(r, 2, HOME, f);
    Shown(r, f);
  }

  /** `Leaving::park` of process 1 copies the record; the save lands and the lock goes to process 2,
      which rotates to token 3 and parks it; then the old copy is written over that. */
  lemma SplitParkBreaks()
    ensures !NeverReuses({SplitPark})
  {
    var f := {SplitPark};
    var r := SavedWithACopy(f);
    r := Refreshes(r, 2, HOME, f);
    r := Rotates(r, 3, f);
    r := Parks(r, f);
    assert r.Last() == State(
      Issuer(map[1 := 1, 2 := 1, 3 := 1], {1, 2}, {}), map[HOME := 2], Some(Parked(3, 2)), Nobody,
      {1}, map[1 := Parked(2, 1)], {});
    r := Then(r, WriteCopy(1), f);
    OverwrittenCopyBreaks(r);
  }

  lemma SavedWithACopy(f: set<Fault>) returns (r: Run)
    requires f == {SplitPark}
    ensures IsRun(r, f)
    ensures r.Last() == State(
      Issuer(map[1 := 1, 2 := 1], {1}, {}), map[HOME := 2], None, Nobody, {1}, map[1 := Parked(2, 1)], {})
  {
    r := Unsaved(f);
    r := Then(r, StartLeaving(1), f);
    r := Then(r, CopyUnsaved(1), f);
    r := Saves(r, f);
  }

  lemma OverwrittenCopyBreaks(r: Run)
    requires IsRun(r, {SplitPark})
    requires r.Last() == State(
      Issuer(map[1 := 1, 2 := 1, 3 := 1], {1, 2}, {}), map[HOME := 2], Some(Parked(2, 1)), Nobody, {1}, map[], {})
    ensures !NeverReuses({SplitPark})
  {
    var f := {SplitPark};
    var r := Then(r, Acquire(2, HOME, Use), f);
    r := Then(r, Recover(true, true), f);
    r := Then(r, Clear(true), f);
    r := Then(r, Load(Due), f);
    Shown(r, f);
  }

  /** Process 1 parks token 2 and ends while its store write is still on its way. */
  lemma WriteOnItsWay() returns (r: Run)
    ensures IsRun(r, {LateWrite})
    ensures r.Last() == State(
      Issuer(map[1 := 1, 2 := 1], {1}, {}), map[HOME := 1], Some(Parked(2, 1)), Nobody, {}, map[], {(HOME, 2)})
  {
    var f := {LateWrite};
    r := Unsaved(f);
    r := Then(r, StartLeaving(1), f);
    r := Then(r, LeavePark(1), f);
    r := Then(r, EndLate(1), f);
  }

  /** Process 2 then files the parked session, and is about to refresh it. */
  lemma FiledMeanwhile() returns (r: Run)
    ensures IsRun(r, {LateWrite})
    ensures r.Last() == State(
      Issuer(map[1 := 1, 2 := 1], {1}, {}), map[HOME := 2], None, Op(2, HOME, Sending(2)), {}, map[], {(HOME, 2)})
  {
    var f := {LateWrite};
    r := WriteOnItsWay();
    r := Then(r, Acquire(2, HOME, Use), f);
    r := Then(r, Recover(true, true), f);
    r := Then(r, Refile(Landed), f);
    r := Then(r, Clear(true), f);
    r := Then(r, Load(Due), f);
  }

  /** It rotates the session to token 3, and the old write lands. */
  lemma LateWriteBreaks()
    ensures !NeverReuses({LateWrite})
  {
    var f := {LateWrite};
    var r := FiledMeanwhile();
    r := Rotates(r, 3, f);
    r := Saves(r, f);
    r := Then(r, LandLate(HOME, 2), f);
    r := Refreshes(r, 2, HOME, f);
    Shown(r, f);
  }

  /** Two accounts share the parked path, and a park for the second overwrites the only copy of the
      first one's session. */
  lemma SharedPathBreaks()
    ensures !NeverReuses({SharedPath})
  {
    var f := {SharedPath};
    var r := Unsaved(f);
    r := Parks(r, f);
    r := SignsIn(r, 1, 10, f);
    r := Refreshes(r, 2, 1, f);
    r := Rotates(r, 11, f);
    r := Parks(r, f);
    r := Refreshes(r, 2, HOME, f);
    Shown(r, f);
  }

  lemma MoreFaultsMoreRuns(few: set<Fault>, many: set<Fault>)
    requires few <= many && NeverReuses(many)
    ensures NeverReuses(few)
  {
    forall r, i | IsRun(r, few) && 0 <= i < |r.states| ensures !AboutToReuse(r.states[i]) {
      assert IsRun(r, many);
    }
  }

  /** The protocol keeps the issuer from seeing a spent token of a live family exactly when none of
      the faults can happen. */
  lemma NoReuseExactlyWithoutFaults(faults: set<Fault>)
    ensures NeverReuses(faults) <==> faults == {}
  {
    NoReuseWithoutFaults();
    if fault :| fault in faults {
      if NeverReuses(faults) {
        MoreFaultsMoreRuns({fault}, faults);
        match fault
        case LostAnswer => LostAnswerBreaks();
        case CutOff => CutOffBreaks();
        case SplitDrop => SplitDropBreaks();
        case SplitPark => SplitParkBreaks();
        case LateWrite => LateWriteBreaks();
        case PoolRefused => PoolRefusedBreaks();
        case ParkRefused => ParkRefusedBreaks();
        case ParkUnreadable => ParkUnreadableBreaks();
        case HalfSignOut => HalfSignOutBreaks();
        case SharedPath => SharedPathBreaks();
      }
    }
  }
}
