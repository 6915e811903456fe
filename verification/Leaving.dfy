/** A process that leaves (`leave` in crates/erpc/src/interrupt.rs): what its record of rotations knows
    of the run it takes part in, and why it may end once it has waited and parked. */
module Leaving {
  import opened Wrappers
  import opened RotationProtocol
  import InFlight

  /** The shared state, the record of one process, and the rotation that process runs under the lock. */
  datatype Joint = Joint(state: State, flight: InFlight.Flight, mine: Option<nat>)

  const NOTHING_YET := Joint(INITIAL, InFlight.Flight({}, map[], {}, 0, 0, 0), None)

  predicate HoldsLock(s: State, q: Process) {
    s.holder.Op? && s.holder.p == q
  }

  /** `q` has sent a refresh, or has the answer and no record of it. */
  predicate Waiting(s: State, q: Process) {
    HoldsLock(s, q) && (s.holder.phase.Sending? || s.holder.phase.Received?)
  }

  predicate Deletes(s: State, q: Process) {
    HoldsLock(s, q) && s.holder.phase.Deleting? && s.holder.phase.unparked
  }

  /** The rotation that `q` runs is in its record as far as it has come, and `q` is leaving exactly
      when the record says so. */
  ghost predicate Knows(j: Joint, q: Process) {
    && j.flight.Valid()
    && (q in j.state.leaving <==> j.flight.leaving > 0)
    && (Waiting(j.state, q) ==> j.mine.Some? && j.flight.Waits(j.mine.value))
    && (Keeps(j.state, q) ==>
          && j.mine.Some? && j.mine.value in j.flight.unsaved
          && j.flight.unsaved[j.mine.value] == Parked(j.state.holder.phase.now, j.state.holder.phase.was))
  }

  // What happens: a step of the protocol, with what the process notes of it, or a note alone.

  datatype Move = Shared(step: Step) | Note(event: InFlight.Event)

  /** What `q` notes at a step of its own. */
  function NoteOf(j: Joint, step: Step, q: Process): Option<InFlight.Event>
    requires CanStep(j.state, step, {})
  {
    var s := j.state;
    match step
    case Load(_) => if HoldsLock(s, q) && Do(s, step, {}).holder.Op? then Some(InFlight.Begin) else None
    case Record =>
      if HoldsLock(s, q) && j.mine.Some?
      then Some(InFlight.Answered(j.mine.value, Parked(s.holder.phase.now, s.holder.phase.was))) else None
    case Cancel(_) => if HoldsLock(s, q) && j.mine.Some? then Some(InFlight.Drop(j.mine.value)) else None
    case StartLeaving(p) => if p == q then Some(InFlight.StartLeaving) else None
    case StopLeaving(p) => if p == q then Some(InFlight.DropLeaving) else None
    case _ => None
  }

  /** The process is there until it ends. A rotation that is not the one under the lock is noted as
      filed, or dropped, at any time; and a hold on leaving that is not the last one is dropped. */
  predicate CanMove(j: Joint, m: Move, q: Process) {
    match m
    case Shared(step) =>
      && CanStep(j.state, step, {})
      && !(step.End? && step.q == q)
      && (step == StopLeaving(q) ==> j.flight.leaving == 1)
    case Note(event) =>
      && InFlight.Possible(j.flight, event)
      && match event
         case Filed(id) => Waiting(j.state, q) || Keeps(j.state, q) ==> j.mine != Some(id)
         case Drop(id) => Waiting(j.state, q) || Keeps(j.state, q) ==> j.mine != Some(id)
         case DropLeaving => j.flight.leaving > 1
         case _ => false
  }

  lemma NoteIsPossible(j: Joint, step: Step, q: Process)
    requires Knows(j, q) && CanMove(j, Shared(step), q)
    ensures var note := NoteOf(j, step, q); note.Some? ==> InFlight.Possible(j.flight, note.value)
  {
  }

  function Noted(f: InFlight.Flight, note: Option<InFlight.Event>): InFlight.Flight {
    if note.Some? && InFlight.Possible(f, note.value) then InFlight.Apply(f, note.value) else f
  }

  function Moved(j: Joint, m: Move, q: Process): Joint
    requires CanMove(j, m, q)
  {
    match m
    case Note(event) => j.(flight := InFlight.Apply(j.flight, event))
    case Shared(step) =>
      var note := NoteOf(j, step, q);
      Joint(Do(j.state, step, {}), Noted(j.flight, note),
            if note == Some(InFlight.Begin) then Some(j.flight.next) else j.mine)
  }

  ghost predicate IsJointRun(js: seq<Joint>, ms: seq<Move>, q: Process) {
    && |js| == |ms| + 1
    && js[0] == NOTHING_YET
    && forall k :: 0 <= k < |ms| ==> CanMove(js[k], ms[k], q) && js[k + 1] == Moved(js[k], ms[k], q)
  }

  // The record keeps knowing, whatever happens.

  lemma NoteKeepsKnows(j: Joint, event: InFlight.Event, q: Process)
    requires Knows(j, q) && CanMove(j, Note(event), q)
    ensures Knows(Moved(j, Note(event), q), q)
  {
  }

  lemma LoadKeepsKnows(j: Joint, loaded: Loaded, q: Process)
    requires Knows(j, q) && CanMove(j, Shared(Load(loaded)), q)
    ensures Knows(Moved(j, Shared(Load(loaded)), q), q)
  {
  }

  lemma RecordKeepsKnows(j: Joint, q: Process)
    requires Knows(j, q) && CanMove(j, Shared(Record), q)
    ensures Knows(Moved(j, Shared(Record), q), q)
  {
  }

  lemma CancelKeepsKnows(j: Joint, started: bool, q: Process)
    requires Knows(j, q) && CanMove(j, Shared(Cancel(started)), q)
    ensures Knows(Moved(j, Shared(Cancel(started)), q), q)
  {
  }

  lemma StartKeepsKnows(j: Joint, p: Process, q: Process)
    requires Knows(j, q) && CanMove(j, Shared(StartLeaving(p)), q)
    ensures Knows(Moved(j, Shared(StartLeaving(p)), q), q)
  {
  }

  lemma StopKeepsKnows(j: Joint, p: Process, q: Process)
    requires Knows(j, q) && CanMove(j, Shared(StopLeaving(p)), q)
    ensures Knows(Moved(j, Shared(StopLeaving(p)), q), q)
  {
  }

  predicate Noteless(step: Step) {
    !step.Load? && !step.Record? && !step.Cancel? && !step.StartLeaving? && !step.StopLeaving?
  }

  lemma NotelessIsUnnoted(j: Joint, step: Step, q: Process)
    requires CanMove(j, Shared(step), q) && Noteless(step)
    ensures Moved(j, Shared(step), q) == j.(state := Do(j.state, step, {}))
  {
  }

  /** Other steps make no process wait or keep that did not before. */
  lemma NotelessStays(s: State, step: Step, q: Process)
    requires CanStep(s, step, {}) && Noteless(step) && !(step.End? && step.q == q)
    ensures var s' := Do(s, step, {});
            && (q in s'.leaving <==> q in s.leaving)
            && (Waiting(s', q) ==> Waiting(s, q))
            && (Keeps(s', q) ==>
                  && Keeps(s, q)
                  && s'.holder.phase.now == s.holder.phase.now && s'.holder.phase.was == s.holder.phase.was)
  {
  }

  lemma MoveKeepsKnows(j: Joint, m: Move, q: Process)
    requires Knows(j, q) && CanMove(j, m, q)
    ensures Knows(Moved(j, m, q), q)
  {
    match m
    case Note(event) => NoteKeepsKnows(j, event, q);
    case Shared(step) =>
      if Noteless(step) {
        NotelessKeepsKnows(j, step, q);
      } else {
        NotedKeepsKnows(j, step, q);
      }
  }

  lemma NotelessKeepsKnows(j: Joint, step: Step, q: Process)
    requires Knows(j, q) && CanMove(j, Shared(step), q) && Noteless(step)
    ensures Knows(Moved(j, Shared(step), q), q)
  {
    NotelessIsUnnoted(j, step, q);
    NotelessStays(j.state, step, q);
  }

  lemma NotedKeepsKnows(j: Joint, step: Step, q: Process)
    requires Knows(j, q) && CanMove(j, Shared(step), q) && !Noteless(step)
    ensures Knows(Moved(j, Shared(step), q), q)
  {
    if step.StartLeaving? {
      StartKeepsKnows(j, step.q, q);
    } else if step.StopLeaving? {
      StopKeepsKnows(j, step.q, q);
    } else {
      match step
      case Load(loaded) => LoadKeepsKnows(j, loaded, q);
      case Record => RecordKeepsKnows(j, q);
      case Cancel(started) => CancelKeepsKnows(j, started, q);
    }
  }

  lemma {:induction false} AlwaysKnows(js: seq<Joint>, ms: seq<Move>, q: Process, k: nat)
    requires IsJointRun(js, ms, q) && k < |js|
    ensures Knows(js[k], q)
  {
    if k == 0 {
    } else {
      AlwaysKnows(js, ms, q, k - 1);
      MoveKeepsKnows(js[k - 1], ms[k - 1], q);
    }
  }

  // Leaving.

  /** No answer is still to come, and no session that is recorded only here. */
  predicate Out(s: State, q: Process) {
    !Waiting(s, q) && (Keeps(s, q) ==> s.holder.phase.out)
  }

  /** A process that waits for no answer, and has parked what it keeps, may end, unless it is in a
      sign-out that has removed the parked file. */
  lemma OutMayEnd(s: State, q: Process)
    requires Out(s, q)
    ensures MayEnd(s, q, {}) <==> !Deletes(s, q)
  {
  }

  lemma StepKeepsNotWaiting(s: State, step: Step, q: Process)
    requires CanStep(s, step, {}) && q in s.leaving && !Waiting(s, q)
    ensures !Waiting(Do(s, step, {}), q)
  {
  }

  lemma StepKeepsOut(s: State, step: Step, q: Process)
    requires CanStep(s, step, {}) && q in s.leaving && Out(s, q)
    ensures Out(Do(s, step, {}), q)
  {
  }

  lemma MoveKeepsOut(j: Joint, m: Move, q: Process)
    requires CanMove(j, m, q) && q in j.state.leaving && !Waiting(j.state, q)
    ensures !Waiting(Moved(j, m, q).state, q)
    ensures Out(j.state, q) ==> Out(Moved(j, m, q).state, q)
  {
    if m.Shared? {
      StepKeepsNotWaiting(j.state, m.step, q);
      if Out(j.state, q) {
        StepKeepsOut(j.state, m.step, q);
      }
    }
  }

  ghost predicate LeavingFrom(js: seq<Joint>, q: Process, a: nat, b: nat) {
    forall k :: a <= k <= b && k < |js| ==> q in js[k].state.leaving
  }

  lemma {:induction false} NeverWaitsAgain(js: seq<Joint>, ms: seq<Move>, q: Process, a: nat, b: nat)
    requires IsJointRun(js, ms, q) && a <= b < |js| && LeavingFrom(js, q, a, b) && !Waiting(js[a].state, q)
    ensures !Waiting(js[b].state, q)
  {
    if a == b {
    } else {
      NeverWaitsAgain(js, ms, q, a, b - 1);
      MoveKeepsOut(js[b - 1], ms[b - 1], q);
    }
  }

  lemma {:induction false} StaysOut(js: seq<Joint>, ms: seq<Move>, q: Process, a: nat, b: nat)
    requires IsJointRun(js, ms, q) && a <= b < |js| && LeavingFrom(js, q, a, b) && Out(js[a].state, q)
    ensures Out(js[b].state, q)
  {
    if a == b {
    } else {
      StaysOut(js, ms, q, a, b - 1);
      MoveKeepsOut(js[b - 1], ms[b - 1], q);
    }
  }

  /** Once as many sessions are recorded as rotations are counted, `q` waits for no answer. */
  lemma CountsMeetMeansAnswered(j: Joint, q: Process)
    requires Knows(j, q) && j.flight.rotations == |j.flight.unsaved|
    ensures !Waiting(j.state, q)
  {
    InFlight.AllRecordedWhenCountsMeet(j.flight);
  }

  /** `answered`, then `park`: while it is leaving, the counts met at `a`, and at `b` what it still
      kept was parked. From then on it may end without a fault, exactly when it is not in a sign-out
      that has removed the parked file: for those `leave` does not wait. */
  lemma ParkedMayEnd(js: seq<Joint>, ms: seq<Move>, q: Process, a: nat, b: nat, c: nat)
    requires IsJointRun(js, ms, q) && a <= b < c < |js| && LeavingFrom(js, q, a, c)
    requires js[a].flight.rotations == |js[a].flight.unsaved|
    requires Keeps(js[b].state, q) ==> ms[b] == Shared(LeavePark(q))
    ensures MayEnd(js[c].state, q, {}) <==> !Deletes(js[c].state, q)
  {
    AlwaysKnows(js, ms, q, a);
    CountsMeetMeansAnswered(js[a], q);
    NeverWaitsAgain(js, ms, q, a, b);
    MoveKeepsOut(js[b], ms[b], q);
    StaysOut(js, ms, q, b + 1, c);
    OutMayEnd(js[c].state, q);
  }

  /** `settled`: no rotation is counted any more. */
  lemma SettledMayEnd(js: seq<Joint>, ms: seq<Move>, q: Process, a: nat, c: nat)
    requires IsJointRun(js, ms, q) && a <= c < |js| && LeavingFrom(js, q, a, c)
    requires js[a].flight.rotations == 0
    ensures MayEnd(js[c].state, q, {}) <==> !Deletes(js[c].state, q)
  {
    AlwaysKnows(js, ms, q, a);
    StaysOut(js, ms, q, a, c);
    OutMayEnd(js[c].state, q);
  }

  /** The states and the shared steps alone are a run of the protocol without faults: what is proved
      of those holds while a process leaves. */
  function Shares(ms: seq<Move>): seq<Step> {
    if ms == [] then []
    else Shares(ms[..|ms| - 1]) + if ms[|ms| - 1].Shared? then [ms[|ms| - 1].step] else []
  }

  lemma {:induction false} SharesAreARun(js: seq<Joint>, ms: seq<Move>, q: Process) returns (r: Run)
    requires IsJointRun(js, ms, q)
    ensures IsRun(r, {}) && r.steps == Shares(ms) && r.Last() == js[|js| - 1].state
    decreases |ms|
  {
    if ms == [] {
      r := Run([INITIAL], []);
    } else {
      var n := |ms| - 1;
      r := SharesAreARun(js[..n + 1], ms[..n], q);
      if ms[n].Shared? {
        r := Run(r.states + [js[n + 1].state], r.steps + [ms[n].step]);
      }
    }
  }
}
