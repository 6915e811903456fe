/** What the rotations of one process are doing, for a process about to leave
    (`InFlight`, `Rotating` and `Leaving` in crates/erpc-auth/src/session.rs). */
module InFlight {
  import opened Wrappers
  import opened RotationProtocol

  /** The rotations of a process that are alive, which of them are recorded as unsaved and which
      are filed and about to be dropped; and the numbers the process keeps of them. */
  datatype Flight = Flight(
    alive: set<nat>, unsaved: map<nat, Parked>, filed: set<nat>,
    rotations: nat, leaving: nat, next: nat)
  {
    /** The issuer has not answered yet. */
    predicate Waits(id: nat) {
      id in alive && id !in unsaved && id !in filed
    }

    ghost predicate Valid() {
      && unsaved.Keys <= alive && filed <= alive
      && unsaved.Keys !! filed
      && (forall id :: id in alive ==> id < next)
      && rotations == |alive|
    }
  }

  datatype Event =
    | Begin
    | Answered(id: nat, session: Parked)
    | Filed(id: nat)
    | Drop(id: nat)
    | StartLeaving
    | DropLeaving

  /** `Rotating` values are owned, so only a rotation that is alive is answered, filed or dropped,
      and only once; a `Leaving` is dropped once. */
  predicate Possible(f: Flight, e: Event) {
    match e
    case Begin => true
    case Answered(id, _) => f.Waits(id)
    case Filed(id) => id in f.unsaved
    case Drop(id) => id in f.alive
    case StartLeaving => true
    case DropLeaving => f.leaving > 0
  }

  function Apply(f: Flight, e: Event): Flight
    requires Possible(f, e)
  {
    match e
    case Begin =>
      if f.leaving > 0 then f.(next := f.next + 1)
      else f.(alive := f.alive + {f.next}, rotations := f.rotations + 1, next := f.next + 1)
    case Answered(id, session) => f.(unsaved := f.unsaved[id := session])
    case Filed(id) => f.(unsaved := f.unsaved - {id}, filed := f.filed + {id})
    case Drop(id) =>
      f.(alive := f.alive - {id}, unsaved := f.unsaved - {id}, filed := f.filed - {id},
         rotations := SaturatingSub(f.rotations, 1))
    case StartLeaving => f.(leaving := f.leaving + 1)
    case DropLeaving => f.(leaving := f.leaving - 1)
  }

  lemma ApplyKeepsValid(f: Flight, e: Event)
    requires f.Valid() && Possible(f, e)
    ensures Apply(f, e).Valid()
  {
  }

  /** When as many rotations are unsaved as are under way, every one of them has a record: parking
      the records parks every session the store lacks. */
  lemma AllRecordedWhenCountsMeet(f: Flight)
    requires f.Valid() && f.rotations == |f.unsaved|
    ensures f.unsaved.Keys == f.alive
  {
    Fewer(f.unsaved.Keys, f.alive);
  }

  ghost predicate Follows(fs: seq<Flight>, es: seq<Event>) {
    && |fs| == |es| + 1
    && forall i :: 0 <= i < |es| ==> Possible(fs[i], es[i]) && fs[i + 1] == Apply(fs[i], es[i])
  }

  lemma {:induction false} RunKeepsValid(fs: seq<Flight>, es: seq<Event>, i: nat)
    requires Follows(fs, es) && fs[0].Valid() && i < |fs|
    ensures fs[i].Valid()
  {
    if i == 0 {
    } else {
      RunKeepsValid(fs, es, i - 1);
      ApplyKeepsValid(fs[i - 1], es[i - 1]);
    }
  }

  /** While the process is leaving no rotation begins: the ones under way then were under way when
      it started, and the count only falls. */
  lemma {:induction false} LeavingDrains(fs: seq<Flight>, es: seq<Event>, i: nat)
    requires Follows(fs, es) && fs[0].Valid() && i < |fs|
    requires forall k :: 0 <= k < i ==> fs[k].leaving > 0
    ensures fs[i].alive <= fs[0].alive && fs[i].rotations <= fs[0].rotations
  {
    if i == 0 {
    } else {
      LeavingDrains(fs, es, i - 1);
      RunKeepsValid(fs, es, i - 1);
    }
  }

  /** `leave`: after `Leaving::start` it waits until the counts meet, and parks later. Whatever the
      rotations do in between, none waits for the issuer then; those not filed are recorded, and
      the records are the ones there when the counts met. */
  lemma {:induction false} ParkCoversEverything(fs: seq<Flight>, es: seq<Event>, i: nat)
    requires Follows(fs, es) && fs[0].Valid() && i < |fs|
    requires forall k :: 0 <= k < i ==> fs[k].leaving > 0
    requires fs[0].rotations == |fs[0].unsaved|
    ensures forall id :: id in fs[i].alive ==> id in fs[i].unsaved || id in fs[i].filed
    ensures forall id :: id in fs[i].unsaved ==> id in fs[0].unsaved && fs[i].unsaved[id] == fs[0].unsaved[id]
  {
    if i == 0 {
      AllRecordedWhenCountsMeet(fs[0]);
    } else {
      ParkCoversEverything(fs, es, i - 1);
    }
  }

  /** The record itself, changed in place as the code changes it. `alive` and `filed` are what the
      rotations know and the record does not keep. */
  class Record {
    var rotations: nat
    var unsaved: map<nat, Parked>
    var leaving: nat
    var next: nat
    ghost var alive: set<nat>
    ghost var filed: set<nat>

    ghost function View(): Flight
      reads this
    {
      Flight(alive, unsaved, filed, rotations, leaving, next)
    }

    constructor ()
      ensures View() == Flight({}, map[], {}, 0, 0, 0) && View().Valid()
    {
      rotations, unsaved, leaving, next := 0, map[], 0, 0;
      alive, filed := {}, {};
    }

    method Begin() returns (id: Option<nat>)
      requires View().Valid()
      modifies this
      ensures View() == Apply(old(View()), Event.Begin) && View().Valid()
      ensures id == if old(leaving) > 0 then None else Some(old(next))
      ensures id.Some? ==> id.value !in old(alive) && View().Waits(id.value)
    {
      var mine := next;
      next := next + 1;
      if leaving > 0 {
        return None;
      }
      rotations := rotations + 1;
      alive := alive + {mine};
      return Some(mine);
    }

    method Answered(id: nat, session: Parked)
      requires View().Valid() && View().Waits(id)
      modifies this
      ensures View() == Apply(old(View()), Event.Answered(id, session)) && View().Valid()
    {
      unsaved := unsaved[id := session];
    }

    method Filed(id: nat)
      requires View().Valid() && id in unsaved
      modifies this
      ensures View() == Apply(old(View()), Event.Filed(id)) && View().Valid()
    {
      unsaved := unsaved - {id};
      filed := filed + {id};
    }

    /** Uncounts a rotation, and says what is left to park if it was not filed. */
    method Drop(id: nat) returns (left: Option<Parked>)
      requires View().Valid() && id in alive
      modifies this
      ensures View() == Apply(old(View()), Event.Drop(id)) && View().Valid()
      ensures left == if id in old(unsaved) then Some(old(unsaved)[id]) else None
    {
      left := if id in unsaved then Some(unsaved[id]) else None;
      unsaved := unsaved - {id};
      rotations := SaturatingSub(rotations, 1);
      alive, filed := alive - {id}, filed - {id};
    }

    method StartLeaving()
      requires View().Valid()
      modifies this
      ensures View() == Apply(old(View()), Event.StartLeaving) && View().Valid()
    {
      leaving := leaving + 1;
    }

    method DropLeaving()
      requires View().Valid() && leaving > 0
      modifies this
      ensures View() == Apply(old(View()), Event.DropLeaving) && View().Valid()
    {
      leaving := leaving - 1;
    }

    /** The records `Leaving::park` writes out, by rotation. */
    method ToPark() returns (records: seq<Parked>)
      requires View().Valid()
      ensures forall id :: id in unsaved ==> unsaved[id] in records
      ensures forall record :: record in records ==> exists id :: id in unsaved && unsaved[id] == record
    {
      records := [];
      for id := 0 to next
        invariant forall k :: 0 <= k < id && k in unsaved ==> unsaved[k] in records
        invariant forall record :: record in records ==> exists k :: k in unsaved && unsaved[k] == record
      {
        if id in unsaved {
          records := records + [unsaved[id]];
        }
      }
    }

    /** What `Leaving::answered` waits for, and what it means once it holds. */
    method AllAnswered() returns (yes: bool)
      requires View().Valid()
      ensures yes == (rotations == |unsaved|)
      ensures yes ==> forall id :: id in alive ==> id in unsaved
    {
      yes := rotations == |unsaved|;
      if yes {
        AllRecordedWhenCountsMeet(View());
      }
    }
  }
}
