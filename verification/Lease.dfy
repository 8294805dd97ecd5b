/** The control lease of a run: one durable record that names its owner until a time, taken
    over after expiry or after the confirmed death of the owner's process. */
module Lease {
  import opened Workflow

  type Owner = nat
  type Process = nat

  datatype Record = Record(owner: Owner, process: Process, created: int, heartbeat: int, expires: int)

  /** What is found out about a process; only a process that has ended is found dead. */
  datatype Verdict = Alive | Dead | Unknown

  // ----- the guarded sections -----

  /** Whether the record in place gives way to an acquirer that sampled the clock earlier. */
  predicate GivesWay(file: Option<Record>, sampled: int, recovery: bool, verdict: Verdict)
  {
    file.None? || file.value.expires <= sampled || (recovery && verdict == Dead)
  }

  function Fresh(owner: Owner, process: Process, sampled: int, ttl: int): Record
  {
    Record(owner, process, sampled, sampled, sampled + ttl)
  }

  predicate BoundTo(file: Option<Record>, owner: Owner) { file.Some? && file.value.owner == owner }

  predicate OwnedBy(file: Option<Record>, owner: Owner, now: int) { BoundTo(file, owner) && file.value.expires > now }

  function Beaten(mine: Record, now: int, ttl: int): Record { mine.(heartbeat := now, expires := now + ttl) }

  /** The lease file, and the handles on it. */
  class LeaseFile {
    var current: Option<Record>

    constructor ()
      ensures current == None
    {
      current := None;
    }

    /** Takes the lease, or names the conflict; a crash may fall between removing the old
        record and creating the new one. */
    method Acquire(record: Record, recovery: bool, verdict: Verdict, crash: bool) returns (lease: Option<Handle>)
      modifies this
      ensures lease.Some? <==> GivesWay(old(current), record.created, recovery, verdict) && !crash
      ensures current == if !GivesWay(old(current), record.created, recovery, verdict) then old(current) else if crash then None else Some(record)
      ensures lease.Some? ==> fresh(lease.value) && lease.value.record == record && lease.value.file == this
    {
      if current.Some? {
        if current.value.expires > record.created {
          if !recovery { return None; }
          if verdict != Dead { return None; }
        }
        current := None;
      }
      if crash { return None; }
      current := Some(record);
      var handle := new Handle(this, record);
      return Some(handle);
    }
  }

  class Handle {
    const file: LeaseFile
    var record: Record

    constructor (file: LeaseFile, record: Record)
      ensures this.file == file && this.record == record
    {
      this.file := file;
      this.record := record;
    }

    method Owns(now: int) returns (b: bool)
      ensures b == OwnedBy(file.current, record.owner, now)
    {
      if file.current.None? { return false; }
      return file.current.value.owner == record.owner && file.current.value.expires > now;
    }

    /** Also the first, unguarded read of a heartbeat. */
    method Bound() returns (b: bool)
      ensures b == BoundTo(file.current, record.owner)
    {
      if file.current.None? { return false; }
      return file.current.value.owner == record.owner;
    }

    /** The guarded part of a heartbeat, which reads the record again. */
    method HeartbeatGuarded(now: int, ttl: int) returns (ok: bool)
      modifies this, file
      ensures ok == BoundTo(old(file.current), record.owner) && record.owner == old(record.owner)
      ensures record == if ok then Beaten(old(record), now, ttl) else old(record)
      ensures file.current == if ok then Some(record) else old(file.current)
    {
      if file.current.None? { return false; }
      if file.current.value.owner != record.owner { return false; }
      var updated := record.(heartbeat := now);
      updated := updated.(expires := now + ttl);
      file.current := Some(updated);
      record := updated;
      return true;
    }

    method Release() returns (ok: bool)
      modifies file
      ensures ok == (old(file.current).None? || BoundTo(old(file.current), record.owner))
      ensures file.current == if ok then None else old(file.current)
    {
      if file.current.None? { return true; }
      if file.current.value.owner != record.owner { return false; }
      file.current := None;
      return true;
    }
  }

  // ----- processes racing for the lease -----

  /** An acquirer that has sampled the clock, but has not entered the guard. */
  datatype Acquirer = Acquirer(process: Process, sampled: int, recovery: bool)

  datatype World = World(now: int, file: Option<Record>, ended: set<Process>, acquirers: map<Owner, Acquirer>,
    handles: map<Owner, Record>, beating: set<Owner>, known: set<Owner>)

  datatype Step =
    | Tick(elapsed: nat)
    | End(process: Process)
    | BeginAcquire(owner: Owner, process: Process, recovery: bool)
    | FinishAcquire(owner: Owner, verdict: Verdict, crash: bool)
    | BeginHeartbeat(owner: Owner)
    | FinishHeartbeat(owner: Owner)
    | Release(owner: Owner)

  /** The owner whose process takes the step, if it is one of the lease's. */
  function Actor(s: Step): Option<Owner>
  {
    match s
    case FinishAcquire(owner, _, _) => Some(owner)
    case BeginHeartbeat(owner) => Some(owner)
    case FinishHeartbeat(owner) => Some(owner)
    case Release(owner) => Some(owner)
    case _ => None
  }

  /** New owner identities are never used before, ended processes take no step, and only
      they are found dead. */
  predicate Enabled(w: World, s: Step)
  {
    match s
    case Tick(_) => true
    case End(_) => true
    case BeginAcquire(owner, process, _) => owner !in w.known && process !in w.ended
    case FinishAcquire(owner, verdict, _) =>
      owner in w.acquirers && w.acquirers[owner].process !in w.ended
      && (verdict == Dead && w.file.Some? ==> w.file.value.process in w.ended)
    case BeginHeartbeat(owner) => owner in w.handles && w.handles[owner].process !in w.ended
    case FinishHeartbeat(owner) => owner in w.beating && owner in w.handles && w.handles[owner].process !in w.ended
    case Release(owner) => owner in w.handles && w.handles[owner].process !in w.ended
  }

  /** One step of the race; a step that is not enabled does nothing. */
  function Next(w: World, s: Step, ttl: int): World
  {
    if !Enabled(w, s) then w
    else match s
      case Tick(elapsed) => w.(now := w.now + elapsed)
      case End(process) => w.(ended := w.ended + {process})
      case BeginAcquire(owner, process, recovery) =>
        w.(acquirers := w.acquirers[owner := Acquirer(process, w.now, recovery)], known := w.known + {owner})
      case FinishAcquire(owner, verdict, crash) =>
        var a := w.acquirers[owner];
        var left := w.(acquirers := w.acquirers - {owner});
        var record := Fresh(owner, a.process, a.sampled, ttl);
        if !GivesWay(w.file, a.sampled, a.recovery, verdict) then left
        else if crash then left.(file := None)
        else left.(file := Some(record), handles := w.handles[owner := record])
      case BeginHeartbeat(owner) => if BoundTo(w.file, owner) then w.(beating := w.beating + {owner}) else w
      case FinishHeartbeat(owner) =>
        var left := w.(beating := w.beating - {owner});
        if !BoundTo(w.file, owner) then left
        else
          var record := Beaten(w.handles[owner], w.now, ttl);
          left.(file := Some(record), handles := w.handles[owner := record])
      case Release(owner) => if BoundTo(w.file, owner) then w.(file := None) else w
  }

  function Run(w: World, steps: seq<Step>, ttl: int): World
  {
    if steps == [] then w else Next(Run(w, steps[..|steps| - 1], ttl), steps[|steps| - 1], ttl)
  }

  function Start(now: int): World { World(now, None, {}, map[], map[], {}, {}) }

  // ----- what holds in every reachable state -----

  ghost predicate Sound(w: World, ttl: int)
  {
    && (forall o :: o in w.acquirers ==> o in w.known && o !in w.handles && w.acquirers[o].sampled <= w.now)
    && (forall o :: o in w.handles ==> o in w.known && w.handles[o].owner == o && w.handles[o].expires <= w.now + ttl)
    && (forall o :: o in w.beating ==> o in w.handles)
    && (w.file.Some? ==> w.file.value.owner in w.handles && w.file.value == w.handles[w.file.value.owner])
  }

  lemma StepIsSound(w: World, s: Step, ttl: int)
    requires Sound(w, ttl)
    ensures Sound(Next(w, s, ttl), ttl)
  {
    var t := Next(w, s, ttl);
    if Enabled(w, s) {
      match s
      case FinishAcquire(owner, verdict, crash) =>
        forall o | o in t.acquirers ensures o in t.known && o !in t.handles { assert o in w.acquirers && o != owner; }
      case _ =>
    }
  }

  lemma {:induction false} RunIsSound(w: World, steps: seq<Step>, ttl: int)
    requires Sound(w, ttl)
    ensures Sound(Run(w, steps, ttl), ttl)
  {
    if steps != [] {
      RunIsSound(w, steps[..|steps| - 1], ttl);
      hide Next, Sound;
      StepIsSound(Run(w, steps[..|steps| - 1], ttl), steps[|steps| - 1], ttl);
    }
  }

  // ----- safety -----

  /** In any race, the record of an owner goes away only by that owner's own release, after
      it has really expired, or, on the recovery path, after its process has ended. */
  lemma OwnerChangesOnlyWhen(start: int, steps: seq<Step>, s: Step, ttl: int)
    ensures
      var w := Run(Start(start), steps, ttl);
      var t := Next(w, s, ttl);
      w.file.Some? && !BoundTo(t.file, w.file.value.owner) ==>
        || s == Release(w.file.value.owner)
        || (s.FinishAcquire? && w.file.value.expires <= w.now)
        || (s.FinishAcquire? && s.owner in w.acquirers && w.acquirers[s.owner].recovery && w.file.value.process in w.ended)
  {
    RunIsSound(Start(start), steps, ttl);
  }

  /** A clock sampled before the guard only makes a takeover more conservative. */
  lemma StaleClockIsConservative(file: Option<Record>, early: int, late: int, recovery: bool, verdict: Verdict)
    requires early <= late
    ensures GivesWay(file, early, recovery, verdict) ==> GivesWay(file, late, recovery, verdict)
    ensures !GivesWay(file, early, recovery, verdict) && GivesWay(file, late, recovery, verdict) ==>
      file.Some? && early < file.value.expires <= late
  {
  }

  /** An owner that had the lease and is no longer named by the record. */
  predicate Displaced(w: World, owner: Owner) { owner in w.handles && !BoundTo(w.file, owner) }

  /** A displaced owner never gets the record back, and none of its steps touches the
      record that took its place, whatever its first read had seen. */
  lemma {:induction false} DisplacedIsPowerless(w: World, owner: Owner, steps: seq<Step>, s: Step, ttl: int)
    requires Sound(w, ttl) && Displaced(w, owner)
    ensures
      var v := Run(w, steps, ttl);
      Displaced(v, owner) && Displaced(Next(v, s, ttl), owner) && (Actor(s) == Some(owner) ==> Next(v, s, ttl).file == v.file)
  {
    RunIsSound(w, steps, ttl);
    if steps != [] { DisplacedIsPowerless(w, owner, steps[..|steps| - 1], steps[|steps| - 1], ttl); }
  }

  /** At most one handle owns the lease at a time; an owner is bound, and stays bound after
      its lease has expired until another one takes it. */
  lemma OneOwner(start: int, steps: seq<Step>, ttl: int, a: Owner, b: Owner)
    ensures
      var w := Run(Start(start), steps, ttl);
      && (OwnedBy(w.file, a, w.now) && OwnedBy(w.file, b, w.now) ==> a == b)
      && (OwnedBy(w.file, a, w.now) ==> a in w.handles && w.handles[a] == w.file.value && w.handles[a].owner == a)
  {
    RunIsSound(Start(start), steps, ttl);
  }

  /** A heartbeat never shortens a lease. */
  lemma HeartbeatExtends(start: int, steps: seq<Step>, ttl: int, owner: Owner)
    ensures
      var w := Run(Start(start), steps, ttl);
      var t := Next(w, FinishHeartbeat(owner), ttl);
      BoundTo(w.file, owner) ==> BoundTo(t.file, owner) && w.file.value.expires <= t.file.value.expires <= t.now + ttl
  {
    RunIsSound(Start(start), steps, ttl);
  }

  /** The owner's process lives, its record has not expired, and it does not release it. */
  ghost predicate Maintained(w: World, owner: Owner, s: Step)
  {
    s != Release(owner) && (BoundTo(w.file, owner) ==> w.file.value.expires > w.now && w.file.value.process !in w.ended)
  }

  ghost predicate KeptUp(w: World, owner: Owner, steps: seq<Step>, ttl: int)
  {
    if steps == [] then true
    else
      var n := |steps| - 1;
      KeptUp(w, owner, steps[..n], ttl) && Maintained(Run(w, steps[..n], ttl), owner, steps[n])
  }

  /** No competitor, recovering or not, and however its steps interleave, takes a lease that
      is kept up. */
  lemma {:induction false} KeptLeaseIsKept(w: World, owner: Owner, steps: seq<Step>, ttl: int)
    requires Sound(w, ttl) && BoundTo(w.file, owner) && KeptUp(w, owner, steps, ttl)
    ensures BoundTo(Run(w, steps, ttl).file, owner)
  {
    hide Sound, Next, Maintained;
    if steps != [] {
      var n := |steps| - 1;
      KeptLeaseIsKept(w, owner, steps[..n], ttl);
      RunIsSound(w, steps[..n], ttl);
      OneStepKeeps(Run(w, steps[..n], ttl), owner, steps[n], ttl);
    }
  }

  lemma OneStepKeeps(w: World, owner: Owner, s: Step, ttl: int)
    requires Sound(w, ttl) && BoundTo(w.file, owner) && Maintained(w, owner, s)
    ensures BoundTo(Next(w, s, ttl).file, owner)
  {
  }

  /** An expired lease, or one whose process has ended, can be taken: the next acquirer
      that samples the clock then gets it. */
  lemma ExpiredLeaseIsTaken(w: World, owner: Owner, process: Process, recovery: bool, ttl: int)
    requires Sound(w, ttl) && owner !in w.known && process !in w.ended
    requires w.file.Some? ==> w.file.value.expires <= w.now || (recovery && w.file.value.process in w.ended)
    ensures
      var verdict := if w.file.Some? && w.file.value.process in w.ended then Dead else Unknown;
      var t := Next(Next(w, BeginAcquire(owner, process, recovery), ttl), FinishAcquire(owner, verdict, false), ttl);
      BoundTo(t.file, owner) && owner in t.handles && (ttl > 0 ==> OwnedBy(t.file, owner, t.now))
  {
    var v := Next(w, BeginAcquire(owner, process, recovery), ttl);
    assert v.acquirers[owner] == Acquirer(process, w.now, recovery);
  }
}
