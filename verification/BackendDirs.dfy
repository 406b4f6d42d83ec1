/** The backend dirs of the runtime dir and their locks: backends that make a dir of their own,
    sweeps that remove dead ones and guards that remove a dead backend's dir, all at once
    (core/src/connfile.rs: BackendDir::create, BackendDir::remove, take_lock_at, remove_locked_at,
    sweep_stale_at, remove_backend_dir_waiting). Every step is one call on the file system.

    A dir is named once and for all (its name holds fresh random digits), so an inode stands for
    the name too. Locks work, and nobody else touches the files. */
module BackendDirs {
  import opened Json

  type Actor = nat
  type DirId = nat
  type FileId = nat
  /** Seconds. */
  type Time = nat

  const STALE_NOLOCK_AGE: Time := 60
  const FOREIGN_MIN_AGE: Time := 7 * 24 * 3600
  const LOCK_TRIES: nat := 2

  /** `lock` is the file named lock in the dir, `entries` everything else below it. */
  datatype Dir = Dir(owner: Actor, made: Time, mtime: Time, linked: bool, lock: Option<FileId>, entries: set<nat>)

  /** A lock file: the dir it was made in, and who made it. */
  datatype File = File(home: DirId, maker: Actor)

  datatype Phase =
    | Idle
    | Dead
    // a backend: create
    | Made(d: DirId)
    | Entered(d: DirId)
    | LockMade(d: DirId, f: FileId)
    | Locked(d: DirId, f: FileId)
    | Checking(d: DirId, f: FileId)
    | Created(d: DirId, f: FileId)
    // a backend: remove
    | Leaving(d: DirId, f: FileId)
    | LeavingChecks(d: DirId, f: FileId)
    // a sweep, with the time it read before
    | Sweeping(t: Time)
    | Looking(d: DirId, t: Time, age: Time)
    | SeenMissing(d: DirId, t: Time, age: Time)
    // a guard that found no lock file
    | GuardMissing(d: DirId)
    // take_lock_at
    | Opening(d: DirId, claim: bool, tries: nat, guards: bool)
    | Claiming(d: DirId, tries: nat)
    | Locking(d: DirId, f: FileId)
    // remove_locked_at
    | Clearing(d: DirId, f: FileId)
    | Unlinking(d: DirId, f: FileId)
    | Unlinked(d: DirId, f: FileId)
    | Releasing(d: DirId, f: FileId, again: bool)
    | ClearingAgain(d: DirId)
    | RemovingAgain(d: DirId)

  datatype State = State(
    now: Time,
    dirs: map<DirId, Dir>,
    files: map<FileId, File>,
    held: map<FileId, Actor>,      // who holds the lock on a file
    phase: map<Actor, Phase>
  )

  /** What an actor may do. `Step` is the next call its phase asks for, `f` the inode of a file it
      makes; `Change` is one change of a removal or of a backend in its own dir; `GiveUp` stands
      for a call that failed, and for a sweep that has seen every dir. */
  datatype Act =
    | Mkdir(d: DirId)
    | Sweep(t: Time)
    | Guard(d: DirId)
    | Pick(d: DirId, age: Time)
    | Step(f: FileId)
    | Change(entries: set<nat>, mtime: Time, unlock: bool)
    | GiveUp
    | Leave
    | Claim
    | Die

  function Of(s: State, a: Actor): Phase {
    if a in s.phase then s.phase[a] else Idle
  }

  function At(s: State, a: Actor, p: Phase): State {
    s.(phase := s.phase[a := p])
  }

  function Put(s: State, d: DirId, dir: Dir): State {
    s.(dirs := s.dirs[d := dir])
  }

  /** The lock file is closed, and with it its lock goes. */
  function Drop(s: State, f: FileId): State {
    s.(held := s.held - {f})
  }

  function NewLock(s: State, a: Actor, d: DirId, f: FileId): State
    requires d in s.dirs
  {
    Put(s.(files := s.files[f := File(d, a)]), d, s.dirs[d].(lock := Some(f), mtime := s.now))
  }

  predicate Empty(dir: Dir) {
    dir.entries == {} && dir.lock.None?
  }

  predicate KnowsDir(s: State, p: Phase) {
    match p
    case Idle => true
    case Dead => true
    case Sweeping(_) => true
    case _ => p.d in s.dirs
  }

  /** Whether the actor can do this now. The one limit on the environment is that a backend makes
      its lock file within STALE_NOLOCK_AGE of its mkdir. */
  predicate Can(s: State, a: Actor, act: Act)
    requires KnowsDir(s, Of(s, a))
  {
    var p := Of(s, a);
    match act
    case Mkdir(d) => p.Idle? && d !in s.dirs
    case Sweep(t) => p.Idle? && t <= s.now
    case Guard(d) => p.Idle? && d in s.dirs && s.dirs[d].linked
    case Pick(d, age) => p.Sweeping? && d in s.dirs && s.dirs[d].linked && (age == STALE_NOLOCK_AGE || age == FOREIGN_MIN_AGE)
    case Step(f) =>
      (match p
       case Idle => false
       case Dead => false
       case Sweeping(_) => false
       case Created(_, _) => false
       case ClearingAgain(_) => true
       case Entered(d) =>
         f !in s.files && (s.dirs[d].linked && s.dirs[d].lock.None? ==> s.now <= s.dirs[d].made + STALE_NOLOCK_AGE)
       case Claiming(_, _) => f !in s.files
       case _ => true)
    case Change(_, m, unlock) =>
      (p.Created? || p.Clearing? || p.ClearingAgain?) && s.dirs[p.d].linked && s.dirs[p.d].mtime <= m <= s.now
      && (unlock ==> p.ClearingAgain?)
    case GiveUp => p.Sweeping? || p.GuardMissing? || p.Clearing? || p.Unlinking?
    case Leave => p.Created?
    case Claim => p.GuardMissing? && Of(s, s.dirs[p.d].owner).Dead?
    case Die => !p.Dead?
  }

  function Release(s: State, a: Actor): State {
    s.(held := map f | f in s.held && s.held[f] != a :: s.held[f])
  }

  /** The next call of a phase. */
  function Next(s: State, a: Actor, f: FileId): State
    requires KnowsDir(s, Of(s, a)) && Can(s, a, Step(f))
  {
    match Of(s, a)
    // create: open the dir that was made
    case Made(d) => At(s, a, if s.dirs[d].linked then Entered(d) else Idle)
    // make its lock file, which must be new
    case Entered(d) =>
      if s.dirs[d].linked && s.dirs[d].lock.None? then At(NewLock(s, a, d, f), a, LockMade(d, f)) else At(s, a, Idle)
    case LockMade(d, own) =>
      if own !in s.held then At(s.(held := s.held[own := a]), a, Locked(d, own)) else At(s, a, Idle)
    // open_held: open the dir, then see whether its lock is still the one held
    case Locked(d, own) => if s.dirs[d].linked then At(s, a, Checking(d, own)) else At(Drop(s, own), a, Idle)
    case Checking(d, own) =>
      if s.dirs[d].lock == Some(own) then At(s, a, Created(d, own)) else At(Drop(s, own), a, Idle)
    // remove: open_held again
    case Leaving(d, own) => if s.dirs[d].linked then At(s, a, LeavingChecks(d, own)) else At(Drop(s, own), a, Idle)
    case LeavingChecks(d, own) =>
      if s.dirs[d].lock == Some(own) then At(s, a, Clearing(d, own)) else At(Drop(s, own), a, Idle)
    // a sweep: look for the lock file, and only then at the age
    case Looking(d, t, age) =>
      At(s, a, if s.dirs[d].lock.Some? then Opening(d, false, LOCK_TRIES, false) else SeenMissing(d, t, age))
    case SeenMissing(d, t, age) =>
      At(s, a, if t > s.dirs[d].mtime + age then Opening(d, true, LOCK_TRIES, false) else Sweeping(t))
    // a guard waits a step and tries again
    case GuardMissing(d) => At(s, a, if s.dirs[d].linked then Opening(d, false, LOCK_TRIES, true) else Idle)
    // take_lock_at
    case Opening(d, claim, tries, guards) =>
      At(s, a,
         if s.dirs[d].lock.Some? then Locking(d, s.dirs[d].lock.value)
         else if claim then Claiming(d, tries)
         else if guards then GuardMissing(d)
         else Idle)
    case Claiming(d, tries) =>
      if s.dirs[d].linked && s.dirs[d].lock.None? then At(NewLock(s, a, d, f), a, Locking(d, f))
      else At(s, a, if s.dirs[d].linked && tries > 1 then Opening(d, true, tries - 1, false) else Idle)
    case Locking(d, g) =>
      if g !in s.held then At(s.(held := s.held[g := a]), a, Clearing(d, g)) else At(s, a, Idle)
    // remove_locked_at: everything but the lock, the lock, the dir, and the lock is let go
    case Clearing(d, g) => At(s, a, Unlinking(d, g))
    case Unlinking(d, g) => At(Put(s, d, s.dirs[d].(lock := None, mtime := s.now)), a, Unlinked(d, g))
    case Unlinked(d, g) =>
      if s.dirs[d].linked && Empty(s.dirs[d]) then At(Put(s, d, s.dirs[d].(linked := false)), a, Releasing(d, g, false))
      else At(s, a, Releasing(d, g, s.dirs[d].linked))
    case Releasing(d, g, again) => At(Drop(s, g), a, if again then ClearingAgain(d) else Idle)
    // not empty: once more, without the lock
    case ClearingAgain(d) => At(s, a, RemovingAgain(d))
    case RemovingAgain(d) =>
      At(if s.dirs[d].linked && Empty(s.dirs[d]) then Put(s, d, s.dirs[d].(linked := false)) else s, a, Idle)
    case _ => s
  }

  function Do(s: State, a: Actor, act: Act): State
    requires KnowsDir(s, Of(s, a)) && Can(s, a, act)
  {
    var p := Of(s, a);
    match act
    case Mkdir(d) => At(Put(s, d, Dir(a, s.now, s.now, true, None, {})), a, Made(d))
    case Sweep(t) => At(s, a, Sweeping(t))
    case Guard(d) => At(s, a, Opening(d, false, LOCK_TRIES, true))
    case Pick(d, age) => At(s, a, Looking(d, p.t, age))
    case Step(f) => Next(s, a, f)
    case Change(entries, m, unlock) =>
      Put(s, p.d, s.dirs[p.d].(entries := entries, mtime := if unlock then s.now else m,
                               lock := if unlock then None else s.dirs[p.d].lock))
    case GiveUp =>
      At(s, a, if p.Clearing? || p.Unlinking? then Releasing(p.d, p.f, false) else Idle)
    case Leave => At(s, a, Leaving(p.d, p.f))
    case Claim => At(s, a, Opening(p.d, true, LOCK_TRIES, true))
    case Die => At(Release(s, a), a, Dead)
  }

  // ---- the invariant ----

  /** The dir's backend can never come to count it as its own, or is done with it. */
  predicate Lost(s: State, d: DirId)
    requires d in s.dirs
  {
    match Of(s, s.dirs[d].owner)
    case Made(x) => x != d || s.now > s.dirs[d].made + STALE_NOLOCK_AGE
    case Entered(x) => x != d || s.now > s.dirs[d].made + STALE_NOLOCK_AGE
    case LockMade(x, f) => x != d || s.dirs[d].lock != Some(f)
    case Locked(x, f) => x != d || s.dirs[d].lock != Some(f)
    case Checking(x, f) => x != d || s.dirs[d].lock != Some(f)
    case Created(x, _) => x != d
    case _ => true
  }

  /** The dir's backend has not made its lock file yet. */
  predicate Early(s: State, d: DirId)
    requires d in s.dirs
  {
    Of(s, s.dirs[d].owner) == Made(d) || Of(s, s.dirs[d].owner) == Entered(d)
  }

  predicate DirOk(s: State, d: DirId)
    requires d in s.dirs
  {
    var dir := s.dirs[d];
    && dir.made <= dir.mtime <= s.now
    && (dir.lock.Some? ==> dir.linked && dir.lock.value in s.files && s.files[dir.lock.value].home == d)
  }

  /** A backend makes one lock file in a dir; any other file there says the dir is lost. */
  predicate FileOk(s: State, f: FileId)
    requires f in s.files
  {
    var d := s.files[f].home;
    && d in s.dirs
    && var p := Of(s, s.dirs[d].owner);
       if s.files[f].maker == s.dirs[d].owner then !Early(s, d) && (Owning(p) && p.d == d ==> p.f == f)
       else Lost(s, d)
  }

  predicate Owning(p: Phase) {
    p.LockMade? || p.Locked? || p.Checking? || p.Created? || p.Leaving? || p.LeavingChecks?
  }

  predicate OwnFile(s: State, a: Actor, d: DirId, f: FileId)
    requires d in s.dirs
  {
    s.dirs[d].owner == a && f in s.files && s.files[f] == File(d, a)
  }

  predicate Holds(s: State, a: Actor, f: FileId) {
    f in s.held && s.held[f] == a
  }

  predicate FileIn(s: State, d: DirId, f: FileId) {
    f in s.files && s.files[f].home == d
  }

  predicate PhaseOk(s: State, a: Actor) {
    var p := Of(s, a);
    KnowsDir(s, p) &&
    match p
    case Made(d) => s.dirs[d].owner == a
    case Entered(d) => s.dirs[d].owner == a
    case LockMade(d, f) => OwnFile(s, a, d, f)
    case Locked(d, f) => OwnFile(s, a, d, f) && Holds(s, a, f)
    case Checking(d, f) => OwnFile(s, a, d, f) && Holds(s, a, f)
    case Created(d, f) => OwnFile(s, a, d, f) && Holds(s, a, f) && s.dirs[d].linked && s.dirs[d].lock == Some(f)
    case Leaving(d, f) => OwnFile(s, a, d, f) && Holds(s, a, f)
    case LeavingChecks(d, f) => OwnFile(s, a, d, f) && Holds(s, a, f)
    case Sweeping(t) => t <= s.now
    case Looking(_, t, age) => t <= s.now && age >= STALE_NOLOCK_AGE
    case SeenMissing(d, t, age) =>
      t <= s.now && age >= STALE_NOLOCK_AGE && (Lost(s, d) || Early(s, d) || s.dirs[d].mtime >= t)
    case Opening(d, claim, _, _) => claim ==> Lost(s, d)
    case Claiming(d, _) => Lost(s, d)
    case Locking(d, f) => FileIn(s, d, f)
    case Clearing(d, f) => FileIn(s, d, f) && Holds(s, a, f)
    case Unlinking(d, f) => FileIn(s, d, f) && Holds(s, a, f)
    case Unlinked(d, f) => FileIn(s, d, f) && Holds(s, a, f) && Lost(s, d)
    case Releasing(d, f, again) => FileIn(s, d, f) && Holds(s, a, f) && (again ==> Lost(s, d))
    case ClearingAgain(d) => Lost(s, d)
    case RemovingAgain(d) => Lost(s, d)
    case _ => true
  }

  ghost predicate Inv(s: State) {
    && (forall d <- s.dirs :: DirOk(s, d))
    && (forall f <- s.files :: FileOk(s, f))
    && (forall a :: PhaseOk(s, a))
  }

  // ---- no step breaks it ----

  /** While a backend counts a dir as its own, nobody else's step changes it. */
  lemma Undisturbed(s: State, a: Actor, act: Act, o: Actor, d: DirId, f: FileId)
    requires Inv(s) && a != o && KnowsDir(s, Of(s, a)) && Can(s, a, act)
    requires Of(s, o) == Created(d, f)
    ensures var s2 := Do(s, a, act);
            d in s.dirs && d in s2.dirs && s2.dirs[d] == s.dirs[d] && Of(s2, o) == Created(d, f)
  {
    assert PhaseOk(s, o) && PhaseOk(s, a);
    var p := Of(s, a);
    if p.Clearing? || p.Unlinking? {
      assert FileOk(s, p.f);
      assert p.d != d;
    }
  }

  /** What one step may do to a dir there is: its lock file stays, goes, or is a new one. */
  predicate DirStep(s: State, s2: State, a: Actor, d: DirId)
    requires d in s.dirs
  {
    d in s2.dirs &&
    var was, dir := s.dirs[d], s2.dirs[d];
    && dir.owner == was.owner && dir.made == was.made && was.mtime <= dir.mtime <= s.now
    && (dir.linked ==> was.linked)
    && (dir.lock.Some? ==> dir.linked)
    && (dir.lock == was.lock || dir.lock.None?
        || (dir.lock.value !in s.files && dir.lock.value in s2.files && s2.files[dir.lock.value] == File(d, a) && dir.mtime == s.now))
  }

  /** What one step leaves alone. */
  predicate Frame(s: State, s2: State, a: Actor) {
    && s2.now == s.now
    && (forall b <- s.phase.Keys + s2.phase.Keys | b != a :: Of(s2, b) == Of(s, b))
    && (forall f <- s.files :: f in s2.files && s2.files[f] == s.files[f])
    && (forall f <- s.held | s.held[f] != a :: Holds(s2, s.held[f], f))
  }

  lemma StepFrame(s: State, a: Actor, act: Act)
    requires PhaseOk(s, a) && Can(s, a, act)
    ensures Frame(s, Do(s, a, act), a)
  {
    if act.Step? { NextFrame(s, a, act.f); }
  }

  lemma NextFrame(s: State, a: Actor, f: FileId)
    requires PhaseOk(s, a) && Can(s, a, Step(f))
    ensures Frame(s, Next(s, a, f), a)
  {
    var p := Of(s, a);
    if p.Made? || p.Entered? || Owning(p) { OwningFrame(s, a, f); } else { OtherFrame(s, a, f); }
  }

  lemma OwningFrame(s: State, a: Actor, f: FileId)
    requires PhaseOk(s, a) && Can(s, a, Step(f))
    requires var p := Of(s, a); p.Made? || p.Entered? || Owning(p)
    ensures Frame(s, Next(s, a, f), a)
  {
  }

  lemma OtherFrame(s: State, a: Actor, f: FileId)
    requires PhaseOk(s, a) && Can(s, a, Step(f))
    requires var p := Of(s, a); !(p.Made? || p.Entered? || Owning(p))
    ensures Frame(s, Next(s, a, f), a)
  {
  }

  lemma StepDir(s: State, a: Actor, act: Act, d: DirId)
    requires PhaseOk(s, a) && Can(s, a, act) && d in s.dirs && DirOk(s, d)
    ensures DirStep(s, Do(s, a, act), a, d)
  {
    if act.Step? { NextDir(s, a, act.f, d); }
  }

  lemma NextDir(s: State, a: Actor, f: FileId, d: DirId)
    requires PhaseOk(s, a) && Can(s, a, Step(f)) && d in s.dirs && DirOk(s, d)
    ensures DirStep(s, Next(s, a, f), a, d)
  {
  }

  /** A lost dir stays lost, whoever else moves. */
  lemma LostByOther(s: State, s2: State, a: Actor, d: DirId)
    requires Frame(s, s2, a) && d in s.dirs && DirStep(s, s2, a, d) && s.dirs[d].owner != a
    requires PhaseOk(s, s.dirs[d].owner) && Lost(s, d)
    ensures Lost(s2, d)
  {
    var o := s.dirs[d].owner;
    assert Of(s2, o) == Of(s, o) by { assert o in s.phase.Keys + s2.phase.Keys || (o !in s.phase && o !in s2.phase); }
  }

  /** A lost dir stays lost when its backend moves: its next calls find that it is. */
  lemma LostByOwner(s: State, a: Actor, act: Act, d: DirId)
    requires PhaseOk(s, a) && Can(s, a, act) && d in s.dirs && s.dirs[d].owner == a
    requires Lost(s, d) && DirStep(s, Do(s, a, act), a, d) && DirOk(s, d)
    ensures Lost(Do(s, a, act), d)
  {
    if act.Step? { LostByNext(s, a, act.f, d); }
  }

  lemma LostByNext(s: State, a: Actor, f: FileId, d: DirId)
    requires PhaseOk(s, a) && Can(s, a, Step(f)) && d in s.dirs && s.dirs[d].owner == a
    requires Lost(s, d) && DirStep(s, Next(s, a, f), a, d) && DirOk(s, d)
    ensures Lost(Next(s, a, f), d)
  {
  }

  /** A lost dir stays lost. */
  lemma LostKept(s: State, a: Actor, act: Act, d: DirId)
    requires Inv(s) && PhaseOk(s, a) && Can(s, a, act)
    requires d in s.dirs && Lost(s, d)
    ensures d in Do(s, a, act).dirs && Lost(Do(s, a, act), d)
  {
    assert DirOk(s, d) && PhaseOk(s, s.dirs[d].owner);
    StepDir(s, a, act, d);
    if s.dirs[d].owner == a {
      LostByOwner(s, a, act, d);
    } else {
      StepFrame(s, a, act);
      LostByOther(s, Do(s, a, act), a, d);
    }
  }

  /** A dir whose lock file was seen missing is lost, or new, or has changed since. */
  lemma MissingKept(s: State, a: Actor, act: Act, d: DirId, t: Time)
    requires Inv(s) && PhaseOk(s, a) && Can(s, a, act) && d in s.dirs && t <= s.now
    requires Lost(s, d) || Early(s, d) || s.dirs[d].mtime >= t
    ensures var s2 := Do(s, a, act); d in s2.dirs && (Lost(s2, d) || Early(s2, d) || s2.dirs[d].mtime >= t)
  {
    assert DirOk(s, d);
    StepDir(s, a, act, d);
    if Lost(s, d) {
      LostKept(s, a, act, d);
    } else if Early(s, d) {
      EarlyKept(s, a, act, d);
    }
  }

  lemma EarlyKept(s: State, a: Actor, act: Act, d: DirId)
    requires PhaseOk(s, a) && Can(s, a, act) && d in s.dirs && Early(s, d) && DirOk(s, d)
    ensures var s2 := Do(s, a, act);
            d in s2.dirs && (Lost(s2, d) || Early(s2, d) || s2.dirs[d].mtime == s.now)
  {
    StepDir(s, a, act, d);
    StepFrame(s, a, act);
  }

  lemma DirKept(s: State, a: Actor, act: Act, d: DirId)
    requires Inv(s) && PhaseOk(s, a) && Can(s, a, act) && d in Do(s, a, act).dirs
    ensures DirOk(Do(s, a, act), d)
  {
    if d in s.dirs {
      assert DirOk(s, d);
      StepDir(s, a, act, d);
      StepFrame(s, a, act);
    } else {
      assert act.Mkdir?;
    }
  }

  lemma NewFile(s: State, a: Actor, act: Act, f: FileId)
    requires PhaseOk(s, a) && Can(s, a, act) && f in Do(s, a, act).files && f !in s.files
    ensures (Of(s, a).Entered? || Of(s, a).Claiming?) && Do(s, a, act).files[f] == File(Of(s, a).d, a)
    ensures Of(s, a).Entered? ==> Of(Do(s, a, act), a) == LockMade(Of(s, a).d, f)
    ensures Do(s, a, act).dirs.Keys == s.dirs.Keys
  {
  }

  lemma FileKept(s: State, a: Actor, act: Act, f: FileId)
    requires Inv(s) && PhaseOk(s, a) && Can(s, a, act) && f in Do(s, a, act).files
    ensures FileOk(Do(s, a, act), f)
  {
    var s2 := Do(s, a, act);
    StepFrame(s, a, act);
    if f in s.files {
      OldFile(s, a, act, f);
    } else {
      NewFile(s, a, act, f);
      var d := Of(s, a).d;
      assert DirOk(s, d);
      StepDir(s, a, act, d);
      if Of(s, a).Claiming? {
        LostKept(s, a, act, d);
        ClaimantIsNotOwner(s, a, d);
      }
    }
  }

  lemma ClaimantIsNotOwner(s: State, a: Actor, d: DirId)
    requires d in s.dirs
    ensures Of(s, a).Claiming? && s.dirs[d].owner == a ==> !Early(s, d) && !Owning(Of(s, a))
  {
  }

  lemma OldFile(s: State, a: Actor, act: Act, f: FileId)
    requires Inv(s) && PhaseOk(s, a) && Can(s, a, act) && f in s.files
    ensures f in Do(s, a, act).files && FileOk(Do(s, a, act), f)
  {
    assert FileOk(s, f);
    var s2 := Do(s, a, act);
    var d := s.files[f].home;
    assert DirOk(s, d);
    StepFrame(s, a, act);
    StepDir(s, a, act, d);
    if s.files[f].maker != s.dirs[d].owner {
      LostKept(s, a, act, d);
    } else if s.dirs[d].owner == a {
      OwnFileOnly(s, a, act, f);
    }
  }

  /** A backend that has made its lock file makes no other one in that dir. */
  lemma OwnFileOnly(s: State, a: Actor, act: Act, f: FileId)
    requires PhaseOk(s, a) && Can(s, a, act) && f in s.files && FileOk(s, f)
    requires s.files[f].maker == a && s.dirs[s.files[f].home].owner == a
    ensures OwnsOnly(Of(Do(s, a, act), a), s.files[f].home, f)
  {
    if act.Step? { NextOwnsOnly(s, a, act.f, f); }
  }

  predicate OwnsOnly(p: Phase, d: DirId, f: FileId) {
    p != Made(d) && p != Entered(d) && (Owning(p) && p.d == d ==> p.f == f)
  }

  lemma NextOwnsOnly(s: State, a: Actor, made: FileId, f: FileId)
    requires PhaseOk(s, a) && Can(s, a, Step(made)) && f in s.files && FileOk(s, f)
    requires s.files[f].maker == a && s.dirs[s.files[f].home].owner == a
    ensures OwnsOnly(Of(Next(s, a, made), a), s.files[f].home, f)
  {
  }

  /** The claims of another actor's phase stand. */
  lemma OtherKept(s: State, a: Actor, act: Act, b: Actor)
    requires Inv(s) && PhaseOk(s, a) && Can(s, a, act) && b != a
    ensures PhaseOk(Do(s, a, act), b)
  {
    assert PhaseOk(s, b);
    var p, s2 := Of(s, b), Do(s, a, act);
    StepFrame(s, a, act);
    assert Of(s2, b) == p by { assert b in s.phase.Keys + s2.phase.Keys || (b !in s.phase && b !in s2.phase); }
    if !(p.Idle? || p.Dead? || p.Sweeping?) {
      assert DirOk(s, p.d);
      StepDir(s, a, act, p.d);
      if Lost(s, p.d) { LostKept(s, a, act, p.d); }
      if p.Created? { Undisturbed(s, a, act, b, p.d, p.f); }
      if p.SeenMissing? { MissingKept(s, a, act, p.d, p.t); }
      OtherPhase(s, s2, a, b);
    }
  }

  lemma OtherPhase(s: State, s2: State, a: Actor, b: Actor)
    requires Frame(s, s2, a) && b != a && PhaseOk(s, b) && Of(s2, b) == Of(s, b)
    requires var p := Of(s, b);
             && !(p.Idle? || p.Dead? || p.Sweeping?) && DirStep(s, s2, a, p.d)
             && (Lost(s, p.d) ==> Lost(s2, p.d))
             && (p.Created? ==> s2.dirs[p.d] == s.dirs[p.d])
             && (p.SeenMissing? ==> Lost(s2, p.d) || Early(s2, p.d) || s2.dirs[p.d].mtime >= p.t)
    ensures PhaseOk(s2, b)
  {
  }

  /** The claims of the phase the mover comes to. */
  lemma MoverKept(s: State, a: Actor, act: Act)
    requires Inv(s) && PhaseOk(s, a) && Can(s, a, act)
    ensures PhaseOk(Do(s, a, act), a)
  {
    var p := Of(s, a);
    if !(p.Idle? || p.Dead? || p.Sweeping?) {
      assert DirOk(s, p.d);
      assert PhaseOk(s, s.dirs[p.d].owner);
      StepDir(s, a, act, p.d);
      if Lost(s, p.d) { LostKept(s, a, act, p.d); }
    }
    if act.Step? {
      NextPhase(s, a, act.f);
    } else {
      OtherActs(s, a, act);
    }
  }

  lemma OtherActs(s: State, a: Actor, act: Act)
    requires Inv(s) && PhaseOk(s, a) && Can(s, a, act) && !act.Step?
    requires var p := Of(s, a);
             !(p.Idle? || p.Dead? || p.Sweeping?) ==> p.d in Do(s, a, act).dirs && (Lost(s, p.d) ==> Lost(Do(s, a, act), p.d))
    ensures PhaseOk(Do(s, a, act), a)
  {
  }

  predicate Seeking(p: Phase) {
    p.Looking? || p.SeenMissing? || p.GuardMissing?
  }

  predicate TakingLock(p: Phase) {
    p.Opening? || p.Claiming? || p.Locking?
  }

  lemma NextPhase(s: State, a: Actor, f: FileId)
    requires Inv(s) && PhaseOk(s, a) && Can(s, a, Step(f))
    requires var d := Of(s, a).d; DirOk(s, d) && PhaseOk(s, s.dirs[d].owner) && DirStep(s, Next(s, a, f), a, d)
    requires Lost(s, Of(s, a).d) ==> Lost(Next(s, a, f), Of(s, a).d)
    ensures PhaseOk(Next(s, a, f), a)
  {
    var p := Of(s, a);
    if p.Made? || p.Entered? || Owning(p) {
      NextOwning(s, a, f);
    } else if Seeking(p) {
      NextSeeking(s, a, f);
    } else if TakingLock(p) {
      NextTaking(s, a, f);
    } else {
      NextRemoving(s, a, f);
    }
  }

  lemma NextOwning(s: State, a: Actor, f: FileId)
    requires Inv(s) && PhaseOk(s, a) && Can(s, a, Step(f))
    requires var d := Of(s, a).d; DirOk(s, d) && PhaseOk(s, s.dirs[d].owner) && DirStep(s, Next(s, a, f), a, d)
    requires Lost(s, Of(s, a).d) ==> Lost(Next(s, a, f), Of(s, a).d)
    requires var p := Of(s, a); p.Made? || p.Entered? || Owning(p)
    ensures PhaseOk(Next(s, a, f), a)
  {
  }

  lemma NextSeeking(s: State, a: Actor, f: FileId)
    requires Inv(s) && PhaseOk(s, a) && Can(s, a, Step(f))
    requires var d := Of(s, a).d; DirOk(s, d) && PhaseOk(s, s.dirs[d].owner) && DirStep(s, Next(s, a, f), a, d)
    requires Lost(s, Of(s, a).d) ==> Lost(Next(s, a, f), Of(s, a).d)
    requires Seeking(Of(s, a))
    ensures PhaseOk(Next(s, a, f), a)
  {
  }

  lemma NextTaking(s: State, a: Actor, f: FileId)
    requires Inv(s) && PhaseOk(s, a) && Can(s, a, Step(f))
    requires var d := Of(s, a).d; DirOk(s, d) && PhaseOk(s, s.dirs[d].owner) && DirStep(s, Next(s, a, f), a, d)
    requires Lost(s, Of(s, a).d) ==> Lost(Next(s, a, f), Of(s, a).d)
    requires TakingLock(Of(s, a))
    ensures PhaseOk(Next(s, a, f), a)
  {
  }

  lemma NextRemoving(s: State, a: Actor, f: FileId)
    requires Inv(s) && PhaseOk(s, a) && Can(s, a, Step(f))
    requires var d := Of(s, a).d; DirOk(s, d) && PhaseOk(s, s.dirs[d].owner) && DirStep(s, Next(s, a, f), a, d)
    requires Lost(s, Of(s, a).d) ==> Lost(Next(s, a, f), Of(s, a).d)
    requires var p := Of(s, a);
             p.Clearing? || p.Unlinking? || p.Unlinked? || p.Releasing? || p.ClearingAgain? || p.RemovingAgain?
    ensures PhaseOk(Next(s, a, f), a)
  {
    var p := Of(s, a);
    if p.Unlinking? { assert FileOk(s, p.f); }
  }

  lemma Preserved(s: State, a: Actor, act: Act)
    requires Inv(s) && KnowsDir(s, Of(s, a)) && Can(s, a, act)
    ensures Inv(Do(s, a, act))
  {
    var s2 := Do(s, a, act);
    forall d | d in s2.dirs ensures DirOk(s2, d) { DirKept(s, a, act, d); }
    forall f | f in s2.files ensures FileOk(s2, f) { FileKept(s, a, act, f); }
    forall b ensures PhaseOk(s2, b) {
      if b == a { MoverKept(s, a, act); } else { OtherKept(s, a, act, b); }
    }
  }

  lemma TimeKeeps(s: State, now: Time)
    requires Inv(s) && s.now <= now
    ensures Inv(s.(now := now))
  {
    var s2 := s.(now := now);
    forall d | d in s2.dirs ensures DirOk(s2, d) { assert DirOk(s, d); }
    forall f | f in s2.files ensures FileOk(s2, f) { assert FileOk(s, f); }
    forall b ensures PhaseOk(s2, b) { assert PhaseOk(s, b); }
  }

  // ---- every run ----

  datatype Move = Acts(a: Actor, act: Act) | Ticks(now: Time)

  predicate Possible(s: State, m: Move) {
    match m
    case Acts(a, act) => KnowsDir(s, Of(s, a)) && Can(s, a, act)
    case Ticks(now) => s.now <= now
  }

  function After(s: State, m: Move): State
    requires Possible(s, m)
  {
    match m
    case Acts(a, act) => Do(s, a, act)
    case Ticks(now) => s.(now := now)
  }

  /** Nobody runs yet. Dirs and lock files of backends that are gone may be there. */
  ghost predicate Starts(s: State) {
    && s.held == map[] && (forall a <- s.phase :: s.phase[a].Dead?)
    && (forall d <- s.dirs :: DirOk(s, d))
    && (forall f <- s.files :: s.files[f].home in s.dirs)
  }

  ghost predicate Run(states: seq<State>, moves: seq<Move>) {
    && |states| == |moves| + 1 && Starts(states[0])
    && forall i | 0 <= i < |moves| :: Possible(states[i], moves[i]) && states[i + 1] == After(states[i], moves[i])
  }

  lemma {:induction false} Always(states: seq<State>, moves: seq<Move>, n: nat)
    requires Run(states, moves) && n < |states|
    ensures Inv(states[n])
  {
    if n == 0 {
      var s := states[0];
      assert forall a :: Of(s, a).Idle? || Of(s, a).Dead?;
      forall d | d in s.dirs ensures Lost(s, d) && !Early(s, d) {}
      forall f | f in s.files ensures FileOk(s, f) {}
    } else {
      Always(states, moves, n - 1);
      assert Possible(states[n - 1], moves[n - 1]);
      match moves[n - 1]
      case Acts(a, act) => Preserved(states[n - 1], a, act);
      case Ticks(now) => TimeKeeps(states[n - 1], now);
    }
  }

  /** The moves of the backend itself after which its dir is still its own. */
  predicate Stays(moves: seq<Move>, i: nat, k: nat, o: Actor)
    requires i <= k <= |moves|
  {
    forall j | i <= j < k && moves[j].Acts? && moves[j].a == o :: moves[j].act.Change?
  }

  /** What is in a dir that held `entries`, if only its backend changed it. */
  function OwnEntries(moves: seq<Move>, i: nat, k: nat, o: Actor, entries: set<nat>): set<nat>
    requires i <= k <= |moves|
    decreases k
  {
    if i == k then entries
    else
      var m := moves[k - 1];
      if m.Acts? && m.a == o && m.act.Change? then m.act.entries else OwnEntries(moves, i, k - 1, o, entries)
  }

  /** One move while a backend has its dir: by anyone else it changes nothing there. */
  lemma LiveDirStep(s: State, m: Move, o: Actor, d: DirId, f: FileId)
    requires Inv(s) && Possible(s, m) && Of(s, o) == Created(d, f)
    requires m.Acts? && m.a == o ==> m.act.Change?
    ensures d in s.dirs && d in After(s, m).dirs && Of(After(s, m), o) == Created(d, f)
    ensures After(s, m).dirs[d].entries ==
            if m.Acts? && m.a == o then m.act.entries else s.dirs[d].entries
  {
    assert PhaseOk(s, o);
    if m.Acts? && m.a != o { Undisturbed(s, m.a, m.act, o, d, f); }
  }

  /** Lock safety. Once create has returned a dir, then until its backend removes it or dies,
      whatever other backends, sweeps and guards do in between, the dir is there, its lock file is
      the one its backend holds, and it holds exactly what its backend put in it. */
  lemma {:induction false} LiveDirKept(states: seq<State>, moves: seq<Move>, i: nat, k: nat, o: Actor, d: DirId, f: FileId)
    requires Run(states, moves) && i <= k < |states|
    requires Of(states[i], o) == Created(d, f) && Stays(moves, i, k, o)
    ensures d in states[i].dirs && d in states[k].dirs
    ensures Of(states[k], o) == Created(d, f) && Holds(states[k], o, f)
    ensures var dir := states[k].dirs[d];
            dir.linked && dir.lock == Some(f) && dir.entries == OwnEntries(moves, i, k, o, states[i].dirs[d].entries)
    decreases k
  {
    Always(states, moves, i);
    Always(states, moves, k);
    assert PhaseOk(states[i], o);
    if i < k {
      LiveDirKept(states, moves, i, k - 1, o, d, f);
      Always(states, moves, k - 1);
      LiveDirStep(states[k - 1], moves[k - 1], o, d, f);
    }
    assert PhaseOk(states[k], o);
  }

  /** Two actors never remove the same dir under one lock file at once. */
  lemma OneRemover(states: seq<State>, moves: seq<Move>, n: nat, a: Actor, b: Actor)
    requires Run(states, moves) && n < |states|
    requires var p, q := Of(states[n], a), Of(states[n], b); p.Clearing? && q.Clearing? && p.f == q.f
    ensures a == b
  {
    Always(states, moves, n);
    assert PhaseOk(states[n], a) && PhaseOk(states[n], b);
  }

  // ---- what an actor alone brings about ----

  ghost predicate Able(s: State, a: Actor, acts: seq<Act>)
    decreases |acts|
  {
    acts == [] || (Possible(s, Acts(a, acts[0])) && Able(After(s, Acts(a, acts[0])), a, acts[1..]))
  }

  ghost function Alone(s: State, a: Actor, acts: seq<Act>): State
    requires Able(s, a, acts)
    decreases |acts|
  {
    if acts == [] then s else Alone(After(s, Acts(a, acts[0])), a, acts[1..])
  }

  // ---- create does make a dir ----

  /** A backend that makes the dir `d` and its lock file `f`: mkdir, open, make the file, lock it,
      open the dir again, look at its lock. */
  function CreateCourse(d: DirId, f: FileId): seq<Act> {
    [Mkdir(d)] + ([Step(f)] + ([Step(f)] + ([Step(f)] + ([Step(f)] + [Step(f)]))))
  }

  /** With nobody else acting, these acts are possible in turn, and after them the actor has this
      dir, made by it, with this lock, and every other dir and lock is as it was. */
  ghost predicate Creates(s: State, a: Actor, d: DirId, f: FileId, acts: seq<Act>) {
    && Able(s, a, acts)
    && var end := Alone(s, a, acts);
       && Of(end, a) == Created(d, f)
       && d in end.dirs && end.dirs[d].owner == a && end.dirs[d].linked && end.dirs[d].lock == Some(f)
       && end.dirs[d].entries == {} && end.dirs - {d} == s.dirs - {d}
       && Holds(end, a, f) && end.held - {f} == s.held - {f}
  }

  lemma CreatesLater(s: State, a: Actor, act: Act, d: DirId, f: FileId, acts: seq<Act>)
    requires Possible(s, Acts(a, act)) && Creates(After(s, Acts(a, act)), a, d, f, acts)
    requires After(s, Acts(a, act)).dirs - {d} == s.dirs - {d} && After(s, Acts(a, act)).held - {f} == s.held - {f}
    ensures Creates(s, a, d, f, [act] + acts)
  {
    assert ([act] + acts)[1..] == acts;
  }

  lemma LockingCreates(s: State, a: Actor, d: DirId, f: FileId)
    requires Of(s, a) == LockMade(d, f) && f !in s.held
    requires d in s.dirs && s.dirs[d].owner == a && s.dirs[d].linked && s.dirs[d].lock == Some(f) && s.dirs[d].entries == {}
    ensures Creates(s, a, d, f, [Step(f)] + ([Step(f)] + [Step(f)]))
  {
    var s1 := Do(s, a, Step(f));
    var s2 := Do(s1, a, Step(f));
    var s3 := Do(s2, a, Step(f));
    assert Able(s3, a, []) && Alone(s3, a, []) == s3 && Creates(s3, a, d, f, []);
    CreatesLater(s2, a, Step(f), d, f, []);
    assert [Step(f)] + [] == [Step(f)];
    CreatesLater(s1, a, Step(f), d, f, [Step(f)]);
    CreatesLater(s, a, Step(f), d, f, [Step(f)] + [Step(f)]);
  }

  lemma MakingCreates(s: State, a: Actor, d: DirId, f: FileId)
    requires Of(s, a) == Made(d) && f !in s.files && f !in s.held
    requires d in s.dirs && s.dirs[d] == Dir(a, s.now, s.now, true, None, {})
    ensures Creates(s, a, d, f, [Step(f)] + ([Step(f)] + ([Step(f)] + ([Step(f)] + [Step(f)]))))
  {
    var s1 := Do(s, a, Step(f));
    var s2 := Do(s1, a, Step(f));
    var rest := [Step(f)] + ([Step(f)] + [Step(f)]);
    LockingCreates(s2, a, d, f);
    CreatesLater(s1, a, Step(f), d, f, rest);
    CreatesLater(s, a, Step(f), d, f, [Step(f)] + rest);
  }

  /** A create that is left alone returns the dir it made, linked, with its lock file, and holds the
      lock. */
  lemma CreateReturns(s: State, a: Actor, d: DirId, f: FileId)
    requires Of(s, a).Idle? && d !in s.dirs && f !in s.files && f !in s.held
    ensures Creates(s, a, d, f, CreateCourse(d, f))
  {
    var s1 := Do(s, a, Mkdir(d));
    MakingCreates(s1, a, d, f);
    CreatesLater(s, a, Mkdir(d), d, f, [Step(f)] + ([Step(f)] + ([Step(f)] + ([Step(f)] + [Step(f)]))));
  }

  // ---- dead dirs do go ----

  /** With nobody else acting, these acts of one actor are possible in turn, and after them the
      dir is gone, the actor is done, and it holds no lock on the file `g`. */
  ghost predicate Removes(s: State, a: Actor, d: DirId, g: FileId, acts: seq<Act>) {
    && Able(s, a, acts)
    && var end := Alone(s, a, acts);
       && d in end.dirs && !end.dirs[d].linked && end.dirs - {d} == s.dirs - {d}
       && Of(end, a) == Idle && end.held == s.held - {g}
  }

  lemma RemovesLater(s: State, a: Actor, act: Act, d: DirId, g: FileId, acts: seq<Act>)
    requires Possible(s, Acts(a, act)) && Removes(After(s, Acts(a, act)), a, d, g, acts)
    requires After(s, Acts(a, act)).dirs - {d} == s.dirs - {d} && After(s, Acts(a, act)).held - {g} == s.held - {g}
    ensures Removes(s, a, d, g, [act] + acts)
  {
    assert ([act] + acts)[1..] == acts;
  }

  /** What is left of a removal once the dir is empty: its lock file, then the dir, then the lock. */
  function EmptyCourse(): seq<Act> {
    [Step(0)] + ([Step(0)] + [Step(0)])
  }

  /** ... once its lock is taken: everything in it that can be removed is, and nothing stays. */
  function ClearCourse(now: Time): seq<Act> {
    [Change({}, now, false)] + ([Step(0)] + EmptyCourse())
  }

  /** A sweep at `now` that meets a dir with a lock file: it opens the file and takes the lock. */
  function UnheldCourse(now: Time, d: DirId): seq<Act> {
    [Sweep(now)] + ([Pick(d, STALE_NOLOCK_AGE)] + ([Step(0)] + ([Step(0)] + ([Step(0)] + ClearCourse(now)))))
  }

  /** A sweep at `now` that meets a dir without one: it looks at its age, makes the lock file `f`,
      and takes the lock. */
  function OldCourse(now: Time, d: DirId, f: FileId): seq<Act> {
    [Sweep(now)] + ([Pick(d, STALE_NOLOCK_AGE)] +
      ([Step(f)] + ([Step(f)] + ([Step(f)] + ([Step(f)] + ([Step(f)] + ClearCourse(now)))))))
  }

  /** A backend that removes its own dir: it opens it and looks at its lock once more. */
  function LeaveCourse(now: Time): seq<Act> {
    [Leave] + ([Step(0)] + ([Step(0)] + ClearCourse(now)))
  }

  /** A guard that finds the dir with a lock file. */
  function GuardCourse(now: Time, d: DirId): seq<Act> {
    [Guard(d)] + ([Step(0)] + ([Step(0)] + ClearCourse(now)))
  }

  /** A guard that finds the dir without one: its backend is dead, so it makes the file `f`. */
  function GuardClaimCourse(now: Time, d: DirId, f: FileId): seq<Act> {
    [Guard(d)] + ([Step(f)] + ([Claim] + ([Step(f)] + ([Step(f)] + ([Step(f)] + ClearCourse(now))))))
  }

  lemma ReleasingEnds(s: State, a: Actor, d: DirId, g: FileId)
    requires d in s.dirs && !s.dirs[d].linked && Of(s, a) == Releasing(d, g, false)
    ensures Removes(s, a, d, g, [Step(0)])
  {
    var s1 := Do(s, a, Step(0));
    assert Able(s1, a, []) && Alone(s1, a, []) == s1;
    assert s1.held - {g} == s1.held && Removes(s1, a, d, g, []);
    RemovesLater(s, a, Step(0), d, g, []);
    assert [Step(0)] + [] == [Step(0)];
  }

  lemma UnlinkedRemoves(s: State, a: Actor, d: DirId, g: FileId)
    requires d in s.dirs && s.dirs[d].linked && Empty(s.dirs[d]) && Of(s, a) == Unlinked(d, g)
    ensures Removes(s, a, d, g, [Step(0)] + [Step(0)])
  {
    ReleasingEnds(Do(s, a, Step(0)), a, d, g);
    RemovesLater(s, a, Step(0), d, g, [Step(0)]);
  }

  lemma ClearedRemoves(s: State, a: Actor, d: DirId, g: FileId)
    requires d in s.dirs && s.dirs[d].linked && s.dirs[d].entries == {} && Of(s, a) == Unlinking(d, g)
    ensures Removes(s, a, d, g, EmptyCourse())
  {
    UnlinkedRemoves(Do(s, a, Step(0)), a, d, g);
    RemovesLater(s, a, Step(0), d, g, [Step(0)] + [Step(0)]);
  }

  /** With its lock taken, a dir is cleared and removed. */
  lemma ClearingRemoves(s: State, a: Actor, d: DirId, g: FileId)
    requires d in s.dirs && s.dirs[d].linked && s.dirs[d].mtime <= s.now && Of(s, a) == Clearing(d, g)
    ensures Removes(s, a, d, g, ClearCourse(s.now))
  {
    var s1 := Do(s, a, Change({}, s.now, false));
    var s2 := Do(s1, a, Step(0));
    ClearedRemoves(s2, a, d, g);
    RemovesLater(s1, a, Step(0), d, g, EmptyCourse());
    RemovesLater(s, a, Change({}, s.now, false), d, g, [Step(0)] + EmptyCourse());
  }

  lemma LockingRemoves(s: State, a: Actor, d: DirId, g: FileId)
    requires d in s.dirs && DirOk(s, d) && s.dirs[d].linked && g !in s.held && Of(s, a) == Locking(d, g)
    ensures Removes(s, a, d, g, [Step(0)] + ClearCourse(s.now))
  {
    ClearingRemoves(Do(s, a, Step(0)), a, d, g);
    RemovesLater(s, a, Step(0), d, g, ClearCourse(s.now));
  }

  lemma OpeningRemoves(s: State, a: Actor, d: DirId, g: FileId, guards: bool)
    requires d in s.dirs && DirOk(s, d) && s.dirs[d].lock == Some(g) && g !in s.held
    requires Of(s, a) == Opening(d, false, LOCK_TRIES, guards)
    ensures Removes(s, a, d, g, [Step(0)] + ([Step(0)] + ClearCourse(s.now)))
  {
    LockingRemoves(Do(s, a, Step(0)), a, d, g);
    RemovesLater(s, a, Step(0), d, g, [Step(0)] + ClearCourse(s.now));
  }

  /** A sweep left alone removes a dir whose lock nobody holds: its whole course is possible, and
      the dir is gone at the end of it. */
  lemma SweepRemovesUnheld(s: State, a: Actor, d: DirId)
    requires Of(s, a).Idle? && d in s.dirs && DirOk(s, d) && s.dirs[d].linked
    requires s.dirs[d].lock.Some? && s.dirs[d].lock.value !in s.held
    ensures Removes(s, a, d, s.dirs[d].lock.value, UnheldCourse(s.now, d))
  {
    var g := s.dirs[d].lock.value;
    var s1 := Do(s, a, Sweep(s.now));
    var s2 := Do(s1, a, Pick(d, STALE_NOLOCK_AGE));
    var s3 := Do(s2, a, Step(0));
    var rest := [Step(0)] + ([Step(0)] + ClearCourse(s.now));
    OpeningRemoves(s3, a, d, g, false);
    RemovesLater(s2, a, Step(0), d, g, rest);
    RemovesLater(s1, a, Pick(d, STALE_NOLOCK_AGE), d, g, [Step(0)] + rest);
    RemovesLater(s, a, Sweep(s.now), d, g, [Pick(d, STALE_NOLOCK_AGE)] + ([Step(0)] + rest));
  }

  lemma ClaimingRemoves(s: State, a: Actor, d: DirId, f: FileId, tries: nat)
    requires d in s.dirs && DirOk(s, d) && s.dirs[d].linked && s.dirs[d].lock.None? && Of(s, a) == Claiming(d, tries)
    requires f !in s.files && f !in s.held
    ensures Removes(s, a, d, f, [Step(f)] + ([Step(f)] + ClearCourse(s.now)))
  {
    var s1 := Do(s, a, Step(f));
    var s2 := Do(s1, a, Step(f));
    ClearingRemoves(s2, a, d, f);
    RemovesLater(s1, a, Step(f), d, f, ClearCourse(s.now));
    RemovesLater(s, a, Step(f), d, f, [Step(f)] + ClearCourse(s.now));
  }

  lemma LookingRemoves(s: State, a: Actor, d: DirId, f: FileId)
    requires d in s.dirs && DirOk(s, d) && s.dirs[d].linked && s.dirs[d].lock.None?
    requires Of(s, a) == Looking(d, s.now, STALE_NOLOCK_AGE) && s.now > s.dirs[d].mtime + STALE_NOLOCK_AGE
    requires f !in s.files && f !in s.held
    ensures Removes(s, a, d, f, [Step(f)] + ([Step(f)] + ([Step(f)] + ([Step(f)] + ([Step(f)] + ClearCourse(s.now))))))
  {
    var s1 := Do(s, a, Step(f));
    var s2 := Do(s1, a, Step(f));
    var s3 := Do(s2, a, Step(f));
    var rest := [Step(f)] + ([Step(f)] + ClearCourse(s.now));
    ClaimingRemoves(s3, a, d, f, LOCK_TRIES);
    RemovesLater(s2, a, Step(f), d, f, rest);
    RemovesLater(s1, a, Step(f), d, f, [Step(f)] + rest);
    RemovesLater(s, a, Step(f), d, f, [Step(f)] + ([Step(f)] + rest));
  }

  /** A sweep left alone removes a dir with no lock file that has not changed for more than the age. */
  lemma SweepRemovesOld(s: State, a: Actor, d: DirId, f: FileId)
    requires Of(s, a).Idle? && d in s.dirs && DirOk(s, d) && s.dirs[d].linked
    requires s.dirs[d].lock.None? && s.now > s.dirs[d].mtime + STALE_NOLOCK_AGE
    requires f !in s.files && f !in s.held
    ensures Removes(s, a, d, f, OldCourse(s.now, d, f))
  {
    var s1 := Do(s, a, Sweep(s.now));
    var s2 := Do(s1, a, Pick(d, STALE_NOLOCK_AGE));
    var rest := [Step(f)] + ([Step(f)] + ([Step(f)] + ([Step(f)] + ([Step(f)] + ClearCourse(s.now)))));
    LookingRemoves(s2, a, d, f);
    RemovesLater(s1, a, Pick(d, STALE_NOLOCK_AGE), d, f, rest);
    RemovesLater(s, a, Sweep(s.now), d, f, [Pick(d, STALE_NOLOCK_AGE)] + rest);
  }

  /** A backend that leaves removes the dir it has, and lets its lock go. */
  lemma LeaveRemoves(s: State, a: Actor, d: DirId, f: FileId)
    requires Inv(s) && Of(s, a) == Created(d, f)
    ensures Removes(s, a, d, f, LeaveCourse(s.now))
  {
    assert PhaseOk(s, a) && DirOk(s, d);
    var s1 := Do(s, a, Leave);
    var s2 := Do(s1, a, Step(0));
    var s3 := Do(s2, a, Step(0));
    ClearingRemoves(s3, a, d, f);
    RemovesLater(s2, a, Step(0), d, f, ClearCourse(s.now));
    RemovesLater(s1, a, Step(0), d, f, [Step(0)] + ClearCourse(s.now));
    RemovesLater(s, a, Leave, d, f, [Step(0)] + ([Step(0)] + ClearCourse(s.now)));
  }

  /** A guard left alone removes a dir whose lock nobody holds. */
  lemma GuardRemovesUnheld(s: State, a: Actor, d: DirId)
    requires Of(s, a).Idle? && d in s.dirs && DirOk(s, d) && s.dirs[d].linked
    requires s.dirs[d].lock.Some? && s.dirs[d].lock.value !in s.held
    ensures Removes(s, a, d, s.dirs[d].lock.value, GuardCourse(s.now, d))
  {
    var g := s.dirs[d].lock.value;
    OpeningRemoves(Do(s, a, Guard(d)), a, d, g, true);
    RemovesLater(s, a, Guard(d), d, g, [Step(0)] + ([Step(0)] + ClearCourse(s.now)));
  }

  /** A guard left alone removes a dir with no lock file once its backend is dead, whatever its age. */
  lemma GuardRemovesClaimed(s: State, a: Actor, d: DirId, f: FileId)
    requires Of(s, a).Idle? && d in s.dirs && DirOk(s, d) && s.dirs[d].linked
    requires s.dirs[d].lock.None? && Of(s, s.dirs[d].owner).Dead?
    requires f !in s.files && f !in s.held
    ensures Removes(s, a, d, f, GuardClaimCourse(s.now, d, f))
  {
    var s1 := Do(s, a, Guard(d));
    var s2 := Do(s1, a, Step(f));
    var s3 := Do(s2, a, Claim);
    var s4 := Do(s3, a, Step(f));
    var rest := [Step(f)] + ([Step(f)] + ClearCourse(s.now));
    ClaimingRemoves(s4, a, d, f, LOCK_TRIES);
    RemovesLater(s3, a, Step(f), d, f, rest);
    RemovesLater(s2, a, Claim, d, f, [Step(f)] + rest);
    RemovesLater(s1, a, Step(f), d, f, [Claim] + ([Step(f)] + rest));
    RemovesLater(s, a, Guard(d), d, f, [Step(f)] + ([Claim] + ([Step(f)] + rest)));
  }

  lemma EmptiedRemoves(s: State, a: Actor, d: DirId, g: FileId)
    requires d in s.dirs && s.dirs[d].linked && Empty(s.dirs[d]) && Of(s, a) == RemovingAgain(d) && g !in s.held
    ensures Removes(s, a, d, g, [Step(0)])
  {
    var s1 := Do(s, a, Step(0));
    assert Able(s1, a, []) && Alone(s1, a, []) == s1 && s1.held - {g} == s1.held;
    RemovesLater(s, a, Step(0), d, g, []);
    assert [Step(0)] + [] == [Step(0)];
  }

  lemma AgainRemoves(s: State, a: Actor, d: DirId, g: FileId)
    requires d in s.dirs && DirOk(s, d) && s.dirs[d].linked && Of(s, a) == ClearingAgain(d) && g !in s.held
    ensures Removes(s, a, d, g, [Change({}, s.now, true)] + ([Step(0)] + [Step(0)]))
  {
    var s1 := Do(s, a, Change({}, s.now, true));
    EmptiedRemoves(Do(s1, a, Step(0)), a, d, g);
    RemovesLater(s1, a, Step(0), d, g, [Step(0)]);
    RemovesLater(s, a, Change({}, s.now, true), d, g, [Step(0)] + [Step(0)]);
  }

  lemma ReleasingRemoves(s: State, a: Actor, d: DirId, g: FileId)
    requires d in s.dirs && DirOk(s, d) && s.dirs[d].linked && Of(s, a) == Releasing(d, g, true)
    ensures Removes(s, a, d, g, [Step(0)] + ([Change({}, s.now, true)] + ([Step(0)] + [Step(0)])))
  {
    AgainRemoves(Do(s, a, Step(0)), a, d, g);
    RemovesLater(s, a, Step(0), d, g, [Change({}, s.now, true)] + ([Step(0)] + [Step(0)]));
  }

  /** A removal whose rmdir finds something again lets the lock go and clears the dir once more. */
  lemma SecondTryRemoves(s: State, a: Actor, d: DirId, g: FileId)
    requires d in s.dirs && DirOk(s, d) && s.dirs[d].linked && !Empty(s.dirs[d]) && Of(s, a) == Unlinked(d, g)
    ensures Removes(s, a, d, g, [Step(0)] + ([Step(0)] + ([Change({}, s.now, true)] + ([Step(0)] + [Step(0)]))))
  {
    ReleasingRemoves(Do(s, a, Step(0)), a, d, g);
    RemovesLater(s, a, Step(0), d, g, [Step(0)] + ([Change({}, s.now, true)] + ([Step(0)] + [Step(0)])));
  }
}
