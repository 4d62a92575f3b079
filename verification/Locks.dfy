/** The lock files of launchflow/locks.py: the two lock classes, call by call, and the
    protocol that any number of clients run on one lock path, step by step. */
module Locks {
  import opened Options

  type LockId = nat

  /** `flow.lock` at one path. `open(path, "x")` creates the file before `json.dump`
      fills it, so the file is seen empty in between. */
  datatype File = Absent | Empty | Written(id: LockId)

  /// The lock classes, one call at a time
  /// ------------------------------------

  class LockFile {
    var content: File

    constructor ()
      ensures content == Absent
    {
      content := Absent;
    }
  }

  datatype Acquired = Acquired(id: LockId) | EntityLocked

  datatype Released = Released | FileNotFound | Unreadable | LockMismatch

  class LocalLock {
    const file: LockFile
    var lockInfo: Option<LockId>

    constructor (file: LockFile)
      ensures this.file == file && lockInfo == None
    {
      this.file, this.lockInfo := file, None;
    }

    /** `uuid` is the new uuid. It is recorded before the file is created, so a lock
        that failed to be acquired looks acquired afterwards. */
    method Acquire(uuid: LockId) returns (r: Acquired)
      modifies this, file
      ensures lockInfo == Some(uuid)
      ensures r == Acquired(uuid) <==> old(file.content).Absent?
      ensures r.EntityLocked? <==> !old(file.content).Absent?
      ensures file.content == if r.Acquired? then Written(uuid) else old(file.content)
    {
      lockInfo := Some(uuid);
      if !file.content.Absent? {
        return EntityLocked;
      }
      file.content := Empty;
      file.content := Written(uuid);
      return Acquired(uuid);
    }

    method Release() returns (r: Released)
      modifies this, file
      ensures file.content ==
        if old(lockInfo.Some? && file.content == Written(lockInfo.value)) then Absent else old(file.content)
      ensures r.Released? <==> old(lockInfo.None? || file.content == Written(lockInfo.value))
      ensures r.FileNotFound? <==> old(lockInfo.Some? && file.content.Absent?)
      ensures lockInfo == if r.Released? then None else old(lockInfo)
    {
      if lockInfo.Some? {
        match file.content {
          case Absent => return FileNotFound;
          case Empty => return Unreadable;
          case Written(id) =>
            if id != lockInfo.value {
              return LockMismatch;
            }
            file.content := Absent;
        }
        lockInfo := None;
      }
      return Released;
    }

    /** `__aenter__`: a lock that already holds lock information is not acquired again. */
    method Enter(uuid: LockId) returns (r: Acquired)
      modifies this, file
      ensures old(lockInfo).Some? ==> r == Acquired(old(lockInfo).value) && file.content == old(file.content)
      ensures old(lockInfo).None? ==> (r.Acquired? <==> old(file.content).Absent?)
      ensures old(lockInfo).None? ==> file.content == if r.Acquired? then Written(uuid) else old(file.content)
    {
      if lockInfo.Some? {
        return Acquired(lockInfo.value);
      }
      r := Acquire(uuid);
    }

    /** `__aexit__` swallows a missing lock file and nothing else. */
    method Exit() returns (r: Released)
      modifies this, file
      ensures r.Released? <==> old(lockInfo.None? || file.content == Written(lockInfo.value) || file.content.Absent?)
      ensures file.content ==
        if old(lockInfo.Some? && file.content == Written(lockInfo.value)) then Absent else old(file.content)
    {
      r := Release();
      if r.FileNotFound? {
        r := Released;
      }
    }

    /** A lock object whose `Acquire` raised must be dropped: entering it succeeds,
        although another client holds the path. */
    method EnterAfterFailure(uuid: LockId, other: LockId) returns (first: Acquired, second: Acquired)
      requires file.content == Written(other) && other != uuid
      modifies this, file
      ensures first == EntityLocked && second == Acquired(uuid)
      ensures file.content == Written(other)
    {
      first := Acquire(uuid);
      second := Enter(uuid);
    }
  }

  class GCSLock {
    const file: LockFile
    var lockInfo: Option<LockId>

    constructor (file: LockFile)
      ensures this.file == file && lockInfo == None
    {
      this.file, this.lockInfo := file, None;
    }

    /** An upload with `if_generation_match=0`: created and filled in one step. */
    method Acquire(uuid: LockId) returns (r: Acquired)
      modifies this, file
      ensures r == Acquired(uuid) <==> old(file.content).Absent?
      ensures r.EntityLocked? <==> !old(file.content).Absent?
      ensures file.content == if r.Acquired? then Written(uuid) else old(file.content)
      ensures lockInfo == if r.Acquired? then Some(uuid) else old(lockInfo)
    {
      if !file.content.Absent? {
        return EntityLocked;
      }
      file.content := Written(uuid);
      lockInfo := Some(uuid);
      return Acquired(uuid);
    }

    /** A missing or foreign blob is not an error: the lock object is reset. */
    method Release()
      requires !file.content.Empty?
      modifies this, file
      ensures lockInfo == None
      ensures file.content ==
        if old(lockInfo.Some? && file.content == Written(lockInfo.value)) then Absent else old(file.content)
    {
      if lockInfo.Some? {
        match file.content {
          case Absent =>
          case Written(id) =>
            if id == lockInfo.value {
              file.content := Absent;
            }
        }
        lockInfo := None;
      }
    }
  }

  /// The protocol, one step at a time
  /// --------------------------------

  type Client = nat

  /** What a client that is releasing read from the file. */
  datatype Phase =
    | Outside
    | Writing(id: LockId)
    | Holding(id: LockId)
    | Releasing(id: LockId, seen: File)
    | Wiped(id: LockId)
    | ReleasingWiped(id: LockId, seen: File)
    | Crashed

  /** `used` are the uuids generated so far. */
  datatype State = State(file: File, clients: map<Client, Phase>, used: set<LockId>)

  /** `Create` and `Write` are the two halves of a local acquire, `Upload` a GCS one.
      `Wipe` deletes the resource's directory, lock file included, as a destroy does
      before it releases. */
  datatype Action =
    | Create(id: LockId)
    | Write
    | Upload(id: LockId)
    | Read
    | Compare
    | Wipe
    | Crash

  predicate Enabled(s: State, c: Client, a: Action) {
    && c in s.clients
    && var p := s.clients[c];
    match a
    case Create(id) => p.Outside? && id !in s.used
    case Write => p.Writing?
    case Upload(id) => p.Outside? && id !in s.used
    case Read => p.Holding? || p.Wiped?
    case Compare => p.Releasing? || p.ReleasingWiped?
    case Wipe => p.Holding?
    case Crash => true
  }

  /** A release deletes the file in its last step if what it read before is its id. */
  predicate Deletes(s: State, c: Client) {
    && Enabled(s, c, Compare)
    && s.clients[c].seen == Written(s.clients[c].id)
  }

  function Next(s: State, c: Client, a: Action): State
    requires Enabled(s, c, a)
  {
    var p := s.clients[c];
    match a
    case Create(id) =>
      if s.file.Absent? then State(Empty, s.clients[c := Writing(id)], s.used + {id}) else s.(used := s.used + {id})
    case Write => s.(file := Written(p.id), clients := s.clients[c := Holding(p.id)])
    case Upload(id) =>
      if s.file.Absent? then State(Written(id), s.clients[c := Holding(id)], s.used + {id})
      else s.(used := s.used + {id})
    case Read =>
      s.(clients := s.clients[c := if p.Holding? then Releasing(p.id, s.file) else ReleasingWiped(p.id, s.file)])
    case Compare =>
      s.(file := if Deletes(s, c) then Absent else s.file, clients := s.clients[c := Outside])
    case Wipe => s.(file := Absent, clients := s.clients[c := Wiped(p.id)])
    case Crash => s.(clients := s.clients[c := Crashed])
  }

  ghost predicate Step(s: State, s': State) {
    exists c, a :: Enabled(s, c, a) && s' == Next(s, c, a)
  }

  /** A run from `s`, without force-unlock. */
  ghost predicate IsRun(s: State, run: seq<State>) {
    && |run| > 0 && run[0] == s
    && forall i :: 0 <= i < |run| - 1 ==> Step(run[i], run[i + 1])
  }

  function Last(run: seq<State>): State
    requires |run| > 0
  {
    run[|run| - 1]
  }

  predicate Initial(s: State) {
    s.file == Absent && forall c <- s.clients :: s.clients[c] == Outside
  }

  /** Between its successful create and the delete of its release. */
  predicate Inside(s: State, c: Client) {
    c in s.clients && (s.clients[c].Writing? || s.clients[c].Holding? || s.clients[c].Releasing?)
  }

  ghost predicate AtMostOneInside(s: State) {
    forall c, d :: Inside(s, c) && Inside(s, d) ==> c == d
  }

  /** The file is the one that `c` created. */
  predicate Owns(s: State, c: Client)
    requires Inside(s, c)
  {
    match s.clients[c]
    case Writing(_) => s.file == Empty
    case Holding(id) => s.file == Written(id)
    case Releasing(id, seen) => s.file == seen == Written(id)
  }

  ghost predicate OwnersMatch(s: State) {
    forall c :: Inside(s, c) ==> Owns(s, c)
  }

  function IdOf(p: Phase): set<LockId> {
    if p.Outside? || p.Crashed? then {} else {p.id}
  }

  ghost predicate IdsUnique(s: State) {
    && (forall c <- s.clients :: IdOf(s.clients[c]) <= s.used)
    && (forall c, d :: c in s.clients && d in s.clients && c != d ==> IdOf(s.clients[c]) !! IdOf(s.clients[d]))
    && (s.file.Written? ==> s.file.id in s.used)
    && (forall c <- s.clients :: s.clients[c].Wiped? ==> s.file != Written(s.clients[c].id))
    && (forall c <- s.clients :: s.clients[c].ReleasingWiped? ==> s.clients[c].seen != Written(s.clients[c].id))
  }

  ghost predicate Inv(s: State) {
    AtMostOneInside(s) && OwnersMatch(s) && IdsUnique(s)
  }

  /** While another client is inside, a step of `c` leaves the file alone. */
  lemma OthersKeepFile(s: State, c: Client, a: Action, d: Client)
    requires Inv(s) && Enabled(s, c, a) && d != c && Inside(s, d)
    ensures Next(s, c, a).file == s.file && !Inside(Next(s, c, a), c)
  {
    assert !Inside(s, c) && Owns(s, d);
  }

  lemma StepOwners(s: State, c: Client, a: Action)
    requires Inv(s) && Enabled(s, c, a)
    ensures AtMostOneInside(Next(s, c, a)) && OwnersMatch(Next(s, c, a))
  {
    var s' := Next(s, c, a);
    forall d | d != c && Inside(s', d) ensures Inside(s, d) && Owns(s', d) && !Inside(s', c) {
      assert Inside(s, d);
      OthersKeepFile(s, c, a, d);
    }
    if Inside(s', c) {
      assert Inside(s, c) ==> Owns(s, c);
    }
  }

  lemma StepIds(s: State, c: Client, a: Action)
    requires Inv(s) && Enabled(s, c, a)
    ensures IdsUnique(Next(s, c, a))
  {
    assert Inside(s, c) ==> Owns(s, c);
  }

  lemma StepInv(s: State, c: Client, a: Action)
    requires Inv(s) && Enabled(s, c, a)
    ensures Inv(Next(s, c, a))
  {
    StepOwners(s, c, a);
    StepIds(s, c, a);
  }

  lemma {:induction false} RunInv(s: State, run: seq<State>)
    requires Inv(s) && IsRun(s, run)
    ensures Inv(Last(run))
    decreases |run|
  {
    if |run| > 1 {
      var shorter := run[..|run| - 1];
      RunInv(s, shorter);
      var n := |run| - 2;
      assert Step(run[n], run[n + 1]);
      var c, a :| Enabled(run[n], c, a) && run[n + 1] == Next(run[n], c, a);
      StepInv(run[n], c, a);
    }
  }

  lemma InitialInv(s: State)
    requires Initial(s)
    ensures Inv(s)
  {
  }

  /** Mutual exclusion: in any run of any number of clients, crashes included, at most
      one is inside, and the file holds that client's id once it is written. */
  lemma MutualExclusion(s: State, run: seq<State>, c: Client)
    requires Initial(s) && IsRun(s, run)
    requires Inside(Last(run), c)
    ensures forall d :: Inside(Last(run), d) ==> d == c
    ensures Last(run).file == if Last(run).clients[c].Writing? then Empty else Written(Last(run).clients[c].id)
  {
    InitialInv(s);
    RunInv(s, run);
    assert Owns(Last(run), c);
  }

  /** Although a release reads, compares and deletes in separate steps, what it deletes
      is at that moment its own file, and it is inside. */
  lemma OnlyOwnFileDeleted(s: State, run: seq<State>, c: Client)
    requires Initial(s) && IsRun(s, run)
    requires Deletes(Last(run), c)
    ensures Inside(Last(run), c)
    ensures Last(run).file == Written(Last(run).clients[c].id)
  {
    InitialInv(s);
    RunInv(s, run);
    assert Inside(Last(run), c) ==> Owns(Last(run), c);
  }

  /** Creating the file, or the blob, gets a client in exactly if there was none; a client
      that does not get in leaves it alone. */
  lemma GetsInIffAbsent(s: State, run: seq<State>, c: Client, id: LockId, upload: bool)
    requires Initial(s) && IsRun(s, run)
    requires var a := if upload then Upload(id) else Create(id); Enabled(Last(run), c, a)
    ensures var a := if upload then Upload(id) else Create(id);
            && (Inside(Next(Last(run), c, a), c) <==> Last(run).file == Absent)
            && (Last(run).file != Absent ==> Next(Last(run), c, a).file == Last(run).file)
  {
  }

  /** A release of a client that is inside ends with nobody inside and no file, and then
      any other client gets in. */
  lemma ReleaseLetsOthersIn(s: State, run: seq<State>, c: Client, d: Client, id: LockId)
    requires Initial(s) && IsRun(s, run)
    requires Inside(Last(run), c) && Enabled(Last(run), c, Compare)
    requires d in Last(run).clients && d != c && Last(run).clients[d].Outside? && id !in Last(run).used
    ensures var s' := Next(Last(run), c, Compare);
            && s'.file == Absent && s'.clients[c] == Outside && (forall x :: !Inside(s', x))
            && Enabled(s', d, Upload(id)) && Inside(Next(s', d, Upload(id)), d)
            && Enabled(s', d, Create(id)) && Inside(Next(s', d, Create(id)), d)
  {
    InitialInv(s);
    RunInv(s, run);
    assert Owns(Last(run), c);
    forall x ensures !Inside(Next(Last(run), c, Compare), x) {
      assert Inside(Last(run), x) ==> x == c;
    }
  }

  /** A directory wiped under a lock may be locked again at once; the release of the
      client that wiped it then deletes nothing. */
  lemma WipedReleaseDeletesNothing(s: State, run: seq<State>, c: Client)
    requires Initial(s) && IsRun(s, run)
    requires Enabled(Last(run), c, Compare) && Last(run).clients[c].ReleasingWiped?
    ensures Next(Last(run), c, Compare).file == Last(run).file
  {
    InitialInv(s);
    RunInv(s, run);
  }

  /// Force-unlock
  /// ------------

  function ForceUnlocked(s: State): State {
    s.(file := Absent)
  }

  ghost predicate AlwaysExclusive(s: State) {
    forall run :: IsRun(s, run) ==> AtMostOneInside(Last(run))
  }

  /** Removing the lock file is safe exactly when no live client is inside: its owner
      has crashed. Otherwise the next client to acquire the path is inside as well. */
  lemma ForceUnlockSafeIff(s: State, d: Client, uuid: LockId)
    requires Inv(s)
    requires d in s.clients && s.clients[d] == Outside && uuid !in s.used
    ensures AlwaysExclusive(ForceUnlocked(s)) <==> !exists c :: Inside(s, c)
  {
    var f := ForceUnlocked(s);
    assert forall c :: Inside(f, c) <==> Inside(s, c);
    if c :| Inside(s, c) {
      var run := [f, Next(f, d, Upload(uuid))];
      assert Step(run[0], run[1]);
      assert IsRun(f, run);
      assert Inside(run[1], c) && Inside(run[1], d) && c != d;
      assert !AtMostOneInside(Last(run));
    } else {
      assert Inv(f);
      forall run | IsRun(f, run) ensures AtMostOneInside(Last(run)) {
        RunInv(f, run);
      }
    }
  }
}
