/** Any number of clients working on one resource: planning without the lock, taking
    it, comparing what is stored with what was planned, and writing
    (launchflow/flows/create_flows.py:149-307, 387-435; resource_flows.py:181-258;
    unlock_flows.py:7-30). Each step is the stretch between two calls of the store. */
module ResourceProtocol {
  import opened Options
  import opened FlowState

  type Client = nat
  type Stored = Option<ResourceState>

  /** Create clients go from `Planned` to `Committed`, destroy clients from `Listed` to
      `Spared` or `Destroyed`, recovering ones from `Recovering` to `Recovered`. `seen` and
      `from` are how many writes there had been when a destroy client listed the record
      and when it got the lock; it does not look at either. */
  datatype Phase =
    | Idle
    | Planned(existing: Stored) | Locked(existing: Stored) | Validated(existing: Stored)
    | Executing(existing: Stored) | Committed(existing: Stored)
    | Listed(record: ResourceState, seen: nat)
    | Condemned(record: ResourceState, seen: nat, from: nat) | InDestroy(record: ResourceState, seen: nat, from: nat)
    | Spared(record: ResourceState, seen: nat, from: nat) | Destroyed
    | Recovering | Recovered
    | Crashed

  /** One write to the store: which client made it under its how-manieth acquisition of
      the lock, counted over all clients, and what was stored before and after it.
      `planned` is what a create client had planned against. */
  datatype Write = Write(client: Client, turn: nat, planned: Option<Stored>, before: Stored, after: Stored)

  /** `turns` counts the acquisitions so far; `turn` is the last one of each client. */
  datatype State = State(
    stored: Stored, lock: Option<Client>, clients: map<Client, Phase>, turns: nat, turn: map<Client, nat>,
    history: seq<Write>)

  datatype Action =
    | Plan | Acquire | Compare | Abandon | SavePending(record: ResourceState) | SaveFinal(record: ResourceState)
    | Release
    | ListForDestroy | SaveDestroying | Delete | Spare
    | ForceUnlock(owner: Client) | Recover | SaveRecovered
    | Crash

  /** The client holds the lock; it may write, and releases when it is done or an
      exception leaves its section. */
  predicate Holds(p: Phase) {
    !(p.Idle? || p.Planned? || p.Listed? || p.Destroyed? || p.Crashed?)
  }

  /** `_resource_state_differs`, negated: a record planned as absent may have become a
      placeholder of unknown product. */
  predicate Matches(existing: Stored, stored: Stored) {
    if existing.None? then stored.None? || stored.value.product == UNKNOWN_PRODUCT else existing == stored
  }

  predicate Enabled(s: State, c: Client, a: Action) {
    && c in s.clients
    && var p := s.clients[c];
    match a
    case Plan => p.Idle? && (s.stored.Some? ==> !s.stored.value.status.IsPending())
    case Acquire => p.Planned? || p.Listed?
    case Compare => p.Locked?
    case Abandon => p.Validated?
    case SavePending(_) => p.Validated?
    case SaveFinal(_) => p.Executing? || p.Committed?
    case Release => Holds(p) || p.Destroyed?
    case ListForDestroy => p.Idle? && s.stored.Some?
    case SaveDestroying => p.Condemned?
    case Delete => p.InDestroy?
    case Spare => p.InDestroy?
    case ForceUnlock(owner) =>
      p.Idle? && s.stored.Some? && s.lock == Some(owner) && owner in s.clients && s.clients[owner].Crashed?
    case Recover => p.Idle? && s.lock.None? && s.stored.Some?
    case SaveRecovered => p.Recovering? && s.stored.Some?
    case Crash => true
  }

  function To(s: State, c: Client, p: Phase): State {
    s.(clients := s.clients[c := p])
  }

  /** A release deletes the lock only if it is the client's own. */
  function Unlock(s: State, c: Client): State {
    s.(lock := if s.lock == Some(c) then None else s.lock)
  }

  function Lock(s: State, c: Client): State {
    s.(lock := Some(c), turns := s.turns + 1, turn := s.turn[c := s.turns + 1])
  }

  function Put(s: State, c: Client, planned: Option<Stored>, after: Stored): State {
    var turn := if c in s.turn then s.turn[c] else 0;
    s.(stored := after, history := s.history + [Write(c, turn, planned, s.stored, after)])
  }

  function Next(s: State, c: Client, a: Action): State
    requires Enabled(s, c, a)
  {
    var p := s.clients[c];
    match a
    case Plan => To(s, c, Planned(s.stored))
    case Acquire =>
      if s.lock.Some? then To(s, c, Idle)
      else To(Lock(s, c), c, if p.Planned? then Locked(p.existing) else Condemned(p.record, p.seen, |s.history|))
    case Compare =>
      if Matches(p.existing, s.stored) then To(s, c, Validated(p.existing)) else To(Unlock(s, c), c, Idle)
    case Abandon => To(Unlock(s, c), c, Idle)
    case SavePending(record) => To(Put(s, c, Some(p.existing), Some(record)), c, Executing(p.existing))
    case SaveFinal(record) => To(Put(s, c, Some(p.existing), Some(record)), c, Committed(p.existing))
    case Release => To(Unlock(s, c), c, Idle)
    case ListForDestroy => To(s, c, Listed(s.stored.value, |s.history|))
    case SaveDestroying =>
      To(Put(s, c, None, Some(p.record.(status := Destroying))), c, InDestroy(p.record, p.seen, p.from))
    case Delete => To(Put(s, c, None, None).(lock := None), c, Destroyed)
    case Spare => To(Put(s, c, None, Some(p.record.(status := DeleteFailed))), c, Spared(p.record, p.seen, p.from))
    case ForceUnlock(_) => s.(lock := None)
    case Recover => To(Lock(s, c), c, Recovering)
    case SaveRecovered =>
      To(Put(s, c, None, Some(s.stored.value.(status := GivenUp(s.stored.value.status)))), c, Recovered)
    case Crash => To(s, c, Crashed)
  }

  ghost predicate Step(s: State, s': State) {
    exists c, a :: Enabled(s, c, a) && s' == Next(s, c, a)
  }

  ghost predicate IsRun(run: seq<State>) {
    && |run| > 0
    && Initial(run[0])
    && forall i :: 0 <= i < |run| - 1 ==> Step(run[i], run[i + 1])
  }

  function Last(run: seq<State>): State
    requires |run| > 0
  {
    run[|run| - 1]
  }

  predicate Initial(s: State) {
    s.lock.None? && s.history == [] && forall c <- s.clients :: s.clients[c].Idle?
  }

  /** The client has written under this acquisition. */
  predicate HasWritten(p: Phase) {
    p.Executing? || p.Committed? || p.InDestroy? || p.Spared? || p.Recovered?
  }

  /** What was stored after the first `n` writes. */
  function ValueAt(start: Stored, history: seq<Write>, n: nat): Stored
    requires n <= |history|
  {
    if n == 0 then start else history[n - 1].after
  }

  /** The write is the first one of its acquisition. */
  predicate Opens(history: seq<Write>, i: nat)
    requires i < |history|
  {
    i == 0 || history[i - 1].turn < history[i].turn
  }

  /** The write found what the one before it left. */
  predicate FromBefore(start: Stored, history: seq<Write>, i: nat)
    requires i < |history|
  {
    history[i].before == ValueAt(start, history, i)
  }

  /** If the write opens a create, it found exactly what the plan was diffed against, or,
      where nothing was stored then, at most a placeholder of unknown product. */
  predicate AsPlanned(history: seq<Write>, i: nat)
    requires i < |history|
  {
    var w := history[i];
    Opens(history, i) && w.planned.Some? ==>
      || w.before == w.planned.value
      || (w.planned.value.None? && w.before.Some? && w.before.value.product == UNKNOWN_PRODUCT)
  }

  /** The writes of one acquisition come one after the other, and acquisition follows
      acquisition; what an acquisition starts from is what the one before it left, and
      if it creates, what its plan was diffed against. */
  ghost predicate Serial(start: Stored, history: seq<Write>, end: Stored) {
    && ValueAt(start, history, |history|) == end
    && (forall i: nat {:trigger FromBefore(start, history, i)} | i < |history| :: FromBefore(start, history, i))
    && (forall i: nat, j: nat {:trigger InTurn(history[i], history[j])} | j == i + 1 && j < |history| ::
          InTurn(history[i], history[j]))
    && (forall i: nat {:trigger AsPlanned(history, i)} | i < |history| :: AsPlanned(history, i))
  }

  /** Two writes in a row are of one acquisition, or of an earlier and a later one. */
  predicate InTurn(a: Write, b: Write) {
    a.turn < b.turn || (a.turn == b.turn && a.client == b.client && a.planned == b.planned)
  }

  ghost predicate ClientInv(start: Stored, s: State, c: Client)
    requires c in s.clients
  {
    HolderInv(s, c) && DestroyInv(start, s, s.clients[c])
  }

  /** Who holds the lock has the latest turn, and wrote last if it has written. */
  ghost predicate HolderInv(s: State, c: Client)
    requires c in s.clients
  {
    var p := s.clients[c];
    && (Holds(p) ==> s.lock == Some(c) && c in s.turn && s.turn[c] == s.turns)
    && (Holds(p) ==> if HasWritten(p) then WroteLast(s, c) else s.history == [] || LastWrite(s).turn < s.turns)
    && (p.Validated? ==>
          || s.stored == p.existing
          || (p.existing.None? && s.stored.Some? && s.stored.value.product == UNKNOWN_PRODUCT))
  }

  function LastWrite(s: State): Write
    requires s.history != []
  {
    s.history[|s.history| - 1]
  }

  predicate WroteLast(s: State, c: Client)
    requires c in s.clients
  {
    && s.history != [] && LastWrite(s).turn == s.turns && LastWrite(s).client == c
    && LastWrite(s).planned == PlannedBy(s.clients[c])
  }

  function PlannedBy(p: Phase): Option<Stored> {
    if p.Executing? || p.Committed? then Some(p.existing) else None
  }

  ghost predicate DestroyInv(start: Stored, s: State, p: Phase) {
    && (p.Listed? || p.Condemned? || p.InDestroy? || p.Spared? ==>
          p.seen <= |s.history| && ValueAt(start, s.history, p.seen) == Some(p.record))
    && (p.Condemned? ==> p.seen <= p.from == |s.history|)
    && (p.InDestroy? || p.Spared? ==> p.seen <= p.from < |s.history| && Opens(s.history, p.from))
    && (p.InDestroy? ==> s.stored == Some(p.record.(status := Destroying)))
    && (p.Spared? ==> s.stored == Some(p.record.(status := DeleteFailed)))
    && (p.Recovered? ==> s.stored.Some? && !s.stored.value.status.IsPending())
  }

  predicate TurnsBounded(s: State) {
    s.history != [] ==> LastWrite(s).turn <= s.turns
  }

  predicate LockOwned(s: State) {
    s.lock.Some? ==> s.lock.value in s.clients && !s.clients[s.lock.value].Destroyed?
  }

  ghost predicate Inv(start: Stored, s: State) {
    && Serial(start, s.history, s.stored)
    && LockOwned(s) && TurnsBounded(s)
    && (forall c <- s.clients :: ClientInv(start, s, c))
  }

  /** A write by the client that holds the lock. */
  lemma PutSerial(start: Stored, s: State, c: Client, planned: Option<Stored>, after: Stored)
    requires Serial(start, s.history, s.stored) && c in s.turn
    requires s.history != [] ==> InTurn(LastWrite(s), Write(c, s.turn[c], planned, s.stored, after))
    requires planned.Some? && (s.history == [] || LastWrite(s).turn < s.turn[c]) ==>
      || s.stored == planned.value
      || (planned.value.None? && s.stored.Some? && s.stored.value.product == UNKNOWN_PRODUCT)
    ensures Serial(start, Put(s, c, planned, after).history, after)
  {
    var history' := Put(s, c, planned, after).history;
    forall i: nat | i < |history'| ensures FromBefore(start, history', i) && AsPlanned(history', i) {
      if i < |s.history| {
        assert FromBefore(start, s.history, i) && AsPlanned(s.history, i);
      }
    }
    forall i: nat, j: nat | j == i + 1 && j < |history'| ensures InTurn(history'[i], history'[j]) {
      if j < |s.history| {
        assert InTurn(s.history[i], s.history[j]);
      }
    }
  }

  predicate Writes(a: Action) {
    a.SavePending? || a.SaveFinal? || a.SaveDestroying? || a.Delete? || a.Spare? || a.SaveRecovered?
  }

  /** What a writing step writes, and what it had planned against. */
  function PlannedFor(s: State, c: Client, a: Action): Option<Stored>
    requires Enabled(s, c, a) && Writes(a)
  {
    if a.SavePending? || a.SaveFinal? then Some(s.clients[c].existing) else None
  }

  lemma StepHistory(s: State, c: Client, a: Action)
    requires Enabled(s, c, a)
    ensures Writes(a) ==> Next(s, c, a).history == Put(s, c, PlannedFor(s, c, a), Next(s, c, a).stored).history
    ensures !Writes(a) ==> Next(s, c, a).history == s.history && Next(s, c, a).stored == s.stored
    ensures Writes(a) ==> Holds(s.clients[c])
    ensures Writes(a) ==> Next(s, c, a).turns == s.turns && Next(s, c, a).turn == s.turn
    ensures s.turns <= Next(s, c, a).turns
  {
  }

  lemma StepSerial(start: Stored, s: State, c: Client, a: Action)
    requires Inv(start, s) && Enabled(s, c, a)
    ensures Serial(start, Next(s, c, a).history, Next(s, c, a).stored)
    ensures TurnsBounded(Next(s, c, a))
  {
    StepHistory(s, c, a);
    assert ClientInv(start, s, c);
    if Writes(a) {
      PutSerial(start, s, c, PlannedFor(s, c, a), Next(s, c, a).stored);
    }
  }

  lemma StepOther(start: Stored, s: State, c: Client, a: Action, d: Client)
    requires Enabled(s, c, a) && d in s.clients && d != c
    requires ClientInv(start, s, c) && ClientInv(start, s, d) && LockOwned(s)
    ensures d in Next(s, c, a).clients && ClientInv(start, Next(s, c, a), d)
    ensures Holds(s.clients[d]) ==> Next(s, c, a).stored == s.stored && Next(s, c, a).history == s.history
  {
    StepHistory(s, c, a);
  }

  lemma StepOwn(s: State, c: Client, a: Action)
    requires Enabled(s, c, a) && HolderInv(s, c) && TurnsBounded(s)
    ensures c in Next(s, c, a).clients && HolderInv(Next(s, c, a), c)
  {
  }

  lemma StepOwnDestroy(start: Stored, s: State, c: Client, a: Action)
    requires Enabled(s, c, a) && ClientInv(start, s, c) && TurnsBounded(s)
    requires ValueAt(start, s.history, |s.history|) == s.stored
    ensures c in Next(s, c, a).clients && DestroyInv(start, Next(s, c, a), Next(s, c, a).clients[c])
  {
  }

  lemma StepLock(start: Stored, s: State, c: Client, a: Action)
    requires Enabled(s, c, a) && ClientInv(start, s, c) && LockOwned(s)
    ensures LockOwned(Next(s, c, a))
  {
  }

  lemma StepInv(start: Stored, s: State, c: Client, a: Action)
    requires Inv(start, s) && Enabled(s, c, a)
    ensures Inv(start, Next(s, c, a))
  {
    assert ClientInv(start, s, c);
    StepSerial(start, s, c, a);
    StepOwn(s, c, a);
    StepOwnDestroy(start, s, c, a);
    StepLock(start, s, c, a);
    forall d | d in s.clients && d != c ensures ClientInv(start, Next(s, c, a), d) {
      StepOther(start, s, c, a, d);
    }
  }

  lemma {:induction false} RunInv(run: seq<State>)
    requires IsRun(run)
    ensures Inv(run[0].stored, Last(run))
    decreases |run|
  {
    if |run| > 1 {
      var shorter := run[..|run| - 1];
      RunInv(shorter);
      var n := |run| - 2;
      assert Step(run[n], run[n + 1]);
      var c, a :| Enabled(run[n], c, a) && run[n + 1] == Next(run[n], c, a);
      StepInv(run[0].stored, run[n], c, a);
    }
  }

  /** Serialisability: however the clients interleave, crash and recover, the stored
      record is the outcome of their acquisitions one after the other, and every create
      starts from exactly the record that its plan was diffed against. */
  lemma Serialisable(run: seq<State>)
    requires IsRun(run)
    ensures Serial(run[0].stored, Last(run).history, Last(run).stored)
  {
    RunInv(run);
  }

  /** Between two writes of one acquisition there are only writes of that acquisition. */
  lemma {:induction false} NobodyBetween(run: seq<State>, i: nat, k: nat, j: nat)
    requires IsRun(run)
    requires i <= k <= j < |Last(run).history| && Last(run).history[i].turn == Last(run).history[j].turn
    ensures Last(run).history[k].turn == Last(run).history[i].turn
    ensures Last(run).history[k].client == Last(run).history[i].client
  {
    var h := Last(run).history;
    RunInv(run);
    TurnsGrow(h, i, k);
    TurnsGrow(h, k, j);
  }

  lemma {:induction false} TurnsGrow(h: seq<Write>, i: nat, j: nat)
    requires forall a: nat, b: nat {:trigger InTurn(h[a], h[b])} | b == a + 1 && b < |h| :: InTurn(h[a], h[b])
    requires i <= j < |h|
    ensures h[i].turn <= h[j].turn
    ensures h[i].turn == h[j].turn ==> h[i].client == h[j].client
    decreases j - i
  {
    if i < j {
      assert InTurn(h[i], h[i + 1]);
      TurnsGrow(h, i + 1, j);
    }
  }

  /** From the comparison under the lock to its first write, a create client has the
      stored record it planned against. */
  lemma StartsFromPlanned(run: seq<State>, c: Client)
    requires IsRun(run)
    requires c in Last(run).clients && Last(run).clients[c].Validated?
    ensures var planned, stored := Last(run).clients[c].existing, Last(run).stored;
            || stored == planned
            || (planned.None? && stored.Some? && stored.value.product == UNKNOWN_PRODUCT)
  {
    RunInv(run);
    assert ClientInv(run[0].stored, Last(run), c);
  }

  /** The comparison lets a client through exactly if what is stored is what it planned
      against, or a placeholder where it had planned against nothing. A client that is not
      let through leaves the lock free and has written nothing. */
  lemma CompareDecides(run: seq<State>, c: Client)
    requires IsRun(run)
    requires c in Last(run).clients && Last(run).clients[c].Locked?
    ensures Enabled(Last(run), c, Compare)
    ensures var s, s', planned := Last(run), Next(Last(run), c, Compare), Last(run).clients[c].existing;
            && s'.stored == s.stored && s'.history == s.history
            && (if s.stored == planned || (planned.None? && s.stored.Some? && s.stored.value.product == UNKNOWN_PRODUCT)
                then s'.clients == s.clients[c := Validated(planned)] && s'.lock == Some(c)
                else s'.clients == s.clients[c := Idle] && s'.lock == None)
  {
    RunInv(run);
    assert ClientInv(run[0].stored, Last(run), c);
  }

  /** What is stored while a destroy has the lock: the listed record in progress; nothing
      and no lock once it has deleted. A recovery leaves no record in progress. */
  lemma WhileLocked(run: seq<State>, c: Client)
    requires IsRun(run) && c in Last(run).clients
    ensures var s, p := Last(run), Last(run).clients[c];
            && (p.InDestroy? ==> s.stored == Some(p.record.(status := Destroying)) && Enabled(s, c, Delete))
            && (p.InDestroy? ==> Next(s, c, Delete).stored.None? && Next(s, c, Delete).lock.None?)
            && (p.Recovered? ==>
                  s.stored.Some? && s.stored.value.status !in {Creating, Updating, Replacing, Destroying})
  {
    RunInv(run);
    assert ClientInv(run[0].stored, Last(run), c);
  }

  /** While a client holds the lock nobody else writes, and nobody else holds it. */
  lemma NoForeignWrite(run: seq<State>, holder: Client, c: Client, a: Action)
    requires IsRun(run)
    requires holder in Last(run).clients && Holds(Last(run).clients[holder])
    requires Enabled(Last(run), c, a) && c != holder
    ensures Next(Last(run), c, a).stored == Last(run).stored
    ensures Next(Last(run), c, a).history == Last(run).history
    ensures Next(Last(run), c, a).lock == Some(holder) && !Holds(Next(Last(run), c, a).clients[c])
  {
    RunInv(run);
    assert ClientInv(run[0].stored, Last(run), c) && ClientInv(run[0].stored, Last(run), holder);
    StepOther(run[0].stored, Last(run), c, a, holder);
    assert ClientInv(run[0].stored, Next(Last(run), c, a), holder);
    StepInv(run[0].stored, Last(run), c, a);
    assert ClientInv(run[0].stored, Next(Last(run), c, a), c);
  }

  /// Destroy clients do not compare
  /// ------------------------------

  /** A teardown that failed has changed nothing but the status exactly if nobody wrote
      between its listing and its locking, or the last one to do so left what had been
      listed but for its status. */
  lemma FailedDestroyKeepsIff(run: seq<State>, c: Client)
    requires IsRun(run)
    requires c in Last(run).clients && Last(run).clients[c].Spared?
    ensures var p, s, start := Last(run).clients[c], Last(run), run[0].stored;
            && p.seen <= p.from < |s.history| && Opens(s.history, p.from)
            && s.stored == Some(p.record.(status := DeleteFailed))
            && ValueAt(start, s.history, p.seen) == Some(p.record)
            && (SameButStatus(s.stored, ValueAt(start, s.history, p.from)) <==>
                  p.seen == p.from || SameButStatus(Some(p.record), s.history[p.from - 1].after))
  {
    RunInv(run);
    assert ClientInv(run[0].stored, Last(run), c);
  }

  predicate SameButStatus(a: Stored, b: Stored) {
    if a.None? || b.None? then a.None? && b.None? else a.value.(status := b.value.status) == b.value
  }

  lemma Extend(run: seq<State>, c: Client, a: Action) returns (run': seq<State>)
    requires IsRun(run) && Enabled(Last(run), c, a)
    ensures IsRun(run') && Last(run') == Next(Last(run), c, a) && run'[0] == run[0]
  {
    run' := run + [Next(Last(run), c, a)];
    forall i | 0 <= i < |run'| - 1 ensures Step(run'[i], run'[i + 1]) {
      if i < |run| - 1 {
        assert Step(run[i], run[i + 1]);
      } else {
        assert Enabled(run'[i], c, a) && run'[i + 1] == Next(run'[i], c, a);
      }
    }
  }

  ghost predicate At(run: seq<State>, start: Stored, stored: Stored, lock: Option<Client>, creator: Phase,
                     destroyer: Phase) {
    && IsRun(run) && run[0].stored == start
    && Last(run).stored == stored && Last(run).lock == lock
    && Last(run).clients == map[0 := creator, 1 := destroyer]
  }

  /** Client 1 lists the record for a destroy; client 0 plans an update and takes the lock. */
  lemma ListThenUpdate(listed: ResourceState) returns (run: seq<State>)
    requires !listed.status.IsPending()
    ensures At(run, Some(listed), Some(listed), Some(0), Validated(Some(listed)), Listed(listed, 0))
    ensures Last(run).history == []
  {
    run := [State(Some(listed), None, map[0 := Idle, 1 := Idle], 0, map[], [])];
    run := Extend(run, 1, ListForDestroy);
    run := Extend(run, 0, Plan);
    assert At(run, Some(listed), Some(listed), None, Planned(Some(listed)), Listed(listed, 0));
    run := Extend(run, 0, Acquire);
    assert At(run, Some(listed), Some(listed), Some(0), Locked(Some(listed)), Listed(listed, 0));
    run := Extend(run, 0, Compare);
  }

  lemma SavePendingUpdate(before: seq<State>, listed: ResourceState, pending: ResourceState) returns (run: seq<State>)
    requires At(before, Some(listed), Some(listed), Some(0), Validated(Some(listed)), Listed(listed, 0))
    requires Last(before).history == []
    ensures At(run, Some(listed), Some(pending), Some(0), Executing(Some(listed)), Listed(listed, 0))
    ensures |Last(run).history| == 1
  {
    run := Extend(before, 0, SavePending(pending));
  }

  lemma SaveFinalUpdate(before: seq<State>, listed: ResourceState, pending: ResourceState, updated: ResourceState)
    returns (run: seq<State>)
    requires At(before, Some(listed), Some(pending), Some(0), Executing(Some(listed)), Listed(listed, 0))
    requires |Last(before).history| == 1
    ensures At(run, Some(listed), Some(updated), None, Idle, Listed(listed, 0))
    ensures |Last(run).history| == 2 && Last(run).history[1].client == 0 && Last(run).history[1].after == Some(updated)
  {
    run := Extend(before, 0, SaveFinal(updated));
    assert At(run, Some(listed), Some(updated), Some(0), Committed(Some(listed)), Listed(listed, 0));
    run := Extend(run, 0, Release);
  }

  /** A destroy writes the record it listed before it took the lock. If an update was
      saved in between and the teardown then fails, the update's record is lost. */
  lemma FailedDestroyMayLoseUpdate(listed: ResourceState, updated: ResourceState) returns (run: seq<State>)
    requires !listed.status.IsPending()
    ensures IsRun(run) && run[0].stored == Some(listed)
    ensures exists write <- Last(run).history :: write.client == 0 && write.after == Some(updated)
    ensures Last(run).stored == Some(listed.(status := DeleteFailed))
  {
    run := ListThenUpdate(listed);
    var pending := listed.(status := Updating);
    run := SavePendingUpdate(run, listed, pending);
    run := SaveFinalUpdate(run, listed, pending, updated);
    run := Extend(run, 1, Acquire);
    assert At(run, Some(listed), Some(updated), Some(1), Idle, Condemned(listed, 0, 2));
    run := Extend(run, 1, SaveDestroying);
    assert Last(run).clients == map[0 := Idle, 1 := InDestroy(listed, 0, 2)];
    run := Extend(run, 1, Spare);
    assert Last(run).history[1].after == Some(updated);
  }
}
