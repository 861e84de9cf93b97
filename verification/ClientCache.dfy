/**
  The remote-client cache of pkg/clients/kubevirt_client_manager.go at the granularity of single steps of any
  number of goroutines: RLock, the cached look-up, RUnlock, Lock, the second look-up, the build, the store, Unlock;
  and the two invalidations. Lock is two steps, as in sync.RWMutex: a writer first announces itself, which holds back
  new readers and other writers, and then waits for the readers that are in. `past` keeps every cache the map ever was, so a call's interval can be inspected.
*/
module ClientCache {
  import opened Wrappers

  type Name = string
  type Client = nat          // identity of one constructed client
  type Tid = nat

  datatype PC =
    | Begin(n: Name, since: nat)
    | Reading(n: Name, since: nat)                         // holds the read lock
    | ReadHit(n: Name, since: nat, c: Client, at: nat)     // holds the read lock
    | ReadMiss(n: Name, since: nat)                        // holds the read lock
    | WantLock(n: Name, since: nat)
    | Announced(n: Name, since: nat)                       // waits for the readers to leave
    | Checking(n: Name, since: nat)                        // holds the write lock from here on
    | Building(n: Name, since: nat)
    | Built(n: Name, since: nat, c: Client)
    | BuildFailed(n: Name, since: nat)
    | WriteHit(n: Name, since: nat, c: Client, at: nat)
    | Returned(n: Name, since: nat, c: Client, at: nat)
    | ReturnedError(n: Name, since: nat)
    | WantInvalidate(target: Option<Name>, since: nat)     // None: InvalidateAll
    | InvalidateAnnounced(target: Option<Name>, since: nat) // waits for the readers to leave
    | Invalidating(target: Option<Name>, since: nat)       // holds the write lock
    | Invalidated(target: Option<Name>, since: nat)        // holds the write lock
    | Finished(target: Option<Name>, since: nat)

  predicate ReadLocked(pc: PC) { pc.Reading? || pc.ReadHit? || pc.ReadMiss? }

  predicate HasAnnounced(pc: PC) { pc.Announced? || pc.InvalidateAnnounced? || WriteLocked(pc) }

  predicate WriteLocked(pc: PC) {
    pc.Checking? || pc.Building? || pc.Built? || pc.BuildFailed? || pc.WriteHit? || pc.Invalidating? || pc.Invalidated?
  }

  datatype State = State(
    clients: map<Name, Client>,
    readers: set<Tid>,
    pending: Option<Tid>,              // the writer that announced itself, until it unlocks
    writer: Option<Tid>,
    threads: map<Tid, PC>,
    past: seq<map<Name, Client>>,
    builds: map<Name, nat>,            // successful builds per name
    removals: map<Name, nat>,          // removals of a present entry per name
    produced: set<(Name, Client)>)     // what successful builds returned

  function Count(m: map<Name, nat>, n: Name): nat { if n in m then m[n] else 0 }

  /** The position in `past` of the cache as it is now. */
  function Now(s: State): nat { if |s.past| == 0 then 0 else |s.past| - 1 }

  predicate Init(s: State) {
    s == State(map[], {}, None, None, map[], [map[]], map[], map[], {})
  }

  /** What one step of a thread does to the shared state. */
  datatype Effect =
    | Nothing
    | RLock
    | RUnlock
    | Announce
    | Lock
    | Unlock
    | Build(n: Name, c: Client)
    | Store(n: Name, c: Client)
    | Remove(target: Option<Name>)

  /** A new call starts, or thread `t` takes its next step; `built` is what a build in that step returns. */
  datatype Action = Call(t: Tid, n: Name) | Invalidate(t: Tid, target: Option<Name>) | Step(t: Tid, built: Option<Client>)

  predicate Stopped(pc: PC) { pc.Returned? || pc.ReturnedError? || pc.Finished? }

  /** The program text: the effect of the step a thread takes at `pc`, and where it goes. */
  function Code(pc: PC, clients: map<Name, Client>, now: nat, built: Option<Client>): (Effect, PC) {
    match pc
    case Begin(n, since) => (RLock, Reading(n, since))
    case Reading(n, since) =>
      (Nothing, if n in clients then ReadHit(n, since, clients[n], now) else ReadMiss(n, since))
    case ReadHit(n, since, c, at) => (RUnlock, Returned(n, since, c, at))
    case ReadMiss(n, since) => (RUnlock, WantLock(n, since))
    case WantLock(n, since) => (Announce, Announced(n, since))
    case Announced(n, since) => (Lock, Checking(n, since))
    case Checking(n, since) =>
      (Nothing, if n in clients then WriteHit(n, since, clients[n], now) else Building(n, since))
    case Building(n, since) =>
      if built.None? then (Nothing, BuildFailed(n, since))
      else (Build(n, built.value), Built(n, since, built.value))
    case Built(n, since, c) => (Store(n, c), WriteHit(n, since, c, now + 1))
    case BuildFailed(n, since) => (Unlock, ReturnedError(n, since))
    case WriteHit(n, since, c, at) => (Unlock, Returned(n, since, c, at))
    case WantInvalidate(target, since) => (Announce, InvalidateAnnounced(target, since))
    case InvalidateAnnounced(target, since) => (Lock, Invalidating(target, since))
    case Invalidating(target, since) => (Remove(target), Invalidated(target, since))
    case Invalidated(target, since) => (Unlock, Finished(target, since))
    case _ => (Nothing, pc)
  }

  /** A lock step waits: readers and other writers for an announced writer, that writer for the readers that are in. */
  predicate MayDo(s: State, e: Effect) {
    (e.RLock? || e.Announce? ==> s.pending.None?) && (e.Lock? ==> s.readers == {})
  }

  predicate Enabled(s: State, a: Action) {
    match a
    case Call(t, _) => t !in s.threads
    case Invalidate(t, _) => t !in s.threads
    case Step(t, built) =>
      t in s.threads && !Stopped(s.threads[t]) && MayDo(s, Code(s.threads[t], s.clients, Now(s), built).0)
  }

  function Removed(clients: map<Name, Client>, target: Option<Name>): map<Name, Client> {
    if target.None? then map[] else clients - {target.value}
  }

  function CountRemoved(s: State, target: Option<Name>): map<Name, nat> {
    match target
    case None => map n | n in s.removals.Keys + s.clients.Keys :: Count(s.removals, n) + (if n in s.clients then 1 else 0)
    case Some(n) => if n in s.clients then s.removals[n := Count(s.removals, n) + 1] else s.removals
  }

  function Perform(s: State, t: Tid, e: Effect): State {
    match e
    case Nothing => s
    case RLock => s.(readers := s.readers + {t})
    case RUnlock => s.(readers := s.readers - {t})
    case Announce => s.(pending := Some(t))
    case Lock => s.(writer := Some(t))
    case Unlock => s.(writer := None, pending := None)
    case Build(n, c) => s.(builds := s.builds[n := Count(s.builds, n) + 1], produced := s.produced + {(n, c)})
    case Store(n, c) => s.(clients := s.clients[n := c])
    case Remove(target) => s.(clients := Removed(s.clients, target), removals := CountRemoved(s, target))
  }

  function EffectOf(s: State, a: Action): Effect
    requires Enabled(s, a)
  {
    if a.Step? then Code(s.threads[a.t], s.clients, Now(s), a.built).0 else Nothing
  }

  function Goto(s: State, a: Action): PC
    requires Enabled(s, a)
  {
    match a
    case Call(t, n) => Begin(n, Now(s))
    case Invalidate(t, target) => WantInvalidate(target, Now(s))
    case Step(t, built) => Code(s.threads[t], s.clients, Now(s), built).1
  }

  function Do(s: State, a: Action): State
    requires Enabled(s, a)
  {
    var s' := Perform(s, a.t, EffectOf(s, a));
    s'.(threads := s.threads[a.t := Goto(s, a)], past := s.past + [s'.clients])
  }

  // ---- the invariant ----

  /** The writer excludes every reader and every other writer. */
  ghost predicate Exclusion(s: State) {
    && (forall t :: t in s.readers <==> t in s.threads && ReadLocked(s.threads[t]))
    && (forall t :: s.writer == Some(t) <==> t in s.threads && WriteLocked(s.threads[t]))
    && (forall t :: s.pending == Some(t) <==> t in s.threads && HasAnnounced(s.threads[t]))
    && (s.writer.Some? ==> s.readers == {})
  }

  /** A client built but not stored yet. */
  predicate Pending(s: State, n: Name) {
    s.writer.Some? && s.writer.value in s.threads && s.threads[s.writer.value].Built? && s.threads[s.writer.value].n == n
  }

  /** Every successful build is either removed again, cached, or about to be stored. */
  ghost predicate Balanced(s: State) {
    forall n :: Count(s.builds, n) ==
      Count(s.removals, n) + (if n in s.clients then 1 else 0) + (if Pending(s, n) then 1 else 0)
  }

  /** While a thread builds for a name, nothing is cached for it. */
  ghost predicate ColdWhileBuilding(s: State) {
    forall t :: t in s.threads && (s.threads[t].Building? || s.threads[t].Built?) ==> s.threads[t].n !in s.clients
  }

  /** Only what a successful build produced is cached or waits to be. */
  ghost predicate OnlyProduced(s: State) {
    && (forall n :: n in s.clients ==> (n, s.clients[n]) in s.produced)
    && (forall t :: t in s.threads && s.threads[t].Built? ==> (s.threads[t].n, s.threads[t].c) in s.produced)
  }

  predicate WasCached(s: State, n: Name, c: Client, since: nat, at: nat) {
    since <= at < |s.past| && n in s.past[at] && s.past[at][n] == c
  }

  ghost predicate Witnessed(s: State) {
    && |s.past| >= 1 && s.past[|s.past| - 1] == s.clients
    && (forall t :: t in s.threads ==> s.threads[t].since < |s.past|)
    && (forall t :: t in s.threads && Holds(s.threads[t]) ==> var p := s.threads[t]; WasCached(s, p.n, p.c, p.since, p.at))
  }

  predicate Holds(pc: PC) { pc.ReadHit? || pc.WriteHit? || pc.Returned? }

  ghost predicate Inv(s: State) {
    Exclusion(s) && Balanced(s) && ColdWhileBuilding(s) && OnlyProduced(s) && Witnessed(s)
  }

  lemma InitInv(s: State)
    requires Init(s)
    ensures Inv(s)
  {
  }

  /** The locks a thread holds change exactly with its lock steps. */
  predicate LocksMatch(e: Effect, before: Option<PC>, after: PC) {
    var r := before.Some? && ReadLocked(before.value);
    var w := before.Some? && WriteLocked(before.value);
    var p := before.Some? && HasAnnounced(before.value);
    match e
    case RLock => !r && !p && ReadLocked(after) && !HasAnnounced(after)
    case RUnlock => r && !p && !ReadLocked(after) && !HasAnnounced(after)
    case Announce => !r && !p && !ReadLocked(after) && HasAnnounced(after) && !WriteLocked(after)
    case Lock => !r && !w && p && !ReadLocked(after) && WriteLocked(after)
    case Unlock => !r && w && !ReadLocked(after) && !HasAnnounced(after)
    case _ => ReadLocked(after) == r && WriteLocked(after) == w && HasAnnounced(after) == p
  }

  function At(s: State, t: Tid): Option<PC> { if t in s.threads then Some(s.threads[t]) else None }

  lemma CodeMatchesLocks(s: State, a: Action)
    requires Enabled(s, a)
    ensures LocksMatch(EffectOf(s, a), At(s, a.t), Goto(s, a))
  {
  }

  lemma StepKeepsExclusion(s: State, a: Action)
    requires Exclusion(s) && Enabled(s, a)
    ensures Exclusion(Do(s, a))
  {
    CodeMatchesLocks(s, a);
    var e, pc := EffectOf(s, a), Goto(s, a);
    assert MayDo(s, e);
    hide EffectOf, Goto, Enabled;
  }

  lemma StepKeepsBalance(s: State, a: Action)
    requires Exclusion(s) && Balanced(s) && ColdWhileBuilding(s) && Enabled(s, a)
    ensures Balanced(Do(s, a))
  {
    StepKeepsExclusion(s, a);
    var s' := Do(s, a);
    forall n ensures Count(s'.builds, n) ==
        Count(s'.removals, n) + (if n in s'.clients then 1 else 0) + (if Pending(s', n) then 1 else 0)
    {
      assert Count(s.builds, n) == Count(s.removals, n) + (if n in s.clients then 1 else 0) + (if Pending(s, n) then 1 else 0);
      BalanceAt(s, a, n);
    }
  }

  /** A build leaves a client pending, its store takes the mark away, and no other step touches it. */
  lemma PendingFollowsEffect(s: State, a: Action, n: Name)
    requires Exclusion(s) && Enabled(s, a) && Exclusion(Do(s, a))
    ensures var e := EffectOf(s, a);
            && (e.Build? && e.n == n ==> !Pending(s, n) && Pending(Do(s, a), n))
            && (e.Store? && e.n == n ==> Pending(s, n) && !Pending(Do(s, a), n))
            && (!((e.Build? || e.Store?) && e.n == n) ==> Pending(Do(s, a), n) == Pending(s, n))
  {
    var w := s.writer;
    if a.Step? {
      assert s.writer == Some(a.t) <==> WriteLocked(s.threads[a.t]);
    } else {
      assert s.writer != Some(a.t);
    }
  }

  function Cached(s: State, n: Name): nat { if n in s.clients then 1 else 0 }

  /** What an effect adds to builds, removals and the cache. */
  lemma EffectCounts(s: State, t: Tid, e: Effect, n: Name)
    requires e.Store? ==> e.n !in s.clients
    ensures var s' := Perform(s, t, e);
            && Count(s'.builds, n) == Count(s.builds, n) + (if e.Build? && e.n == n then 1 else 0)
            && Count(s'.removals, n) + Cached(s', n)
               == Count(s.removals, n) + Cached(s, n) + (if e.Store? && e.n == n then 1 else 0)
  {
  }

  lemma BalanceAt(s: State, a: Action, n: Name)
    requires Exclusion(s) && ColdWhileBuilding(s) && Enabled(s, a) && Exclusion(Do(s, a))
    ensures var s' := Do(s, a);
            Count(s'.builds, n) + Count(s.removals, n) + (if n in s.clients then 1 else 0) + (if Pending(s, n) then 1 else 0)
            == Count(s.builds, n) + Count(s'.removals, n) + (if n in s'.clients then 1 else 0) + (if Pending(s', n) then 1 else 0)
  {
    PendingFollowsEffect(s, a, n);
    var e := EffectOf(s, a);
    assert e.Store? ==> e.n !in s.clients;
    EffectCounts(s, a.t, e, n);
    var p := Perform(s, a.t, e);
    var s' := Do(s, a);
    assert s'.builds == p.builds && s'.removals == p.removals && s'.clients == p.clients;
    hide Perform, Do, Pending, EffectOf, Enabled, Exclusion, ColdWhileBuilding;
  }

  lemma StepKeepsCold(s: State, a: Action)
    requires Exclusion(s) && ColdWhileBuilding(s) && Enabled(s, a)
    ensures ColdWhileBuilding(Do(s, a))
  {
  }

  lemma StepKeepsProduced(s: State, a: Action)
    requires OnlyProduced(s) && Enabled(s, a)
    ensures OnlyProduced(Do(s, a))
  {
    var e, pc := EffectOf(s, a), Goto(s, a);
    assert pc.Built? ==> e.Build? && e.n == pc.n && e.c == pc.c;
    assert e.Store? ==> (e.n, e.c) in s.produced;
    hide EffectOf, Goto, Enabled, Count, CountRemoved;
  }

  lemma StepKeepsWitnesses(s: State, a: Action)
    requires Witnessed(s) && Enabled(s, a)
    ensures Witnessed(Do(s, a))
  {
    var s' := Do(s, a);
    forall n, c, since: nat, at: nat | WasCached(s, n, c, since, at) ensures WasCached(s', n, c, since, at) {
      assert s'.past[at] == s.past[at];
    }
    forall t | t in s'.threads && Holds(s'.threads[t])
      ensures var p := s'.threads[t]; WasCached(s', p.n, p.c, p.since, p.at)
    {
      if t in s.threads && Holds(s.threads[t]) {
        var p := s.threads[t];
        assert WasCached(s, p.n, p.c, p.since, p.at);
      }
    }
  }

  lemma StepKeepsInv(s: State, a: Action)
    requires Inv(s) && Enabled(s, a)
    ensures Inv(Do(s, a))
  {
    StepKeepsExclusion(s, a);
    StepKeepsBalance(s, a);
    StepKeepsCold(s, a);
    StepKeepsProduced(s, a);
    StepKeepsWitnesses(s, a);
  }

  // ---- every interleaving ----

  ghost predicate IsExecution(ss: seq<State>, acts: seq<Action>) {
    && |ss| == |acts| + 1 && Init(ss[0])
    && (forall i :: 0 <= i < |acts| ==> Enabled(ss[i], acts[i]) && ss[i + 1] == Do(ss[i], acts[i]))
  }

  lemma {:induction false} ExecutionKeepsInv(ss: seq<State>, acts: seq<Action>, i: nat)
    requires IsExecution(ss, acts) && i < |ss|
    ensures Inv(ss[i])
  {
    if i == 0 {
      InitInv(ss[0]);
    } else {
      ExecutionKeepsInv(ss, acts, i - 1);
      StepKeepsInv(ss[i - 1], acts[i - 1]);
    }
  }

  /** One build per cold cache: with the write lock free, builds = removals + what is cached, for every name. */
  lemma BuildsAreAccountedFor(ss: seq<State>, acts: seq<Action>, i: nat, n: Name)
    requires IsExecution(ss, acts) && i < |ss| && ss[i].writer.None?
    ensures Count(ss[i].builds, n) == Count(ss[i].removals, n) + (if n in ss[i].clients then 1 else 0)
  {
    ExecutionKeepsInv(ss, acts, i);
  }

  lemma WriterExcludes(ss: seq<State>, acts: seq<Action>, i: nat, t: Tid, u: Tid)
    requires IsExecution(ss, acts) && i < |ss| && t != u && t in ss[i].threads && u in ss[i].threads
    requires WriteLocked(ss[i].threads[t])
    ensures !WriteLocked(ss[i].threads[u]) && !ReadLocked(ss[i].threads[u])
  {
    ExecutionKeepsInv(ss, acts, i);
    assert ss[i].writer == Some(t);
    assert u !in ss[i].readers;
  }

  /** The two locks never deadlock: while a call is unfinished, some thread can take its next step. */
  lemma SomeThreadCanStep(ss: seq<State>, acts: seq<Action>, i: nat, t: Tid)
    requires IsExecution(ss, acts) && i < |ss| && t in ss[i].threads && !Stopped(ss[i].threads[t])
    ensures exists u :: Enabled(ss[i], Step(u, None))
  {
    ExecutionKeepsInv(ss, acts, i);
    var s := ss[i];
    var u :=
      if s.writer.Some? then s.writer.value
      else if s.readers != {} then (var r :| r in s.readers; r)
      else if s.pending.Some? then s.pending.value
      else t;
    assert s.writer == Some(u) ==> WriteLocked(s.threads[u]);
    assert s.pending == Some(u) ==> HasAnnounced(s.threads[u]);
    assert Enabled(s, Step(u, None));
  }

  lemma FailedBuildsAreNotCached(ss: seq<State>, acts: seq<Action>, i: nat, n: Name)
    requires IsExecution(ss, acts) && i < |ss| && n in ss[i].clients
    ensures (n, ss[i].clients[n]) in ss[i].produced
  {
    ExecutionKeepsInv(ss, acts, i);
  }

  /** Linearization point: what a call returns was the cached client of its name at a moment inside the call. */
  lemma ReturnedWasCached(ss: seq<State>, acts: seq<Action>, i: nat, t: Tid)
    requires IsExecution(ss, acts) && i < |ss| && t in ss[i].threads && ss[i].threads[t].Returned?
    ensures var p := ss[i].threads[t];
            exists at :: p.since <= at <= i && p.n in ss[at].clients && ss[at].clients[p.n] == p.c
  {
    ExecutionKeepsInv(ss, acts, i);
    PastIsHistory(ss, acts, i);
    var p := ss[i].threads[t];
    assert WasCached(ss[i], p.n, p.c, p.since, p.at);
    assert ss[p.at].clients == ss[i].past[p.at];
  }

  /** The recorded caches are those of the states the execution went through. */
  lemma {:induction false} PastIsHistory(ss: seq<State>, acts: seq<Action>, i: nat)
    requires IsExecution(ss, acts) && i < |ss|
    ensures |ss[i].past| == i + 1 && forall j :: 0 <= j <= i ==> ss[i].past[j] == ss[j].clients
  {
    if i > 0 {
      PastIsHistory(ss, acts, i - 1);
      assert ss[i - 1 + 1] == Do(ss[i - 1], acts[i - 1]);
    }
  }

  /** `since` is the moment the call began. */
  lemma CallStartsNow(ss: seq<State>, acts: seq<Action>, i: nat, t: Tid, n: Name)
    requires IsExecution(ss, acts) && i < |acts| && acts[i] == Call(t, n)
    ensures ss[i + 1].threads[t] == Begin(n, i)
  {
    PastIsHistory(ss, acts, i);
  }

  // ---- what a call and an invalidation achieve ----

  predicate IsInvalidation(pc: PC) {
    pc.WantInvalidate? || pc.InvalidateAnnounced? || pc.Invalidating? || pc.Invalidated? || pc.Finished?
  }

  predicate Covers(target: Option<Name>, n: Name) { target.None? || target.value == n }

  lemma OtherThreadsStay(ss: seq<State>, acts: seq<Action>, i: nat, t: Tid)
    requires IsExecution(ss, acts) && i < |acts|
    ensures acts[i].t != t ==> At(ss[i + 1], t) == At(ss[i], t)
    ensures acts[i].t == t ==> At(ss[i + 1], t) == Some(Goto(ss[i], acts[i]))
    ensures ss[i + 1].clients == Perform(ss[i], acts[i].t, EffectOf(ss[i], acts[i])).clients
  {
    assert ss[i + 1] == Do(ss[i], acts[i]);
  }

  /** The step in which the call's own build fails. */
  predicate OwnBuildFails(s: State, a: Action, t: Tid, n: Name, since: nat) {
    a == Step(t, None) && At(s, t) == Some(Building(n, since))
  }

  /** A call returns an error only if its own build failed; a client it built or found cached is never withheld. */
  lemma {:induction false} ErrorMeansOwnBuildFailed(ss: seq<State>, acts: seq<Action>, i: nat, t: Tid)
    requires IsExecution(ss, acts) && i < |ss| && t in ss[i].threads
    ensures var pc := ss[i].threads[t];
            pc.BuildFailed? || pc.ReturnedError? ==> exists j: nat :: j < i && OwnBuildFails(ss[j], acts[j], t, pc.n, pc.since)
  {
    var pc := ss[i].threads[t];
    if i > 0 && (pc.BuildFailed? || pc.ReturnedError?) {
      OtherThreadsStay(ss, acts, i - 1, t);
      if acts[i - 1].t == t && ss[i - 1].threads[t].Building? {
        assert OwnBuildFails(ss[i - 1], acts[i - 1], t, pc.n, pc.since);
      } else {
        ErrorMeansOwnBuildFailed(ss, acts, i - 1, t);
      }
    }
  }

  /** Conversely, a build that succeeds is returned: from then on the call only holds that very client. */
  lemma {:induction false} BuiltClientIsReturned(ss: seq<State>, acts: seq<Action>, i: nat, j: nat, t: Tid, c: Client)
    requires IsExecution(ss, acts) && i < j < |ss|
    requires acts[i] == Step(t, Some(c)) && t in ss[i].threads && ss[i].threads[t].Building?
    ensures t in ss[j].threads
    ensures var pc, n := ss[j].threads[t], ss[i].threads[t].n;
            (pc.Built? || pc.WriteHit? || pc.Returned?) && pc.n == n && pc.c == c
  {
    OtherThreadsStay(ss, acts, j - 1, t);
    if j > i + 1 {
      BuiltClientIsReturned(ss, acts, i, j - 1, t, c);
      OtherThreadsStay(ss, acts, j - 1, t);
      assert Enabled(ss[j - 1], acts[j - 1]);
    } else {
      assert Enabled(ss[i], acts[i]);
    }
  }

  predicate AbsentBetween(ss: seq<State>, n: Name, from: nat, to: nat) {
    exists at :: from <= at <= to && at < |ss| && n !in ss[at].clients
  }

  lemma SinceIsPast(ss: seq<State>, acts: seq<Action>, i: nat, t: Tid)
    requires IsExecution(ss, acts) && i < |ss| && t in ss[i].threads
    ensures ss[i].threads[t].since <= i
  {
    ExecutionKeepsInv(ss, acts, i);
    PastIsHistory(ss, acts, i);
    hide Exclusion, Balanced, ColdWhileBuilding, OnlyProduced;
  }

  lemma InvalidatingRemoves(ss: seq<State>, acts: seq<Action>, i: nat, n: Name)
    requires IsExecution(ss, acts) && i < |acts| && acts[i].Step? && acts[i].t in ss[i].threads
    requires ss[i].threads[acts[i].t].Invalidating? && Covers(ss[i].threads[acts[i].t].target, n)
    ensures n !in ss[i + 1].clients
  {
    OtherThreadsStay(ss, acts, i, acts[i].t);
    hide CountRemoved;
  }

  lemma BeforeInvalidated(ss: seq<State>, acts: seq<Action>, i: nat, t: Tid)
    requires IsExecution(ss, acts) && 0 < i < |ss| && t in ss[i].threads
    requires ss[i].threads[t].Invalidated? || ss[i].threads[t].Finished?
    ensures t in ss[i - 1].threads
    ensures var pc, before := ss[i].threads[t], ss[i - 1].threads[t];
            && (before.Invalidating? || before.Invalidated? || before.Finished?)
            && before.target == pc.target && before.since == pc.since
            && (before.Invalidating? ==> acts[i - 1].Step? && acts[i - 1].t == t)
  {
    OtherThreadsStay(ss, acts, i - 1, t);
    assert Enabled(ss[i - 1], acts[i - 1]);
    hide Perform, EffectOf;
  }

  /** When an invalidation is over, each name it covers was absent at a moment inside it. */
  lemma {:induction false} InvalidationRemoves(ss: seq<State>, acts: seq<Action>, i: nat, t: Tid, n: Name)
    requires IsExecution(ss, acts) && i < |ss| && t in ss[i].threads
    ensures var pc := ss[i].threads[t];
            (pc.Invalidated? || pc.Finished?) && Covers(pc.target, n) ==> AbsentBetween(ss, n, pc.since, i)
  {
    var pc := ss[i].threads[t];
    if i > 0 && (pc.Invalidated? || pc.Finished?) && Covers(pc.target, n) {
      BeforeInvalidated(ss, acts, i, t);
      SinceIsPast(ss, acts, i, t);
      hide IsExecution, Enabled, Do;
      if ss[i - 1].threads[t].Invalidating? {
        InvalidatingRemoves(ss, acts, i - 1, n);
      } else {
        InvalidationRemoves(ss, acts, i - 1, t, n);
        var at :| pc.since <= at <= i - 1 && at < |ss| && n !in ss[at].clients;
      }
    }
  }

  /** A cached client stays until an invalidation that covers its name takes it away; nothing ever replaces it. */
  lemma OnlyInvalidationRemoves(ss: seq<State>, acts: seq<Action>, i: nat, n: Name)
    requires IsExecution(ss, acts) && i < |acts| && n in ss[i].clients
    requires !(n in ss[i + 1].clients && ss[i + 1].clients[n] == ss[i].clients[n])
    ensures acts[i].Step? && acts[i].t in ss[i].threads
    ensures var pc := ss[i].threads[acts[i].t]; pc.Invalidating? && Covers(pc.target, n)
  {
    ExecutionKeepsInv(ss, acts, i);
    OtherThreadsStay(ss, acts, i, acts[i].t);
    assert Enabled(ss[i], acts[i]);
  }

  /** The fast path: while its name stays cached, a call neither waits for nor takes the write lock. */
  lemma {:induction false} WarmCallsNeverLock(ss: seq<State>, acts: seq<Action>, start: nat, i: nat, t: Tid, n: Name)
    requires IsExecution(ss, acts) && start < i < |ss| && acts[start] == Call(t, n)
    requires forall j :: start <= j <= i ==> n in ss[j].clients
    ensures t in ss[i].threads
    ensures var pc := ss[i].threads[t];
            (pc.Begin? || pc.Reading? || pc.ReadHit? || pc.Returned?) && pc.n == n && !HasAnnounced(pc)
  {
    OtherThreadsStay(ss, acts, i - 1, t);
    assert Enabled(ss[i - 1], acts[i - 1]);
    if i > start + 1 { WarmCallsNeverLock(ss, acts, start, i - 1, t, n); }
  }

  /** How many of its own steps a thread is away from its end, at most. */
  function StepsLeft(pc: PC): nat {
    match pc
    case Begin(_, _) => 9
    case Reading(_, _) => 8
    case ReadHit(_, _, _, _) => 1
    case ReadMiss(_, _) => 7
    case WantLock(_, _) => 6
    case Announced(_, _) => 5
    case Checking(_, _) => 4
    case Building(_, _) => 3
    case Built(_, _, _) => 2
    case BuildFailed(_, _) => 1
    case WriteHit(_, _, _, _) => 1
    case WantInvalidate(_, _) => 4
    case InvalidateAnnounced(_, _) => 3
    case Invalidating(_, _) => 2
    case Invalidated(_, _) => 1
    case _ => 0
  }

  /** Every call and invalidation ends: each own step brings it nearer to its end, and no other step takes it back. */
  lemma StepsRunOut(ss: seq<State>, acts: seq<Action>, i: nat, t: Tid)
    requires IsExecution(ss, acts) && i < |acts| && t in ss[i].threads
    ensures t in ss[i + 1].threads
    ensures StepsLeft(ss[i + 1].threads[t]) <= StepsLeft(ss[i].threads[t]) <= 9
    ensures acts[i].t == t ==> StepsLeft(ss[i + 1].threads[t]) < StepsLeft(ss[i].threads[t])
    ensures StepsLeft(ss[i].threads[t]) == 0 <==> Stopped(ss[i].threads[t])
  {
    OtherThreadsStay(ss, acts, i, t);
    assert Enabled(ss[i], acts[i]);
    hide Perform, EffectOf;
  }
}
