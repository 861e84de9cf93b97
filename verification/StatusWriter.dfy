/**
  The status writer of internal/machine/status/status_manager.go: read the stored Machine, skip the write when only
  LastUpdated would change, otherwise update under the read resourceVersion and retry conflicts. Anybody else may
  write the Machine before each of its API calls, and each call may fail or lose its reply.
*/
module StatusWriter {
  import opened Wrappers

  datatype Status = Status(provider: string, phase: string, state: string, addresses: Option<seq<string>>, lastUpdated: int)
  datatype Stored = Stored(rv: nat, status: Status)

  const Provider := "kubevirt"

  // ---- equality of statuses ----

  /** Nil and empty lists are the same list. */
  function Elements(l: Option<seq<string>>): seq<string> { if l.None? then [] else l.value }

  predicate EqualIgnoringLastUpdated(a: Status, b: Status) {
    a.provider == b.provider && a.phase == b.phase && a.state == b.state && Elements(a.addresses) == Elements(b.addresses)
  }

  /** The API server drops empty lists. */
  function AsStored(s: Status): Status { s.(addresses := if Elements(s.addresses) == [] then None else s.addresses) }

  /** Two statuses are equal here exactly when the server would store them alike but for the time. */
  lemma EqualIffStoredAlike(a: Status, b: Status)
    ensures EqualIgnoringLastUpdated(a, b) <==> AsStored(a).(lastUpdated := 0) == AsStored(b).(lastUpdated := 0)
    ensures EqualIgnoringLastUpdated(a, b) <==>
              && a.provider == b.provider && a.phase == b.phase && a.state == b.state
              && (a.addresses == b.addresses || (a.addresses in {None, Some([])} && b.addresses in {None, Some([])}))
  {
  }

  // ---- the store, and everybody else ----

  datatype Reply = Delivered | Rejected | Lost

  /** What precedes one API call of the writer, and how that call fares. */
  datatype Turn = Turn(foreign: seq<Status>, reply: Reply)

  const Calm := Turn([], Delivered)

  function Nth(turns: seq<Turn>, k: nat): Turn { if k < |turns| then turns[k] else Calm }

  function After(turns: seq<Turn>, k: nat): seq<Turn> { if k < |turns| then turns[k..] else [] }

  lemma NthAfter(turns: seq<Turn>, k: nat, i: nat)
    ensures Nth(After(turns, k), i) == Nth(turns, k + i)
    ensures After(After(turns, k), i) == After(turns, k + i)
  {
    if k + i < |turns| { assert turns[k..][i..] == turns[k + i..]; }
  }

  function Overwritten(s: Stored, foreign: seq<Status>): Stored {
    if foreign == [] then s else Stored(s.rv + |foreign|, AsStored(foreign[|foreign| - 1]))
  }

  /** One write that landed: the version it was based on, and the version it replaced. */
  datatype Landed = Landed(base: nat, over: nat, status: Status)

  datatype UpdateResult = Updated(now: Stored) | Conflict | Failed

  class Server {
    var stored: Stored
    var turns: seq<Turn>
    var clock: int
    ghost var landed: seq<Landed>     // the writer's own writes
    ghost var updates: nat            // the writer's attempts to write

    method Get() returns (r: Option<Stored>)
      modifies this
      ensures stored == Overwritten(old(stored), Nth(old(turns), 0).foreign)
      ensures r == if Nth(old(turns), 0).reply.Delivered? then Some(stored) else None
      ensures turns == After(old(turns), 1) && landed == old(landed) && updates == old(updates) && clock == old(clock)
    {
      var t := Nth(turns, 0);
      turns := After(turns, 1);
      stored := Overwritten(stored, t.foreign);
      r := if t.reply.Delivered? then Some(stored) else None;
    }

    method Update(rv: nat, status: Status) returns (r: UpdateResult)
      modifies this
      ensures var t, m := Nth(old(turns), 0), Overwritten(old(stored), Nth(old(turns), 0).foreign);
              var lands := m.rv == rv && !t.reply.Rejected?;
              && stored == (if lands then Stored(m.rv + 1, AsStored(status)) else m)
              && landed == old(landed) + (if lands then [Landed(rv, m.rv, status)] else [])
              && r == (if !t.reply.Delivered? then Failed else if lands then Updated(stored) else Conflict)
      ensures turns == After(old(turns), 1) && updates == old(updates) + 1 && clock == old(clock)
    {
      var t := Nth(turns, 0);
      turns := After(turns, 1);
      stored := Overwritten(stored, t.foreign);
      updates := updates + 1;
      var lands := stored.rv == rv && !t.reply.Rejected?;
      if lands {
        landed := landed + [Landed(rv, stored.rv, status)];
        stored := Stored(rv + 1, AsStored(status));
      }
      r := if !t.reply.Delivered? then Failed else if lands then Updated(stored) else Conflict;
    }

    method Now() returns (t: int)
      modifies this`clock
      ensures t == old(clock) && clock == old(clock) + 1
    {
      t := clock;
      clock := clock + 1;
    }
  }

  predicate NoFaults(turns: seq<Turn>) { forall i :: 0 <= i < |turns| ==> turns[i].reply.Delivered? }

  predicate Undisturbed(turns: seq<Turn>) { forall i :: 0 <= i < |turns| ==> turns[i] == Calm }

  /** Somebody wrote between the Get and the Update of attempt `k`. */
  predicate Raced(turns: seq<Turn>, k: nat) { Nth(turns, 2 * k + 1).foreign != [] }

  class Machine {
    var status: Status
    var rv: nat
    constructor (status: Status, rv: nat) ensures this.status == status && this.rv == rv {
      this.status := status;
      this.rv := rv;
    }
  }

  const MaxRetries: nat := 3

  datatype Tried = Done | Failure | Again

  function Desired(status: Status): Status { status.(provider := Provider) }

  /** One pass through the retry loop; `Again` is a conflict. */
  method Try(server: Server, machine: Machine) returns (r: Tried)
    modifies server, machine
    ensures server.turns == After(old(server.turns), 1) || server.turns == After(old(server.turns), 2)
    ensures server.updates <= old(server.updates) + 1
    ensures |server.landed| <= |old(server.landed)| + 1 && old(server.landed) <= server.landed
    ensures server.landed != old(server.landed) ==>
              var l := server.landed[|old(server.landed)|];
              l.base == l.over && EqualIgnoringLastUpdated(l.status, Desired(old(machine.status)))
    ensures r.Done? ==> machine.status == server.stored.status && machine.rv == server.stored.rv
    ensures r.Done? ==> EqualIgnoringLastUpdated(server.stored.status, Desired(old(machine.status)))
    ensures r.Done? ==> machine.status.provider == "kubevirt"
    ensures !r.Done? ==> machine.status == old(machine.status) && machine.rv == old(machine.rv)
    ensures r.Again? ==> server.landed == old(server.landed) && server.turns == After(old(server.turns), 2)
    ensures r.Again? ==> Nth(old(server.turns), 1).foreign != []
    ensures r.Failure? ==> !Nth(old(server.turns), 0).reply.Delivered? || !Nth(old(server.turns), 1).reply.Delivered?
    ensures Nth(old(server.turns), 0) == Calm && Nth(old(server.turns), 1) == Calm ==>
              && server.stored == QuietCall(old(server.stored), old(machine.status), old(server.clock))
              && |server.landed| == |old(server.landed)| + QuietWrites(old(server.stored), old(machine.status))
  {
    NthAfter(server.turns, 1, 0);
    NthAfter(server.turns, 1, 1);
    var latest := server.Get();
    if latest.None? { return Failure; }
    var desired := Desired(machine.status);
    if EqualIgnoringLastUpdated(latest.value.status, desired) {
      machine.status, machine.rv := latest.value.status, latest.value.rv;
      return Done;
    }
    var now := server.Now();
    var u := server.Update(latest.value.rv, desired.(lastUpdated := now));
    match u {
      case Updated(stored) =>
        machine.status, machine.rv := stored.status, stored.rv;
        r := Done;
      case Conflict => r := Again;
      case Failed => r := Failure;
    }
  }

  /** True for success. */
  method UpdateMachineStatusWithDetails(server: Server, machine: Machine) returns (ok: bool)
    modifies server, machine
    // at most three attempts, at most one landed write, never over a version it had not read
    ensures server.updates <= old(server.updates) + 3
    ensures |server.landed| <= |old(server.landed)| + 1 && old(server.landed) <= server.landed
    ensures server.landed != old(server.landed) ==>
              var l := server.landed[|old(server.landed)|];
              l.base == l.over && EqualIgnoringLastUpdated(l.status, Desired(old(machine.status)))
    // success: what was wanted is stored, and the caller holds exactly what is stored
    ensures ok ==> machine.status == server.stored.status && machine.rv == server.stored.rv
    ensures ok ==> EqualIgnoringLastUpdated(server.stored.status, Desired(old(machine.status)))
    ensures ok ==> machine.status.provider == "kubevirt" && machine.status.phase == old(machine.status.phase)
                   && machine.status.state == old(machine.status.state)
    ensures !ok ==> machine.status == old(machine.status) && machine.rv == old(machine.rv)
    // failure is a fault, or three lost races
    ensures !ok && NoFaults(old(server.turns)) ==> forall k: nat :: k < MaxRetries ==> Raced(old(server.turns), k)
    // left alone, it succeeds and does exactly what QuietCall says
    ensures Undisturbed(old(server.turns)) ==>
              && ok && Undisturbed(server.turns)
              && server.stored == QuietCall(old(server.stored), old(machine.status), old(server.clock))
              && |server.landed| == |old(server.landed)| + QuietWrites(old(server.stored), old(machine.status))
  {
    ghost var turns := server.turns;
    NthAfter(turns, 0, 0);
    for i := 0 to MaxRetries
      invariant server.updates <= old(server.updates) + i
      invariant server.landed == old(server.landed)
      invariant machine.status == old(machine.status) && machine.rv == old(machine.rv)
      invariant server.turns == After(turns, 2 * i)
      invariant forall k: nat :: k < i ==> Raced(turns, k)
      invariant i > 0 ==> Nth(turns, 1).foreign != []
      invariant i == 0 ==> server.stored == old(server.stored) && server.clock == old(server.clock)
    {
      NthAfter(turns, 2 * i, 0);
      NthAfter(turns, 2 * i, 1);
      NthAfter(turns, 2 * i, 2);
      var r := Try(server, machine);
      if r.Done? { return true; }
      if r.Failure? { return false; }
    }
    return false;
  }

  // ---- the only writer ----

  /** The stored Machine after a call that nobody disturbs. */
  function QuietCall(s: Stored, wanted: Status, now: int): Stored {
    var desired := wanted.(provider := Provider);
    if EqualIgnoringLastUpdated(s.status, desired) then s else Stored(s.rv + 1, AsStored(desired.(lastUpdated := now)))
  }

  function QuietWrites(s: Stored, wanted: Status): nat {
    if EqualIgnoringLastUpdated(s.status, wanted.(provider := Provider)) then 0 else 1
  }

  datatype Request = Request(wanted: Status, now: int)

  /** The stored Machine after undisturbed calls for `reqs`, in order. */
  function Served(s: Stored, reqs: seq<Request>): Stored
    decreases |reqs|
  {
    if reqs == [] then s else Served(QuietCall(s, reqs[0].wanted, reqs[0].now), reqs[1..])
  }

  function TotalWrites(s: Stored, reqs: seq<Request>): nat
    decreases |reqs|
  {
    if reqs == [] then 0
    else QuietWrites(s, reqs[0].wanted) + TotalWrites(QuietCall(s, reqs[0].wanted, reqs[0].now), reqs[1..])
  }

  /** How often a wanted status differs from the one before it, the first being compared with `before`. */
  function Changes(before: Status, reqs: seq<Request>): nat
    decreases |reqs|
  {
    if reqs == [] then 0
    else
      var w := reqs[0].wanted.(provider := Provider);
      (if EqualIgnoringLastUpdated(before, w) then 0 else 1) + Changes(w, reqs[1..])
  }

  /** Every change is written once and nothing else is: the clock alone never causes a write. */
  lemma {:induction false} WritesAreChanges(s: Stored, before: Status, reqs: seq<Request>)
    decreases |reqs|
    requires EqualIgnoringLastUpdated(s.status, before)
    ensures TotalWrites(s, reqs) == Changes(before, reqs)
    ensures Served(s, reqs).rv == s.rv + Changes(before, reqs)
    ensures reqs != [] ==> EqualIgnoringLastUpdated(Served(s, reqs).status, reqs[|reqs| - 1].wanted.(provider := Provider))
  {
    if reqs != [] {
      var r := reqs[0];
      WritesAreChanges(QuietCall(s, r.wanted, r.now), r.wanted.(provider := Provider), reqs[1..]);
    }
  }

  /** Asking again for what is stored, at any later time, writes nothing. */
  lemma RepeatIsFree(s: Stored, r: Request, later: int)
    ensures var s1 := QuietCall(s, r.wanted, r.now);
            QuietWrites(s1, r.wanted) == 0 && QuietCall(s1, r.wanted, later) == s1
            && QuietWrites(s1, s1.status) == 0
  {
  }
}
