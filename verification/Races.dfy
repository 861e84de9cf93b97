/**
  The get-then-create helpers, interleaved call by call by any number of callers: ensureNamespaceExists
  (controllers/v1alpha1/machine_controller.go), ensureNetworkAttachmentDefinition
  (internal/machine/network/network_manager.go) and EnsureSharedISODataVolume (internal/machine/vm/shared_iso.go),
  all on one object that nobody deletes. The object's import moves on its own; an API call may be refused, and a
  Create may land with its reply lost.
*/
module Races {
  import opened Wrappers

  type Tid = nat

  datatype Phase = Pending | Importing | Failing | Succeeded

  /** `creator` tells one object from any that could replace it. */
  datatype Item = Item(creator: Tid, phase: Phase)

  datatype PC = Start | SawNotFound | Ensured(ready: bool) | Errored

  datatype Reply = Delivered | Rejected | Lost

  datatype Action =
    | Arrive(t: Tid)
    | Get(t: Tid, reply: Reply)
    | Create(t: Tid, reply: Reply)
    | Import(phase: Phase)

  datatype State = State(item: Option<Item>, callers: map<Tid, PC>, creates: nat, faulted: set<Tid>)

  /** Nobody has called yet; an object may already be there. */
  predicate Init(s: State) { |s.callers| == 0 && s.creates == 0 && s.faulted == {} }

  predicate ImportMoves(p: Phase, q: Phase) { p != Succeeded || q == Succeeded }

  predicate Enabled(s: State, a: Action) {
    match a
    case Arrive(t) => t !in s.callers
    case Get(t, _) => t in s.callers && s.callers[t].Start?
    case Create(t, _) => t in s.callers && s.callers[t].SawNotFound?
    case Import(p) => s.item.Some? && ImportMoves(s.item.value.phase, p)
  }

  function Goto(s: State, t: Tid, pc: PC): State { s.(callers := s.callers[t := pc]) }

  function Do(s: State, a: Action): State
    requires Enabled(s, a)
  {
    match a
    case Arrive(t) => Goto(s, t, Start)
    case Get(t, reply) =>
      if !reply.Delivered? then Goto(s, t, Errored).(faulted := s.faulted + {t})
      else Goto(s, t, if s.item.None? then SawNotFound else Ensured(s.item.value.phase == Succeeded))
    case Create(t, reply) =>
      var lands := s.item.None? && !reply.Rejected?;
      var s1 := if lands then s.(item := Some(Item(t, Pending)), creates := s.creates + 1) else s;
      // AlreadyExists is success, and readiness is left to the next pass
      if reply.Delivered? then Goto(s1, t, Ensured(false)) else Goto(s1, t, Errored).(faulted := s.faulted + {t})
    case Import(p) => s.(item := Some(s.item.value.(phase := p)))
  }

  predicate IsSucceeded(s: State) { s.item.Some? && s.item.value.phase == Succeeded }

  ghost predicate Inv(s: State) {
    && s.creates <= 1
    && (s.creates == 1 ==> s.item.Some?)
    && (forall t :: t in s.callers && s.callers[t].Ensured? ==> s.item.Some? && (s.callers[t].ready ==> IsSucceeded(s)))
    && (forall t :: t in s.callers && s.callers[t].Errored? ==> t in s.faulted)
    && (forall t :: t in s.callers && s.callers[t].SawNotFound? && s.item.Some? ==> s.creates == 1)
    && (forall t :: t in s.faulted ==> t in s.callers && s.callers[t].Errored?)
  }

  lemma StepKeepsInv(s: State, a: Action)
    requires Inv(s) && Enabled(s, a)
    ensures Inv(Do(s, a))
  {
  }

  ghost predicate IsExecution(ss: seq<State>, acts: seq<Action>) {
    && |ss| == |acts| + 1 && Init(ss[0])
    && (forall i :: 0 <= i < |acts| ==> Enabled(ss[i], acts[i]) && ss[i + 1] == Do(ss[i], acts[i]))
  }

  lemma {:induction false} ExecutionKeepsInv(ss: seq<State>, acts: seq<Action>, i: nat)
    requires IsExecution(ss, acts) && i < |ss|
    ensures Inv(ss[i])
  {
    if i > 0 {
      ExecutionKeepsInv(ss, acts, i - 1);
      StepKeepsInv(ss[i - 1], acts[i - 1]);
    }
  }

  /** Creates are counted only from an absent object, so the count tells whether it was there from the start. */
  lemma {:induction false} CreatesExplainPresence(ss: seq<State>, acts: seq<Action>, i: nat)
    requires IsExecution(ss, acts) && i < |ss|
    ensures ss[i].creates == if ss[0].item.None? && ss[i].item.Some? then 1 else 0
    ensures ss[0].item.Some? ==> ss[i].item.Some?
  {
    if i > 0 {
      CreatesExplainPresence(ss, acts, i - 1);
      assert ss[i - 1 + 1] == Do(ss[i - 1], acts[i - 1]);
    }
  }

  /** Exactly one Create lands as soon as any caller has succeeded on an object that was absent; otherwise none. */
  lemma ExactlyOneCreate(ss: seq<State>, acts: seq<Action>, i: nat, t: Tid)
    requires IsExecution(ss, acts) && i < |ss| && t in ss[i].callers && ss[i].callers[t].Ensured?
    ensures ss[i].item.Some? && ss[i].creates == if ss[0].item.None? then 1 else 0
  {
    ExecutionKeepsInv(ss, acts, i);
    CreatesExplainPresence(ss, acts, i);
  }

  /** A caller errors only through a fault of one of its own two API calls: losing the race is not an error. */
  lemma RaceIsNoError(ss: seq<State>, acts: seq<Action>, i: nat, t: Tid)
    requires IsExecution(ss, acts) && i < |ss| && t in ss[i].callers && ss[i].callers[t].Errored?
    ensures exists j: nat, r: Reply :: j < i && !r.Delivered? && (acts[j] == Get(t, r) || acts[j] == Create(t, r))
  {
    ExecutionKeepsInv(ss, acts, i);
    FaultHasCause(ss, acts, i, t);
  }

  lemma {:induction false} FaultHasCause(ss: seq<State>, acts: seq<Action>, i: nat, t: Tid)
    requires IsExecution(ss, acts) && i < |ss| && t in ss[i].faulted
    ensures exists j: nat, r: Reply :: j < i && !r.Delivered? && (acts[j] == Get(t, r) || acts[j] == Create(t, r))
  {
    if i > 0 {
      assert ss[i - 1 + 1] == Do(ss[i - 1], acts[i - 1]);
      if t in ss[i - 1].faulted {
        FaultHasCause(ss, acts, i - 1, t);
      } else {
        var a := acts[i - 1];
        assert a == Get(t, a.reply) || a == Create(t, a.reply);
      }
    }
  }

  /** The object, once there, is never replaced, and a finished import stays finished. */
  lemma {:induction false} NeverReplaced(ss: seq<State>, acts: seq<Action>, i: nat, j: nat)
    requires IsExecution(ss, acts) && i <= j < |ss| && ss[i].item.Some?
    ensures ss[j].item.Some? && ss[j].item.value.creator == ss[i].item.value.creator
    ensures IsSucceeded(ss[i]) ==> IsSucceeded(ss[j])
  {
    if i < j {
      NeverReplaced(ss, acts, i, j - 1);
      assert ss[j - 1 + 1] == Do(ss[j - 1], acts[j - 1]);
    }
  }

  /** A caller that reports ready did so with the import Succeeded, and it stays so. */
  lemma ReadyMeansSucceeded(ss: seq<State>, acts: seq<Action>, i: nat, j: nat, t: Tid)
    requires IsExecution(ss, acts) && i <= j < |ss| && t in ss[i].callers && ss[i].callers[t] == Ensured(true)
    ensures IsSucceeded(ss[j])
  {
    ExecutionKeepsInv(ss, acts, i);
    NeverReplaced(ss, acts, i, j);
  }

  /** A Get that finds the import finished makes its caller ready, and one that finds the object at all creates nothing. */
  lemma FoundIsReported(ss: seq<State>, acts: seq<Action>, i: nat, t: Tid)
    requires IsExecution(ss, acts) && i < |acts| && acts[i] == Get(t, Delivered) && ss[i].item.Some?
    ensures ss[i + 1].callers[t] == Ensured(IsSucceeded(ss[i])) && ss[i + 1].item == ss[i].item && ss[i + 1].creates == ss[i].creates
  {
    assert Enabled(ss[i], acts[i]);
  }

  function Remaining(pc: PC): nat { if pc.Start? then 2 else if pc.SawNotFound? then 1 else 0 }

  /** Nobody waits for anybody: an unfinished caller can always go on and is done after at most two steps of its own. */
  lemma WaitFree(s: State, t: Tid)
    requires t in s.callers && Remaining(s.callers[t]) > 0
    ensures var a := if s.callers[t].Start? then Get(t, Delivered) else Create(t, Delivered);
            && Enabled(s, a) && Remaining(Do(s, a).callers[t]) < Remaining(s.callers[t])
            && (forall b :: Enabled(s, b) && b != Arrive(t) ==>
                  t in Do(s, b).callers && Remaining(Do(s, b).callers[t]) <= Remaining(s.callers[t]))
  {
  }
}
