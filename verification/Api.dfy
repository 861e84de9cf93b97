/**
  The API client of one reconcile pass. Every call may fail: a read that fails returns nothing, a write that
  fails was either refused or took effect although its reply was lost. `faults` schedules the outcomes, so a
  contract that holds for every schedule also covers a pass that dies at any call (every later call fails);
  an empty schedule is a failure-free pass. The client records each write and the state it met.
*/
module Apis {
  import opened Wrappers
  import opened Objects
  import opened Worlds
  import opened Fleet

  datatype Outcome = Delivered | Rejected | Lost

  datatype Reply = Done | Missing | Exists | Stale | Error

  function ReplyTo(v: Verdict): Reply {
    match v
    case Accepted => Done
    case NotFound => Missing
    case AlreadyExists => Exists
    case Conflict => Stale
  }

  /** The outcome of the next call; an exhausted schedule delivers. */
  function NextIn(faults: seq<Outcome>): Outcome { if faults == [] then Delivered else faults[0] }

  function Later(faults: seq<Outcome>): seq<Outcome> { if faults == [] then [] else faults[1..] }

  class Api {
    var w: World
    var faults: seq<Outcome>
    ghost var hist: seq<World>
    ghost var log: seq<Effect>

    /** The recorded writes lead to the current state, and the protocol allowed each where it was issued. */
    ghost predicate Valid()
      reads `w, `hist, `log
    {
      && Inv(w)
      && |hist| == |log| + 1 && hist[|log|] == w && Inv(hist[0])
      && (forall i :: 0 <= i < |log| ==>
            VerdictOf(hist[i], log[i]) == Accepted && Legal(hist[i], log[i]) && hist[i + 1] == Apply(hist[i], log[i]))
    }

    constructor (w: World, faults: seq<Outcome>)
      requires Inv(w)
      ensures Valid() && this.w == w && this.faults == faults && log == [] && hist == [w]
    {
      this.w := w;
      this.faults := faults;
      this.hist := [w];
      this.log := [];
    }

    method NextOutcome() returns (o: Outcome)
      modifies this`faults
      ensures o == NextIn(old(faults)) && faults == Later(old(faults))
    {
      if faults == [] {
        o := Delivered;
      } else {
        o, faults := faults[0], faults[1..];
      }
    }

    /** A Get, a List or the construction of a remote client. */
    method Read() returns (ok: bool)
      modifies this`faults
      ensures ok <==> NextIn(old(faults)) == Delivered
      ensures faults == Later(old(faults))
    {
      var o := NextOutcome();
      ok := o == Delivered;
    }

    /** A Create, Update, Patch or Delete. */
    method Write(e: Effect) returns (reply: Reply)
      requires Valid()
      requires VerdictOf(w, e) == Accepted ==> Legal(w, e)
      modifies this
      ensures Valid()
      ensures (w == old(w) && log == old(log) && hist == old(hist))
           || (VerdictOf(old(w), e) == Accepted && w == Apply(old(w), e) && log == old(log) + [e] && hist == old(hist) + [w])
      ensures reply == Done ==> log == old(log) + [e]
      ensures reply in {Missing, Exists, Stale} ==> reply == ReplyTo(VerdictOf(old(w), e)) && log == old(log)
      ensures faults == Later(old(faults))
      ensures NextIn(old(faults)) == Delivered ==> reply == ReplyTo(VerdictOf(old(w), e))
      ensures NextIn(old(faults)) == Rejected ==> reply == Error && log == old(log)
      ensures NextIn(old(faults)) == Lost ==> reply == Error && (VerdictOf(old(w), e) == Accepted ==> log == old(log) + [e])
    {
      var o := NextOutcome();
      if o == Rejected {
        return Error;
      }
      var verdict := VerdictOf(w, e);
      if verdict == Accepted {
        LegalKeepsInv(w, e);
        w := Apply(w, e);
        log := log + [e];
        hist := hist + [w];
      }
      reply := if o == Lost then Error else ReplyTo(verdict);
    }

    /** The items of a List reply, in the order the server chose. */
    method Items(refs: set<Ref>) returns (q: seq<Ref>)
      ensures forall r :: r in q <==> r in refs
      ensures forall i, j :: 0 <= i < j < |q| ==> q[i] != q[j]
    {
      var rest := refs;
      q := [];
      while rest != {}
        invariant rest <= refs
        invariant forall r :: r in q <==> r in refs && r !in rest
        invariant forall i, j :: 0 <= i < j < |q| ==> q[i] != q[j]
        decreases rest
      {
        var r :| r in rest;
        q, rest := q + [r], rest - {r};
      }
    }
  }
}
