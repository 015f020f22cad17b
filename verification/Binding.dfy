/** The life of a multi-source job over all the budgets that fund it: admitted, bound (and
    perhaps repriced), completed (the handlers of internal/daemon/server.go in sequence). */
module Binding {
  import opened Arith
  import opened Sums
  import opened Kernel
  import opened Books
  import opened MultiSource
  import opened Server
  import opened Settlement

  function AllFalse(n: nat): seq<bool> {
    seq(n, _ => false)
  }

  lemma HeldIsLive(s0: State, s: State, legs: seq<Leg>, i: nat, c: int, now: int)
    requires i < |legs| && Holds(s0, s, legs, legs[i].acct, c, now)
    requires legs[i].id in HeldEscrows(legs, legs[i].acct, c, now)
    requires HeldEscrows(legs, legs[i].acct, c, now)[legs[i].id] == FreshEscrow(c, legs[i].w, now)
    ensures LegLive(s, legs[i], c, false)
  {
    hide HeldEscrows, HeldArrays, Held;
  }

  /** An admitted job's legs are live, unstarted, at the gate's one rate. */
  lemma AdmittedLegsAreLive(before: map<Name, State>, after: map<Name, State>, legs: seq<Leg>, c: int, now: int)
    requires AllHold(before, after, legs, c, now) && Distinct(legs)
    requires forall i :: 0 <= i < |legs| ==> legs[i].acct in before && 0 <= legs[i].w && legs[i].n == 0
    requires forall a :: a in after ==> Balanced(after[a])
    ensures LegsLive(after, legs, c, AllFalse(|legs|), 0)
  {
    hide Balanced, Holds, HeldEscrows;
    forall i | 0 <= i < |legs|
      ensures LegLive(after[legs[i].acct], legs[i], c, false)
    {
      HeldEscrowAt(legs, legs[i].acct, c, now, i);
      HeldIsLive(before[legs[i].acct], after[legs[i].acct], legs, i, c, now);
    }
  }

  /** The rate a leg takes when a bind offers `rate` to it. */
  function BoundRate(c: int, rate: int): int {
    if 0 < rate <= c then rate else c
  }

  function RateAfter(c: int, rate: int, ok: nat -> bool, i: nat): int {
    if ok(i) then BoundRate(c, rate) else c
  }

  /** While a bind reprices: each leg before k is at the rate its append left it at, the
      others at the old one. */
  ghost predicate PartRepriced(budgets: map<Name, State>, legs: seq<Leg>, c: int, rate: int, ok: nat -> bool, k: nat) {
    && k <= |legs| && Distinct(legs)
    && (forall i :: 0 <= i < |legs| ==> legs[i].acct in budgets && 0 <= legs[i].w)
    && (forall i :: 0 <= i < |legs| ==>
          LegLive(budgets[legs[i].acct], legs[i], if i < k then RateAfter(c, rate, ok, i) else c, false))
    && (forall a :: a in budgets ==> Balanced(budgets[a]))
  }

  lemma RepriceOne(s: State, l: Leg, c: int, rate: int, now: int, ok: bool)
    requires LegLive(s, l, c, false)
    ensures
      var s' := Call(s, Reprice(l.id, rate, now), ok).s;
      && LegLive(s', l, if ok then BoundRate(c, rate) else c, false)
      && (forall m: Leg, c1, f :: m.id != l.id && LegLive(s, m, c1, f) ==> LegLive(s', m, c1, f))
      && SpentOf(s') == SpentOf(s)
  {
  }

  /** Each leg ends at the rate its own append left it at, and nothing is spent. */
  lemma {:induction false} RepriceRates(budgets: map<Name, State>, legs: seq<Leg>, c: int, rate: int, now: int,
                                        ok: nat -> bool, k: nat)
    requires PartRepriced(budgets, legs, c, rate, ok, k)
    ensures PartRepriced(RepriceFrom(budgets, legs, rate, now, ok, k), legs, c, rate, ok, |legs|)
    ensures Total(RepriceFrom(budgets, legs, rate, now, ok, k), SpentOf) == Total(budgets, SpentOf)
    decreases |legs| - k
  {
    hide Call, Balanced, LegLive, Total;
    if k < |legs| {
      var a := legs[k].acct;
      var s' := Call(budgets[a], Reprice(legs[k].id, rate, now), ok(k)).s;
      assert LegLive(budgets[a], legs[k], c, false);
      RepriceOne(budgets[a], legs[k], c, rate, now, ok(k));
      CallKeepsBooks(budgets[a], Reprice(legs[k].id, rate, now), ok(k));
      TotalInsert(budgets, SpentOf, a, s');
      hide SpentOf;
      RepriceRates(budgets[a := s'], legs, c, rate, now, ok, k + 1);
    }
  }

  /** All legs are live, unstarted and at rate `c`. */
  predicate AllAtRate(budgets: map<Name, State>, legs: seq<Leg>, c: int)
    requires forall i :: 0 <= i < |legs| ==> legs[i].acct in budgets
  {
    forall i :: 0 <= i < |legs| ==> LegLive(budgets[legs[i].acct], legs[i], c, false)
  }

  /** After a bind's reprices all legs share one rate if and only if the offer changes nothing,
      or all of its appends went through, or none did. */
  lemma OneRateIff(budgets: map<Name, State>, legs: seq<Leg>, c: int, rate: int, now: int, ok: nat -> bool)
    requires LegsLive(budgets, legs, c, AllFalse(|legs|), 0)
    ensures (exists c' :: AllAtRate(RepriceFrom(budgets, legs, rate, now, ok, 0), legs, c'))
            <==> BoundRate(c, rate) == c || forall i, j :: 0 <= i < j < |legs| ==> ok(i) == ok(j)
  {
    hide Balanced, Total, RepriceFrom;
    RepriceRates(budgets, legs, c, rate, now, ok, 0);
    var after := RepriceFrom(budgets, legs, rate, now, ok, 0);
    assert forall i :: 0 <= i < |legs| ==> LegLive(after[legs[i].acct], legs[i], RateAfter(c, rate, ok, i), false);
    if BoundRate(c, rate) == c || forall i, j :: 0 <= i < j < |legs| ==> ok(i) == ok(j) {
      assert AllAtRate(after, legs, if |legs| == 0 then c else RateAfter(c, rate, ok, 0));
    }
    if c' :| AllAtRate(after, legs, c') {
      forall i | 0 <= i < |legs|
        ensures ok(i) || c' == c
        ensures ok(i) ==> c' == BoundRate(c, rate)
      {
        assert LegLive(after[legs[i].acct], legs[i], RateAfter(c, rate, ok, i), false);
        assert LegLive(after[legs[i].acct], legs[i], c', false);
      }
    }
  }

  lemma StartOne(s: State, l: Leg, c: int, now: int, ok: bool)
    requires LegLive(s, l, c, false)
    ensures
      var o := Call(s, Start(l.id, now), ok);
      && LegLive(o.s, l, c, o.err == Ok)
      && (forall m: Leg, c1, f :: m.id != l.id && LegLive(s, m, c1, f) ==> LegLive(o.s, m, c1, f))
      && SpentOf(o.s) == SpentOf(s)
  {
    hide Dispatch;
  }

  /** Starting the legs changes their started flags and nothing that a settlement bills by. */
  lemma {:induction false} StartKeepsLive(budgets: map<Name, State>, legs: seq<Leg>, c: int, flags: seq<bool>, now: int,
                                          ok: nat -> bool, k: nat)
    returns (flags': seq<bool>)
    requires k <= |legs| && LegsLive(budgets, legs, c, flags, 0) && forall i :: k <= i < |legs| ==> !flags[i]
    ensures LegsLive(StartFrom(budgets, legs, now, ok, k), legs, c, flags', 0)
    ensures Total(StartFrom(budgets, legs, now, ok, k), SpentOf) == Total(budgets, SpentOf)
    decreases |legs| - k
  {
    hide Call, Balanced, LegLive, Total;
    flags' := flags;
    if k < |legs| {
      var a := legs[k].acct;
      assert LegLive(budgets[a], legs[k], c, false);
      StartOne(budgets[a], legs[k], c, now, ok(k));
      CallKeepsBooks(budgets[a], Start(legs[k].id, now), ok(k));
      var o := Call(budgets[a], Start(legs[k].id, now), ok(k));
      TotalInsert(budgets, SpentOf, a, o.s);
      hide SpentOf;
      flags' := StartKeepsLive(budgets[a := o.s], legs, c, flags[k := o.err == Ok], now, ok, k + 1);
    }
  }

  /** A bind whose reprices are appended leaves the legs live at one rate, whichever of them
      can start, and spends nothing. */
  lemma BindKeepsOneRate(budgets: map<Name, State>, legs: seq<Leg>, c: int, rate: int, now: int,
                         okRate: nat -> bool, okStart: nat -> bool)
    returns (flags: seq<bool>)
    requires LegsLive(budgets, legs, c, AllFalse(|legs|), 0) && forall i :: 0 <= i < |legs| ==> okRate(i)
    ensures LegsLive(Bound(budgets, legs, rate, now, okRate, okStart), legs, BoundRate(c, rate), flags, 0)
    ensures Total(Bound(budgets, legs, rate, now, okRate, okStart), SpentOf) == Total(budgets, SpentOf)
  {
    hide Call, Balanced, LegLive, StartFrom, RepriceFrom, Total, SpentOf;
    if 0 < rate {
      RepriceRates(budgets, legs, c, rate, now, okRate, 0);
      flags := StartKeepsLive(RepriceFrom(budgets, legs, rate, now, okRate, 0), legs, BoundRate(c, rate),
                              AllFalse(|legs|), now, okStart, 0);
    } else {
      flags := StartKeepsLive(budgets, legs, c, AllFalse(|legs|), now, okStart, 0);
    }
  }

  lemma HoldsSpendsNothing(s0: State, s: State, legs: seq<Leg>, a: Name, c: int, now: int)
    requires Holds(s0, s, legs, a, c, now)
    ensures SpentOf(s) == SpentOf(s0)
  {
  }

  /** Placing a job's legs spends nothing. */
  lemma {:induction false} AdmissionSpendsNothing(before: map<Name, State>, after: map<Name, State>, legs: seq<Leg>, c: int, now: int)
    requires AllHold(before, after, legs, c, now)
    ensures Total(after, SpentOf) == Total(before, SpentOf)
    decreases |before|
  {
    hide Holds;
    forall a | a in before
      ensures SpentOf(after[a]) == SpentOf(before[a])
    {
      HoldsSpendsNothing(before[a], after[a], legs, a, c, now);
    }
    hide SpentOf, AllHold;
    SameTotal(before, after, SpentOf);
  }

  /** Which legs are live and started. */
  function StartedFlags(budgets: map<Name, State>, legs: seq<Leg>): seq<bool>
    requires forall i :: 0 <= i < |legs| ==> legs[i].acct in budgets
  {
    seq(|legs|, i requires 0 <= i < |legs| =>
      legs[i].id in budgets[legs[i].acct].escrows && budgets[legs[i].acct].escrows[legs[i].id].started)
  }

  lemma LiveFlags(budgets: map<Name, State>, legs: seq<Leg>, c: int, flags: seq<bool>)
    requires LegsLive(budgets, legs, c, flags, 0)
    ensures StartedFlags(budgets, legs) == flags
  {
    forall i | 0 <= i < |legs|
      ensures StartedFlags(budgets, legs)[i] == flags[i]
    {
      assert LegLive(budgets[legs[i].acct], legs[i], c, flags[i]);
    }
  }

  /** From admission to settlement: a job of walltime w admitted at rate c and bound on a node
      that offers `rate`, then completed, infra-failed or cancelled after `runtime`, is charged
      the bound rate times clamp(runtime, 0, w) over all the budgets that fund it if and only if
      that rate is 0 or no leg whose append failed, and no leg cancelled unstarted, has a share. */
  lemma AdmittedJobBillsExactlyIff(before: map<Name, State>, admitted: map<Name, State>, legs: seq<Leg>, c: int, w: int,
                                   gateAt: int, rate: int, bindAt: int, okRate: nat -> bool, okStart: nat -> bool,
                                   kind: SettleKind, runtime: int, now: int, ok: nat -> bool)
    requires AllHold(before, admitted, legs, c, gateAt) && Funds(legs, c, w, 1) && AllBalanced(admitted)
    requires (forall i :: 0 <= i < |legs| ==> legs[i].acct in admitted && okRate(i)) && !kind.SettleTimeout?
    ensures
      var bound := Bound(admitted, legs, rate, bindAt, okRate, okStart);
      Total(SettleFrom(bound, kind, legs, runtime, now, ok, 0), SpentOf)
      == Total(before, SpentOf) + BoundRate(c, rate) * Clamp(runtime, w)
      <==> BoundRate(c, rate) == 0 || NoShareLost(kind, legs, StartedFlags(bound, legs), ok, runtime)
  {
    hide Balanced, Total, SpentOf, Holds, LegLive;
    AdmittedLegsAreLive(before, admitted, legs, c, gateAt);
    AdmissionSpendsNothing(before, admitted, legs, c, gateAt);
    hide AllHold;
    var flags := BindKeepsOneRate(admitted, legs, c, rate, bindAt, okRate, okStart);
    var bound := Bound(admitted, legs, rate, bindAt, okRate, okStart);
    LiveFlags(bound, legs, BoundRate(c, rate), flags);
    hide Bound, SettleFrom, StartedFlags, NoShareLost;
    SettlementBillsExactlyIff(bound, kind, legs, BoundRate(c, rate), flags, ok, runtime, now);
  }

  /** From admission to completion: a job of walltime w admitted at rate c, bound on a node
      that offers `rate`, and completed or infra-failed after `runtime`, is charged the bound
      rate times clamp(runtime, 0, w) over all the budgets that fund it, whatever the split and
      whichever legs could start. */
  lemma AdmittedJobBillsExactly(before: map<Name, State>, admitted: map<Name, State>, legs: seq<Leg>, c: int, w: int,
                                gateAt: int, rate: int, bindAt: int, okRate: nat -> bool, okStart: nat -> bool,
                                kind: SettleKind, runtime: int, now: int, ok: nat -> bool)
    requires AllHold(before, admitted, legs, c, gateAt) && Funds(legs, c, w, 1) && AllBalanced(admitted)
    requires forall i :: 0 <= i < |legs| ==> legs[i].acct in admitted && okRate(i) && ok(i)
    requires kind.SettleComplete? || kind.SettleInfraFail?
    ensures
      var bound := Bound(admitted, legs, rate, bindAt, okRate, okStart);
      Total(SettleFrom(bound, kind, legs, runtime, now, ok, 0), SpentOf)
      == Total(before, SpentOf) + BoundRate(c, rate) * Clamp(runtime, w)
  {
    hide Balanced, Total, SpentOf, Holds, LegLive;
    AdmittedLegsAreLive(before, admitted, legs, c, gateAt);
    AdmissionSpendsNothing(before, admitted, legs, c, gateAt);
    hide AllHold;
    var flags := BindKeepsOneRate(admitted, legs, c, rate, bindAt, okRate, okStart);
    hide Bound, SettleFrom;
    CompletionBillsExactly(Bound(admitted, legs, rate, bindAt, okRate, okStart), kind, legs, BoundRate(c, rate), flags,
                           ok, runtime, now);
  }
}
