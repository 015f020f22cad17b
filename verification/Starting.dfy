/** Which legs of a multi-source job a bind starts (handleBindMultiSource in
    internal/daemon/server.go): each by its own budget's verdict, in the state that budget is in
    when the leg's turn comes. */
module Starting {
  import opened Arith
  import opened Sums
  import opened TokenBucket
  import opened Kernel
  import opened Books
  import opened ReadView
  import opened Funding
  import opened MultiSource
  import opened FanOut
  import opened Server
  import opened Settlement
  import opened Binding

  /** The same escrow under `id` in both states, and burst on in both or in neither. */
  predicate SameEscrow(s: State, t: State, id: Id) {
    && (id in s.escrows <==> id in t.escrows) && (id in s.escrows ==> t.escrows[id] == s.escrows[id])
    && t.bk.on == s.bk.on
  }

  /** The calls a handler fans out over the legs of a job. */
  predicate OnLeg(cmd: Command) {
    cmd.Start? || cmd.Reprice? || SettlesJob(cmd)
  }

  lemma CallElsewhere(s: State, cmd: Command, ok: bool, id: Id)
    requires OnLeg(cmd) && cmd.id != id
    ensures SameEscrow(s, Call(s, cmd, ok).s, id)
  {
    hide Dispatch, Release;
  }

  lemma CallKeepsSwitch(s: State, cmd: Command, ok: bool)
    requires OnLeg(cmd)
    ensures Call(s, cmd, ok).s.bk.on == s.bk.on
  {
    hide Dispatch, Release;
  }

  /** The calls on other legs leave a leg's escrow alone. */
  lemma {:induction false} OwnOpsLeave(s: State, legs: seq<Leg>, cmds: seq<Command>, ok: nat -> bool, a: Name, lo: nat,
                                       hi: nat, id: Id)
    requires lo <= hi <= |legs| == |cmds| && forall i :: lo <= i < hi ==> OnLeg(cmds[i]) && cmds[i].id != id
    ensures SameEscrow(Run(s, OwnOps(legs, cmds, ok, a, lo)).s, Run(s, OwnOps(legs, cmds, ok, a, hi)).s, id)
    decreases hi
  {
    hide Call, Run, OnLeg;
    if lo < hi {
      var before := OwnOps(legs, cmds, ok, a, hi - 1);
      OwnOpsLeave(s, legs, cmds, ok, a, lo, hi - 1, id);
      if legs[hi - 1].acct != a {
        assert OwnOps(legs, cmds, ok, a, hi) == before;
      }
      RunOneMore(s, before, cmds[hi - 1], ok(hi - 1));
      CallElsewhere(Run(s, before).s, cmds[hi - 1], ok(hi - 1), id);
    }
  }

  lemma RunOfNothing(s: State)
    ensures Run(s, []).s == s
  {
  }

  /** A leg's own turn, and the turns of the others around it. */
  lemma OwnTurn(s: State, legs: seq<Leg>, cmds: seq<Command>, ok: nat -> bool, k: nat)
    requires |cmds| == |legs| && k < |legs| && Distinct(legs)
    requires forall i :: 0 <= i < |legs| ==> OnLeg(cmds[i]) && cmds[i].id == legs[i].id
    ensures
      var a, id := legs[k].acct, legs[k].id;
      var stood := Run(s, OwnOps(legs, cmds, ok, a, k)).s;
      && SameEscrow(s, stood, id)
      && SameEscrow(Call(stood, cmds[k], ok(k)).s, Run(s, OwnOps(legs, cmds, ok, a, |legs|)).s, id)
  {
    hide Call, Run, OnLeg;
    var a, id := legs[k].acct, legs[k].id;
    OwnOpsLeave(s, legs, cmds, ok, a, 0, k, id);
    OwnOpsLeave(s, legs, cmds, ok, a, k + 1, |legs|, id);
    assert Run(s, []).s == s by {
      RunOfNothing(s);
    }
    RunOneMore(s, OwnOps(legs, cmds, ok, a, k), cmds[k], ok(k));
  }

  /** The state leg k's budget is in when the bind comes to start it. */
  function Stood(s: State, legs: seq<Leg>, k: nat, rate: int, now: int, okRate: nat -> bool, okStart: nat -> bool): State
    requires k < |legs|
  {
    var a := legs[k].acct;
    Run(Repriced(s, legs, a, rate, now, okRate), OwnOps(legs, StartCmds(legs, now), okStart, a, k)).s
  }

  lemma RepriceOwn(s: State, l: Leg, c: int, rate: int, now: int, ok: bool)
    requires LegLive(s, l, c, false)
    ensures LegLive(Call(s, Reprice(l.id, rate, now), ok).s, l, if ok then BoundRate(c, rate) else c, false)
  {
  }

  lemma LegRepriced(s: State, legs: seq<Leg>, k: nat, c: int, rate: int, now: int, ok: nat -> bool)
    requires k < |legs| && Distinct(legs) && LegLive(s, legs[k], c, false)
    ensures LegLive(Repriced(s, legs, legs[k].acct, rate, now, ok), legs[k], if ok(k) then BoundRate(c, rate) else c, false)
    ensures Repriced(s, legs, legs[k].acct, rate, now, ok).bk.on == s.bk.on
  {
    hide Call, Run, OwnOps;
    if 0 < rate {
      var cmds := RepriceCmds(legs, rate, now);
      OwnTurn(s, legs, cmds, ok, k);
      var stood := Run(s, OwnOps(legs, cmds, ok, legs[k].acct, k)).s;
      RepriceOwn(stood, legs[k], c, rate, now, ok(k));
      CallKeepsSwitch(stood, cmds[k], ok(k));
    }
  }

  /** Starting a live unstarted leg: started exactly when the call is accepted, and the call is
      accepted exactly when its append goes through and the budget's verdict dispatches. */
  lemma StartOwn(s: State, l: Leg, c: int, now: int, ok: bool)
    requires LegLive(s, l, c, false)
    ensures
      var o := Call(s, Start(l.id, now), ok);
      && LegLive(o.s, l, c, o.err == Ok)
      && (o.err == Ok <==> ok && DispatchVerdict(s.bk, c, l.w, now).dispatch)
  {
    VerdictIsGate(s.bk, c, l.w, now);
    hide DispatchVerdict, Accrue, ReserveForRate;
  }

  lemma VerdictWhenOff(b: Bucket, c: int, w: int, now: int)
    requires !b.on
    ensures DispatchVerdict(b, c, w, now).dispatch
  {
  }

  /** After a bind a leg is live at the rate its reprice left it at, and it is started if and
      only if its own start was accepted: exactly when that start was appended and the verdict
      on the budget as it then stood dispatches the leg. With burst off only the append counts. */
  lemma BindStartsIff(s: State, legs: seq<Leg>, k: nat, c: int, rate: int, now: int, okRate: nat -> bool,
                      okStart: nat -> bool)
    requires k < |legs| && Distinct(legs) && LegLive(s, legs[k], c, false)
    ensures
      var l, c' := legs[k], if okRate(k) then BoundRate(c, rate) else c;
      var stood := Stood(s, legs, k, rate, now, okRate, okStart);
      var accepted := Call(stood, Start(l.id, now), okStart(k)).err == Ok;
      && LegLive(Run(s, BindOps(legs, l.acct, rate, now, okRate, okStart)).s, l, c', accepted)
      && (accepted <==> okStart(k) && DispatchVerdict(stood.bk, c', l.w, now).dispatch)
      && (!s.bk.on ==> (accepted <==> okStart(k)))
  {
    hide Call, Run, OwnOps, DispatchVerdict, RepriceCmds;
    var l, c' := legs[k], if okRate(k) then BoundRate(c, rate) else c;
    var mid := Repriced(s, legs, l.acct, rate, now, okRate);
    var starts := StartCmds(legs, now);
    LegRepriced(s, legs, k, c, rate, now, okRate);
    OwnTurn(mid, legs, starts, okStart, k);
    var stood := Stood(s, legs, k, rate, now, okRate, okStart);
    StartOwn(stood, l, c', now, okStart(k));
    BindRunsInTwo(s, legs, l.acct, rate, now, okRate, okStart);
    if !s.bk.on {
      VerdictWhenOff(stood.bk, c', l.w, now);
    }
  }

  // ---- the end of a job ----

  lemma SettleCmdIsOnLeg(kind: SettleKind, legs: seq<Leg>, i: nat, runtime: int, now: int)
    requires i < |legs|
    ensures OnLeg(SettleCmd(kind, legs, i, runtime, now)) && SettleCmd(kind, legs, i, runtime, now).id == legs[i].id
  {
    hide LegRuntime;
  }

  lemma SettleOwn(s: State, kind: SettleKind, legs: seq<Leg>, k: nat, runtime: int, now: int, ok: bool)
    requires k < |legs| && legs[k].id in s.escrows
    ensures
      var t := Call(s, SettleCmd(kind, legs, k, runtime, now), ok).s;
      && (legs[k].id in t.escrows <==> !ok)
      && (!ok ==> t == s)
  {
    hide LegRuntime, Release;
  }

  /** A settled job leaves no leg behind but those whose appends failed, and these as they were. */
  lemma SettleEndsIff(s: State, legs: seq<Leg>, k: nat, c: int, started: bool, kind: SettleKind, runtime: int, now: int,
                      ok: nat -> bool)
    requires k < |legs| && Distinct(legs) && LegLive(s, legs[k], c, started)
    ensures
      var l := legs[k];
      var t := Run(s, OwnOps(legs, SettleCmds(kind, legs, runtime, now), ok, l.acct, |legs|)).s;
      && (l.id in t.escrows <==> !ok(k))
      && (!ok(k) ==> t.escrows[l.id] == s.escrows[l.id])
  {
    hide Call, Run, OwnOps, SettleCmd;
    var l, cmds := legs[k], SettleCmds(kind, legs, runtime, now);
    forall i | 0 <= i < |legs|
      ensures OnLeg(cmds[i]) && cmds[i].id == legs[i].id
    {
      SettleCmdIsOnLeg(kind, legs, i, runtime, now);
    }
    OwnTurn(s, legs, cmds, ok, k);
    SettleOwn(Run(s, OwnOps(legs, cmds, ok, l.acct, k)).s, kind, legs, k, runtime, now, ok(k));
  }

  // ---- a whole job ----

  ghost predicate BurstOff(budgets: map<Name, State>) {
    forall a :: a in budgets ==> !budgets[a].bk.on
  }

  lemma AdmissionKeepsSwitch(before: map<Name, State>, after: map<Name, State>, legs: seq<Leg>, c: int, now: int)
    requires AllHold(before, after, legs, c, now) && BurstOff(before)
    ensures BurstOff(after)
  {
    hide Held, HeldEscrows, HeldArrays;
    forall a | a in before
      ensures !after[a].bk.on
    {
      assert Holds(before[a], after[a], legs, a, c, now);
    }
  }

  /** With burst off and its starts appended, a bind starts every leg. */
  lemma BindStartsAll(budgets: map<Name, State>, legs: seq<Leg>, c: int, rate: int, now: int, okRate: nat -> bool,
                      okStart: nat -> bool)
    requires LegsLive(budgets, legs, c, AllFalse(|legs|), 0) && BurstOff(budgets) && forall i :: 0 <= i < |legs| ==> okStart(i)
    ensures forall i :: 0 <= i < |legs| ==> StartedFlags(Bound(budgets, legs, rate, now, okRate, okStart), legs)[i]
  {
    hide Balanced, Bound, Run, BindOps, Stood, Call, DispatchVerdict;
    BindFansOut(budgets, legs, rate, now, okRate, okStart);
    forall i | 0 <= i < |legs|
      ensures StartedFlags(Bound(budgets, legs, rate, now, okRate, okStart), legs)[i]
    {
      assert LegLive(budgets[legs[i].acct], legs[i], c, false);
      BindStartsIff(budgets[legs[i].acct], legs, i, c, rate, now, okRate, okStart);
    }
  }

  /** A job cancelled after it was bound is charged for its elapsed time, given that every leg
      could start: with burst off and the appends going through, exactly the bound rate times
      clamp(elapsed, 0, w). */
  lemma CancelledJobBillsExactly(before: map<Name, State>, admitted: map<Name, State>, legs: seq<Leg>, c: int, w: int,
                                 gateAt: int, rate: int, bindAt: int, okRate: nat -> bool, okStart: nat -> bool,
                                 elapsed: int, now: int, ok: nat -> bool)
    requires AllHold(before, admitted, legs, c, gateAt) && Funds(legs, c, w, 1) && AllBalanced(admitted) && BurstOff(before)
    requires forall i :: 0 <= i < |legs| ==> legs[i].acct in admitted && okRate(i) && okStart(i) && ok(i)
    ensures
      var bound := Bound(admitted, legs, rate, bindAt, okRate, okStart);
      Total(SettleFrom(bound, SettleCancel, legs, elapsed, now, ok, 0), SpentOf)
      == Total(before, SpentOf) + BoundRate(c, rate) * Clamp(elapsed, w)
  {
    hide Balanced, Total, SpentOf, Holds, LegLive, Bound, SettleFrom, LegRuntime;
    AdmissionKeepsSwitch(before, admitted, legs, c, gateAt);
    AdmittedLegsAreLive(before, admitted, legs, c, gateAt);
    BindStartsAll(admitted, legs, c, rate, bindAt, okRate, okStart);
    var bound := Bound(admitted, legs, rate, bindAt, okRate, okStart);
    assert NoShareLost(SettleCancel, legs, StartedFlags(bound, legs), ok, elapsed);
    hide NoShareLost, LegsLive, BurstOff;
    AdmittedJobBillsExactlyIff(before, admitted, legs, c, w, gateAt, rate, bindAt, okRate, okStart, SettleCancel, elapsed, now, ok);
  }

  lemma TimedOutJobBillsAll(before: map<Name, State>, admitted: map<Name, State>, legs: seq<Leg>, c: int, w: int,
                            gateAt: int, rate: int, bindAt: int, okRate: nat -> bool, okStart: nat -> bool,
                            runtime: int, now: int, ok: nat -> bool)
    requires AllHold(before, admitted, legs, c, gateAt) && Funds(legs, c, w, 1) && AllBalanced(admitted)
    requires forall i :: 0 <= i < |legs| ==> legs[i].acct in admitted && okRate(i) && ok(i)
    ensures
      var bound := Bound(admitted, legs, rate, bindAt, okRate, okStart);
      Total(SettleFrom(bound, SettleTimeout, legs, runtime, now, ok, 0), SpentOf)
      == Total(before, SpentOf) + BoundRate(c, rate) * w
  {
    hide Balanced, Total, SpentOf, Holds, LegLive, Bound, SettleFrom;
    AdmittedLegsAreLive(before, admitted, legs, c, gateAt);
    AdmissionSpendsNothing(before, admitted, legs, c, gateAt);
    hide AllHold;
    var flags := BindKeepsOneRate(admitted, legs, c, rate, bindAt, okRate, okStart);
    hide LegsLive, ReleasedTo;
    TimeoutBillsAll(Bound(admitted, legs, rate, bindAt, okRate, okStart), legs, BoundRate(c, rate), flags, ok, runtime, now);
  }

  lemma RejectionSpendsNothing(before: map<Name, State>, after: map<Name, State>)
    requires after.Keys == before.Keys && forall a :: a in after ==> Unmoved(before[a], after[a])
    ensures Total(after, SpentOf) == Total(before, SpentOf)
  {
    forall a | a in before
      ensures SpentOf(after[a]) == SpentOf(before[a])
    {
      assert Unmoved(before[a], after[a]);
    }
    SameTotal(before, after, SpentOf);
  }

  /** From admission to whichever end. */
  lemma JobBillsExactly(before: map<Name, State>, admitted: map<Name, State>, legs: seq<Leg>, c: int, w: int,
                        gateAt: int, rate: int, bindAt: int, okRate: nat -> bool, okStart: nat -> bool,
                        kind: SettleKind, runtime: int, now: int, ok: nat -> bool)
    requires AllHold(before, admitted, legs, c, gateAt) && Funds(legs, c, w, 1) && AllBalanced(admitted)
    requires forall i :: 0 <= i < |legs| ==> legs[i].acct in admitted && okRate(i) && ok(i)
    requires kind.SettleCancel? ==> BurstOff(before) && forall i :: okStart(i)
    ensures
      var bound := Bound(admitted, legs, rate, bindAt, okRate, okStart);
      Total(SettleFrom(bound, kind, legs, runtime, now, ok, 0), SpentOf)
      == Total(before, SpentOf) + BoundRate(c, rate) * if kind.SettleTimeout? then w else Clamp(runtime, w)
  {
    hide *;
    match kind {
      case SettleCancel =>
        CancelledJobBillsExactly(before, admitted, legs, c, w, gateAt, rate, bindAt, okRate, okStart, runtime, now, ok);
      case SettleTimeout =>
        TimedOutJobBillsAll(before, admitted, legs, c, w, gateAt, rate, bindAt, okRate, okStart, runtime, now, ok);
      case _ =>
        AdmittedJobBillsExactly(before, admitted, legs, c, w, gateAt, rate, bindAt, okRate, okStart, kind, runtime, now, ok);
    }
  }

  /** The handlers in sequence on one server: a job of walltime w is charged, over all budgets,
      nothing if it is rejected, and otherwise the bound rate times the whole walltime if it times
      out and times its clamped runtime if it ends in any other way. */
  method RunJob(sv: Server, sources: seq<Name>, c: int, w: int, master: string, gateAt: int, okPlace: nat -> bool,
                undo: (nat, nat) -> bool, rate: int, bindAt: int, okRate: nat -> bool, okStart: nat -> bool,
                kind: SettleKind, runtime: int, now: int, ok: nat -> bool)
    returns (allow: bool)
    requires FreshMaster(sv.budgets, master) && AllBalanced(sv.budgets)
    requires forall i :: okRate(i) && ok(i)
    requires kind.SettleCancel? ==> BurstOff(sv.budgets) && forall i :: okStart(i)
    requires TakesBack(sv.budgets, sources, c, w, 1, master, gateAt, okPlace, undo)
    modifies sv
    ensures allow <==> Admits(old(sv.budgets), sources, c, w, 1, master, gateAt, okPlace)
    ensures Total(sv.budgets, SpentOf)
            == Total(old(sv.budgets), SpentOf) + if !allow then 0
              else BoundRate(c, rate) * if kind.SettleTimeout? then w else Clamp(runtime, w)
    ensures allow ==> master !in sv.tokenLegs
  {
    hide AllHold, AllBalanced, TakesBack, Funds, FreshMaster, Admits, Total, SpentOf, SettleFrom, Bound, Unmoved, BurstOff;
    ghost var before := sv.budgets;
    allow := sv.GateMultiSource(sources, c, w, 1, master, gateAt, okPlace, undo);
    if allow {
      ghost var admitted, legs := sv.budgets, sv.tokenLegs[master];
      sv.BindMultiSource(master, rate, bindAt, okRate, okStart);
      var _ := sv.SettleMultiSource(master, kind, runtime, now, ok);
      JobBillsExactly(before, admitted, legs, c, w, gateAt, rate, bindAt, okRate, okStart, kind, runtime, now, ok);
    } else {
      RejectionSpendsNothing(before, sv.budgets);
    }
  }
}
