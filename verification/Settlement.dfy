/** What settling a multi-source job bills, over all the budgets that fund it. */
module Settlement {
  import opened Arith
  import opened Sums
  import opened Kernel
  import opened Books
  import opened Funding
  import opened MultiSource
  import opened Server

  function SpentOf(s: State): int { s.consumed + s.writeOff }

  function WrittenOffOf(s: State): int { s.writeOff }

  function BalanceOf(s: State): int { s.b }

  function LockedOf(s: State): int { s.reservedTotal }

  predicate LegLive(s: State, l: Leg, c: int, started: bool) {
    l.id in s.escrows && s.escrows[l.id].c == c && s.escrows[l.id].w == l.w && s.escrows[l.id].started == started
  }

  /** Legs k.. are live time slices at one common rate, with the given started flags. */
  ghost predicate LegsLive(budgets: map<Name, State>, legs: seq<Leg>, c: int, started: seq<bool>, k: nat) {
    && |started| == |legs| && Distinct(legs)
    && (forall i :: 0 <= i < |legs| ==> legs[i].acct in budgets && 0 <= legs[i].w)
    && (forall i :: k <= i < |legs| ==> LegLive(budgets[legs[i].acct], legs[i], c, started[i]))
    && (forall a :: a in budgets ==> Balanced(budgets[a]))
  }

  /** Leg i is not billed for its share: its append failed, or it is cancelled unstarted. */
  predicate Unbilled(kind: SettleKind, started: seq<bool>, ok: nat -> bool, i: nat)
    requires i < |started|
  {
    !ok(i) || (kind.SettleCancel? && !started[i])
  }

  /** Seconds leg i is billed: its share of the runtime, or all of its slice for a timeout. */
  function Billed(kind: SettleKind, legs: seq<Leg>, started: seq<bool>, ok: nat -> bool, runtime: int, i: nat): int
    requires i < |legs| == |started|
  {
    if Unbilled(kind, started, ok, i) then 0
    else if kind.SettleTimeout? then legs[i].w
    else LegRuntime(Slices(legs), i, runtime)
  }

  function BilledTo(kind: SettleKind, legs: seq<Leg>, started: seq<bool>, ok: nat -> bool, runtime: int, k: nat): int
    requires k <= |legs| == |started|
  {
    if k == 0 then 0
    else BilledTo(kind, legs, started, ok, runtime, k - 1) + Billed(kind, legs, started, ok, runtime, k - 1)
  }

  /** Seconds of reservation the first k legs let go: those whose append goes through. */
  function ReleasedTo(legs: seq<Leg>, ok: nat -> bool, k: nat): int
    requires k <= |legs|
  {
    if k == 0 then 0 else ReleasedTo(legs, ok, k - 1) + if ok(k - 1) then legs[k - 1].w else 0
  }

  lemma BilledIsClamped(kind: SettleKind, legs: seq<Leg>, flags: seq<bool>, ok: nat -> bool, i: nat, runtime: int,
                        now: int, e: Escrow)
    requires i < |legs| == |flags| && e.started == flags[i] && e.w == legs[i].w && 0 <= e.w && ok(i)
    ensures
      var cmd := SettleCmd(kind, legs, i, runtime, now);
      SettlesJob(cmd) && Clamp(JobRuntime(e, cmd), e.w) == Billed(kind, legs, flags, ok, runtime, i)
  {
    hide Sum;
  }

  /** Settling one leg moves exactly its slice, the billed part spent and the rest refunded, or
      nothing at all when its append fails. */
  lemma SettleLeg(s: State, l: Leg, c: int, started: bool, kind: SettleKind, legs: seq<Leg>, flags: seq<bool>,
                  ok: nat -> bool, i: nat, runtime: int, now: int)
    requires Balanced(s) && LegLive(s, l, c, started) && 0 <= l.w
    requires i < |legs| == |flags| && legs[i] == l && flags[i] == started
    ensures
      var o := Call(s, SettleCmd(kind, legs, i, runtime, now), ok(i));
      var used := c * Billed(kind, legs, flags, ok, runtime, i);
      var released := if ok(i) then c * l.w else 0;
      && (o.err == Ok <==> ok(i)) && Balanced(o.s)
      && o.s.escrows == (if ok(i) then s.escrows - {l.id} else s.escrows)
      && SpentOf(o.s) == SpentOf(s) + used
      && BalanceOf(o.s) == BalanceOf(s) + released - used
      && LockedOf(o.s) == LockedOf(s) - released
      && o.s.writeOff == s.writeOff + (if kind.SettleInfraFail? && !s.billInfra then used else 0)
      && o.s.billInfra == s.billInfra
  {
    var cmd := SettleCmd(kind, legs, i, runtime, now);
    var e := s.escrows[l.id];
    if ok(i) {
      BilledIsClamped(kind, legs, flags, ok, i, runtime, now, e);
      SettleKeepsBooks(s, l.id, JobRuntime(e, cmd), cmd.InfraFail? && !s.billInfra, now, [cmd]);
    }
    hide ArrayOK, Total, Release, LegRuntime;
  }

  lemma StepKeepsLive(budgets: map<Name, State>, legs: seq<Leg>, c: int, started: seq<bool>, k: nat, s: State)
    requires k < |legs| && LegsLive(budgets, legs, c, started, k)
    requires Balanced(s)
    requires s.escrows == budgets[legs[k].acct].escrows - {legs[k].id} || s.escrows == budgets[legs[k].acct].escrows
    ensures LegsLive(budgets[legs[k].acct := s], legs, c, started, k + 1)
  {
    hide Balanced;
    var after := budgets[legs[k].acct := s];
    forall i | k + 1 <= i < |legs|
      ensures LegLive(after[legs[i].acct], legs[i], c, started[i])
    {
      assert legs[k].id != legs[i].id;
      assert LegLive(budgets[legs[i].acct], legs[i], c, started[i]);
    }
  }

  /** One leg of the fan-out, seen over all budgets. */
  lemma FanOutStep(budgets: map<Name, State>, kind: SettleKind, legs: seq<Leg>, c: int,
                   started: seq<bool>, ok: nat -> bool, runtime: int, now: int, k: nat)
    requires k < |legs| && LegsLive(budgets, legs, c, started, k)
    ensures legs[k].acct in budgets
    ensures
      var a := legs[k].acct;
      var after := budgets[a := Call(budgets[a], SettleCmd(kind, legs, k, runtime, now), ok(k)).s];
      var used := c * Billed(kind, legs, started, ok, runtime, k);
      var released := if ok(k) then c * legs[k].w else 0;
      && LegsLive(after, legs, c, started, k + 1)
      && Total(after, SpentOf) == Total(budgets, SpentOf) + used
      && Total(after, LockedOf) == Total(budgets, LockedOf) - released
      && Total(after, BalanceOf) == Total(budgets, BalanceOf) + released - used
      && (!kind.SettleInfraFail? ==> Total(after, WrittenOffOf) == Total(budgets, WrittenOffOf))
  {
    hide Call, Balanced, SettleCmd, Billed, Total;
    var a := legs[k].acct;
    var o := Call(budgets[a], SettleCmd(kind, legs, k, runtime, now), ok(k));
    assert LegLive(budgets[a], legs[k], c, started[k]);
    SettleLeg(budgets[a], legs[k], c, started[k], kind, legs, started, ok, k, runtime, now);
    StepKeepsLive(budgets, legs, c, started, k, o.s);
    TotalInsert(budgets, SpentOf, a, o.s);
    TotalInsert(budgets, LockedOf, a, o.s);
    TotalInsert(budgets, BalanceOf, a, o.s);
    TotalInsert(budgets, WrittenOffOf, a, o.s);
  }

  lemma FanOutAlgebra(c: int, n: int, before: int, x: int)
    ensures c * (n - before) == c * x + c * (n - (before + x))
  {
  }

  /** Over all budgets, whichever appends fail: the spent total rises by c times the seconds
      billed, the locked total falls by c times the seconds released, the difference comes back
      as balance. */
  lemma {:induction false} FanOutBills(budgets: map<Name, State>, kind: SettleKind, legs: seq<Leg>, c: int,
                                       started: seq<bool>, ok: nat -> bool, runtime: int, now: int, k: nat)
    requires k <= |legs| && LegsLive(budgets, legs, c, started, k)
    ensures
      var after := SettleFrom(budgets, kind, legs, runtime, now, ok, k);
      var n := |legs|;
      var used := c * (BilledTo(kind, legs, started, ok, runtime, n) - BilledTo(kind, legs, started, ok, runtime, k));
      var released := c * (ReleasedTo(legs, ok, n) - ReleasedTo(legs, ok, k));
      && Total(after, SpentOf) == Total(budgets, SpentOf) + used
      && Total(after, LockedOf) == Total(budgets, LockedOf) - released
      && Total(after, BalanceOf) == Total(budgets, BalanceOf) + released - used
      && (!kind.SettleInfraFail? ==> Total(after, WrittenOffOf) == Total(budgets, WrittenOffOf))
    decreases |legs| - k
  {
    hide Call, Total, Billed, SettleCmd, Balanced, LegLive;
    if k < |legs| {
      var a := legs[k].acct;
      FanOutStep(budgets, kind, legs, c, started, ok, runtime, now, k);
      FanOutBills(budgets[a := Call(budgets[a], SettleCmd(kind, legs, k, runtime, now), ok(k)).s],
                  kind, legs, c, started, ok, runtime, now, k + 1);
      FanOutAlgebra(c, BilledTo(kind, legs, started, ok, runtime, |legs|), BilledTo(kind, legs, started, ok, runtime, k),
                    Billed(kind, legs, started, ok, runtime, k));
      FanOutAlgebra(c, ReleasedTo(legs, ok, |legs|), ReleasedTo(legs, ok, k), if ok(k) then legs[k].w else 0);
      assert BilledTo(kind, legs, started, ok, runtime, k + 1)
             == BilledTo(kind, legs, started, ok, runtime, k) + Billed(kind, legs, started, ok, runtime, k);
      hide LegsLive, BilledTo;
    }
  }

  /** Only an unbilled leg with a share takes anything out of the bill. */
  lemma {:induction false} BillsAtMost(kind: SettleKind, legs: seq<Leg>, started: seq<bool>, ok: nat -> bool,
                                       runtime: int, k: nat)
    requires k <= |legs| == |started| && !kind.SettleTimeout? && forall i :: 0 <= i < |legs| ==> 0 <= legs[i].w
    ensures BilledTo(kind, legs, started, ok, runtime, k) <= Shares(Slices(legs), runtime, k)
    ensures BilledTo(kind, legs, started, ok, runtime, k) == Shares(Slices(legs), runtime, k)
            <==> forall i :: 0 <= i < k && Unbilled(kind, started, ok, i) ==> LegRuntime(Slices(legs), i, runtime) == 0
  {
    hide Unbilled;
    if k > 0 {
      BillsAtMost(kind, legs, started, ok, runtime, k - 1);
      assert 0 <= LegRuntime(Slices(legs), k - 1, runtime);
    }
    hide LegRuntime;
  }

  lemma {:induction false} AllReleased(legs: seq<Leg>, ok: nat -> bool, k: nat)
    requires k <= |legs| && forall i :: 0 <= i < k ==> ok(i)
    ensures ReleasedTo(legs, ok, k) == Sum(Slices(legs)[..k])
  {
    if k > 0 {
      AllReleased(legs, ok, k - 1);
      assert Slices(legs)[..k][..k - 1] == Slices(legs)[..k - 1];
    }
  }

  /** No unbilled leg has a share of the runtime. */
  predicate NoShareLost(kind: SettleKind, legs: seq<Leg>, started: seq<bool>, ok: nat -> bool, runtime: int)
    requires |legs| == |started|
  {
    forall i :: 0 <= i < |legs| && Unbilled(kind, started, ok, i) ==> LegRuntime(Slices(legs), i, runtime) == 0
  }

  lemma CommonFactor(c: int, x: int, y: int)
    ensures c * x == c * y <==> c == 0 || x == y
  {
    if c * x == c * y && x != y {
      assert c * (x - y) == 0;
    }
  }

  /** Completing, infra-failing or cancelling a live multi-source job spends exactly
      c * clamp(runtime, 0, W) over all budgets if and only if the rate is 0 or no leg whose
      append failed, and no leg cancelled unstarted, has a share of the runtime. */
  lemma SettlementBillsExactlyIff(budgets: map<Name, State>, kind: SettleKind, legs: seq<Leg>, c: int,
                                  started: seq<bool>, ok: nat -> bool, runtime: int, now: int)
    requires LegsLive(budgets, legs, c, started, 0) && !kind.SettleTimeout?
    ensures
      var after := SettleFrom(budgets, kind, legs, runtime, now, ok, 0);
      Total(after, SpentOf) == Total(budgets, SpentOf) + c * Clamp(runtime, Sum(Slices(legs)))
      <==> c == 0 || NoShareLost(kind, legs, started, ok, runtime)
  {
    FanOutBills(budgets, kind, legs, c, started, ok, runtime, now, 0);
    BillsAtMost(kind, legs, started, ok, runtime, |legs|);
    RuntimeSplitsExactly(Slices(legs), runtime);
    hide SettleFrom, Total, Balanced, LegRuntime, Unbilled;
    CommonFactor(c, BilledTo(kind, legs, started, ok, runtime, |legs|), Clamp(runtime, Sum(Slices(legs))));
  }

  /** In particular a completion, or an infrastructure failure, whose appends go through bills
      or writes off exactly that, whatever the split, and refunds all the rest. */
  lemma CompletionBillsExactly(budgets: map<Name, State>, kind: SettleKind, legs: seq<Leg>, c: int,
                               started: seq<bool>, ok: nat -> bool, runtime: int, now: int)
    requires LegsLive(budgets, legs, c, started, 0) && (kind.SettleComplete? || kind.SettleInfraFail?)
    requires forall i :: 0 <= i < |legs| ==> ok(i)
    ensures
      var after := SettleFrom(budgets, kind, legs, runtime, now, ok, 0);
      var W := Sum(Slices(legs));
      && Total(after, SpentOf) == Total(budgets, SpentOf) + c * Clamp(runtime, W)
      && Total(after, LockedOf) == Total(budgets, LockedOf) - c * W
      && Total(after, BalanceOf) == Total(budgets, BalanceOf) + c * W - c * Clamp(runtime, W)
      && (kind.SettleComplete? ==> Total(after, WrittenOffOf) == Total(budgets, WrittenOffOf))
  {
    assert NoShareLost(kind, legs, started, ok, runtime);
    hide SettleFrom, Total, LegsLive, LegRuntime, BilledTo;
    SettlementBillsExactlyIff(budgets, kind, legs, c, started, ok, runtime, now);
    FanOutBills(budgets, kind, legs, c, started, ok, runtime, now, 0);
    AllReleased(legs, ok, |legs|);
    assert Slices(legs)[..|legs|] == Slices(legs);
    hide NoShareLost, Sum, Clamp;
  }

  /** All budgets bill infrastructure failures, or none does. */
  ghost predicate OnePolicy(budgets: map<Name, State>, bill: bool) {
    forall a :: a in budgets ==> budgets[a].billInfra == bill
  }

  /** The policy moves the bill of an infrastructure failure to the write-off, and of nothing else. */
  lemma {:induction false} FanOutWritesOff(budgets: map<Name, State>, kind: SettleKind, legs: seq<Leg>, c: int,
                                           started: seq<bool>, ok: nat -> bool, runtime: int, now: int, bill: bool, k: nat)
    requires k <= |legs| && LegsLive(budgets, legs, c, started, k) && OnePolicy(budgets, bill)
    ensures
      var after := SettleFrom(budgets, kind, legs, runtime, now, ok, k);
      var n := |legs|;
      Total(after, WrittenOffOf) == Total(budgets, WrittenOffOf)
        + if kind.SettleInfraFail? && !bill
          then c * (BilledTo(kind, legs, started, ok, runtime, n) - BilledTo(kind, legs, started, ok, runtime, k)) else 0
    decreases |legs| - k
  {
    hide Call, Total, Billed, SettleCmd, Balanced, LegLive;
    if k < |legs| {
      var a := legs[k].acct;
      var s' := Call(budgets[a], SettleCmd(kind, legs, k, runtime, now), ok(k)).s;
      FanOutStep(budgets, kind, legs, c, started, ok, runtime, now, k);
      assert LegLive(budgets[a], legs[k], c, started[k]);
      SettleLeg(budgets[a], legs[k], c, started[k], kind, legs, started, ok, k, runtime, now);
      TotalInsert(budgets, WrittenOffOf, a, s');
      FanOutWritesOff(budgets[a := s'], kind, legs, c, started, ok, runtime, now, bill, k + 1);
      FanOutAlgebra(c, BilledTo(kind, legs, started, ok, runtime, |legs|), BilledTo(kind, legs, started, ok, runtime, k),
                    Billed(kind, legs, started, ok, runtime, k));
      assert BilledTo(kind, legs, started, ok, runtime, k + 1)
             == BilledTo(kind, legs, started, ok, runtime, k) + Billed(kind, legs, started, ok, runtime, k);
      hide LegsLive, BilledTo;
    }
  }

  lemma LiveLengths(budgets: map<Name, State>, legs: seq<Leg>, c: int, started: seq<bool>, k: nat)
    requires LegsLive(budgets, legs, c, started, k)
    ensures |started| == |legs| && forall i :: 0 <= i < |legs| ==> legs[i].acct in budgets && 0 <= legs[i].w
  {
  }

  lemma InfraFailBilled(legs: seq<Leg>, started: seq<bool>, ok: nat -> bool, runtime: int)
    requires |started| == |legs| && forall i :: 0 <= i < |legs| ==> 0 <= legs[i].w && ok(i)
    ensures BilledTo(SettleInfraFail, legs, started, ok, runtime, |legs|) == Clamp(runtime, Sum(Slices(legs)))
  {
    BillsAtMost(SettleInfraFail, legs, started, ok, runtime, |legs|);
    RuntimeSplitsExactly(Slices(legs), runtime);
    hide LegRuntime, BilledTo, Shares, Sum;
  }

  lemma NothingBilledYet(kind: SettleKind, legs: seq<Leg>, started: seq<bool>, ok: nat -> bool, runtime: int)
    requires |legs| == |started|
    ensures BilledTo(kind, legs, started, ok, runtime, 0) == 0 && ReleasedTo(legs, ok, 0) == 0
  {
  }

  /** An infrastructure failure whose appends go through charges the users c times the clamped
      runtime if the budgets bill failures, and writes all of it off if they do not. */
  lemma InfraFailWritesOff(budgets: map<Name, State>, legs: seq<Leg>, c: int, started: seq<bool>, ok: nat -> bool,
                           runtime: int, now: int, bill: bool)
    requires LegsLive(budgets, legs, c, started, 0) && OnePolicy(budgets, bill) && forall i :: 0 <= i < |legs| ==> ok(i)
    ensures
      var after := SettleFrom(budgets, SettleInfraFail, legs, runtime, now, ok, 0);
      var used := c * Clamp(runtime, Sum(Slices(legs)));
      && Total(after, SpentOf) == Total(budgets, SpentOf) + used
      && Total(after, WrittenOffOf) == Total(budgets, WrittenOffOf) + if bill then 0 else used
  {
    hide *;
    LiveLengths(budgets, legs, c, started, 0);
    InfraFailBilled(legs, started, ok, runtime);
    NothingBilledYet(SettleInfraFail, legs, started, ok, runtime);
    FanOutBills(budgets, SettleInfraFail, legs, c, started, ok, runtime, now, 0);
    FanOutWritesOff(budgets, SettleInfraFail, legs, c, started, ok, runtime, now, bill, 0);
  }

  lemma {:induction false} TimeoutBillsReleased(legs: seq<Leg>, started: seq<bool>, ok: nat -> bool, runtime: int, k: nat)
    requires k <= |legs| == |started|
    ensures BilledTo(SettleTimeout, legs, started, ok, runtime, k) == ReleasedTo(legs, ok, k)
  {
    if k > 0 {
      TimeoutBillsReleased(legs, started, ok, runtime, k - 1);
    }
  }

  lemma WholeReleased(legs: seq<Leg>, ok: nat -> bool)
    requires forall i :: 0 <= i < |legs| ==> ok(i)
    ensures ReleasedTo(legs, ok, |legs|) == Sum(Slices(legs))
  {
    AllReleased(legs, ok, |legs|);
    assert Slices(legs)[..|legs|] == Slices(legs);
  }

  /** A timeout whose appends go through spends the whole reservation, started or not; where
      appends fail, exactly the slices of the legs whose appends go through. */
  lemma TimeoutBillsAll(budgets: map<Name, State>, legs: seq<Leg>, c: int, started: seq<bool>, ok: nat -> bool,
                        runtime: int, now: int)
    requires LegsLive(budgets, legs, c, started, 0)
    ensures
      var after := SettleFrom(budgets, SettleTimeout, legs, runtime, now, ok, 0);
      && Total(after, SpentOf) == Total(budgets, SpentOf) + c * ReleasedTo(legs, ok, |legs|)
      && Total(after, BalanceOf) == Total(budgets, BalanceOf)
      && ((forall i :: 0 <= i < |legs| ==> ok(i)) ==>
            Total(after, SpentOf) == Total(budgets, SpentOf) + c * Sum(Slices(legs)))
  {
    hide *;
    LiveLengths(budgets, legs, c, started, 0);
    FanOutBills(budgets, SettleTimeout, legs, c, started, ok, runtime, now, 0);
    TimeoutBillsReleased(legs, started, ok, runtime, |legs|);
    NothingBilledYet(SettleTimeout, legs, started, ok, runtime);
    if forall i :: 0 <= i < |legs| ==> ok(i) {
      WholeReleased(legs, ok);
    }
  }
}
