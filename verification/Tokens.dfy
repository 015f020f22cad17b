/** The token bucket's bounds over whole runs, and the burn against the money that covers it. */
module Tokens {
  import opened Arith
  import opened Sums
  import opened TokenBucket
  import opened Kernel
  import opened Books
  import opened Burn

  /** What is assumed of the float ceiling: not negative, and monotone in the allocation. */
  ghost predicate CeilingOK(ceil: (real, int) -> int) {
    forall p: real, a: int, b: int :: 0.0 <= p && 0 <= a <= b ==> 0 <= ceil(p, a) <= ceil(p, b)
  }

  /** Tokens are held only by started work, and never exceed its money reservation. */
  predicate HeldOK(started: bool, resv: int, cost: int) {
    0 <= resv <= cost && (!started ==> resv == 0)
  }

  predicate EscrowTokensOK(e: Escrow) {
    HeldOK(e.started, e.burstResv, e.c * e.w)
  }

  predicate ArrayTokensOK(a: ArrayEscrow) {
    forall i :: 0 <= i < |a.tasks| ==> HeldOK(a.tasks[i].started, a.tasks[i].burstResv, a.Slice())
  }

  ghost predicate HoldingsOK(s: State) {
    && (forall id :: id in s.escrows ==> EscrowTokensOK(s.escrows[id]))
    && (forall id :: id in s.arrays ==> ArrayTokensOK(s.arrays[id]))
  }

  /** Everything but the two bounds that Withdraw and SetWindow can break. */
  ghost predicate Sane(s: State) {
    CeilingOK(s.bk.ceil) && 0.0 <= s.bk.pct && 0 <= s.bk.pot && HoldingsOK(s)
  }

  /** The burst invariant the budget can check of itself. */
  predicate BurstBounds(s: State) {
    InBounds(s.bk) && 0 <= s.bk.rLive && forall id :: id in s.escrows ==> 0 <= s.escrows[id].burstResv
  }

  // ---- the bucket ----

  lemma CeilingNonNeg(b: Bucket)
    requires CeilingOK(b.ceil) && 0.0 <= b.pct && 0 <= b.b0
    ensures 0 <= b.Ceiling()
  {
  }

  lemma AccrueKeepsPot(b: Bucket, now: int)
    requires CeilingOK(b.ceil) && 0.0 <= b.pct && 0 <= b.b0 && 0 <= b.pot
    ensures 0 <= Accrue(b, now).pot
    ensures InBounds(b) || Banks(b, now) ==> InBounds(Accrue(b, now))
  {
    CeilingNonNeg(b);
    if InBounds(b) || Banks(b, now) {
      AccrueKeepsBounds(b, now);
    }
  }

  /** Last arriver pays: the excess is at most the arriver's own rate. */
  lemma ReservationCovered(b: Bucket, c: int, w: int)
    requires 0 <= c && 0 <= w
    ensures 0 <= ReserveForRate(b, c, w) <= c * w
  {
    var excess := Max(b.rLive + c - Max(b.rLive, Quo(b.b0, b.Window())), 0);
    MulMono(0, excess, w);
    MulMono(excess, c, w);
  }

  lemma DispatchTokens(b: Bucket, c: int, w: int, now: int, ok: bool)
    requires CeilingOK(b.ceil) && 0.0 <= b.pct && 0 <= b.b0 && 0 <= b.pot && 0 <= c && 0 <= w
    ensures
      var g := Dispatch(b, c, w, now, ok);
      && 0 <= g.bk.pot && g.bk.ceil == b.ceil
      && 0 <= g.resv <= c * w
      && (InBounds(b) ==> InBounds(g.bk))
  {
    AccrueKeepsPot(b, now);
    ReservationCovered(Accrue(b, now), c, w);
    hide Accrue, ReserveForRate, CeilingOK;
  }

  lemma ReleaseTokens(b: Bucket, c: int, w: int, started: bool, resv: int, runtime: int, now: int)
    requires CeilingOK(b.ceil) && 0.0 <= b.pct && 0 <= b.b0 && 0 <= b.pot && runtime <= w
    ensures
      var r := Release(b, c, w, started, resv, runtime, now);
      && 0 <= r.pot && r.ceil == b.ceil
      && (InBounds(b) ==> InBounds(r))
  {
    AccrueKeepsPot(b, now);
    CeilingNonNeg(b);
    hide Accrue, CeilingOK;
    if resv > 0 && w > 0 {
      MulMono(0, w - runtime, resv);
      DivMonotone(0, resv * (w - runtime), w);
    }
  }

  lemma ConfigureTokens(b: Bucket, on: bool, pct: real, cap: int, now: int)
    requires CeilingOK(b.ceil) && 0.0 <= b.pct && 0.0 <= pct && 0 <= b.b0 && 0 <= b.pot
    ensures
      var r := Configure(b, on, pct, cap, now);
      && 0 <= r.pot && r.ceil == b.ceil && 0.0 <= r.pct
      && (InBounds(b) ==> InBounds(r))
  {
    AccrueKeepsPot(b, now);
    assert 0 <= b.ceil(pct, b.b0) && 0 <= b.ceil(0.0, b.b0);
    hide Accrue, CeilingOK;
  }

  // ---- the transitions ----

  /** What one transition owes, but for the two that change the bounds themselves. */
  ghost predicate TokensKept(s: State, s': State) {
    Sane(s') && (InBounds(s.bk) ==> InBounds(s'.bk))
  }

  lemma StartTokens(s: State, id: Id, now: int, ok: bool)
    requires Balanced(s) && Sane(s)
    ensures TokensKept(s, StartJob(s, id, now, ok).s)
  {
    if id in s.escrows {
      DispatchTokens(s.bk, s.escrows[id].c, s.escrows[id].w, now, ok);
      hide Dispatch, ArrayOK, CeilingOK, ArrayTokensOK, Total;
    }
  }

  lemma StartTaskTokens(s: State, id: Id, idx: int, now: int, ok: bool)
    requires Balanced(s) && Sane(s)
    ensures TokensKept(s, StartArrayTask(s, id, idx, now, ok).s)
  {
    hide Dispatch, EscrowOK, CeilingOK, EscrowTokensOK, Total;
    if id in s.arrays {
      DispatchTokens(s.bk, s.arrays[id].c, s.arrays[id].w, now, ok);
    }
  }

  lemma SettleTokens(s: State, id: Id, runtime: int, writeOff: bool, now: int, log: seq<Command>)
    requires Balanced(s) && Sane(s) && id in s.escrows
    ensures TokensKept(s, Settle(s, id, runtime, writeOff, now, log).s)
  {
    var e := s.escrows[id];
    ReleaseTokens(s.bk, e.c, e.w, e.started, e.burstResv, Clamp(runtime, e.w), now);
    hide Release, ArrayOK, CeilingOK, ArrayTokensOK, EscrowTokensOK, Total;
  }

  lemma SettleTaskTokens(s: State, id: Id, idx: int, runtime: int, writeOff: bool, now: int, log: seq<Command>)
    requires Balanced(s) && Sane(s)
    ensures TokensKept(s, SettleTask(s, id, idx, runtime, writeOff, now, log).s)
  {
    SettleTaskKeepsBooks(s, id, idx, runtime, writeOff, now, log);
    var o := SettleTask(s, id, idx, runtime, writeOff, now, log);
    if o.err == Ok {
      var a := s.arrays[id];
      var t := a.tasks[idx];
      ReleaseTokens(s.bk, a.c, a.w, t.started, t.burstResv, Clamp(runtime, a.w), now);
      assert ArrayTokensOK(AfterTask(a, idx));
      assert o.s.bk == Release(s.bk, a.c, a.w, t.started, t.burstResv, Clamp(runtime, a.w), now);
      hide Release, ArrayOK, CeilingOK, ArrayTokensOK, EscrowTokensOK, Total;
    }
  }

  lemma RepriceTokens(s: State, id: Id, c: int, now: int, ok: bool)
    requires Balanced(s) && Sane(s)
    ensures TokensKept(s, RepriceJob(s, id, c, now, ok).s)
  {
    if id in s.escrows && 0 < c {
      MulMono(0, s.escrows[id].w, c);
    }
    hide ArrayOK, CeilingOK, ArrayTokensOK, Total;
  }

  lemma SubmitTokens(s: State, id: Id, c: int, w: int, now: int, ok: bool)
    requires Balanced(s) && Sane(s) && 0 <= w
    ensures TokensKept(s, SubmitAt(s, id, c, w, now, ok).s)
  {
    MulMono(0, w, Rate(s, c));
    hide ArrayOK, CeilingOK, ArrayTokensOK, Total;
  }

  lemma SubmitArrayTokens(s: State, id: Id, c: int, n: int, w: int, now: int, ok: bool)
    requires Balanced(s) && Sane(s)
    ensures TokensKept(s, SubmitArrayAt(s, id, c, n, w, now, ok).s)
  {
    if 0 < w {
      MulMono(0, w, Rate(s, c));
    }
    hide EscrowOK, CeilingOK, EscrowTokensOK, Total;
  }

  /** A withdrawal keeps the pot within its ceiling exactly when it is refused or the pot
      already fits under the lowered ceiling; a window change keeps the remainder in range
      exactly when it is refused or the remainder fits the new window. */
  lemma WithdrawAndWindowBounds(s: State, cmd: Command, ok: bool)
    requires Balanced(s) && Sane(s) && InBounds(s.bk) && (cmd.Withdraw? || cmd.SetWindow?)
    ensures Sane(Call(s, cmd, ok).s)
    ensures cmd.Withdraw? ==>
              (InBounds(Call(s, cmd, ok).s.bk)
               <==> Call(s, cmd, ok).err != Ok || s.bk.pot <= s.bk.ceil(s.bk.pct, s.bk.b0 - cmd.amount))
    ensures cmd.SetWindow? ==>
              (InBounds(Call(s, cmd, ok).s.bk)
               <==> Call(s, cmd, ok).err != Ok || s.bk.frac < cmd.te - cmd.ts)
  {
    hide EscrowOK, ArrayOK, ArrayTokensOK, EscrowTokensOK, CeilingOK, Total;
  }

  /** A withdrawal can leave a full pot above its lowered ceiling. */
  lemma WithdrawalLeavesBounds(s: State, t: int, amount: int)
    requires ExampleBucket(s.bk) && s.bk.ceil(s.bk.pct, 50) == 50 && 50 <= s.b && t == 200 && amount == 50
    ensures
      var s1 := Exec(s, Peek(t)).s;
      var o := Call(s1, Withdraw(amount, "", t), true);
      InBounds(s1.bk) && o.err == Ok && !InBounds(o.s.bk)
  {
    var s1 := Exec(s, Peek(t)).s;
    assert s1.bk == s.bk.(pot := 100, lastTouch := t);
  }

  lemma AdminTokens(s: State, cmd: Command, ok: bool)
    requires Balanced(s) && Sane(s) && Administers(cmd) && !cmd.Withdraw? && !cmd.SetWindow?
    ensures TokensKept(s, Administer(s, cmd, ok).s)
  {
    if cmd.SetBurst? && 0.0 <= cmd.pct {
      ConfigureTokens(s.bk, cmd.on, cmd.pct, cmd.cap, cmd.now);
    }
    if cmd.TopUp? && 0 < cmd.amount {
      assert s.bk.ceil(s.bk.pct, s.bk.b0) <= s.bk.ceil(s.bk.pct, s.bk.b0 + cmd.amount);
    }
    hide EscrowOK, ArrayOK, ArrayTokensOK, EscrowTokensOK, CeilingOK, Total, Configure;
  }

  lemma AdmissionTokens(s: State, cmd: Command, ok: bool)
    requires Balanced(s) && Sane(s) && Reasonable(Do(cmd, ok))
    requires !SettlesTask(cmd) && !SettlesJob(cmd) && !cmd.Withdraw? && !cmd.SetWindow?
    ensures TokensKept(s, Call(s, cmd, ok).s)
  {
    hide Sane, Balanced, SubmitAt, SubmitArrayAt, StartJob, StartArrayTask, RepriceJob, Administer;
    if Administers(cmd) {
      AdminTokens(s, cmd, ok);
    } else {
      match cmd {
        case Submit(id, c, w, now) => SubmitTokens(s, id, c, w, now, ok);
        case Start(id, now) => StartTokens(s, id, now, ok);
        case SubmitArray(id, c, n, w, now) => SubmitArrayTokens(s, id, c, n, w, now, ok);
        case StartTask(id, idx, now) => StartTaskTokens(s, id, idx, now, ok);
        case Reprice(id, c, now) => RepriceTokens(s, id, c, now, ok);
      }
    }
  }

  /** Every transition but Withdraw and SetWindow keeps 0 <= pot <= ceiling and
      0 <= frac < T, whatever the append does. */
  lemma ExecTokens(s: State, op: Op)
    requires Balanced(s) && Sane(s) && Reasonable(op)
    ensures Sane(Exec(s, op).s)
    ensures !(op.Do? && (op.cmd.Withdraw? || op.cmd.SetWindow?)) ==> TokensKept(s, Exec(s, op).s)
  {
    if op.Do? {
      var cmd := op.cmd;
      if SettlesTask(cmd) {
        if TaskLogged(s, cmd) {
          SettleTaskTokens(s, cmd.id, cmd.idx, TaskRuntime(s, cmd), cmd.InfraFailTask? && !s.billInfra, cmd.now, [cmd]);
        }
        hide SettleTask, Sane, Balanced;
      } else if SettlesJob(cmd) {
        if cmd.id in s.escrows {
          SettleTokens(s, cmd.id, JobRuntime(s.escrows[cmd.id], cmd), cmd.InfraFail? && !s.billInfra, cmd.now, [cmd]);
        }
        hide Settle, Sane, Balanced;
      } else if cmd.Withdraw? || cmd.SetWindow? {
        hide EscrowOK, ArrayOK, ArrayTokensOK, EscrowTokensOK, CeilingOK, Total;
      } else {
        AdmissionTokens(s, cmd, op.ok);
      }
    } else {
      AccrueKeepsPot(s.bk, op.now);
      hide Accrue, CeilingOK, EscrowOK, ArrayOK, ArrayTokensOK, EscrowTokensOK, Total;
    }
  }

  /** Over every run: the holdings stay covered, and after whatever a Withdraw or
      SetWindow did, the first accrual that banks is back within the bounds. */
  lemma {:induction false} RunTokens(s: State, ops: seq<Op>)
    requires Balanced(s) && Sane(s)
    requires forall i :: 0 <= i < |ops| ==> Reasonable(ops[i])
    ensures Balanced(Run(s, ops).s) && Sane(Run(s, ops).s)
    ensures InBounds(s.bk) && (forall i :: 0 <= i < |ops| && ops[i].Do?
                                 ==> !ops[i].cmd.Withdraw? && !ops[i].cmd.SetWindow?)
            ==> InBounds(Run(s, ops).s.bk)
    ensures forall now :: Banks(Run(s, ops).s.bk, now) ==> InBounds(Accrue(Run(s, ops).s.bk, now))
    decreases |ops|
  {
    if ops == [] {
      forall now | Banks(s.bk, now)
        ensures InBounds(Accrue(s.bk, now))
      {
        AccrueKeepsPot(s.bk, now);
      }
    } else {
      ExecKeepsBooks(s, ops[0]);
      ExecTokens(s, ops[0]);
      hide Exec, Balanced, Sane, Accrue;
      RunTokens(Exec(s, ops[0]).s, ops[1..]);
    }
  }

  // ---- burn against money ----

  /** Every funded walltime is at least one second. */
  ghost predicate WholeSeconds(s: State) {
    forall id :: id in s.escrows ==> 1 <= s.escrows[id].w
  }

  /** The burn of n tasks is covered by the reservation of as many or more. */
  lemma BurnCovered(c: int, w: int, n: int, remaining: int)
    requires 0 <= c && 1 <= w && 0 <= n <= remaining
    ensures c * n <= remaining * (c * w)
  {
    MulMono(n, remaining, c);
    MulMono(1, w, c);
    MulMono(c * 1, c * w, remaining);
  }

  lemma ArrayBurnCovered(a: ArrayEscrow)
    requires ArrayOK(a)
    ensures ArrayBurnOf(a) <= a.reserved
  {
    CountLe(a.tasks, Burning, Unsettled);
    BurnCovered(a.c, a.w, Count(a.tasks, Burning), a.remaining);
  }

  /** The chain rLive <= ReservedTotal <= B0. */
  lemma BurnBelowAllocation(s: State)
    requires Balanced(s) && BurnBounded(s) && WholeSeconds(s)
    ensures 0 <= s.bk.rLive <= s.reservedTotal <= s.bk.b0
  {
    forall id | id in s.escrows
      ensures BurnOf(s.escrows[id]) <= ReservedOf(s.escrows[id])
    {
      MulMono(1, s.escrows[id].w, s.escrows[id].c);
    }
    forall id | id in s.arrays
      ensures ArrayBurnOf(s.arrays[id]) <= ArrayReservedOf(s.arrays[id])
    {
      ArrayBurnCovered(s.arrays[id]);
    }
    TotalLe(s.escrows, BurnOf, ReservedOf);
    TotalLe(s.arrays, ArrayBurnOf, ArrayReservedOf);
  }

  /** An unstarted job's rate still fits under the reservation with the running work. */
  lemma ArrivalBelowAllocation(s: State, id: Id)
    requires Balanced(s) && BurnBounded(s) && WholeSeconds(s)
    requires id in s.escrows && !s.escrows[id].started
    ensures s.bk.rLive + s.escrows[id].c <= s.bk.b0
  {
    var e := s.escrows[id].(started := true);
    var t := s.(escrows := s.escrows[id := e], bk := s.bk.(rLive := s.bk.rLive + e.c, on := true));
    RetagEscrow(s, id, e, t.bk);
    TotalInsert(s.escrows, BurnOf, id, e);
    BurnBelowAllocation(t);
  }

  /** The same for an array task that has not been dispatched. */
  lemma TaskArrivalBelowAllocation(s: State, id: Id, idx: int)
    requires Balanced(s) && BurnBounded(s) && WholeSeconds(s)
    requires HasTask(s, id, idx) && !s.arrays[id].tasks[idx].started && !s.arrays[id].tasks[idx].settled
    ensures s.bk.rLive + s.arrays[id].c <= s.bk.b0
  {
    var a := s.arrays[id];
    var t := a.tasks[idx].(started := true);
    var a' := a.(tasks := a.tasks[idx := t]);
    var s' := s.(arrays := s.arrays[id := a'], bk := s.bk.(rLive := s.bk.rLive + a.c, on := true));
    CountUpdate(a.tasks, Unsettled, idx, t);
    DispatchedTaskBurn(a, idx, t);
    RetagArray(s, id, a', s'.bk);
    hide ArrayBurnOf;
    TotalInsert(s.arrays, ArrayBurnOf, id, a');
    BurnBelowAllocation(s');
  }
}
