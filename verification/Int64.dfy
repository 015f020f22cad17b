/** When the bucket's arithmetic stays in int64: an exact condition in every state of every
    run, and the runs in which the condition always holds. */
module Int64 {
  import opened Arith
  import opened TokenBucket
  import opened Kernel
  import opened Books
  import opened Burn
  import opened Tokens

  const LIMIT := 0x8000_0000_0000_0000
  const HALF := 0x4000_0000_0000_0000

  predicate Fits(x: int) {
    -LIMIT <= x < LIMIT
  }

  /** Every product and sum accrual computes, whether or not it banks. */
  predicate AccrueFits(b: Bucket, now: int) {
    var dt := now - b.lastTouch;
    var acc := b.frac + Unused(b) * dt;
    b.on && 0 < dt ==>
      && Fits(dt) && Fits(b.Window()) && Fits(b.rLive * b.Window()) && Fits(Unused(b))
      && (0 < Unused(b) ==>
            && Fits(Unused(b) * dt) && Fits(acc)
            && Fits(acc / b.Window() * b.Window())
            && Fits(b.pot + acc / b.Window()))
  }

  /** Every product and sum of the burst reservation of a job at rate c. */
  predicate ReserveFits(b: Bucket, c: int, w: int) {
    Fits(b.rLive + c) && Fits(b.rLive + c - Max(b.rLive, Quo(b.b0, b.Window()))) && Fits(ReserveForRate(b, c, w))
  }

  /** Every product and sum of the token refund at settlement. */
  predicate RefundFits(b: Bucket, resv: int, w: int, runtime: int)
    requires 0 < w
  {
    Fits(resv * (w - runtime)) && Fits(b.pot + Quo(resv * (w - runtime), w))
  }

  /** B0 * max(T, d) + T < 2^63. */
  predicate Small(b: Bucket, d: int) {
    b.b0 * Max(b.Window(), d) + b.Window() < LIMIT
  }

  lemma ProductBound(x: int, y: int, p: int, q: int)
    requires 0 <= x <= p && 0 <= y <= q
    ensures 0 <= x * y <= p * q
  {
    MulMono(0, y, x);
    MulMono(y, q, x);
    MulMono(x, p, q);
  }

  // ---- one computation ----

  /** The burn times the window fits; nothing else is needed where accrual does not bank. */
  predicate BurnFits(b: Bucket) {
    b.rLive * b.Window() < LIMIT
  }

  /** What a banking accrual deposits fits, with the remainder and then with the pot. */
  predicate DepositFits(b: Bucket, now: int) {
    Banks(b, now) ==>
      var acc := b.frac + Unused(b) * (now - b.lastTouch);
      acc < LIMIT && b.pot + acc / b.Window() < LIMIT
  }

  lemma QuotientBelow(a: int, d: int)
    requires 0 <= a && 0 < d
    ensures 0 <= a / d <= a && 0 <= a / d * d <= a
    ensures 2 <= d ==> 2 * (a / d) <= a
  {
    assert a == a / d * d + a % d;
    DivModUnique(0, d, 0, 0);
    DivMonotone(0, a, d);
    MulMono(1, d, a / d);
    if 2 <= d {
      MulMono(2, d, a / d);
    }
  }

  /** What a banking accrual computes is in range but for the deposit. */
  lemma BankingBounds(b: Bucket, now: int)
    requires 0 <= b.b0 && 0 <= b.rLive && b.lastTouch < now && 0 < Unused(b) && Small(b, now - b.lastTouch)
    ensures 0 <= b.rLive * b.Window() < b.b0 < LIMIT && 0 < Unused(b) <= b.b0
    ensures 0 <= Unused(b) * (now - b.lastTouch) < LIMIT
  {
    var T, dt := b.Window(), now - b.lastTouch;
    MulMono(0, b.rLive, T);
    ProductBound(b.b0, 1, b.b0, Max(T, dt));
    ProductBound(Unused(b), dt, b.b0, Max(T, dt));
  }

  lemma SmallWindow(b: Bucket, d: int)
    requires 0 <= b.b0 && Small(b, d)
    ensures b.Window() < LIMIT && b.b0 < LIMIT
  {
    var m := Max(b.Window(), d);
    MulMono(0, b.b0, m);
    MulMono(1, m, b.b0);
  }

  lemma IdleFitsIff(b: Bucket, now: int)
    requires 0 <= b.b0 && 0 <= b.rLive && Unused(b) <= 0
    requires b.on && b.lastTouch < now && Small(b, now - b.lastTouch) && Fits(now - b.lastTouch)
    ensures AccrueFits(b, now) <==> BurnFits(b)
    ensures DepositFits(b, now)
  {
    SmallWindow(b, now - b.lastTouch);
    MulMono(0, b.rLive, b.Window());
    hide Small;
  }

  /** The sums of a deposit, given their parts. */
  lemma SumsFit(frac: nat, earned: nat, T: int, pot: nat)
    requires 0 < T && earned < LIMIT
    ensures
      var acc := frac + earned;
      Fits(earned) && Fits(acc) && Fits(acc / T * T) && Fits(pot + acc / T) <==> acc < LIMIT && pot + acc / T < LIMIT
  {
    QuotientBelow(frac + earned, T);
  }

  lemma BankingFitsIff(b: Bucket, now: int)
    requires 0 <= b.b0 && 0 <= b.rLive && 0 <= b.pot && 0 < Unused(b)
    requires b.on && b.lastTouch < now && Small(b, now - b.lastTouch) && Fits(now - b.lastTouch)
    ensures BurnFits(b)
    ensures AccrueFits(b, now) <==> DepositFits(b, now)
  {
    SmallWindow(b, now - b.lastTouch);
    BankingBounds(b, now);
    hide Small, Unused;
    SumsFit(b.frac, Unused(b) * (now - b.lastTouch), b.Window(), b.pot);
  }

  /** Under the size bound accrual stays in int64 if and only if the burn over a window and
      the deposit do. */
  lemma AccrueFitsIff(b: Bucket, now: int)
    requires 0 <= b.b0 && 0 <= b.rLive && 0 <= b.pot
    requires b.on && b.lastTouch < now && Small(b, now - b.lastTouch) && Fits(now - b.lastTouch)
    ensures AccrueFits(b, now) <==> BurnFits(b) && DepositFits(b, now)
  {
    hide AccrueFits, BurnFits, DepositFits, Small, Unused, Fits;
    if 0 < Unused(b) {
      BankingFitsIff(b, now);
    } else {
      IdleFitsIff(b, now);
    }
  }

  lemma ReserveFitsIff(b: Bucket, c: int, w: int)
    requires 0 <= c && 0 <= w && 0 <= b.rLive && 0 <= b.b0 < LIMIT && Fits(c) && c * w < LIMIT
    ensures ReserveFits(b, c, w) <==> b.rLive + c < LIMIT
  {
    ReservationCovered(b, c, w);
    QuotientBelow(b.b0, b.Window());
    hide ReserveForRate;
  }

  lemma RefundBelow(resv: int, w: int, runtime: int)
    requires 0 <= resv && 1 <= w && 0 <= runtime <= w
    ensures 0 <= Quo(resv * (w - runtime), w) <= resv
  {
    ProductBound(resv, w - runtime, resv, w);
    DivMonotone(0, resv * (w - runtime), w);
    DivMonotone(resv * (w - runtime), resv * w, w);
    DivModUnique(resv * w, w, resv, 0);
  }

  /** Under the size bound the refund of a covered reservation stays in int64 if and only if
      the pot with it does. */
  lemma RefundFitsIff(b: Bucket, resv: int, w: int, runtime: int)
    requires 0 <= b.pot && 0 <= resv <= b.b0 && 1 <= w && 0 <= runtime <= w && Small(b, w)
    ensures RefundFits(b, resv, w, runtime) <==> b.pot + Quo(resv * (w - runtime), w) < LIMIT
  {
    ProductBound(resv, w - runtime, b.b0, Max(b.Window(), w));
    RefundBelow(resv, w, runtime);
  }

  // ---- over every run ----

  /** As created, with burst configured or not: no work, no tokens. */
  ghost predicate Created(s: State) {
    && 0 <= s.c && 0 <= s.b == s.bk.b0 && s.reservedTotal == s.consumed == s.writeOff == 0
    && s.escrows == map[] && s.arrays == map[]
    && CeilingOK(s.bk.ceil) && 0.0 <= s.bk.pct <= 1.0
    && s.bk.pot == s.bk.frac == s.bk.rLive == 0
  }

  lemma CreationsAreCreated(c: int, b0: int, ts: int, te: int, k: real, bill: bool, ceil: (real, int) -> int,
                            rateCmp: (int, int, int, real) -> bool, pct: real, cap: int)
    requires 0 <= c && 0 <= b0 && ts < te && CeilingOK(ceil) && 0.0 <= pct <= 1.0
    ensures Created(New(c, b0, ts, te, k, bill, ceil, rateCmp))
    ensures Created(NewBurst(c, b0, ts, te, k, bill, ceil, rateCmp, pct, cap))
  {
    hide CeilingOK;
  }

  /** What every run keeps, whatever fails and whatever is reconfigured. */
  ghost predicate Kept(s: State) {
    Balanced(s) && Sane(s) && s.bk.pct <= 1.0 && 0 <= s.bk.rLive
  }

  /** The pot does not rise above what it was or the ceiling it was under; the configured
      fraction stays one; burn is never negative; the remainder stays below an unchanged window. */
  ghost predicate Levels(b: Bucket, b': Bucket) {
    && b'.pot <= Max(b.pot, b.Ceiling()) && b'.pct <= 1.0 && b'.ceil == b.ceil && 0 <= b'.rLive
    && (b.frac < b.Window() == b'.Window() ==> b'.frac < b'.Window())
  }

  lemma AccrueLevels(b: Bucket, now: int)
    requires Levels(b, b)
    ensures Levels(b, Accrue(b, now))
  {
  }

  lemma DispatchLevels(b: Bucket, c: int, w: int, now: int, ok: bool)
    requires Levels(b, b) && 0 <= c
    ensures Levels(b, Dispatch(b, c, w, now, ok).bk)
  {
    AccrueLevels(b, now);
    hide Accrue, ReserveForRate;
  }

  lemma ReleaseLevels(b: Bucket, c: int, w: int, started: bool, resv: int, runtime: int, now: int)
    requires Levels(b, b)
    ensures Levels(b, Release(b, c, w, started, resv, runtime, now))
  {
    AccrueLevels(b, now);
    hide Accrue, Quo;
  }

  lemma ConfigureLevels(b: Bucket, on: bool, pct: real, cap: int, now: int)
    requires Levels(b, b) && 0 <= b.pot && pct <= 1.0
    ensures Levels(b, Configure(b, on, pct, cap, now))
  {
    AccrueLevels(b, now);
    hide Accrue;
  }

  lemma TaskLevels(s: State, cmd: Command, ok: bool)
    requires SettlesTask(cmd) && Levels(s.bk, s.bk)
    ensures Levels(s.bk, SettleArrayTask(s, cmd, ok).s.bk)
  {
    hide Levels, Release;
    if TaskLogged(s, cmd) && HasTask(s, cmd.id, cmd.idx) {
      var a, t := s.arrays[cmd.id], s.arrays[cmd.id].tasks[cmd.idx];
      ReleaseLevels(s.bk, a.c, a.w, t.started, t.burstResv, Clamp(TaskRuntime(s, cmd), a.w), cmd.now);
    }
  }

  lemma JobLevels(s: State, cmd: Command, ok: bool)
    requires SettlesJob(cmd) && Levels(s.bk, s.bk)
    ensures Levels(s.bk, SettleJob(s, cmd, ok).s.bk)
  {
    hide Levels, Release;
    if cmd.id in s.escrows {
      var e := s.escrows[cmd.id];
      ReleaseLevels(s.bk, e.c, e.w, e.started, e.burstResv, Clamp(JobRuntime(e, cmd), e.w), cmd.now);
    }
  }

  lemma AdminLevels(s: State, cmd: Command, ok: bool)
    requires Administers(cmd) && Levels(s.bk, s.bk) && 0 <= s.bk.pot
    ensures Levels(s.bk, Administer(s, cmd, ok).s.bk)
  {
    hide Configure;
    if cmd.SetBurst? && cmd.pct <= 1.0 {
      ConfigureLevels(s.bk, cmd.on, cmd.pct, cmd.cap, cmd.now);
    }
  }

  lemma StartLevels(s: State, id: Id, now: int, ok: bool)
    requires Balanced(s) && Levels(s.bk, s.bk)
    ensures Levels(s.bk, StartJob(s, id, now, ok).s.bk)
  {
    hide Levels, Dispatch;
    if id in s.escrows {
      assert EscrowOK(s.escrows[id]);
      DispatchLevels(s.bk, s.escrows[id].c, s.escrows[id].w, now, ok);
    }
  }

  lemma StartTaskLevels(s: State, id: Id, idx: int, now: int, ok: bool)
    requires Balanced(s) && Levels(s.bk, s.bk)
    ensures Levels(s.bk, StartArrayTask(s, id, idx, now, ok).s.bk)
  {
    hide Levels, Dispatch;
    if id in s.arrays {
      assert ArrayOK(s.arrays[id]);
      DispatchLevels(s.bk, s.arrays[id].c, s.arrays[id].w, now, ok);
    }
  }

  lemma AdmissionLevels(s: State, cmd: Command, ok: bool)
    requires Balanced(s) && Levels(s.bk, s.bk)
    requires cmd.Submit? || cmd.SubmitArray? || cmd.Start? || cmd.StartTask? || cmd.Reprice?
    ensures Levels(s.bk, Call(s, cmd, ok).s.bk)
  {
    hide Levels, Balanced, RateOK, StartJob, StartArrayTask;
    match cmd {
      case Start(id, now) => StartLevels(s, id, now, ok);
      case StartTask(id, idx, now) => StartTaskLevels(s, id, idx, now, ok);
      case _ =>
    }
  }

  lemma CallLevels(s: State, cmd: Command, ok: bool)
    requires Balanced(s) && Levels(s.bk, s.bk) && 0 <= s.bk.pot
    ensures Levels(s.bk, Call(s, cmd, ok).s.bk)
  {
    hide Balanced, Levels;
    if SettlesTask(cmd) {
      TaskLevels(s, cmd, ok);
    } else if SettlesJob(cmd) {
      JobLevels(s, cmd, ok);
    } else if Administers(cmd) {
      AdminLevels(s, cmd, ok);
    } else {
      AdmissionLevels(s, cmd, ok);
    }
  }

  lemma CreatedIsKept(s: State)
    requires Created(s)
    ensures Kept(s)
  {
  }

  lemma ExecKeepsKept(s: State, op: Op)
    requires Kept(s) && Reasonable(op)
    ensures Kept(Exec(s, op).s) && Levels(s.bk, Exec(s, op).s.bk)
  {
    ExecKeepsBooks(s, op);
    ExecTokens(s, op);
    if op.Do? {
      CallLevels(s, op.cmd, op.ok);
    } else {
      AccrueLevels(s.bk, op.now);
    }
    hide Balanced, Sane, Call, Accrue;
  }

  lemma {:induction false} RunKeepsKept(s: State, ops: seq<Op>)
    requires Kept(s) && forall i :: 0 <= i < |ops| ==> Reasonable(ops[i])
    ensures Kept(Run(s, ops).s)
    decreases |ops|
  {
    hide Kept, Levels, Exec, Reasonable;
    if ops != [] {
      ExecKeepsKept(s, ops[0]);
      RunKeepsKept(Exec(s, ops[0]).s, ops[1..]);
    }
  }

  /** From creation, without a withdrawal or a window change, the budget's own burst check
      passes after every run. */
  lemma RunPassesBurstCheck(s0: State, ops: seq<Op>)
    requires Created(s0) && forall i :: 0 <= i < |ops| ==> Reasonable(ops[i])
    requires forall i :: 0 <= i < |ops| && ops[i].Do? ==> !ops[i].cmd.Withdraw? && !ops[i].cmd.SetWindow?
    ensures BurstBounds(Run(s0, ops).s)
  {
    hide Run;
    CreatedIsKept(s0);
    CeilingNonNeg(s0.bk);
    RunTokens(s0, ops);
    RunKeepsKept(s0, ops);
  }

  /** Accrual, at every clock under the size bound: exactly when burn and deposit fit. */
  ghost predicate AccrualExact(s: State) {
    forall now :: s.bk.on && s.bk.lastTouch < now && Small(s.bk, now - s.bk.lastTouch) && Fits(now - s.bk.lastTouch)
      ==> (AccrueFits(s.bk, now) <==> BurnFits(s.bk) && DepositFits(s.bk, now))
  }

  /** A reservation at rate c: exactly when the burn with it does. */
  predicate ReservesExactly(b: Bucket, c: int, w: int) {
    Fits(c) ==> (ReserveFits(b, c, w) <==> b.rLive + c < LIMIT)
  }

  /** A refund under the size bound: exactly when the pot with it does. */
  ghost predicate RefundsExactly(b: Bucket, resv: int, w: int) {
    0 < w && Small(b, w) ==>
      forall runtime :: 0 <= runtime <= w ==>
        (RefundFits(b, resv, w, runtime) <==> b.pot + Quo(resv * (w - runtime), w) < LIMIT)
  }

  /** Every reservation and every refund exactly under those conditions. */
  ghost predicate WorkExact(s: State) {
    && (forall id :: id in s.escrows ==>
          && ReservesExactly(s.bk, s.escrows[id].c, s.escrows[id].w)
          && RefundsExactly(s.bk, s.escrows[id].burstResv, s.escrows[id].w))
    && (forall id, i :: HasTask(s, id, i) ==>
          && ReservesExactly(s.bk, s.arrays[id].c, s.arrays[id].w)
          && RefundsExactly(s.bk, s.arrays[id].tasks[i].burstResv, s.arrays[id].w))
  }

  lemma AllocationNonNeg(s: State)
    requires Balanced(s)
    ensures 0 <= s.reservedTotal <= s.bk.b0
  {
  }

  lemma KeptAccrual(s: State)
    requires Kept(s)
    ensures AccrualExact(s)
  {
    hide Balanced, AccrueFits, DepositFits, BurnFits;
    assert 0 <= s.bk.b0 && 0 <= s.bk.pot by {
      AllocationNonNeg(s);
    }
    forall now | s.bk.on && s.bk.lastTouch < now && Small(s.bk, now - s.bk.lastTouch) && Fits(now - s.bk.lastTouch)
      ensures AccrueFits(s.bk, now) <==> BurnFits(s.bk) && DepositFits(s.bk, now)
    {
      AccrueFitsIff(s.bk, now);
    }
  }

  /** Work whose reservation and held tokens its money covers. */
  lemma CoveredWork(b: Bucket, c: int, w: int, resv: int)
    requires 0 <= c && 0 <= w && 0 <= resv <= c * w <= b.b0 < LIMIT && 0 <= b.pot && 0 <= b.rLive
    ensures ReservesExactly(b, c, w) && RefundsExactly(b, resv, w)
  {
    hide ReserveFits, RefundFits, Small, Quo;
    if Fits(c) {
      ReserveFitsIff(b, c, w);
    }
    if 0 < w && Small(b, w) {
      forall runtime | 0 <= runtime <= w
        ensures RefundFits(b, resv, w, runtime) <==> b.pot + Quo(resv * (w - runtime), w) < LIMIT
      {
        RefundFitsIff(b, resv, w, runtime);
      }
    }
  }

  lemma KeptWork(s: State)
    requires Kept(s) && s.bk.b0 < LIMIT
    ensures WorkExact(s)
  {
    RestNonNeg(s);
    AllocationNonNeg(s);
    hide ReservesExactly, RefundsExactly, CeilingOK;
    forall id | id in s.escrows
      ensures ReservesExactly(s.bk, s.escrows[id].c, s.escrows[id].w)
      ensures RefundsExactly(s.bk, s.escrows[id].burstResv, s.escrows[id].w)
    {
      var e := s.escrows[id];
      assert EscrowOK(e) && EscrowTokensOK(e);
      CoveredWork(s.bk, e.c, e.w, e.burstResv);
    }
    forall id, i | HasTask(s, id, i)
      ensures ReservesExactly(s.bk, s.arrays[id].c, s.arrays[id].w)
      ensures RefundsExactly(s.bk, s.arrays[id].tasks[i].burstResv, s.arrays[id].w)
    {
      var a := s.arrays[id];
      assert ArrayOK(a) && ArrayTokensOK(a);
      ArrayReserveNonNeg(a);
      CoveredWork(s.bk, a.c, a.w, a.tasks[i].burstResv);
    }
  }

  /** After every run from creation, whatever the windows, whatever appends fail and whatever
      is withdrawn or reconfigured: accrual, reservations and refunds stay in int64 exactly
      under the conditions named. */
  lemma RunStaysInInt64Iff(s0: State, ops: seq<Op>)
    requires Created(s0) && forall i :: 0 <= i < |ops| ==> Reasonable(ops[i])
    ensures
      var s := Run(s0, ops).s;
      AccrualExact(s) && (s.bk.b0 < LIMIT ==> WorkExact(s))
  {
    CreatedIsKept(s0);
    RunKeepsKept(s0, ops);
    var s := Run(s0, ops).s;
    hide Kept, AccrualExact, WorkExact, Run;
    KeptAccrual(s);
    if s.bk.b0 < LIMIT {
      KeptWork(s);
    }
  }

  // ---- the runs in which the conditions always hold ----

  /** A ceiling of at most 2^62 for an allocation below it: what a fraction of the allocation
      gives, floating-point rounding included. */
  ghost predicate Rounds(ceil: (real, int) -> int) {
    forall p: real, a: int :: 0.0 <= p <= 1.0 && 0 <= a < HALF ==> ceil(p, a) <= HALF
  }

  /** The window is at least two seconds and the allocation over it fits. */
  predicate Sized(b: Bucket) {
    2 <= b.Window() && Small(b, 0)
  }

  /** Every state the run passes through is of that size. */
  predicate SizedAlong(s: State, ops: seq<Op>)
    decreases |ops|
  {
    Sized(s.bk) && (ops != [] ==> SizedAlong(Exec(s, ops[0]).s, ops[1..]))
  }

  lemma SizedCeiling(b: Bucket)
    requires Sized(b) && Rounds(b.ceil) && 0.0 <= b.pct <= 1.0 && 0 <= b.b0
    ensures b.Ceiling() <= HALF && b.b0 < HALF
  {
    MulMono(2, b.Window(), b.b0);
  }

  /** Kept, with the pot at most 2^62. */
  ghost predicate Roomy(s: State) {
    Kept(s) && Rounds(s.bk.ceil) && s.bk.pot <= HALF
  }

  lemma ExecKeepsRoomy(s: State, op: Op)
    requires Roomy(s) && Sized(s.bk) && Reasonable(op)
    ensures Roomy(Exec(s, op).s)
  {
    ExecKeepsKept(s, op);
    AllocationNonNeg(s);
    SizedCeiling(s.bk);
    hide Balanced, Exec, Rounds, CeilingOK;
  }

  lemma {:induction false} RunKeepsRoomy(s: State, ops: seq<Op>)
    requires Roomy(s) && SizedAlong(s, ops) && forall i :: 0 <= i < |ops| ==> Reasonable(ops[i])
    ensures Roomy(Run(s, ops).s) && Sized(Run(s, ops).s.bk)
    decreases |ops|
  {
    hide Roomy, Exec, Sized, Reasonable;
    if ops != [] {
      ExecKeepsRoomy(s, ops[0]);
      RunKeepsRoomy(Exec(s, ops[0]).s, ops[1..]);
    }
  }

  /** Appends succeed, funded walltimes are at least a second, the window is not changed. */
  predicate Tame(op: Op) {
    Appends(op) && (op.Do? ==> !op.cmd.SetWindow? && (op.cmd.Submit? ==> 1 <= op.cmd.w))
  }

  ghost predicate TameState(s: State) {
    BurnBounded(s) && WholeSeconds(s) && s.bk.frac < s.bk.Window()
  }

  lemma SettleKeepsWholeSeconds(s: State, cmd: Command, ok: bool)
    requires WholeSeconds(s)
    ensures SettlesJob(cmd) ==> WholeSeconds(SettleJob(s, cmd, ok).s)
    ensures SettlesTask(cmd) ==> WholeSeconds(SettleArrayTask(s, cmd, ok).s)
  {
    hide Release, JobRuntime, TaskRuntime, Clamp;
  }

  lemma AdminKeepsWholeSeconds(s: State, cmd: Command, ok: bool)
    requires WholeSeconds(s) && Administers(cmd)
    ensures WholeSeconds(Administer(s, cmd, ok).s)
  {
    hide Configure;
  }

  lemma AdmissionKeepsWholeSeconds(s: State, cmd: Command, ok: bool)
    requires WholeSeconds(s) && (cmd.Submit? ==> 1 <= cmd.w)
    requires cmd.Submit? || cmd.SubmitArray? || cmd.Start? || cmd.StartTask? || cmd.Reprice?
    ensures WholeSeconds(Call(s, cmd, ok).s)
  {
    hide Dispatch, RateOK;
  }

  lemma ExecKeepsWholeSeconds(s: State, op: Op)
    requires WholeSeconds(s) && Tame(op)
    ensures WholeSeconds(Exec(s, op).s)
  {
    hide SettleJob, SettleArrayTask, Administer, Accrue;
    if op.Do? {
      var cmd := op.cmd;
      SettleKeepsWholeSeconds(s, cmd, op.ok);
      if Administers(cmd) {
        AdminKeepsWholeSeconds(s, cmd, op.ok);
      } else if !SettlesJob(cmd) && !SettlesTask(cmd) {
        AdmissionKeepsWholeSeconds(s, cmd, op.ok);
      }
      hide WholeSeconds;
    }
  }

  lemma ExecKeepsWindow(s: State, op: Op)
    requires Tame(op)
    ensures Exec(s, op).s.bk.Window() == s.bk.Window()
  {
    hide Dispatch, Release, Accrue, Configure, RateOK;
  }

  lemma ExecKeepsRemainder(s: State, op: Op)
    requires Kept(s) && Tame(op) && s.bk.frac < s.bk.Window()
    ensures Exec(s, op).s.bk.frac < Exec(s, op).s.bk.Window()
  {
    hide Exec, Balanced, Sane;
    ExecKeepsWindow(s, op);
    ExecKeepsKept(s, op);
  }

  lemma {:induction false} RunKeepsTame(s: State, ops: seq<Op>)
    requires Kept(s) && TameState(s) && forall i :: 0 <= i < |ops| ==> Tame(ops[i])
    ensures TameState(Run(s, ops).s)
    decreases |ops|
  {
    if ops != [] {
      ExecKeepsKept(s, ops[0]);
      ExecBurn(s, ops[0]);
      ExecKeepsWholeSeconds(s, ops[0]);
      ExecKeepsRemainder(s, ops[0]);
      hide Exec, Kept, Levels, BurnBounded, WholeSeconds;
      RunKeepsTame(Exec(s, ops[0]).s, ops[1..]);
    }
  }

  lemma SmallDeposit(b: Bucket, now: int)
    requires 0 <= b.rLive && 0 <= b.b0 && b.frac < b.Window() && 2 <= b.Window() && Small(b, now - b.lastTouch)
    requires b.pot <= HALF
    ensures DepositFits(b, now)
  {
    if Banks(b, now) {
      MulMono(0, b.rLive, b.Window());
      ProductBound(Unused(b), now - b.lastTouch, b.b0, Max(b.Window(), now - b.lastTouch));
      QuotientBelow(b.frac + Unused(b) * (now - b.lastTouch), b.Window());
    }
  }

  lemma TameBurnFits(s: State)
    requires Roomy(s) && Sized(s.bk) && TameState(s)
    ensures BurnFits(s.bk) && 0 <= s.bk.rLive && 0 <= s.bk.b0 < HALF
  {
    BurnBelowAllocation(s);
    SizedCeiling(s.bk);
    MulMono(s.bk.rLive, s.bk.b0, s.bk.Window());
  }

  lemma TameArrivalFits(s: State, id: Id)
    requires Roomy(s) && Sized(s.bk) && TameState(s) && id in s.escrows && !s.escrows[id].started
    ensures s.bk.rLive + s.escrows[id].c < LIMIT
  {
    hide CeilingOK, Rounds, BurnBounded, WholeSeconds;
    TameBurnFits(s);
    ArrivalBelowAllocation(s, id);
  }

  lemma TameTaskArrivalFits(s: State, id: Id, i: int)
    requires Roomy(s) && Sized(s.bk) && TameState(s)
    requires HasTask(s, id, i) && !s.arrays[id].tasks[i].started && !s.arrays[id].tasks[i].settled
    ensures s.bk.rLive + s.arrays[id].c < LIMIT
  {
    hide CeilingOK, Rounds, BurnBounded, WholeSeconds;
    TameBurnFits(s);
    TaskArrivalBelowAllocation(s, id, i);
  }

  lemma TameRefundFits(b: Bucket, resv: int, w: int, runtime: int)
    requires 0 <= resv <= b.b0 < HALF && 1 <= w && 0 <= runtime <= w && b.pot <= HALF
    ensures b.pot + Quo(resv * (w - runtime), w) < LIMIT
  {
    RefundBelow(resv, w, runtime);
  }

  /** The reservation of unstarted work and every refund of it. */
  ghost predicate WorkFits(b: Bucket, c: int, w: int, started: bool, resv: int) {
    && (!started ==> ReserveFits(b, c, w))
    && (0 < w && Small(b, w) ==> forall runtime :: 0 <= runtime <= w ==> RefundFits(b, resv, w, runtime))
  }

  /** Everything the bucket computes under the size bound is in int64. */
  ghost predicate AllFits(s: State) {
    && (forall now :: Small(s.bk, now - s.bk.lastTouch) && Fits(now - s.bk.lastTouch) ==> AccrueFits(s.bk, now))
    && (forall id :: id in s.escrows ==> WorkFits(s.bk, s.escrows[id].c, s.escrows[id].w, s.escrows[id].started, s.escrows[id].burstResv))
    && (forall id, i :: HasTask(s, id, i) && !s.arrays[id].tasks[i].settled ==>
          WorkFits(s.bk, s.arrays[id].c, s.arrays[id].w, s.arrays[id].tasks[i].started, s.arrays[id].tasks[i].burstResv))
  }

  lemma CoveredWorkFits(b: Bucket, c: int, w: int, started: bool, resv: int)
    requires ReservesExactly(b, c, w) && RefundsExactly(b, resv, w)
    requires !started ==> 0 <= c && 0 <= b.rLive && b.rLive + c < LIMIT
    requires 0 <= resv <= b.b0 < HALF && b.pot <= HALF
    ensures WorkFits(b, c, w, started, resv)
  {
    hide ReserveFits, RefundFits, Small, Quo;
    if 0 < w && Small(b, w) {
      forall runtime | 0 <= runtime <= w
        ensures RefundFits(b, resv, w, runtime)
      {
        TameRefundFits(b, resv, w, runtime);
      }
    }
  }

  lemma TameWorkFits(s: State)
    requires Roomy(s) && Sized(s.bk) && TameState(s)
    ensures forall id :: id in s.escrows ==>
              WorkFits(s.bk, s.escrows[id].c, s.escrows[id].w, s.escrows[id].started, s.escrows[id].burstResv)
    ensures forall id, i :: HasTask(s, id, i) && !s.arrays[id].tasks[i].settled ==>
              WorkFits(s.bk, s.arrays[id].c, s.arrays[id].w, s.arrays[id].tasks[i].started, s.arrays[id].tasks[i].burstResv)
  {
    TameBurnFits(s);
    KeptWork(s);
    RestNonNeg(s);
    AllocationNonNeg(s);
    hide ReservesExactly, RefundsExactly, WorkFits, TameState, Rounds, CeilingOK, Sized;
    forall id | id in s.escrows
      ensures WorkFits(s.bk, s.escrows[id].c, s.escrows[id].w, s.escrows[id].started, s.escrows[id].burstResv)
    {
      var e := s.escrows[id];
      assert EscrowOK(e) && EscrowTokensOK(e);
      if !e.started {
        TameArrivalFits(s, id);
      }
      CoveredWorkFits(s.bk, e.c, e.w, e.started, e.burstResv);
    }
    forall id, i | HasTask(s, id, i) && !s.arrays[id].tasks[i].settled
      ensures WorkFits(s.bk, s.arrays[id].c, s.arrays[id].w, s.arrays[id].tasks[i].started, s.arrays[id].tasks[i].burstResv)
    {
      var a, t := s.arrays[id], s.arrays[id].tasks[i];
      assert ArrayOK(a) && ArrayTokensOK(a);
      ArrayReserveNonNeg(a);
      if !t.started {
        TameTaskArrivalFits(s, id, i);
      }
      CoveredWorkFits(s.bk, a.c, a.w, t.started, t.burstResv);
    }
  }

  lemma TameAccrualFits(s: State, now: int)
    requires Roomy(s) && Sized(s.bk) && TameState(s) && AccrualExact(s)
    requires Small(s.bk, now - s.bk.lastTouch) && Fits(now - s.bk.lastTouch)
    ensures AccrueFits(s.bk, now)
  {
    hide Balanced, WholeSeconds, Rounds, CeilingOK;
    TameBurnFits(s);
    SmallDeposit(s.bk, now);
    if s.bk.on && s.bk.lastTouch < now {
      assert AccrueFits(s.bk, now) <==> BurnFits(s.bk) && DepositFits(s.bk, now);
    }
  }

  lemma TameStateFits(s: State)
    requires Roomy(s) && Sized(s.bk) && TameState(s)
    ensures AllFits(s)
  {
    TameWorkFits(s);
    KeptAccrual(s);
    hide Roomy, TameState, AccrualExact, WorkFits, AccrueFits, Small, Sized, Fits;
    forall now | Small(s.bk, now - s.bk.lastTouch) && Fits(now - s.bk.lastTouch)
      ensures AccrueFits(s.bk, now)
    {
      TameAccrualFits(s, now);
    }
  }

  /** So in every tame run, withdrawals included, through windows of two seconds or more and
      allocations over the window in range, nothing under the size bound leaves int64. */
  lemma TameRunStaysInInt64(s0: State, ops: seq<Op>)
    requires Created(s0) && Rounds(s0.bk.ceil) && SizedAlong(s0, ops) && forall i :: 0 <= i < |ops| ==> Tame(ops[i])
    ensures AllFits(Run(s0, ops).s)
  {
    hide Run, AllFits, SizedAlong, Rounds;
    CreatedIsKept(s0);
    assert TameState(s0);
    RunKeepsRoomy(s0, ops);
    RunKeepsTame(s0, ops);
    TameStateFits(Run(s0, ops).s);
  }

  // ---- the runs left out, by input ----

  /** A one-second window overflows within the size bound. */
  lemma OneSecondWindowOverflows()
    ensures
      var b := Bucket((p: real, x: int) => x, true, 1.0, 0, 0x2000_0000_0000_0000, 0, 1, 0x2000_0000_0000_0000, 0, 0, 0);
      && InBounds(b) && b.Ceiling() <= b.b0 && Small(b, 3) && Fits(3) && !AccrueFits(b, 3)
  {
  }

  /** A shrunk window keeps the old remainder: after it the next deposit overflows, although
      every state is within the size bound. */
  lemma ShrunkWindowOverflows(s: State, now: int)
    requires s.bk.on && s.bk.b0 == 3 && s.bk.ts == 0 && s.bk.te == 1000 && s.bk.rLive == 0 && s.bk.ceil(s.bk.pct, 3) == 3
    requires s.bk.pot == 0 && s.bk.frac == 0 && s.bk.lastTouch == 0 && now == 333 + 3074457345618258601
    ensures
      var s1 := Exec(s, Peek(333)).s;
      var s2 := Exec(s1, Do(SetWindow(0, 2, 333), true)).s;
      && Sized(s.bk) && Sized(s1.bk) && Sized(s2.bk) && Small(s2.bk, now - s2.bk.lastTouch) && Fits(now)
      && InBounds(s1.bk) && !InBounds(s2.bk)
      && !DepositFits(s2.bk, now) && !AccrueFits(s2.bk, now)
  {
    var s1 := Exec(s, Peek(333)).s;
    assert s1.bk == s.bk.(frac := 999, lastTouch := 333);
    var s2 := Exec(s1, Do(SetWindow(0, 2, 333), true)).s;
    assert s2.bk == s1.bk.(te := 2);
  }

  /** A start whose append fails leaks its burn: with two jobs of rate c that the allocation
      just covers, one failed start and then both starts bring the burn out of range. */
  lemma LeakedBurnOverflows(b: Bucket, c: int, now: int)
    requires c == 0x1FFF_FFFF_FFFF_FFFF && b.b0 == 2 * c && b.ts == 0 && b.te == 2 && Sized(b)
    requires b.on && b.drawCap == 0 && b.pot == b.b0 && b.rLive == 0 && b.lastTouch == now == 0
    ensures
      var g1 := Dispatch(b, c, 1, now, false);
      var g2 := Dispatch(g1.bk, c, 1, now, true);
      var g3 := Dispatch(g2.bk, c, 1, now, true);
      && g1.err == AppendFailed && g2.err == Ok && g3.err == Ok
      && !BurnFits(g3.bk) && Small(g3.bk, 1) && Fits(now + 1) && !AccrueFits(g3.bk, now + 1)
  {
    var g1 := Dispatch(b, c, 1, now, false);
    assert g1.bk == b.(rLive := c);
    var g2 := Dispatch(g1.bk, c, 1, now, true);
    assert g2.bk == b.(rLive := 2 * c, pot := c);
    var g3 := Dispatch(g2.bk, c, 1, now, true);
    assert g3.bk == b.(rLive := 3 * c, pot := 0);
  }
}
