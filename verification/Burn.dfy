/** The aggregate live burn rLive against the work that is actually running. */
module Burn {
  import opened Arith
  import opened Sums
  import opened TokenBucket
  import opened Kernel
  import opened Books

  function BurnOf(e: Escrow): int { if e.started then e.c else 0 }

  predicate Burning(t: Task) { t.started && !t.settled }

  function ArrayBurnOf(a: ArrayEscrow): int { a.c * Count(a.tasks, Burning) }

  /** The summed rates of started, unsettled jobs and tasks. */
  ghost function StartedRate(s: State): int {
    Total(s.escrows, BurnOf) + Total(s.arrays, ArrayBurnOf)
  }

  ghost predicate BurnBounded(s: State) {
    (!s.bk.on ==> s.bk.rLive == 0) && 0 <= s.bk.rLive <= StartedRate(s)
  }

  ghost predicate BurnExact(s: State) {
    s.bk.on && s.bk.rLive == StartedRate(s)
  }

  /** What one transition owes: the bound is kept, and so is equality while burst stays on. */
  ghost predicate BurnKept(s: State, s': State) {
    BurnBounded(s') && (BurnExact(s) && s'.bk.on ==> BurnExact(s'))
  }

  lemma SubmitBurn(s: State, id: Id, c: int, w: int, now: int, ok: bool)
    ensures StartedRate(SubmitAt(s, id, c, w, now, ok).s) == StartedRate(s)
    ensures SubmitAt(s, id, c, w, now, ok).s.bk == s.bk
  {
    var o := SubmitAt(s, id, c, w, now, ok);
    if o.err == Ok {
      TotalInsert(s.escrows, BurnOf, id, o.s.escrows[id]);
    }
  }

  lemma SubmitArrayBurn(s: State, id: Id, c: int, n: int, w: int, now: int, ok: bool)
    ensures StartedRate(SubmitArrayAt(s, id, c, n, w, now, ok).s) == StartedRate(s)
    ensures SubmitArrayAt(s, id, c, n, w, now, ok).s.bk == s.bk
  {
    var o := SubmitArrayAt(s, id, c, n, w, now, ok);
    if o.err == Ok {
      CountNone(o.s.arrays[id].tasks, Burning);
      TotalInsert(s.arrays, ArrayBurnOf, id, o.s.arrays[id]);
    }
  }

  lemma RepriceBurn(s: State, id: Id, c: int, now: int, ok: bool)
    ensures StartedRate(RepriceJob(s, id, c, now, ok).s) == StartedRate(s)
    ensures RepriceJob(s, id, c, now, ok).s.bk == s.bk
  {
    var o := RepriceJob(s, id, c, now, ok);
    if o.err == Ok {
      TotalInsert(s.escrows, BurnOf, id, o.s.escrows[id]);
    }
  }

  /** A dispatch that succeeds raises the burn by exactly its rate; one refused by the
      gate leaves it alone. */
  lemma DispatchBurn(b: Bucket, c: int, w: int, now: int, ok: bool)
    ensures
      var g := Dispatch(b, c, w, now, ok);
      g.bk.rLive ==
        if b.on && (g.err == Ok || (g.err == AppendFailed && ReserveForRate(Accrue(b, now), c, w) <= 0))
        then b.rLive + c else b.rLive
  {
  }

  lemma StartBurn(s: State, id: Id, now: int)
    requires Balanced(s) && BurnBounded(s)
    ensures BurnKept(s, StartJob(s, id, now, true).s)
  {
    hide ReserveForRate, Accrue;
    var o := StartJob(s, id, now, true);
    if id in s.escrows && !s.escrows[id].started {
      DispatchBurn(s.bk, s.escrows[id].c, s.escrows[id].w, now, true);
      hide Dispatch;
      if o.log != [] {
        TotalInsert(s.escrows, BurnOf, id, o.s.escrows[id]);
      }
    }
  }

  lemma DispatchedTaskBurn(a: ArrayEscrow, idx: int, t: Task)
    requires 0 <= idx < |a.tasks| && !Burning(a.tasks[idx]) && Burning(t)
    ensures ArrayBurnOf(a.(tasks := a.tasks[idx := t])) == ArrayBurnOf(a) + a.c
  {
    CountUpdate(a.tasks, Burning, idx, t);
    var n := Count(a.tasks, Burning);
    assert a.c * (n + 1) == a.c * n + a.c;
  }

  lemma StartTaskBurn(s: State, id: Id, idx: int, now: int)
    requires Balanced(s) && BurnBounded(s)
    ensures BurnKept(s, StartArrayTask(s, id, idx, now, true).s)
  {
    hide ReserveForRate, Accrue, EscrowOK;
    var o := StartArrayTask(s, id, idx, now, true);
    if HasTask(s, id, idx) && !s.arrays[id].tasks[idx].settled && !s.arrays[id].tasks[idx].started {
      var a := s.arrays[id];
      DispatchBurn(s.bk, a.c, a.w, now, true);
      hide Dispatch, ArrayOK;
      if o.log != [] {
        DispatchedTaskBurn(a, idx, o.s.arrays[id].tasks[idx]);
        hide ArrayBurnOf;
        TotalInsert(s.arrays, ArrayBurnOf, id, o.s.arrays[id]);
      }
    }
  }

  lemma ReleaseBurn(b: Bucket, c: int, w: int, started: bool, resv: int, runtime: int, now: int)
    ensures Release(b, c, w, started, resv, runtime, now).rLive
            == if b.on && started then Max(b.rLive - c, 0) else b.rLive
  {
  }

  lemma BurnNonNeg(s: State)
    requires forall id :: id in s.escrows ==> EscrowOK(s.escrows[id])
    requires forall id :: id in s.arrays ==> ArrayOK(s.arrays[id])
    ensures 0 <= StartedRate(s)
  {
    forall id | id in s.arrays
      ensures 0 <= ArrayBurnOf(s.arrays[id])
    {
      MulMono(0, Count(s.arrays[id].tasks, Burning), s.arrays[id].c);
    }
    TotalNonNeg(s.escrows, BurnOf);
    TotalNonNeg(s.arrays, ArrayBurnOf);
  }

  lemma SettleBurn(s: State, id: Id, runtime: int, writeOff: bool, now: int, log: seq<Command>)
    requires Balanced(s) && BurnBounded(s) && id in s.escrows
    ensures BurnKept(s, Settle(s, id, runtime, writeOff, now, log).s)
  {
    var e := s.escrows[id];
    ReleaseBurn(s.bk, e.c, e.w, e.started, e.burstResv, Clamp(runtime, e.w), now);
    TotalRemove(s.escrows, BurnOf, id);
    BurnNonNeg(s.(escrows := s.escrows - {id}));
    hide Release, ArrayOK;
  }

  /** Settling a task takes its rate out of the array's burn; a closing array has none left. */
  lemma AfterTaskBurn(a: ArrayEscrow, idx: int)
    requires ArrayOK(a) && 0 <= idx < |a.tasks| && !a.tasks[idx].settled
    ensures ArrayBurnOf(AfterTask(a, idx)) == ArrayBurnOf(a) - (if a.tasks[idx].started then a.c else 0)
    ensures a.remaining == 1 ==> ArrayBurnOf(AfterTask(a, idx)) == 0
  {
    var t := a.tasks[idx].(settled := true);
    CountUpdate(a.tasks, Burning, idx, t);
    CountUpdate(a.tasks, Unsettled, idx, t);
    CountLe(a.tasks[idx := t], Burning, Unsettled);
    hide Count;
    var n: int := Count(a.tasks, Burning);
    assert a.c * (n - 1) == a.c * n - a.c;
  }

  lemma SettleTaskBurn(s: State, id: Id, idx: int, runtime: int, writeOff: bool, now: int, log: seq<Command>)
    requires Balanced(s) && BurnBounded(s)
    ensures BurnKept(s, SettleTask(s, id, idx, runtime, writeOff, now, log).s)
  {
    var o := SettleTask(s, id, idx, runtime, writeOff, now, log);
    SettleTaskKeepsBooks(s, id, idx, runtime, writeOff, now, log);
    if o.err == Ok {
      var a := s.arrays[id];
      ReleaseBurn(s.bk, a.c, a.w, a.tasks[idx].started, a.tasks[idx].burstResv, Clamp(runtime, a.w), now);
      AfterTaskBurn(a, idx);
      TotalInsert(s.arrays, ArrayBurnOf, id, AfterTask(a, idx));
      TotalRemove(s.arrays, ArrayBurnOf, id);
      BurnNonNeg(o.s);
      hide Release, EscrowOK, ArrayOK, ArrayBurnOf;
    }
  }

  lemma AdminBurn(s: State, cmd: Command, ok: bool)
    requires BurnBounded(s) && Administers(cmd)
    ensures BurnKept(s, Administer(s, cmd, ok).s)
  {
    hide Total;
    var o := Administer(s, cmd, ok);
    assert o.s.escrows == s.escrows && o.s.arrays == s.arrays;
  }

  /** An operation whose append, if it makes one, succeeds. */
  predicate Appends(op: Op) {
    op.Do? ==> op.ok
  }

  lemma ExecBurn(s: State, op: Op)
    requires Balanced(s) && BurnBounded(s) && Appends(op)
    ensures BurnKept(s, Exec(s, op).s)
  {
    hide Total, Balanced, Accrue, Dispatch, Release, SettleTask, Settle, SubmitAt, SubmitArrayAt, StartJob,
      StartArrayTask, RepriceJob, Administer;
    if op.Do? {
      var cmd := op.cmd;
      if SettlesTask(cmd) {
        if TaskLogged(s, cmd) {
          SettleTaskBurn(s, cmd.id, cmd.idx, TaskRuntime(s, cmd), cmd.InfraFailTask? && !s.billInfra, cmd.now, [cmd]);
        }
      } else if SettlesJob(cmd) {
        if cmd.id in s.escrows {
          SettleBurn(s, cmd.id, JobRuntime(s.escrows[cmd.id], cmd), cmd.InfraFail? && !s.billInfra, cmd.now, [cmd]);
        }
      } else if Administers(cmd) {
        AdminBurn(s, cmd, true);
      } else {
        match cmd {
          case Submit(id, c, w, now) => SubmitBurn(s, id, c, w, now, true);
          case Start(id, now) => StartBurn(s, id, now);
          case SubmitArray(id, c, n, w, now) => SubmitArrayBurn(s, id, c, n, w, now, true);
          case StartTask(id, idx, now) => StartTaskBurn(s, id, idx, now);
          case Reprice(id, c, now) => RepriceBurn(s, id, c, now, true);
        }
      }
    }
  }

  /** The run never switches burst off. */
  predicate StaysOn(ops: seq<Op>) {
    forall i :: 0 <= i < |ops| ==> !(ops[i].Do? && ops[i].cmd.SetBurst? && !ops[i].cmd.on)
  }

  lemma ExecStaysOn(s: State, op: Op)
    requires s.bk.on && !(op.Do? && op.cmd.SetBurst? && !op.cmd.on)
    ensures Exec(s, op).s.bk.on
  {
    hide StartJob, StartArrayTask, Settle, SettleTask, Accrue;
  }

  /** Over every run whose appends succeed, with burst toggled at will: rLive is 0 while
      burst is off and never exceeds the burn of running work; if burst was on at the
      start with an exact count and is never switched off, the count stays exact. */
  lemma {:induction false} RunBurn(s: State, ops: seq<Op>)
    requires Balanced(s) && BurnBounded(s)
    requires forall i :: 0 <= i < |ops| ==> Reasonable(ops[i]) && Appends(ops[i])
    ensures BurnBounded(Run(s, ops).s)
    ensures BurnExact(s) && StaysOn(ops) ==> BurnExact(Run(s, ops).s)
    decreases |ops|
  {
    if ops != [] {
      ExecKeepsBooks(s, ops[0]);
      ExecBurn(s, ops[0]);
      if s.bk.on && StaysOn(ops) {
        ExecStaysOn(s, ops[0]);
      }
      hide Exec, Balanced, StartedRate;
      RunBurn(Exec(s, ops[0]).s, ops[1..]);
    }
  }

  lemma {:induction false} TotalZero<K, V>(m: map<K, V>, f: V -> int)
    requires forall v :: f(v) == 0
    ensures Total(m, f) == 0
    decreases |m|
  {
    if m != map[] {
      TotalZero(m - {Pick(m)}, f);
    }
  }

  /** So the burn is 0 once started work has drained. */
  lemma DrainedMeansIdle(s: State, ops: seq<Op>)
    requires Balanced(s) && BurnBounded(s)
    requires forall i :: 0 <= i < |ops| ==> Reasonable(ops[i]) && Appends(ops[i])
    requires forall id :: id in Run(s, ops).s.escrows ==> !Run(s, ops).s.escrows[id].started
    requires forall id, i :: id in Run(s, ops).s.arrays && 0 <= i < |Run(s, ops).s.arrays[id].tasks|
                             ==> !Burning(Run(s, ops).s.arrays[id].tasks[i])
    ensures Run(s, ops).s.bk.rLive == 0
  {
    RunBurn(s, ops);
    var t := Run(s, ops).s;
    forall id | id in t.arrays
      ensures ArrayBurnOf(t.arrays[id]) <= 0
    {
      CountNone(t.arrays[id].tasks, Burning);
    }
    hide Run;
    var zero := (e: Escrow) => 0;
    var zeroA := (a: ArrayEscrow) => 0;
    TotalLe(t.escrows, BurnOf, zero);
    TotalLe(t.arrays, ArrayBurnOf, zeroA);
    TotalZero(t.escrows, zero);
    TotalZero(t.arrays, zeroA);
  }

  /** With a failing append an exact count stays exact if and only if the start needed a
      reservation, or its rate is 0: otherwise the burn is raised for work that never started. */
  lemma FailedAppendLeaksBurn(s: State, id: Id, now: int)
    requires BurnExact(s) && id in s.escrows && !s.escrows[id].started
    ensures
      var e := s.escrows[id];
      BurnExact(StartJob(s, id, now, false).s)
      <==> 0 < ReserveForRate(Accrue(s.bk, now), e.c, e.w) || e.c == 0
  {
    hide ReserveForRate, Accrue, Total;
    DispatchBurn(s.bk, s.escrows[id].c, s.escrows[id].w, now, false);
  }

  /** The same for an array task. */
  lemma FailedTaskAppendLeaksBurn(s: State, id: Id, idx: int, now: int)
    requires BurnExact(s) && HasTask(s, id, idx) && !s.arrays[id].tasks[idx].started && !s.arrays[id].tasks[idx].settled
    ensures
      var a := s.arrays[id];
      BurnExact(StartArrayTask(s, id, idx, now, false).s)
      <==> 0 < ReserveForRate(Accrue(s.bk, now), a.c, a.w) || a.c == 0
  {
    hide ReserveForRate, Accrue, Total;
    DispatchBurn(s.bk, s.arrays[id].c, s.arrays[id].w, now, false);
  }
}
