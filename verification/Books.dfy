/** Conservation: every unit of money is in exactly one place, in every reachable
    state, and every live reservation is exactly what its terms say. */
module Books {
  import opened Arith
  import opened Sums
  import opened TokenBucket
  import opened Kernel

  function ReservedOf(e: Escrow): int { e.reserved }

  function ArrayReservedOf(a: ArrayEscrow): int { a.reserved }

  predicate Unsettled(t: Task) { !t.settled }

  predicate EscrowOK(e: Escrow) {
    0 <= e.c && 0 <= e.w && e.reserved == e.c * e.w
  }

  predicate ArrayOK(a: ArrayEscrow) {
    && 0 <= a.c && 0 < a.w && 0 < a.n && |a.tasks| == a.n
    && 0 < a.remaining == Count(a.tasks, Unsettled)
    && a.reserved == a.remaining * a.Slice()
  }

  ghost predicate Balanced(s: State) {
    && 0 <= s.c && 0 <= s.b && 0 <= s.reservedTotal && 0 <= s.consumed && 0 <= s.writeOff
    && s.bk.b0 == s.b + s.reservedTotal + s.consumed + s.writeOff
    && s.reservedTotal == Total(s.escrows, ReservedOf) + Total(s.arrays, ArrayReservedOf)
    && (forall id :: id in s.escrows ==> EscrowOK(s.escrows[id]))
    && (forall id :: id in s.arrays ==> ArrayOK(s.arrays[id]))
  }

  lemma NewBalanced(c: int, b0: int, ts: int, te: int, k: real, bill: bool,
                    ceil: (real, int) -> int, rateCmp: (int, int, int, real) -> bool)
    requires 0 <= c && 0 <= b0 && ts < te
    ensures Balanced(New(c, b0, ts, te, k, bill, ceil, rateCmp))
  {
  }

  lemma ArrayReserveNonNeg(a: ArrayEscrow)
    requires ArrayOK(a)
    ensures 0 <= a.Slice() <= a.reserved
  {
    MulMono(0, a.w, a.c);
    MulMono(1, a.remaining, a.Slice());
  }

  lemma RestNonNeg(s: State)
    requires Balanced(s)
    ensures 0 <= Total(s.escrows, ReservedOf) && 0 <= Total(s.arrays, ArrayReservedOf)
    ensures forall id :: id in s.escrows ==> s.escrows[id].reserved <= s.reservedTotal
    ensures forall id :: id in s.arrays ==> s.arrays[id].reserved <= s.reservedTotal
  {
    forall id | id in s.escrows
      ensures 0 <= ReservedOf(s.escrows[id])
    {
      MulMono(0, s.escrows[id].w, s.escrows[id].c);
    }
    forall id | id in s.arrays
      ensures 0 <= ArrayReservedOf(s.arrays[id])
    {
      ArrayReserveNonNeg(s.arrays[id]);
    }
    TotalNonNeg(s.escrows, ReservedOf);
    TotalNonNeg(s.arrays, ArrayReservedOf);
    forall id | id in s.escrows
      ensures s.escrows[id].reserved <= s.reservedTotal
    {
      TotalRemove(s.escrows, ReservedOf, id);
      TotalNonNeg(s.escrows - {id}, ReservedOf);
    }
    forall id | id in s.arrays
      ensures s.arrays[id].reserved <= s.reservedTotal
    {
      TotalRemove(s.arrays, ArrayReservedOf, id);
      TotalNonNeg(s.arrays - {id}, ArrayReservedOf);
    }
  }

  /** From balanced books a submit with a walltime of at least 0, or a refused one, leaves
      balanced books, and no submit panics. */
  lemma SubmitKeepsBooksIff(s: State, id: Id, c: int, w: int, now: int, ok: bool)
    requires Balanced(s)
    ensures Balanced(SubmitAt(s, id, c, w, now, ok).s)
            <==> SubmitAt(s, id, c, w, now, ok).err != Ok || 0 <= w
    ensures SubmitAt(s, id, c, w, now, ok).err != Panicked
  {
    var o := SubmitAt(s, id, c, w, now, ok);
    if o.err == Ok {
      var e := o.s.escrows[id];
      TotalInsert(s.escrows, ReservedOf, id, e);
      if 0 <= w {
        MulMono(0, w, Rate(s, c));
        RestNonNeg(s);
      } else {
        assert !EscrowOK(o.s.escrows[id]);
      }
    }
  }

  /** The money alone: four non-negative parts that add up to the allocation, the reserved
      total the sum of the reservations, none of which is negative. */
  ghost predicate MoneyOK(s: State) {
    && 0 <= s.b && 0 <= s.reservedTotal && 0 <= s.consumed && 0 <= s.writeOff
    && s.bk.b0 == s.b + s.reservedTotal + s.consumed + s.writeOff
    && s.reservedTotal == Total(s.escrows, ReservedOf) + Total(s.arrays, ArrayReservedOf)
    && (forall id :: id in s.escrows ==> 0 <= s.escrows[id].reserved)
    && (forall id :: id in s.arrays ==> 0 <= s.arrays[id].reserved)
  }

  lemma BalancedIsMoneyOK(s: State)
    requires Balanced(s)
    ensures MoneyOK(s)
  {
    forall id | id in s.escrows
      ensures 0 <= s.escrows[id].reserved
    {
      MulMono(0, s.escrows[id].w, s.escrows[id].c);
    }
    forall id | id in s.arrays
      ensures 0 <= s.arrays[id].reserved
    {
      ArrayReserveNonNeg(s.arrays[id]);
    }
  }

  /** The gate does not check the sign of a 1:1 walltime. The money stays conserved, and the
      balance does not rise, exactly when the submit is refused or what it costs is not
      negative. */
  lemma SubmitKeepsMoneyIff(s: State, id: Id, c: int, w: int, now: int, ok: bool)
    requires Balanced(s)
    ensures
      var o := SubmitAt(s, id, c, w, now, ok);
      && (MoneyOK(o.s) <==> o.err != Ok || 0 <= Rate(s, c) * w)
      && (o.s.b <= s.b <==> o.err != Ok || 0 <= Rate(s, c) * w)
  {
    hide RateOK, EscrowOK, ArrayOK, Balanced;
    var o := SubmitAt(s, id, c, w, now, ok);
    BalancedIsMoneyOK(s);
    if o.err == Ok {
      TotalInsert(s.escrows, ReservedOf, id, o.s.escrows[id]);
      assert o.s.escrows[id].reserved == Rate(s, c) * w;
    }
  }

  /** A negative walltime is accepted and mints balance. */
  lemma NegativeWalltimeMintsBalance()
    ensures
      var s := New(1, 10, 0, 100, 0.0, false, (p: real, b: int) => 0, (a, b, c, k) => true);
      var o := SubmitAt(s, Whole("j"), 1, -5, 0, true);
      o.err == Ok && o.s.b == 15 && o.s.bk.b0 == 10 && !Balanced(o.s)
  {
    var s := New(1, 10, 0, 100, 0.0, false, (p: real, b: int) => 0, (a, b, c, k) => true);
    NewBalanced(1, 10, 0, 100, 0.0, false, (p: real, b: int) => 0, (a, b, c, k) => true);
    SubmitKeepsBooksIff(s, Whole("j"), 1, -5, 0, true);
  }

  /** Replacing a live escrow by one with the same reservation, whatever the bucket does. */
  lemma RetagEscrow(s: State, id: Id, e: Escrow, bk: Bucket)
    requires Balanced(s) && id in s.escrows && EscrowOK(e) && e.reserved == s.escrows[id].reserved
    requires bk.b0 == s.bk.b0
    ensures Balanced(s.(bk := bk, escrows := s.escrows[id := e]))
  {
    hide EscrowOK, ArrayOK;
    TotalInsert(s.escrows, ReservedOf, id, e);
  }

  lemma StartKeepsBooks(s: State, id: Id, now: int, ok: bool)
    requires Balanced(s)
    ensures Balanced(StartJob(s, id, now, ok).s) && StartJob(s, id, now, ok).err != Panicked
  {
    hide ArrayOK, Dispatch;
    var o := StartJob(s, id, now, ok);
    if o.log != [] {
      RetagEscrow(s, id, o.s.escrows[id], o.s.bk);
    }
  }

  lemma ClampSplits(c: int, runtime: int, w: int)
    requires 0 <= c && 0 <= w
    ensures 0 <= Clamp(runtime, w) <= w
    ensures 0 <= c * Clamp(runtime, w) <= c * w
  {
    MulMono(0, Clamp(runtime, w), c);
    MulMono(Clamp(runtime, w), w, c);
  }

  /** A settlement splits the reservation into the used part and a refund, nothing else. */
  lemma SettleKeepsBooks(s: State, id: Id, runtime: int, writeOff: bool, now: int, log: seq<Command>)
    requires Balanced(s) && id in s.escrows
    ensures
      var o := Settle(s, id, runtime, writeOff, now, log);
      var e := s.escrows[id];
      var used := e.c * Clamp(runtime, e.w);
      && Balanced(o.s)
      && 0 <= used <= e.reserved
      && o.s.b == s.b + e.reserved - used
      && o.s.consumed + o.s.writeOff == s.consumed + s.writeOff + used
  {
    hide ArrayOK, Release;
    var e := s.escrows[id];
    ClampSplits(e.c, runtime, e.w);
    RestNonNeg(s);
    TotalRemove(s.escrows, ReservedOf, id);
  }

  lemma FreshArrayOK(rate: int, n: int, w: int, now: int)
    requires 0 <= rate && 0 < n && 0 < w
    ensures 0 <= rate * w * n
    ensures ArrayOK(ArrayEscrow(rate, w, n, n, rate * w * n, now, seq(n, _ => Task(false, false, 0))))
  {
    var tasks := seq(n, _ => Task(false, false, 0));
    CountAll(tasks, Unsettled);
    MulMono(0, w, rate);
    MulMono(0, n, rate * w);
    assert rate * w * n == n * (rate * w);
  }

  /** A new reservation moves its cost out of the balance. */
  lemma AddArray(s: State, id: Id, a: ArrayEscrow)
    requires Balanced(s) && id !in s.arrays && ArrayOK(a) && 0 <= a.reserved <= s.b
    ensures Balanced(s.(b := s.b - a.reserved, reservedTotal := s.reservedTotal + a.reserved,
                        arrays := s.arrays[id := a]))
  {
    hide EscrowOK, ArrayOK;
    TotalInsert(s.arrays, ArrayReservedOf, id, a);
  }

  lemma SubmitArrayKeepsBooks(s: State, id: Id, c: int, n: int, w: int, now: int, ok: bool)
    requires Balanced(s)
    ensures Balanced(SubmitArrayAt(s, id, c, n, w, now, ok).s)
    ensures SubmitArrayAt(s, id, c, n, w, now, ok).err != Panicked
  {
    hide EscrowOK, ArrayOK;
    if SubmitArrayAt(s, id, c, n, w, now, ok).err == Ok {
      FreshArrayOK(Rate(s, c), n, w, now);
      AddArray(s, id, SubmitArrayAt(s, id, c, n, w, now, ok).s.arrays[id]);
    }
  }

  /** Replacing a live array by one with the same reservation, whatever the bucket does. */
  lemma RetagArray(s: State, id: Id, a: ArrayEscrow, bk: Bucket)
    requires Balanced(s) && id in s.arrays && ArrayOK(a) && a.reserved == s.arrays[id].reserved
    requires bk.b0 == s.bk.b0
    ensures Balanced(s.(bk := bk, arrays := s.arrays[id := a]))
  {
    hide EscrowOK, ArrayOK;
    TotalInsert(s.arrays, ArrayReservedOf, id, a);
  }

  lemma StartTaskKeepsBooks(s: State, id: Id, idx: int, now: int, ok: bool)
    requires Balanced(s)
    ensures Balanced(StartArrayTask(s, id, idx, now, ok).s) && StartArrayTask(s, id, idx, now, ok).err != Panicked
  {
    hide EscrowOK, Dispatch;
    var o := StartArrayTask(s, id, idx, now, ok);
    if o.log != [] {
      var t := o.s.arrays[id].tasks[idx];
      CountUpdate(s.arrays[id].tasks, Unsettled, idx, t);
      RetagArray(s, id, s.arrays[id].(tasks := s.arrays[id].tasks[idx := t]), o.s.bk);
    }
  }

  /** The array after one of its unsettled tasks has settled. */
  function AfterTask(a: ArrayEscrow, idx: int): ArrayEscrow
    requires 0 <= idx < |a.tasks|
  {
    a.(reserved := a.reserved - a.Slice(), remaining := a.remaining - 1,
       tasks := a.tasks[idx := a.tasks[idx].(settled := true)])
  }

  lemma AfterTaskOK(a: ArrayEscrow, idx: int)
    requires ArrayOK(a) && 0 <= idx < |a.tasks| && !a.tasks[idx].settled
    ensures AfterTask(a, idx).reserved == AfterTask(a, idx).remaining * a.Slice()
    ensures 1 < a.remaining ==> ArrayOK(AfterTask(a, idx))
    ensures a.remaining == 1 ==> AfterTask(a, idx).reserved == 0
  {
    CountUpdate(a.tasks, Unsettled, idx, a.tasks[idx].(settled := true));
    assert (a.remaining - 1) * a.Slice() == a.remaining * a.Slice() - a.Slice();
  }

  /** One slice leaves the reservation: part of it used, the rest back in the balance. */
  lemma DrawSlice(s: State, id: Id, a: ArrayEscrow, used: int, toWriteOff: bool, bk: Bucket)
    requires Balanced(s) && id in s.arrays && bk.b0 == s.bk.b0
    requires 0 <= used <= s.arrays[id].Slice()
    requires a.reserved == s.arrays[id].reserved - s.arrays[id].Slice()
    requires ArrayOK(a) || a.reserved == 0
    ensures Balanced(s.(reservedTotal := s.reservedTotal - s.arrays[id].Slice(),
                        b := s.b + (s.arrays[id].Slice() - used),
                        writeOff := if toWriteOff then s.writeOff + used else s.writeOff,
                        consumed := if toWriteOff then s.consumed else s.consumed + used,
                        bk := bk,
                        arrays := if ArrayOK(a) then s.arrays[id := a] else s.arrays - {id}))
  {
    ArrayReserveNonNeg(s.arrays[id]);
    RestNonNeg(s);
    hide EscrowOK, ArrayOK;
    TotalInsert(s.arrays, ArrayReservedOf, id, a);
    TotalRemove(s.arrays, ArrayReservedOf, id);
  }

  /** The per-array check after a task settlement always passes, so its panic is dead
      code; the array closes exactly with its last unsettled task. */
  lemma SettleTaskKeepsBooks(s: State, id: Id, idx: int, runtime: int, writeOff: bool, now: int, log: seq<Command>)
    requires Balanced(s)
    ensures
      var o := SettleTask(s, id, idx, runtime, writeOff, now, log);
      && Balanced(o.s)
      && o.err != Panicked
      && (o.err != Ok ==> o.s == s)
      && (o.err == Ok ==>
            var a := s.arrays[id];
            var used := a.c * Clamp(runtime, a.w);
            && 0 <= used <= a.Slice()
            && o.s.b == s.b + a.Slice() - used
            && o.s.consumed + o.s.writeOff == s.consumed + s.writeOff + used
            && o.s.arrays == if 1 < a.remaining then s.arrays[id := AfterTask(a, idx)] else s.arrays - {id})
  {
    hide EscrowOK, Release, Count;
    if HasTask(s, id, idx) && !s.arrays[id].tasks[idx].settled {
      var a := s.arrays[id];
      var r := Clamp(runtime, a.w);
      ClampSplits(a.c, runtime, a.w);
      AfterTaskOK(a, idx);
      DrawSlice(s, id, AfterTask(a, idx), a.c * r, writeOff,
                Release(s.bk, a.c, a.w, a.tasks[idx].started, a.tasks[idx].burstResv, r, now));
    }
  }

  lemma RepricedOK(e: Escrow, c: int)
    requires EscrowOK(e) && 0 < c <= e.c
    ensures EscrowOK(e.(c := c, reserved := e.reserved - (e.c - c) * e.w))
    ensures 0 <= (e.c - c) * e.w <= e.reserved
  {
    assert (e.c - c) * e.w == e.c * e.w - c * e.w;
    MulMono(0, e.w, e.c - c);
    MulMono(0, e.w, c);
  }

  lemma RepriceKeepsBooks(s: State, id: Id, c: int, now: int, ok: bool)
    requires Balanced(s)
    ensures Balanced(RepriceJob(s, id, c, now, ok).s) && RepriceJob(s, id, c, now, ok).err != Panicked
    ensures s.b <= RepriceJob(s, id, c, now, ok).s.b
  {
    hide ArrayOK;
    var o := RepriceJob(s, id, c, now, ok);
    if o.err == Ok {
      RepricedOK(s.escrows[id], c);
      RestNonNeg(s);
      TotalInsert(s.escrows, ReservedOf, id, o.s.escrows[id]);
    }
  }

  /** The only thing the kernel trusts its caller for. */
  predicate Reasonable(op: Op) {
    op.Do? && op.cmd.Submit? ==> 0 <= op.cmd.w
  }

  lemma TaskCallKeepsBooks(s: State, cmd: Command, ok: bool)
    requires Balanced(s) && SettlesTask(cmd)
    ensures Balanced(Call(s, cmd, ok).s) && Call(s, cmd, ok).err != Panicked
  {
    hide EscrowOK, ArrayOK, SettleTask, Balanced;
    if TaskLogged(s, cmd) {
      SettleTaskKeepsBooks(s, cmd.id, cmd.idx, TaskRuntime(s, cmd),
                           cmd.InfraFailTask? && !s.billInfra, cmd.now, [cmd]);
    }
  }

  lemma AdminKeepsBooks(s: State, cmd: Command, ok: bool)
    requires Balanced(s) && Administers(cmd)
    ensures Balanced(Administer(s, cmd, ok).s) && Administer(s, cmd, ok).err != Panicked
  {
    hide EscrowOK, ArrayOK, Accrue, Configure;
    var o := Administer(s, cmd, ok);
    assert o.s.escrows == s.escrows && o.s.arrays == s.arrays && o.s.reservedTotal == s.reservedTotal;
    if !cmd.TopUp? && !cmd.Withdraw? {
      assert o.s.b == s.b && o.s.bk.b0 == s.bk.b0;
    }
  }

  lemma AdmissionKeepsBooks(s: State, cmd: Command, ok: bool)
    requires Balanced(s) && Reasonable(Do(cmd, ok))
    requires cmd.Submit? || cmd.Start? || cmd.SubmitArray? || cmd.StartTask? || cmd.Reprice?
    ensures Balanced(Call(s, cmd, ok).s) && Call(s, cmd, ok).err != Panicked
  {
    hide SubmitAt, StartJob, SubmitArrayAt, StartArrayTask, RepriceJob, Balanced;
    match cmd {
      case Submit(id, c, w, now) => SubmitKeepsBooksIff(s, id, c, w, now, ok);
      case Start(id, now) => StartKeepsBooks(s, id, now, ok);
      case SubmitArray(id, c, n, w, now) => SubmitArrayKeepsBooks(s, id, c, n, w, now, ok);
      case StartTask(id, idx, now) => StartTaskKeepsBooks(s, id, idx, now, ok);
      case Reprice(id, c, now) => RepriceKeepsBooks(s, id, c, now, ok);
    }
  }

  lemma CallKeepsBooks(s: State, cmd: Command, ok: bool)
    requires Balanced(s) && Reasonable(Do(cmd, ok))
    ensures Balanced(Call(s, cmd, ok).s) && Call(s, cmd, ok).err != Panicked
  {
    hide EscrowOK, ArrayOK, SettleTask, Release;
    if SettlesTask(cmd) {
      TaskCallKeepsBooks(s, cmd, ok);
    } else if SettlesJob(cmd) {
      if cmd.id in s.escrows {
        SettleKeepsBooks(s, cmd.id, JobRuntime(s.escrows[cmd.id], cmd),
                         cmd.InfraFail? && !s.billInfra, cmd.now, [cmd]);
      }
    } else if Administers(cmd) {
      AdminKeepsBooks(s, cmd, ok);
    } else {
      AdmissionKeepsBooks(s, cmd, ok);
    }
  }

  /** Every method call and every read keeps the books, whether or not the append
      succeeds, and never panics. */
  lemma ExecKeepsBooks(s: State, op: Op)
    requires Balanced(s) && Reasonable(op)
    ensures Balanced(Exec(s, op).s)
    ensures Exec(s, op).err != Panicked
  {
    if op.Do? {
      CallKeepsBooks(s, op.cmd, op.ok);
    }
  }

  /** Conservation over whole runs. */
  lemma {:induction false} RunKeepsBooks(s: State, ops: seq<Op>)
    requires Balanced(s)
    requires forall i :: 0 <= i < |ops| ==> Reasonable(ops[i])
    ensures Balanced(Run(s, ops).s)
    decreases |ops|
  {
    if ops != [] {
      ExecKeepsBooks(s, ops[0]);
      RunKeepsBooks(Exec(s, ops[0]).s, ops[1..]);
    }
  }
}
