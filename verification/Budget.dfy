/** The budget as the object it is: fields updated in place by locked methods
    (internal/budget/budget.go, array.go, burst.go, status.go, readview.go and the logging
    half of durable.go).

    Every method is proved to do to the fields what the transition function `Call` says:
    the new value, the error, the log records appended and the view published. */
module Budgets {
  import opened Arith
  import opened TokenBucket
  import opened Kernel
  import opened ReadView
  import Tokens

  lemma AccrueOff(b: Bucket, now: int)
    ensures !b.on ==> TokenBucket.Accrue(b, now) == b
  {
  }

  lemma SettleAlwaysSucceeds(s: State, id: Id, runtime: int, toWriteOff: bool, now: int, cmds: seq<Command>)
    requires id in s.escrows
    ensures Settle(s, id, runtime, toWriteOff, now, cmds).err == Ok
    ensures Settle(s, id, runtime, toWriteOff, now, cmds).log == cmds
  {
  }

  lemma SettleTaskRefuses(s: State, id: Id, idx: int, runtime: int, toWriteOff: bool, now: int, cmds: seq<Command>)
    ensures !HasTask(s, id, idx) ==> SettleTask(s, id, idx, runtime, toWriteOff, now, cmds) == Outcome(s, NoSuchJob, cmds)
    ensures HasTask(s, id, idx) && s.arrays[id].tasks[idx].settled ==>
      SettleTask(s, id, idx, runtime, toWriteOff, now, cmds) == Outcome(s, BadState, cmds)
  {
  }

  lemma TaskSettleLogs(s: State, id: Id, idx: int, runtime: int, toWriteOff: bool, now: int, cmds: seq<Command>)
    ensures SettleTask(s, id, idx, runtime, toWriteOff, now, cmds).log == cmds
  {
  }

  class Budget {
    var c: int
    var b: int
    var reservedTotal: int
    var consumed: int
    var writeOff: int
    var status: Status
    var escrows: map<Id, Escrow>
    var arrays: map<Id, ArrayEscrow>
    /** The burst configuration and bucket, with the allocation and window they are scaled by. */
    var bk: Bucket

    const billInfra: bool
    const k: real
    const rateCmp: (int, int, int, real) -> bool

    var view: View
    var log: seq<Command>
    var durable: bool
    var replaying: bool

    /** The abstract value of the fields. */
    function Value(): State
      reads this
    {
      State(c, billInfra, k, rateCmp, b, reservedTotal, consumed, writeOff, bk, escrows, arrays, status)
    }

    /** Whether an append goes through: replay and in-memory budgets write nothing. */
    predicate Appends(ok: bool)
      reads this
    {
      ok || replaying || !durable
    }

    /** The fields, the error and the log are exactly what outcome `o` says; `l` is the log
        before the call. */
    ghost predicate Ran(o: Outcome, l: seq<Command>, err: Err)
      reads this
    {
      && Value() == o.s && err == o.err
      && log == if replaying || !durable then l else l + o.log
    }

    constructor (c: int, b0: int, ts: int, te: int, k: real, billInfra: bool,
                 ceil: (real, int) -> int, rateCmp: (int, int, int, real) -> bool)
      requires ts < te
      ensures Value() == New(c, b0, ts, te, k, billInfra, ceil, rateCmp)
      ensures view == ViewOf(Value()) && log == [] && !durable && !replaying
    {
      this.c, this.b, this.k, this.billInfra, this.rateCmp := c, b0, k, billInfra, rateCmp;
      reservedTotal, consumed, writeOff, status := 0, 0, 0, Active;
      escrows, arrays := map[], map[];
      bk := Bucket(ceil, false, 0.0, 0, b0, ts, te, 0, 0, 0, ts);
      log, durable, replaying := [], false, false;
      view := View(b0, Bucket(ceil, false, 0.0, 0, b0, ts, te, 0, 0, 0, ts));
    }

    /** A budget with the given fields, its read view seeded. */
    constructor Restore(c: int, billInfra: bool, k: real, rateCmp: (int, int, int, real) -> bool,
                        b: int, reservedTotal: int, consumed: int, writeOff: int, bk: Bucket,
                        escrows: map<Id, Escrow>, arrays: map<Id, ArrayEscrow>, status: Status)
      ensures Value() == State(c, billInfra, k, rateCmp, b, reservedTotal, consumed, writeOff, bk, escrows, arrays, status)
      ensures view == ViewOf(Value()) && log == [] && !durable && !replaying
    {
      this.c, this.billInfra, this.k, this.rateCmp := c, billInfra, k, rateCmp;
      this.b, this.reservedTotal, this.consumed, this.writeOff := b, reservedTotal, consumed, writeOff;
      this.bk, this.escrows, this.arrays, this.status := bk, escrows, arrays, status;
      log, durable, replaying := [], false, false;
      view := View(b, bk);
    }

    /** Append a record, unless replaying or not durable. */
    method LogCmd(cmd: Command, ok: bool) returns (err: Err)
      modifies this`log
      ensures err == if ok || replaying || !durable then Ok else AppendFailed
      ensures log == if replaying || !durable || !ok then old(log) else old(log) + [cmd]
    {
      if replaying || !durable {
        return Ok;
      }
      if !ok {
        return AppendFailed;
      }
      log := log + [cmd];
      return Ok;
    }

    method Publish()
      modifies this`view
      ensures view == ViewOf(Value())
    {
      view := View(b, bk);
    }

    /** Fast-forward the bucket, carrying the sub-unit remainder. */
    method Accrue(now: int)
      modifies this`bk
      ensures bk == TokenBucket.Accrue(old(bk), now)
    {
      if !bk.on {
        return;
      }
      var dt := now - bk.lastTouch;
      if dt <= 0 {
        bk := bk.(lastTouch := now);
        return;
      }
      var T := bk.Window();
      var unusedNum := bk.b0 - bk.rLive * T;
      if unusedNum > 0 {
        assert 0 <= unusedNum * dt;
        var acc := bk.frac + unusedNum * dt;
        var carry := acc / T;
        assert acc - carry * T == acc % T;
        bk := bk.(frac := acc - carry * T, pot := bk.pot + carry);
        if bk.pot >= bk.Ceiling() {
          bk := bk.(pot := bk.Ceiling(), frac := 0);
        }
      }
      bk := bk.(lastTouch := now);
    }

    method BurstReserveForRate(rate: int, w: int) returns (resv: int)
      ensures resv == ReserveForRate(bk, rate, w)
    {
      var newR := bk.rLive + rate;
      var base := bk.rLive;
      var r0f := Quo(bk.b0, bk.Window());
      if base < r0f {
        base := r0f;
      }
      var excess := newR - base;
      if excess < 0 {
        excess := 0;
      }
      resv := excess * w;
    }

    /** The checks both gates make, in order: open, well-formed, solvent, within the rate ceiling. */
    method Admit(malformed: bool, cost: int, now: int) returns (err: Err)
      ensures err == if !Open(Value(), now) then BudgetLapsed else if malformed then BadState
                     else if cost > b then Insufficient else if RateOK(Value(), cost, now) then Ok else RateExceeded
    {
      if status != Active || now < bk.ts || now >= bk.te {
        return BudgetLapsed;
      }
      if malformed {
        return BadState;
      }
      if cost > b {
        return Insufficient;
      }
      if k > 0.0 && (bk.te - now <= 0 || !rateCmp(b, bk.te - now, reservedTotal + cost, k)) {
        return RateExceeded;
      }
      return Ok;
    }

    method SubmitAt(id: Id, c0: int, w: int, now: int, ok: bool) returns (err: Err)
      modifies this`b, this`reservedTotal, this`escrows, this`log, this`view
      ensures Ran(Kernel.SubmitAt(old(Value()), id, c0, w, now, Appends(ok)), old(log), err) && view == ViewOf(Value())
    {
      hide RateOK, Open;
      var rate := if c0 <= 0 then c else c0;
      var cost := rate * w;
      err := Admit(id in escrows, cost, now);
      if err == Ok {
        err := LogCmd(Submit(id, rate, w, now), ok);
        if err == Ok {
          b := b - cost;
          reservedTotal := reservedTotal + cost;
          escrows := escrows[id := Escrow(rate, cost, w, false, 0, now)];
        }
      }
      Publish();
    }

    /** The burst gate both kinds of start run: reserve, or raise the burn and go on. */
    method DispatchGate(rate: int, w: int, now: int, cmd: Command, ok: bool) returns (err: Err, resv: int)
      modifies this`bk, this`log
      ensures
        var g := Dispatch(old(bk), rate, w, now, ok || replaying || !durable);
        && bk == g.bk && err == g.err && resv == g.resv
        && log == if err == Ok && !replaying && durable then old(log) + [cmd] else old(log)
    {
      hide TokenBucket.Accrue, ReserveForRate;
      resv := 0;
      if bk.on {
        Accrue(now);
        var need := BurstReserveForRate(rate, w);
        if need > 0 {
          if bk.drawCap > 0 && need > bk.drawCap {
            return DrawCapExceeded, 0;
          }
          if need > bk.pot {
            return BurstInsufficient, 0;
          }
          err := LogCmd(cmd, ok);
          if err != Ok {
            return err, 0;
          }
          bk := bk.(pot := bk.pot - need, rLive := bk.rLive + rate);
          return Ok, need;
        }
        bk := bk.(rLive := bk.rLive + rate);
      }
      err := LogCmd(cmd, ok);
    }

    method Start(id: Id, now: int, ok: bool) returns (err: Err)
      modifies this`bk, this`log, this`escrows, this`view
      ensures Ran(StartJob(old(Value()), id, now, Appends(ok)), old(log), err) && view == ViewOf(Value())
    {
      hide Dispatch;
      if id !in escrows {
        err := NoSuchJob;
      } else {
        var e := escrows[id];
        if e.started {
          err := Ok;
        } else {
          var resv;
          err, resv := DispatchGate(e.c, e.w, now, Command.Start(id, now), ok);
          if err == Ok {
            escrows := escrows[id := e.(started := true, burstResv := if resv > 0 then resv else e.burstResv)];
          }
        }
      }
      Publish();
    }

    /** The bucket side of a settlement. */
    method ReleaseTokens(rate: int, w: int, started: bool, resv: int, runtime: int, now: int)
      modifies this`bk
      ensures bk == Release(old(bk), rate, w, started, resv, runtime, now)
    {
      AccrueOff(bk, now);
      hide TokenBucket.Accrue, Quo;
      if bk.on {
        Accrue(now);
        if started {
          bk := bk.(rLive := Max(bk.rLive - rate, 0));
          if resv > 0 && w > 0 {
            bk := bk.(pot := bk.pot + Quo(resv * (w - runtime), w));
            if bk.pot > bk.Ceiling() {
              bk := bk.(pot := bk.Ceiling());
            }
          }
        }
      }
    }

    /** The money side of a settlement: `used` is billed or written off, the rest refunded. */
    method MoveMoney(reserved: int, used: int, toWriteOff: bool)
      modifies this`b, this`reservedTotal, this`consumed, this`writeOff
      ensures reservedTotal == old(reservedTotal) - reserved && b == old(b) + (reserved - used)
      ensures writeOff == (if toWriteOff then old(writeOff) + used else old(writeOff))
      ensures consumed == (if toWriteOff then old(consumed) else old(consumed) + used)
    {
      var refund := reserved - used;
      reservedTotal := reservedTotal - reserved;
      b := b + refund;
      if toWriteOff {
        writeOff := writeOff + used;
      } else {
        consumed := consumed + used;
      }
    }

    /** The shared refund core of the 1:1 settlements. */
    method SettleCore(id: Id, runtime: int, toWriteOff: bool, now: int, ghost cmds: seq<Command>)
      requires id in escrows
      modifies this`b, this`reservedTotal, this`consumed, this`writeOff, this`escrows, this`view,
               this`bk
      ensures Value() == Settle(old(Value()), id, runtime, toWriteOff, now, cmds).s
      ensures view == ViewOf(Value())
    {
      hide Release;
      var e := escrows[id];
      var r := if runtime < 0 then 0 else runtime;
      if r > e.w {
        r := e.w;
      }
      MoveMoney(e.reserved, e.c * r, toWriteOff);
      ReleaseTokens(e.c, e.w, e.started, e.burstResv, r, now);
      escrows := escrows - {id};
      Publish();
    }

    method Complete(id: Id, runtime: int, now: int, ok: bool) returns (err: Err)
      modifies this`b, this`reservedTotal, this`consumed, this`writeOff, this`escrows, this`view, this`log,
               this`bk
      ensures Ran(SettleJob(old(Value()), Command.Complete(id, runtime, now), Appends(ok)), old(log), err)
      ensures view == if err == Ok then ViewOf(Value()) else old(view)
    {
      hide Settle;
      if id !in escrows {
        return NoSuchJob;
      }
      var cmd := Command.Complete(id, runtime, now);
      err := LogCmd(cmd, ok);
      if err != Ok {
        return;
      }
      SettleCore(id, runtime, false, now, [cmd]);
      SettleAlwaysSucceeds(old(Value()), id, runtime, false, now, [cmd]);
    }

    method Timeout(id: Id, now: int, ok: bool) returns (err: Err)
      modifies this`b, this`reservedTotal, this`consumed, this`writeOff, this`escrows, this`view, this`log,
               this`bk
      ensures Ran(SettleJob(old(Value()), Command.Timeout(id, now), Appends(ok)), old(log), err)
      ensures view == if err == Ok then ViewOf(Value()) else old(view)
    {
      hide Settle;
      if id !in escrows {
        return NoSuchJob;
      }
      var cmd := Command.Timeout(id, now);
      err := LogCmd(cmd, ok);
      if err != Ok {
        return;
      }
      SettleAlwaysSucceeds(Value(), id, escrows[id].w, false, now, [cmd]);
      SettleCore(id, escrows[id].w, false, now, [cmd]);
    }

    /** Cancelling work that never started bills nothing. */
    method Cancel(id: Id, elapsed: int, now: int, ok: bool) returns (err: Err)
      modifies this`b, this`reservedTotal, this`consumed, this`writeOff, this`escrows, this`view, this`log,
               this`bk
      ensures Ran(SettleJob(old(Value()), Command.Cancel(id, elapsed, now), Appends(ok)), old(log), err)
      ensures view == if err == Ok then ViewOf(Value()) else old(view)
    {
      hide Settle;
      if id !in escrows {
        return NoSuchJob;
      }
      var cmd := Command.Cancel(id, elapsed, now);
      err := LogCmd(cmd, ok);
      if err != Ok {
        return;
      }
      var runtime := if escrows[id].started then elapsed else 0;
      SettleAlwaysSucceeds(Value(), id, runtime, false, now, [cmd]);
      SettleCore(id, runtime, false, now, [cmd]);
    }

    /** The policy flag decides whether the user or the system pays. */
    method InfraFail(id: Id, elapsed: int, now: int, ok: bool) returns (err: Err)
      modifies this`b, this`reservedTotal, this`consumed, this`writeOff, this`escrows, this`view, this`log,
               this`bk
      ensures Ran(SettleJob(old(Value()), Command.InfraFail(id, elapsed, now), Appends(ok)), old(log), err)
      ensures view == if err == Ok then ViewOf(Value()) else old(view)
    {
      hide Settle;
      if id !in escrows {
        return NoSuchJob;
      }
      var cmd := Command.InfraFail(id, elapsed, now);
      err := LogCmd(cmd, ok);
      if err != Ok {
        return;
      }
      SettleAlwaysSucceeds(Value(), id, elapsed, !billInfra, now, [cmd]);
      SettleCore(id, elapsed, !billInfra, now, [cmd]);
    }

    /** The array gate: one all-or-nothing debit, then a loop that fills the tasks. */
    method SubmitArrayAt(id: Id, c0: int, n: int, w: int, now: int, ok: bool) returns (err: Err)
      modifies this`b, this`reservedTotal, this`arrays, this`log, this`view
      ensures Ran(Kernel.SubmitArrayAt(old(Value()), id, c0, n, w, now, Appends(ok)), old(log), err) && view == ViewOf(Value())
    {
      hide RateOK, Open, Rate;
      var rate := Rate(Value(), c0);
      var cost := rate * w * n;
      err := Admit(id in arrays || n <= 0 || w <= 0, cost, now);
      if err == Ok {
        err := LogCmd(SubmitArray(id, rate, n, w, now), ok);
        if err == Ok {
          EscrowArray(id, rate, n, w, cost, now);
        }
      }
      Publish();
    }

    method EscrowArray(id: Id, rate: int, n: nat, w: int, cost: int, now: int)
      modifies this`b, this`reservedTotal, this`arrays
      ensures b == old(b) - cost && reservedTotal == old(reservedTotal) + cost
      ensures arrays == old(arrays)[id := ArrayEscrow(rate, w, n, n, cost, now, seq(n, _ => Task(false, false, 0)))]
    {
      b := b - cost;
      reservedTotal := reservedTotal + cost;
      var tasks := FreshTasks(n);
      arrays := arrays[id := ArrayEscrow(rate, w, n, n, cost, now, tasks)];
    }

    static method FreshTasks(n: nat) returns (tasks: seq<Task>)
      ensures tasks == seq(n, _ => Task(false, false, 0))
    {
      tasks := [];
      for i := 0 to n
        invariant tasks == seq(i, _ => Task(false, false, 0))
      {
        tasks := tasks + [Task(false, false, 0)];
      }
    }

    method StartTask(id: Id, idx: int, now: int, ok: bool) returns (err: Err)
      modifies this`bk, this`log, this`arrays, this`view
      ensures Ran(StartArrayTask(old(Value()), id, idx, now, Appends(ok)), old(log), err) && view == ViewOf(Value())
    {
      hide Dispatch;
      if id !in arrays {
        err := NoSuchJob;
      } else {
        var ae := arrays[id];
        if !(0 <= idx < |ae.tasks|) || ae.tasks[idx].settled {
          err := BadState;
        } else if ae.tasks[idx].started {
          err := Ok;
        } else {
          var t := ae.tasks[idx];
          var resv;
          err, resv := DispatchGate(ae.c, ae.w, now, Command.StartTask(id, idx, now), ok);
          if err == Ok {
            var t' := t.(started := true, burstResv := if resv > 0 then resv else t.burstResv);
            arrays := arrays[id := ae.(tasks := ae.tasks[idx := t'])];
          }
        }
      }
      Publish();
    }

    /** The shared per-task refund core, with its own books check. */
    method SettleTaskCore(id: Id, idx: int, runtime: int, toWriteOff: bool, now: int, ghost cmds: seq<Command>)
      returns (err: Err)
      modifies this`b, this`reservedTotal, this`consumed, this`writeOff, this`arrays, this`view,
               this`bk
      ensures
        var o := SettleTask(old(Value()), id, idx, runtime, toWriteOff, now, cmds);
        Value() == o.s && err == o.err && view == if err == Ok then ViewOf(Value()) else old(view)
    {
      hide Release, Clamp, ArrayEscrow.Slice, SettleTask;
      SettleTaskRefuses(Value(), id, idx, runtime, toWriteOff, now, cmds);
      if id !in arrays || !(0 <= idx < |arrays[id].tasks|) {
        err := NoSuchJob;
      } else if arrays[id].tasks[idx].settled {
        err := BadState;
      } else {
        err := SettleOpenTask(id, idx, Clamp(runtime, arrays[id].w), runtime, toWriteOff, now, cmds);
        if err == Ok {
          Publish();
        }
      }
    }

    method SettleOpenTask(id: Id, idx: int, r: int, ghost runtime: int, toWriteOff: bool, now: int,
                          ghost cmds: seq<Command>)
      returns (err: Err)
      requires HasTask(Value(), id, idx) && !arrays[id].tasks[idx].settled && r == Clamp(runtime, arrays[id].w)
      modifies this`b, this`reservedTotal, this`consumed, this`writeOff, this`arrays, this`bk
      ensures
        var o := SettleTask(old(Value()), id, idx, runtime, toWriteOff, now, cmds);
        Value() == o.s && err == o.err
    {
      hide Release, Clamp, ArrayEscrow.Slice;
      var ae := arrays[id];
      var t := ae.tasks[idx];
      var slice := ae.Slice();
      MoveMoney(slice, ae.c * r, toWriteOff);
      ReleaseTokens(ae.c, ae.w, t.started, t.burstResv, r, now);
      err := CloseTask(id, idx, slice);
    }

    /** Mark the task settled, check the array's own books, drop a drained array. */
    method CloseTask(id: Id, idx: int, slice: int) returns (err: Err)
      requires id in arrays && 0 <= idx < |arrays[id].tasks|
      modifies this`arrays
      ensures
        var ae := old(arrays[id]);
        var ae' := ae.(reserved := ae.reserved - slice, remaining := ae.remaining - 1,
                       tasks := ae.tasks[idx := ae.tasks[idx].(settled := true)]);
        var sound := ae'.reserved == ae'.remaining * slice;
        && err == (if sound then Ok else Panicked)
        && arrays == if sound && ae'.remaining == 0 then old(arrays) - {id} else old(arrays)[id := ae']
    {
      var ae := arrays[id];
      ae := ae.(reserved := ae.reserved - slice, remaining := ae.remaining - 1,
                tasks := ae.tasks[idx := ae.tasks[idx].(settled := true)]);
      arrays := arrays[id := ae];
      if ae.reserved != ae.remaining * slice {
        return Panicked;
      }
      if ae.remaining == 0 {
        assert arrays - {id} == old(arrays) - {id};
        arrays := arrays - {id};
      }
      return Ok;
    }

    /** The four task settlements: each logs once its own pre-checks pass, then settles. */
    method CompleteTask(id: Id, idx: int, runtime: int, now: int, ok: bool) returns (err: Err)
      modifies this`b, this`reservedTotal, this`consumed, this`writeOff, this`arrays, this`view, this`log,
               this`bk
      ensures Ran(SettleArrayTask(old(Value()), Command.CompleteTask(id, idx, runtime, now), Appends(ok)), old(log), err)
      ensures view == if err == Ok then ViewOf(Value()) else old(view)
    {
      hide SettleTask;
      var cmd := Command.CompleteTask(id, idx, runtime, now);
      err := LogCmd(cmd, ok);
      if err != Ok {
        return;
      }
      TaskSettleLogs(Value(), id, idx, runtime, false, now, [cmd]);
      err := SettleTaskCore(id, idx, runtime, false, now, [cmd]);
    }

    method TimeoutTask(id: Id, idx: int, now: int, ok: bool) returns (err: Err)
      modifies this`b, this`reservedTotal, this`consumed, this`writeOff, this`arrays, this`view, this`log,
               this`bk
      ensures Ran(SettleArrayTask(old(Value()), Command.TimeoutTask(id, idx, now), Appends(ok)), old(log), err)
      ensures view == if err == Ok then ViewOf(Value()) else old(view)
    {
      hide SettleTask;
      if id !in arrays {
        return NoSuchJob;
      }
      var cmd := Command.TimeoutTask(id, idx, now);
      err := LogCmd(cmd, ok);
      if err != Ok {
        return;
      }
      TaskSettleLogs(Value(), id, idx, arrays[id].w, false, now, [cmd]);
      err := SettleTaskCore(id, idx, arrays[id].w, false, now, [cmd]);
    }

    method CancelTask(id: Id, idx: int, elapsed: int, now: int, ok: bool) returns (err: Err)
      modifies this`b, this`reservedTotal, this`consumed, this`writeOff, this`arrays, this`view, this`log,
               this`bk
      ensures Ran(SettleArrayTask(old(Value()), Command.CancelTask(id, idx, elapsed, now), Appends(ok)), old(log), err)
      ensures view == if err == Ok then ViewOf(Value()) else old(view)
    {
      hide SettleTask;
      if id !in arrays || !(0 <= idx < |arrays[id].tasks|) {
        return NoSuchJob;
      }
      var cmd := Command.CancelTask(id, idx, elapsed, now);
      err := LogCmd(cmd, ok);
      if err != Ok {
        return;
      }
      var runtime := if arrays[id].tasks[idx].started then elapsed else 0;
      TaskSettleLogs(Value(), id, idx, runtime, false, now, [cmd]);
      err := SettleTaskCore(id, idx, runtime, false, now, [cmd]);
    }

    method InfraFailTask(id: Id, idx: int, elapsed: int, now: int, ok: bool) returns (err: Err)
      modifies this`b, this`reservedTotal, this`consumed, this`writeOff, this`arrays, this`view, this`log,
               this`bk
      ensures Ran(SettleArrayTask(old(Value()), Command.InfraFailTask(id, idx, elapsed, now), Appends(ok)), old(log), err)
      ensures view == if err == Ok then ViewOf(Value()) else old(view)
    {
      hide SettleTask;
      if id !in arrays {
        return NoSuchJob;
      }
      var cmd := Command.InfraFailTask(id, idx, elapsed, now);
      err := LogCmd(cmd, ok);
      if err != Ok {
        return;
      }
      TaskSettleLogs(Value(), id, idx, elapsed, !billInfra, now, [cmd]);
      err := SettleTaskCore(id, idx, elapsed, !billInfra, now, [cmd]);
    }

    /** Closing ignores a failed append. */
    method Lapse(ok: bool) returns (err: Err)
      modifies this`status, this`log
      ensures Ran(Administer(old(Value()), Command.Lapse, Appends(ok)), old(log), err) && view == old(view)
    {
      var _ := LogCmd(Command.Lapse, ok);
      status := Lapsed;
      return Ok;
    }

    method TopUpXfer(amount: int, xfer: string, now: int, ok: bool) returns (err: Err)
      modifies this`b, this`bk, this`log, this`view
      ensures Ran(Administer(old(Value()), TopUp(amount, xfer, now), Appends(ok)), old(log), err) && view == ViewOf(Value())
    {
      if amount <= 0 {
        err := BadState;
      } else {
        err := LogCmd(TopUp(amount, xfer, now), ok);
        if err == Ok {
          b := b + amount;
          bk := bk.(b0 := bk.b0 + amount);
        }
      }
      Publish();
    }

    method WithdrawXfer(amount: int, xfer: string, now: int, ok: bool) returns (err: Err)
      modifies this`b, this`bk, this`log, this`view
      ensures Ran(Administer(old(Value()), Withdraw(amount, xfer, now), Appends(ok)), old(log), err) && view == ViewOf(Value())
    {
      if amount <= 0 {
        err := BadState;
      } else if amount > b {
        err := Insufficient;
      } else {
        err := LogCmd(Withdraw(amount, xfer, now), ok);
        if err == Ok {
          b := b - amount;
          bk := bk.(b0 := bk.b0 - amount);
        }
      }
      Publish();
    }

    method Reprice(id: Id, newRate: int, now: int, ok: bool) returns (err: Err)
      modifies this`b, this`reservedTotal, this`escrows, this`log, this`view
      ensures Ran(RepriceJob(old(Value()), id, newRate, now, Appends(ok)), old(log), err) && view == ViewOf(Value())
    {
      if id !in escrows {
        err := NoSuchJob;
      } else {
        var e := escrows[id];
        var delta := (e.c - newRate) * e.w;
        if e.started || newRate <= 0 || newRate > e.c {
          err := BadState;
        } else {
          err := LogCmd(Command.Reprice(id, newRate, now), ok);
          if err == Ok {
            escrows := escrows[id := e.(c := newRate, reserved := e.reserved - delta)];
            reservedTotal := reservedTotal - delta;
            b := b + delta;
          }
        }
      }
      Publish();
    }

    method SetRate(rate: int, now: int, ok: bool) returns (err: Err)
      modifies this`c, this`log, this`view
      ensures Ran(Administer(old(Value()), Command.SetRate(rate, now), Appends(ok)), old(log), err) && view == ViewOf(Value())
    {
      if rate <= 0 {
        err := BadState;
      } else {
        err := LogCmd(Command.SetRate(rate, now), ok);
        if err == Ok {
          c := rate;
        }
      }
      Publish();
    }

    method SetWindow(start: int, end: int, now: int, ok: bool) returns (err: Err)
      modifies this`bk, this`log, this`view
      ensures Ran(Administer(old(Value()), Command.SetWindow(start, end, now), Appends(ok)), old(log), err) && view == ViewOf(Value())
    {
      if start >= end {
        err := BadState;
      } else {
        err := LogCmd(Command.SetWindow(start, end, now), ok);
        if err == Ok {
          bk := bk.(ts := start, te := end);
        }
      }
      Publish();
    }

    method SetBurst(on: bool, pct: real, cap: int, now: int, ok: bool) returns (err: Err)
      modifies this`bk, this`log, this`view
      ensures Ran(Administer(old(Value()), Command.SetBurst(on, pct, cap, now), Appends(ok)), old(log), err) && view == ViewOf(Value())
    {
      hide Configure;
      if (!on && (pct != 0.0 || cap != 0)) || (on && (pct <= 0.0 || pct > 1.0 || cap < 0)) {
        err := BadState;
      } else {
        err := LogCmd(Command.SetBurst(on, pct, cap, now), ok);
        if err == Ok {
          ConfigureBucket(on, pct, cap, now);
        }
      }
      Publish();
    }

    /** Disabling zeroes the bucket; enabling anchors the clock; a lowered ceiling clamps. */
    method ConfigureBucket(on: bool, pct: real, cap: int, now: int)
      modifies this`bk
      ensures bk == Configure(old(bk), on, pct, cap, now)
    {
      hide TokenBucket.Accrue;
      if !on {
        bk := bk.(on := false, pct := 0.0, drawCap := 0, pot := 0, rLive := 0, frac := 0);
      } else {
        if bk.on {
          Accrue(now);
        } else {
          bk := bk.(lastTouch := now, on := true);
        }
        bk := bk.(pct := pct, drawCap := cap);
        if bk.pot > bk.Ceiling() {
          bk := bk.(pot := bk.Ceiling(), frac := 0);
        }
      }
    }

    /** Reads that accrue first and publish nothing: Report and BurstSnapshot. */
    method BurstSnapshot(now: int) returns (pot: int, ceiling: int, live: int)
      modifies this`bk
      ensures Value() == Exec(old(Value()), Peek(now)).s
      ensures pot == bk.pot && ceiling == bk.Ceiling() && live == bk.rLive
    {
      Accrue(now);
      return bk.pot, bk.Ceiling(), bk.rLive;
    }

    method BurstBoundsOK() returns (fine: bool)
      ensures fine <==> Tokens.BurstBounds(Value())
    {
      if bk.pot < 0 || bk.pot > bk.Ceiling() || bk.rLive < 0 || bk.frac < 0 || bk.frac >= bk.Window() {
        return false;
      }
      var todo := escrows.Keys;
      while todo != {}
        invariant todo <= escrows.Keys
        invariant forall id :: id in escrows && id !in todo ==> 0 <= escrows[id].burstResv
        decreases todo
      {
        var id :| id in todo;
        if escrows[id].burstResv < 0 {
          return false;
        }
        todo := todo - {id};
      }
      return true;
    }

    /** The conservation sum the status report shows, after accruing. */
    method Report(now: int) returns (sum: int, conserved: bool)
      modifies this`bk
      ensures Value() == Exec(old(Value()), Peek(now)).s
      ensures sum == b + reservedTotal + consumed + writeOff && (conserved <==> sum == bk.b0)
    {
      if bk.on {
        Accrue(now);
      }
      sum := b + reservedTotal + consumed + writeOff;
      conserved := sum == bk.b0;
    }

    /** Re-execute one logged command through the public methods: the job commands, the
        array commands and the rest of `ApplyCommand`. */
    method ApplyJobCommand(cmd: Command) returns (err: Err)
      requires replaying && (SettlesJob(cmd) || cmd.Submit? || cmd.Start? || cmd.Reprice?)
      modifies this
      ensures Ran(Call(old(Value()), cmd, true), old(log), err)
      ensures view == if Publishes(cmd, err) then ViewOf(Value()) else old(view)
      ensures replaying && durable == old(durable)
    {
      hide Call, SettleJob, Kernel.SubmitAt, StartJob, RepriceJob, ViewOf;
      CallRuns(Value(), cmd, true);
      match cmd {
        case Submit(id, c, w, now) => err := SubmitAt(id, c, w, now, true);
        case Start(id, now) => err := Start(id, now, true);
        case Complete(id, runtime, now) => err := Complete(id, runtime, now, true);
        case Timeout(id, now) => err := Timeout(id, now, true);
        case Cancel(id, elapsed, now) => err := Cancel(id, elapsed, now, true);
        case InfraFail(id, elapsed, now) => err := InfraFail(id, elapsed, now, true);
        case Reprice(id, c, now) => err := Reprice(id, c, now, true);
      }
    }

    method ApplyArrayCommand(cmd: Command) returns (err: Err)
      requires replaying && (SettlesTask(cmd) || cmd.SubmitArray? || cmd.StartTask?)
      modifies this
      ensures Ran(Call(old(Value()), cmd, true), old(log), err)
      ensures view == if Publishes(cmd, err) then ViewOf(Value()) else old(view)
      ensures replaying && durable == old(durable)
    {
      hide Call, SettleArrayTask, Kernel.SubmitArrayAt, StartArrayTask, ViewOf;
      CallRuns(Value(), cmd, true);
      match cmd {
        case SubmitArray(id, c, n, w, now) => err := SubmitArrayAt(id, c, n, w, now, true);
        case StartTask(id, idx, now) => err := StartTask(id, idx, now, true);
        case CompleteTask(id, idx, runtime, now) => err := CompleteTask(id, idx, runtime, now, true);
        case TimeoutTask(id, idx, now) => err := TimeoutTask(id, idx, now, true);
        case CancelTask(id, idx, elapsed, now) => err := CancelTask(id, idx, elapsed, now, true);
        case InfraFailTask(id, idx, elapsed, now) => err := InfraFailTask(id, idx, elapsed, now, true);
      }
    }

    method ApplyAdminCommand(cmd: Command) returns (err: Err)
      requires replaying && Administers(cmd)
      modifies this
      ensures Ran(Call(old(Value()), cmd, true), old(log), err)
      ensures view == if Publishes(cmd, err) then ViewOf(Value()) else old(view)
      ensures replaying && durable == old(durable)
    {
      hide Call, Administer, ViewOf;
      CallRuns(Value(), cmd, true);
      match cmd {
        case Lapse => err := Lapse(true);
        case TopUp(amount, xfer, now) => err := TopUpXfer(amount, xfer, now, true);
        case Withdraw(amount, xfer, now) => err := WithdrawXfer(amount, xfer, now, true);
        case SetRate(c, now) => err := SetRate(c, now, true);
        case SetWindow(ts, te, now) => err := SetWindow(ts, te, now, true);
        case SetBurst(on, pct, cap, now) => err := SetBurst(on, pct, cap, now, true);
      }
    }

    method ApplyCommand(cmd: Command) returns (err: Err)
      requires replaying
      modifies this
      ensures Ran(Call(old(Value()), cmd, true), old(log), err)
      ensures view == if Publishes(cmd, err) then ViewOf(Value()) else old(view)
      ensures replaying && durable == old(durable)
    {
      hide Call, ViewOf, Ran;
      if Administers(cmd) {
        err := ApplyAdminCommand(cmd);
      } else if SettlesTask(cmd) || cmd.SubmitArray? || cmd.StartTask? {
        err := ApplyArrayCommand(cmd);
      } else {
        err := ApplyJobCommand(cmd);
      }
    }
  }
}
