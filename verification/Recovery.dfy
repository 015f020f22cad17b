/** Crash recovery as replay: the log, run again through the same methods, against the
    live budget that wrote it. */
module Recovery {
  import opened Arith
  import opened TokenBucket
  import opened Kernel

  datatype Recovered = Recovered(s: State) | ReplayFailed

  /** Re-execute a log; the first command that fails to apply aborts the recovery. */
  function Replay(s: State, log: seq<Command>): Recovered
    decreases |log|
  {
    if log == [] then Recovered(s)
    else
      var o := Call(s, log[0], true);
      if o.err != Ok then ReplayFailed else Replay(o.s, log[1..])
  }

  /** Bucket `l` is bucket `r` fast-forwarded to `l`'s clock. With burst off the clock is
      dead: nothing reads it until a SetBurst overwrites it. */
  ghost predicate AheadOf(l: Bucket, r: Bucket) {
    if r.on then r.lastTouch <= l.lastTouch && l == Accrue(r, l.lastTouch)
    else l == r.(lastTouch := l.lastTouch)
  }

  /** Same money, same escrows, same arrays, same configuration; the live bucket is the
      recovered one fast-forwarded. */
  ghost predicate Matches(live: State, rec: State) {
    live == rec.(bk := live.bk) && AheadOf(live.bk, rec.bk)
  }

  /** Operations that fast-forward the bucket. */
  predicate Accrues(op: Op) {
    op.Peek? || op.cmd.Start? || op.cmd.StartTask? || SettlesJob(op.cmd) || SettlesTask(op.cmd) || op.cmd.SetBurst?
  }

  function Clock(op: Op): int
    requires Accrues(op)
  {
    if op.Peek? then op.now else op.cmd.now
  }

  /** An accruing call does not come before the bucket's own clock. */
  predicate ClockOK(s: State, op: Op) {
    s.bk.on && Accrues(op) ==> s.bk.lastTouch <= Clock(op)
  }

  /** Operations that change the allocation or the window without accruing first. */
  predicate Reterms(op: Op) {
    op.Do? && (op.cmd.TopUp? || op.cmd.Withdraw? || op.cmd.SetWindow?)
  }

  /** A task settlement that was logged and then refused. */
  predicate RefusedAfterLogging(s: State, op: Op) {
    op.Do? && SettlesTask(op.cmd) && Exec(s, op).log != [] && Exec(s, op).err != Ok
  }

  /** The clock the log alone determines: the last accrual that was logged. */
  function LoggedClock(s: State, mark: int, op: Op): int {
    if Accrues(op) && Exec(s, op).log != [] then Exec(s, op).s.bk.lastTouch else mark
  }

  /** Appends succeed, the clock does not run backwards, and while burst is on the
      allocation and window change only when no unlogged accrual is outstanding. */
  predicate Safe(s: State, mark: int, ops: seq<Op>)
    decreases |ops|
  {
    ops != [] ==>
      && (ops[0].Do? ==> ops[0].ok)
      && ClockOK(s, ops[0])
      && (s.bk.on && Reterms(ops[0]) ==> s.bk.lastTouch == mark)
      && Safe(Exec(s, ops[0]).s, LoggedClock(s, mark, ops[0]), ops[1..])
  }

  predicate NoneRefused(s: State, ops: seq<Op>)
    decreases |ops|
  {
    ops != [] ==> !RefusedAfterLogging(s, ops[0]) && NoneRefused(Exec(s, ops[0]).s, ops[1..])
  }

  // ---- the bucket, step by step ----

  lemma AccrueCatchesUp(l: Bucket, r: Bucket, now: int)
    requires AheadOf(l, r) && r.on && l.lastTouch <= now
    ensures Accrue(l, now) == Accrue(r, now)
    ensures AheadOf(Accrue(l, now), r)
  {
    AccrueSplits(r, l.lastTouch, now);
  }

  lemma DispatchCatchesUp(l: Bucket, r: Bucket, c: int, w: int, now: int)
    requires AheadOf(l, r) && (r.on ==> l.lastTouch <= now)
    ensures
      var gl, gr := Dispatch(l, c, w, now, true), Dispatch(r, c, w, now, true);
      && gl.err == gr.err && gl.resv == gr.resv
      && AheadOf(gl.bk, if gl.err == Ok then gr.bk else r)
      && (r.on && gl.err == Ok ==> gl.bk == gr.bk)
  {
    if r.on {
      AccrueCatchesUp(l, r, now);
    }
    hide Accrue, ReserveForRate;
  }

  lemma ReleaseCatchesUp(l: Bucket, r: Bucket, c: int, w: int, started: bool, resv: int, runtime: int, now: int)
    requires AheadOf(l, r) && (r.on ==> l.lastTouch <= now)
    ensures
      var bl, br := Release(l, c, w, started, resv, runtime, now), Release(r, c, w, started, resv, runtime, now);
      AheadOf(bl, br) && (r.on ==> bl == br && bl.lastTouch == now)
  {
    if r.on {
      AccrueCatchesUp(l, r, now);
      assert Accrue(l, now).lastTouch == now;
    }
    hide Accrue;
  }

  lemma ConfigureCatchesUp(l: Bucket, r: Bucket, on: bool, pct: real, cap: int, now: int)
    requires AheadOf(l, r) && (r.on ==> l.lastTouch <= now)
    ensures
      var bl, br := Configure(l, on, pct, cap, now), Configure(r, on, pct, cap, now);
      AheadOf(bl, br) && (on ==> bl == br)
  {
    if r.on {
      AccrueCatchesUp(l, r, now);
    }
    hide Accrue;
  }

  // ---- one operation ----

  /** What one live operation and its replay owe each other. */
  ghost predicate StepMatches(o: Outcome, live: State, rec: State, mark: int, op: Op) {
    if o.log == [] then
      Matches(o.s, rec) && (rec.bk.on ==> LoggedClock(live, mark, op) == mark)
    else
      var r := Call(rec, o.log[0], true);
      && |o.log| == 1
      && (r.err == Ok <==> o.err == Ok)
      && (o.err != Ok ==> RefusedAfterLogging(live, op))
      && (o.err == Ok ==>
            && Matches(o.s, r.s)
            && (r.s.bk.on ==> r.s.bk.lastTouch == LoggedClock(live, mark, op)))
  }

  /** The recovered budget before the step: it matches, and its clock is the logged one. */
  ghost predicate InStep(live: State, rec: State, mark: int) {
    Matches(live, rec) && (rec.bk.on ==> rec.bk.lastTouch == mark)
  }

  lemma StartStep(live: State, rec: State, mark: int, id: Id, now: int)
    requires InStep(live, rec, mark) && ClockOK(live, Do(Start(id, now), true))
    ensures StepMatches(Exec(live, Do(Start(id, now), true)), live, rec, mark, Do(Start(id, now), true))
  {
    hide Dispatch, Accrue;
    if id in live.escrows {
      DispatchCatchesUp(live.bk, rec.bk, live.escrows[id].c, live.escrows[id].w, now);
    }
  }

  lemma StartTaskStep(live: State, rec: State, mark: int, id: Id, idx: int, now: int)
    requires InStep(live, rec, mark) && ClockOK(live, Do(StartTask(id, idx, now), true))
    ensures StepMatches(Exec(live, Do(StartTask(id, idx, now), true)), live, rec, mark, Do(StartTask(id, idx, now), true))
  {
    hide Dispatch, Accrue;
    if id in live.arrays {
      DispatchCatchesUp(live.bk, rec.bk, live.arrays[id].c, live.arrays[id].w, now);
    }
  }

  /** A settlement treats the money and the bucket separately. */
  lemma SettleSplits(s: State, rb: Bucket, id: Id, runtime: int, writeOff: bool, now: int, log: seq<Command>)
    requires id in s.escrows
    ensures
      var e := s.escrows[id];
      var o := Settle(s, id, runtime, writeOff, now, log);
      && o.err == Ok && o.log == log
      && o.s.bk == Release(s.bk, e.c, e.w, e.started, e.burstResv, Arith.Clamp(runtime, e.w), now)
      && Settle(s.(bk := rb), id, runtime, writeOff, now, log)
         == Outcome(o.s.(bk := Release(rb, e.c, e.w, e.started, e.burstResv, Arith.Clamp(runtime, e.w), now)), Ok, log)
  {
    hide Release;
  }

  lemma SettleTaskSplits(s: State, rb: Bucket, id: Id, idx: int, runtime: int, writeOff: bool, now: int, log: seq<Command>)
    ensures
      var o := SettleTask(s, id, idx, runtime, writeOff, now, log);
      var o' := SettleTask(s.(bk := rb), id, idx, runtime, writeOff, now, log);
      && o.log == log && o'.log == log && o'.err == o.err
      && (!HasTask(s, id, idx) || s.arrays[id].tasks[idx].settled ==> o.err != Ok && o.s == s && o'.s == s.(bk := rb))
      && (HasTask(s, id, idx) && !s.arrays[id].tasks[idx].settled ==>
            var a := s.arrays[id];
            var t := a.tasks[idx];
            var r := Arith.Clamp(runtime, a.w);
            && o.s.bk == Release(s.bk, a.c, a.w, t.started, t.burstResv, r, now)
            && o'.s == o.s.(bk := Release(rb, a.c, a.w, t.started, t.burstResv, r, now)))
  {
    hide Release;
  }

  lemma SettleStep(live: State, rec: State, mark: int, cmd: Command)
    requires InStep(live, rec, mark) && ClockOK(live, Do(cmd, true)) && SettlesJob(cmd)
    ensures StepMatches(Exec(live, Do(cmd, true)), live, rec, mark, Do(cmd, true))
  {
    hide Release, Accrue, Settle, Arith.Clamp;
    if cmd.id in live.escrows {
      var e := live.escrows[cmd.id];
      var r := JobRuntime(e, cmd);
      ReleaseCatchesUp(live.bk, rec.bk, e.c, e.w, e.started, e.burstResv, Arith.Clamp(r, e.w), cmd.now);
      SettleSplits(live, rec.bk, cmd.id, r, cmd.InfraFail? && !live.billInfra, cmd.now, [cmd]);
      assert rec == live.(bk := rec.bk);
    }
  }

  lemma SettleTaskStep(live: State, rec: State, mark: int, cmd: Command)
    requires InStep(live, rec, mark) && ClockOK(live, Do(cmd, true)) && SettlesTask(cmd)
    ensures StepMatches(Exec(live, Do(cmd, true)), live, rec, mark, Do(cmd, true))
  {
    hide Release, Accrue, SettleTask, Arith.Clamp;
    assert rec == live.(bk := rec.bk);
    if TaskLogged(live, cmd) {
      SettleTaskSplits(live, rec.bk, cmd.id, cmd.idx, TaskRuntime(live, cmd),
                       cmd.InfraFailTask? && !live.billInfra, cmd.now, [cmd]);
      if HasTask(live, cmd.id, cmd.idx) {
        var a := live.arrays[cmd.id];
        var t := a.tasks[cmd.idx];
        ReleaseCatchesUp(live.bk, rec.bk, a.c, a.w, t.started, t.burstResv,
                         Arith.Clamp(TaskRuntime(live, cmd), a.w), cmd.now);
      }
    }
  }

  lemma AdminStep(live: State, rec: State, mark: int, cmd: Command)
    requires InStep(live, rec, mark) && ClockOK(live, Do(cmd, true)) && Administers(cmd)
    requires live.bk.on && Reterms(Do(cmd, true)) ==> live.bk.lastTouch == mark
    ensures StepMatches(Exec(live, Do(cmd, true)), live, rec, mark, Do(cmd, true))
  {
    if cmd.SetBurst? {
      ConfigureCatchesUp(live.bk, rec.bk, cmd.on, cmd.pct, cmd.cap, cmd.now);
      hide Configure;
    } else if live.bk.on && Reterms(Do(cmd, true)) {
      assert live.bk == rec.bk;
    }
    hide Accrue;
  }

  lemma SubmitStep(live: State, rec: State, mark: int, cmd: Command)
    requires InStep(live, rec, mark) && cmd.Submit?
    ensures StepMatches(Exec(live, Do(cmd, true)), live, rec, mark, Do(cmd, true))
  {
    hide Accrue;
    assert Rate(rec, Rate(live, cmd.c)) == Rate(live, cmd.c);
  }

  lemma SubmitArrayStep(live: State, rec: State, mark: int, cmd: Command)
    requires InStep(live, rec, mark) && cmd.SubmitArray?
    ensures StepMatches(Exec(live, Do(cmd, true)), live, rec, mark, Do(cmd, true))
  {
    hide Accrue;
    assert Rate(rec, Rate(live, cmd.c)) == Rate(live, cmd.c);
  }

  lemma RepriceStep(live: State, rec: State, mark: int, cmd: Command)
    requires InStep(live, rec, mark) && cmd.Reprice?
    ensures StepMatches(Exec(live, Do(cmd, true)), live, rec, mark, Do(cmd, true))
  {
    hide Accrue;
  }

  lemma Step(live: State, rec: State, mark: int, op: Op)
    requires InStep(live, rec, mark) && ClockOK(live, op) && (op.Do? ==> op.ok)
    requires live.bk.on && Reterms(op) ==> live.bk.lastTouch == mark
    ensures StepMatches(Exec(live, op), live, rec, mark, op)
  {
    if op.Peek? {
      if rec.bk.on {
        AccrueCatchesUp(live.bk, rec.bk, op.now);
      }
    } else if SettlesTask(op.cmd) {
      SettleTaskStep(live, rec, mark, op.cmd);
    } else if SettlesJob(op.cmd) {
      SettleStep(live, rec, mark, op.cmd);
    } else if Administers(op.cmd) {
      AdminStep(live, rec, mark, op.cmd);
    } else if op.cmd.Start? {
      StartStep(live, rec, mark, op.cmd.id, op.cmd.now);
    } else if op.cmd.StartTask? {
      StartTaskStep(live, rec, mark, op.cmd.id, op.cmd.idx, op.cmd.now);
    } else if op.cmd.Submit? {
      SubmitStep(live, rec, mark, op.cmd);
    } else if op.cmd.SubmitArray? {
      SubmitArrayStep(live, rec, mark, op.cmd);
    } else {
      RepriceStep(live, rec, mark, op.cmd);
    }
    hide *;
  }

  // ---- whole runs ----

  /** Replaying the log of any safe run accepts every command if and only if no task
      settlement was logged and then refused; and then the recovered budget has the live
      money, escrows, arrays and configuration, with the live bucket a fast-forward of the
      recovered one, however many unlogged accruals happened in between. */
  lemma {:induction false} ReplayMatchesIff(live: State, rec: State, mark: int, ops: seq<Op>)
    requires InStep(live, rec, mark) && Safe(live, mark, ops)
    ensures Replay(rec, Run(live, ops).log).Recovered? <==> NoneRefused(live, ops)
    ensures NoneRefused(live, ops) ==> Matches(Run(live, ops).s, Replay(rec, Run(live, ops).log).s)
    decreases |ops|
  {
    if ops != [] {
      var o := Exec(live, ops[0]);
      Step(live, rec, mark, ops[0]);
      var rest := Run(o.s, ops[1..]);
      if o.log == [] {
        assert o.log + rest.log == rest.log;
        assert !RefusedAfterLogging(live, ops[0]);
        ReplayMatchesIff(o.s, rec, LoggedClock(live, mark, ops[0]), ops[1..]);
      } else {
        assert (o.log + rest.log)[0] == o.log[0] && (o.log + rest.log)[1..] == rest.log;
        if o.err == Ok {
          assert !RefusedAfterLogging(live, ops[0]);
          ReplayMatchesIff(o.s, Call(rec, o.log[0], true).s, LoggedClock(live, mark, ops[0]), ops[1..]);
        }
      }
      hide Exec, Call, Matches;
    }
  }

  /** From creation. */
  lemma RecoveryMatchesLive(s: State, ops: seq<Op>)
    requires Safe(s, s.bk.lastTouch, ops)
    ensures Replay(s, Run(s, ops).log).Recovered? <==> NoneRefused(s, ops)
    ensures NoneRefused(s, ops) ==> Matches(Run(s, ops).s, Replay(s, Run(s, ops).log).s)
  {
    ReplayMatchesIff(s, s, s.bk.lastTouch, ops);
  }

  /** Any later accrual makes the two buckets equal. */
  lemma MatchesConverge(live: State, rec: State, now: int)
    requires Matches(live, rec) && live.bk.on && live.bk.lastTouch <= now
    ensures live.(bk := Accrue(live.bk, now)) == rec.(bk := Accrue(rec.bk, now))
  {
    AccrueCatchesUp(live.bk, rec.bk, now);
  }

  // ---- burst off throughout ----

  /** Appends succeed and burst is never enabled. */
  predicate Plain(op: Op) {
    op.Do? ==> op.ok && !(op.cmd.SetBurst? && op.cmd.on)
  }

  lemma SettleKeepsClock(s: State, cmd: Command, ok: bool)
    requires !s.bk.on
    ensures SettlesJob(cmd) ==> SameTerms(SettleJob(s, cmd, ok).s.bk, s.bk) && SettleJob(s, cmd, ok).s.bk.lastTouch == s.bk.lastTouch
    ensures SettlesTask(cmd) ==>
      SameTerms(SettleArrayTask(s, cmd, ok).s.bk, s.bk) && SettleArrayTask(s, cmd, ok).s.bk.lastTouch == s.bk.lastTouch
  {
    hide Release, JobRuntime, TaskRuntime, Clamp;
  }

  lemma AdminKeepsClock(s: State, cmd: Command, ok: bool)
    requires !s.bk.on && Administers(cmd) && Plain(Do(cmd, ok))
    ensures !Administer(s, cmd, ok).s.bk.on && Administer(s, cmd, ok).s.bk.lastTouch == s.bk.lastTouch
  {
    hide Accrue;
  }

  lemma AdmissionKeepsClock(s: State, cmd: Command, ok: bool)
    requires !s.bk.on
    requires cmd.Submit? || cmd.SubmitArray? || cmd.Start? || cmd.StartTask? || cmd.Reprice?
    ensures !Call(s, cmd, ok).s.bk.on && Call(s, cmd, ok).s.bk.lastTouch == s.bk.lastTouch
  {
    hide Dispatch, RateOK;
  }

  lemma PlainKeepsClock(s: State, op: Op)
    requires !s.bk.on && Plain(op)
    ensures !Exec(s, op).s.bk.on && Exec(s, op).s.bk.lastTouch == s.bk.lastTouch
  {
    hide SettleJob, SettleArrayTask, Administer;
    if op.Do? {
      SettleKeepsClock(s, op.cmd, op.ok);
      if Administers(op.cmd) {
        AdminKeepsClock(s, op.cmd, op.ok);
      } else if !SettlesJob(op.cmd) && !SettlesTask(op.cmd) {
        AdmissionKeepsClock(s, op.cmd, op.ok);
      }
    }
  }

  lemma PlainStep(s: State, op: Op)
    requires !s.bk.on && Plain(op)
    ensures
      var o := Exec(s, op);
      && (o.log == [] ==> o.s == s && !RefusedAfterLogging(s, op))
      && (o.log != [] ==>
            && |o.log| == 1
            && (Call(s, o.log[0], true).err == Ok <==> o.err == Ok)
            && (RefusedAfterLogging(s, op) <==> o.err != Ok)
            && (o.err == Ok ==> Call(s, o.log[0], true).s == o.s))
  {
    hide Call, Accrue;
    var o := Exec(s, op);
    Step(s, s, s.bk.lastTouch, op);
    PlainKeepsClock(s, op);
    if o.log != [] && o.err == Ok {
      CallLogsItself(s, op.cmd, op.ok);
      PlainKeepsClock(s, Do(o.log[0], true));
    }
  }

  /** With burst off throughout and appends succeeding, replay from creation ends in
      exactly the live state if and only if no task settlement was logged and refused. */
  lemma {:induction false} PlainReplayIsExact(s: State, ops: seq<Op>)
    requires !s.bk.on && forall i :: 0 <= i < |ops| ==> Plain(ops[i])
    ensures Replay(s, Run(s, ops).log) == Recovered(Run(s, ops).s) <==> NoneRefused(s, ops)
    ensures Replay(s, Run(s, ops).log).Recovered? ==> NoneRefused(s, ops)
    decreases |ops|
  {
    if ops != [] {
      var o := Exec(s, ops[0]);
      var rest := Run(o.s, ops[1..]);
      PlainStep(s, ops[0]);
      PlainKeepsClock(s, ops[0]);
      PlainReplayIsExact(o.s, ops[1..]);
      if o.log == [] {
        assert o.log + rest.log == rest.log;
      } else {
        assert (o.log + rest.log)[0] == o.log[0] && (o.log + rest.log)[1..] == rest.log;
      }
      hide Call, Accrue, Exec, RefusedAfterLogging;
    }
  }

  // ---- recovering from a snapshot ----

  /** The bucket's clock does not go back, and burst is only turned on by a logged accrual. */
  predicate Touches(s: State, cmd: Command, o: Outcome) {
    && (s.bk.on && o.s.bk.on ==> s.bk.lastTouch <= o.s.bk.lastTouch)
    && (!s.bk.on && o.s.bk.on ==> Accrues(Do(cmd, true)) && o.log != [])
  }

  lemma SettleTouches(s: State, cmd: Command)
    requires ClockOK(s, Do(cmd, true))
    ensures SettlesJob(cmd) ==> Touches(s, cmd, SettleJob(s, cmd, true))
    ensures SettlesTask(cmd) ==> Touches(s, cmd, SettleArrayTask(s, cmd, true))
  {
    hide Release, JobRuntime, TaskRuntime, Clamp;
  }

  lemma AdminTouches(s: State, cmd: Command)
    requires ClockOK(s, Do(cmd, true)) && Administers(cmd)
    ensures Touches(s, cmd, Administer(s, cmd, true))
  {
    hide Accrue;
  }

  lemma AdmissionTouches(s: State, cmd: Command)
    requires ClockOK(s, Do(cmd, true))
    requires cmd.Submit? || cmd.SubmitArray? || cmd.Start? || cmd.StartTask? || cmd.Reprice?
    ensures Touches(s, cmd, Call(s, cmd, true))
  {
    hide Dispatch, RateOK;
  }

  lemma TouchMoves(s: State, op: Op)
    requires ClockOK(s, op) && (op.Do? ==> op.ok)
    ensures
      var o := Exec(s, op);
      && (s.bk.on && o.s.bk.on ==> s.bk.lastTouch <= o.s.bk.lastTouch)
      && (!s.bk.on && o.s.bk.on ==> Accrues(op) && o.log != [])
  {
    hide SettleJob, SettleArrayTask, Administer, Accrue;
    if op.Do? {
      SettleTouches(s, op.cmd);
      if Administers(op.cmd) {
        AdminTouches(s, op.cmd);
      } else if !SettlesJob(op.cmd) && !SettlesTask(op.cmd) {
        AdmissionTouches(s, op.cmd);
      }
    }
  }

  /** A run that is safe for the log is safe for a later starting point of the replay. */
  lemma {:induction false} SafeFromLaterMark(s: State, mark: int, mark': int, ops: seq<Op>)
    requires Safe(s, mark, ops) && (s.bk.on ==> mark <= mark' <= s.bk.lastTouch)
    ensures Safe(s, mark', ops)
    decreases |ops|
  {
    if ops != [] {
      TouchMoves(s, ops[0]);
      hide Exec;
      SafeFromLaterMark(Exec(s, ops[0]).s, LoggedClock(s, mark, ops[0]), LoggedClock(s, mark', ops[0]), ops[1..]);
    }
  }

  lemma {:induction false} SafeSplits(s: State, mark: int, ops1: seq<Op>, ops2: seq<Op>)
    requires Safe(s, mark, ops1 + ops2) && (s.bk.on ==> mark <= s.bk.lastTouch)
    ensures Safe(s, mark, ops1)
    ensures Safe(Run(s, ops1).s, Run(s, ops1).s.bk.lastTouch, ops2)
    ensures NoneRefused(s, ops1 + ops2) ==> NoneRefused(s, ops1) && NoneRefused(Run(s, ops1).s, ops2)
    decreases |ops1|
  {
    if ops1 == [] {
      assert ops1 + ops2 == ops2;
      SafeFromLaterMark(s, mark, s.bk.lastTouch, ops2);
    } else {
      assert (ops1 + ops2)[0] == ops1[0] && (ops1 + ops2)[1..] == ops1[1..] + ops2;
      TouchMoves(s, ops1[0]);
      hide Exec;
      SafeSplits(Exec(s, ops1[0]).s, LoggedClock(s, mark, ops1[0]), ops1[1..], ops2);
    }
  }

  /** A snapshot of the live state taken mid-run, plus the log written after it, recovers
      the same budget as the whole log from creation: both match the live end state. */
  lemma SnapshotRecovers(s: State, ops1: seq<Op>, ops2: seq<Op>)
    requires Safe(s, s.bk.lastTouch, ops1 + ops2) && NoneRefused(s, ops1 + ops2)
    ensures
      var t1 := Run(s, ops1);
      var t2 := Run(t1.s, ops2);
      && Replay(s, t1.log + t2.log).Recovered? && Replay(t1.s, t2.log).Recovered?
      && Matches(t2.s, Replay(s, t1.log + t2.log).s) && Matches(t2.s, Replay(t1.s, t2.log).s)
  {
    var t1 := Run(s, ops1);
    RunConcat(s, ops1, ops2);
    SafeSplits(s, s.bk.lastTouch, ops1, ops2);
    RecoveryMatchesLive(s, ops1 + ops2);
    RecoveryMatchesLive(t1.s, ops2);
    hide Matches, Replay;
  }

  /** Budgets that match the same live state agree on everything but how far their bucket
      has been fast-forwarded, and agree on that too at the next accrual. */
  lemma MatchesAgree(live: State, a: State, b: State, now: int)
    requires Matches(live, a) && Matches(live, b)
    ensures a == b.(bk := a.bk) && a.bk.on == b.bk.on
    ensures a.bk.on && live.bk.lastTouch <= now ==> Accrue(a.bk, now) == Accrue(b.bk, now)
    ensures !a.bk.on ==> a.bk == b.bk.(lastTouch := a.bk.lastTouch)
  {
    if a.bk.on && live.bk.lastTouch <= now {
      AccrueCatchesUp(live.bk, a.bk, now);
      AccrueCatchesUp(live.bk, b.bk, now);
    }
  }

  // ---- what the conditions are for ----

  lemma RunTwo(s: State, op1: Op, op2: Op)
    ensures
      var o1 := Exec(s, op1);
      var o2 := Exec(o1.s, op2);
      Run(s, [op1, op2]) == Trace(o2.s, o1.log + o2.log)
  {
    hide Exec;
    assert [op1, op2][1..] == [op2];
    RunOne(Exec(s, op1).s, op2);
  }

  /** Accrual to `now` banks up to the ceiling. */
  predicate Reaches(b: Bucket, now: int) {
    Banks(b, now) && Accrue(b, now).pot == b.Ceiling()
  }

  /** Two buckets that accrue to the same pot and remainder. */
  predicate SameTokens(a: Bucket, b: Bucket, now: int) {
    Accrue(a, now).pot == Accrue(b, now).pot && Accrue(a, now).frac == Accrue(b, now).frac
  }

  /** Exactly `x` tokens and no remainder. */
  predicate Holds(b: Bucket, x: int) {
    b.pot == x && b.frac == 0
  }

  lemma ReachedIsFull(b: Bucket, now: int)
    ensures Reaches(b, now) ==> Holds(Accrue(b, now), b.Ceiling())
  {
  }

  /** Changing the terms of two buckets that accrue alike: if both reach their ceilings they
      agree exactly when the ceilings are equal; if one does, exactly when the other stops at
      that ceiling. */
  lemma ReachingTokens(a: Bucket, b: Bucket, now: int)
    ensures Reaches(a, now) && Reaches(b, now) ==> (SameTokens(a, b, now) <==> a.Ceiling() == b.Ceiling())
    ensures Reaches(a, now) && !Reaches(b, now) ==> (SameTokens(a, b, now) <==> Holds(Accrue(b, now), a.Ceiling()))
    ensures !Reaches(a, now) && Reaches(b, now) ==> (SameTokens(a, b, now) <==> Holds(Accrue(a, now), b.Ceiling()))
  {
    ReachedIsFull(a, now);
    ReachedIsFull(b, now);
    hide Accrue, Banks;
  }

  lemma BankedTotal(b: Bucket, now: int)
    requires b.on && b.lastTouch < now && !Reaches(b, now)
    ensures
      var a := Accrue(b, now);
      && a.pot * b.Window() + a.frac == b.pot * b.Window() + b.frac + Max(Unused(b), 0) * (now - b.lastTouch)
      && (0 < Unused(b) ==> 0 <= a.frac < b.Window())
  {
    if 0 < Unused(b) {
      assert 0 <= Unused(b) * (now - b.lastTouch);
      AccrueIsExact(b, now);
    }
  }

  lemma MulStrict(x: int, y: int, d: int)
    requires 0 < d
    ensures x < y ==> x * d < y * d
  {
    if x < y {
      assert 0 < (y - x) * d;
    }
  }

  lemma DistinctProducts(x: int, y: int, d: int)
    requires x != y && 0 < d
    ensures x * d != y * d
  {
    MulStrict(x, y, d);
    MulStrict(y, x, d);
  }

  lemma AllocationTokens(rec: Bucket, t: int, d: int)
    requires rec.on && rec.lastTouch <= t && d != 0
    requires !Reaches(rec, t) && !Reaches(rec.(b0 := rec.b0 + d), t)
    ensures SameTokens(rec, rec.(b0 := rec.b0 + d), t)
            <==> t == rec.lastTouch || (Unused(rec) <= 0 && Unused(rec.(b0 := rec.b0 + d)) <= 0)
  {
    var rec' := rec.(b0 := rec.b0 + d);
    var u, dt, T := Unused(rec), t - rec.lastTouch, rec.Window();
    assert Unused(rec') == u + d && rec'.Window() == T;
    if 0 < dt && (0 < u || 0 < u + d) {
      var live, replayed := Accrue(rec, t), Accrue(rec', t);
      BankedTotal(rec, t);
      BankedTotal(rec', t);
      assert live.pot * T + live.frac == rec.pot * T + rec.frac + Max(u, 0) * dt;
      assert replayed.pot * T + replayed.frac == rec.pot * T + rec.frac + Max(u + d, 0) * dt;
      DistinctProducts(Max(u, 0), Max(u + d, 0), dt);
      hide Accrue, Reaches;
    }
  }

  /** With time accrued up to `t` but not logged, raising or lowering the allocation by `d` keeps
      the bucket recoverable exactly as follows. Short of the ceilings: no such time is
      outstanding, or the burn leaves nothing to bank before and after the change. At them: the
      two ceilings are equal, or the one bucket stops exactly at the other's ceiling. */
  lemma RetermMatchesIff(rec: Bucket, t: int, d: int)
    requires rec.on && rec.lastTouch <= t && d != 0
    ensures
      var live, rec' := Accrue(rec, t), rec.(b0 := rec.b0 + d);
      var matches := AheadOf(live.(b0 := live.b0 + d), rec');
      && (!Reaches(rec, t) && !Reaches(rec', t) ==>
            (matches <==> t == rec.lastTouch || (Unused(rec) <= 0 && Unused(rec') <= 0)))
      && (Reaches(rec, t) && Reaches(rec', t) ==> (matches <==> rec.Ceiling() == rec'.Ceiling()))
      && (Reaches(rec, t) && !Reaches(rec', t) ==> (matches <==> Holds(Accrue(rec', t), rec.Ceiling())))
      && (!Reaches(rec, t) && Reaches(rec', t) ==> (matches <==> Holds(live, rec'.Ceiling())))
  {
    var rec' := rec.(b0 := rec.b0 + d);
    var live := Accrue(rec, t);
    assert AheadOf(live.(b0 := live.b0 + d), rec') <==> SameTokens(rec, rec', t);
    ReachingTokens(rec, rec', t);
    if !Reaches(rec, t) && !Reaches(rec', t) {
      AllocationTokens(rec, t, d);
    }
    hide Accrue, Reaches;
  }

  lemma Deposit(b: Bucket, now: int)
    requires b.on && b.lastTouch < now && 0 < Unused(b) && !Reaches(b, now)
    ensures
      var acc := b.frac + Unused(b) * (now - b.lastTouch);
      Accrue(b, now).pot == b.pot + acc / b.Window() && Accrue(b, now).frac == acc % b.Window()
  {
    assert 0 <= Unused(b) * (now - b.lastTouch);
  }

  lemma UnusedGap(b0: int, r: int, dt: int, T: int, T': int)
    ensures (b0 - r * T) * dt - (b0 - r * T') * dt == r * dt * (T' - T)
  {
  }

  lemma QuotientForced(q: int, T: int, T': int, burn: int)
    requires 0 <= q && 0 <= burn && T != T' && q * T - q * T' == burn * (T' - T)
    ensures q == 0 && burn == 0
  {
    var d := T - T';
    assert q * T - q * T' == q * d && burn * (T' - T) == -(burn * d);
    assert q * d + burn * d == (q + burn) * d;
    if 0 < q + burn {
      if 0 < d {
        MulMono(1, d, q + burn);
      } else {
        MulMono(1, -d, q + burn);
      }
    }
  }

  /** Sums that differ by `burn` for every unit of window agree in quotient and remainder only
      when nothing burns and both quotients are 0. */
  lemma SameQuotients(acc: int, acc': int, T: int, T': int, burn: int)
    requires 0 <= acc && 0 <= acc' && 0 < T && 0 < T' && T != T' && 0 <= burn
    requires acc - acc' == burn * (T' - T)
    ensures acc / T == acc' / T' && acc % T == acc' % T'
            <==> burn == 0 && acc < T && acc' < T'
  {
    var q, q', r, r' := acc / T, acc' / T', acc % T, acc' % T';
    assert acc == q * T + r && acc' == q' * T' + r';
    DivMonotone(0, acc, T);
    if q == q' && r == r' {
      QuotientForced(q, T, T', burn);
    }
    if burn == 0 && acc < T && acc' < T' {
      DivModUnique(acc, T, 0, acc);
      DivModUnique(acc', T', 0, acc');
    }
  }

  lemma ZeroProduct(x: int, d: int)
    requires 0 <= x && 0 < d
    ensures 0 <= x * d && (x * d == 0 <==> x == 0)
  {
    MulMono(1, d, x);
  }

  /** Two window lengths, both banking and both short of the ceiling. */
  lemma BothBank(rec: Bucket, t: int, ts: int, te: int)
    requires rec.on && rec.lastTouch < t && ts < te && 0 <= rec.rLive && rec.Window() != te - ts
    requires 0 < Unused(rec) && 0 < Unused(rec.(ts := ts, te := te))
    requires !Reaches(rec, t) && !Reaches(rec.(ts := ts, te := te), t)
    ensures SameTokens(rec, rec.(ts := ts, te := te), t)
            <==> rec.rLive == 0 && rec.frac + rec.b0 * (t - rec.lastTouch) < Min(rec.Window(), te - ts)
  {
    var rec' := rec.(ts := ts, te := te);
    var dt, T, T' := t - rec.lastTouch, rec.Window(), te - ts;
    var acc, acc' := rec.frac + Unused(rec) * dt, rec.frac + Unused(rec') * dt;
    assert 0 <= Unused(rec) * dt && 0 <= Unused(rec') * dt;
    Deposit(rec, t);
    Deposit(rec', t);
    UnusedGap(rec.b0, rec.rLive, dt, T, T');
    hide Unused;
    SameQuotients(acc, acc', T, T', rec.rLive * dt);
    ZeroProduct(rec.rLive, dt);
    hide Reaches, Accrue;
  }

  lemma MovesWhenBanking(b: Bucket, now: int)
    requires b.on && b.lastTouch < now && !Reaches(b, now)
    ensures Accrue(b, now).pot == b.pot && Accrue(b, now).frac == b.frac <==> Unused(b) <= 0
  {
    if 0 < Unused(b) {
      BankedTotal(b, now);
      assert 0 < Unused(b) * (now - b.lastTouch);
      hide Accrue;
    }
  }

  lemma UnusedWithoutBurn(b: Bucket)
    requires b.rLive == 0
    ensures Unused(b) == b.b0
  {
  }

  lemma SameLengthTokens(rec: Bucket, t: int, ts: int, te: int)
    requires ts < te && rec.lastTouch <= t && (rec.Window() == te - ts || t == rec.lastTouch)
    ensures SameTokens(rec, rec.(ts := ts, te := te), t)
  {
  }

  lemma WindowTokens(rec: Bucket, t: int, ts: int, te: int)
    requires rec.on && rec.lastTouch <= t && ts < te && 0 <= rec.rLive
    requires !Reaches(rec, t) && !Reaches(rec.(ts := ts, te := te), t)
    ensures SameTokens(rec, rec.(ts := ts, te := te), t)
            <==> || rec.Window() == te - ts || t == rec.lastTouch
                 || (Unused(rec) <= 0 && Unused(rec.(ts := ts, te := te)) <= 0)
                 || (rec.rLive == 0 && rec.frac + rec.b0 * (t - rec.lastTouch) < Min(rec.Window(), te - ts))
  {
    var rec' := rec.(ts := ts, te := te);
    hide Reaches, Banks, Unused;
    if rec.lastTouch < t && rec.Window() != te - ts {
      MovesWhenBanking(rec, t);
      MovesWhenBanking(rec', t);
      if 0 < Unused(rec) && 0 < Unused(rec') {
        BothBank(rec, t, ts, te);
      } else if rec.rLive == 0 {
        UnusedWithoutBurn(rec);
        UnusedWithoutBurn(rec');
      }
      hide Accrue;
    } else {
      SameLengthTokens(rec, t, ts, te);
    }
  }

  /** The same for a change of the window. It always matches when the window only moves. A
      window of another length matches short of the ceilings exactly when no unlogged time is
      outstanding, nothing banks before or after, or an idle bucket has not banked one whole
      token; and always when both lengths reach the ceiling. */
  lemma WindowMatchesIff(rec: Bucket, t: int, ts: int, te: int)
    requires rec.on && rec.lastTouch <= t && ts < te && 0 <= rec.rLive
    ensures
      var live, rec' := Accrue(rec, t), rec.(ts := ts, te := te);
      var matches := AheadOf(live.(ts := ts, te := te), rec');
      var T, T' := rec.Window(), te - ts;
      && (!Reaches(rec, t) && !Reaches(rec', t) ==>
            (matches <==>
             || T == T' || t == rec.lastTouch || (Unused(rec) <= 0 && Unused(rec') <= 0)
             || (rec.rLive == 0 && rec.frac + rec.b0 * (t - rec.lastTouch) < Min(T, T'))))
      && (Reaches(rec, t) && Reaches(rec', t) ==> matches)
      && (Reaches(rec, t) && !Reaches(rec', t) ==> (matches <==> Holds(Accrue(rec', t), rec.Ceiling())))
      && (!Reaches(rec, t) && Reaches(rec', t) ==> (matches <==> Holds(live, rec'.Ceiling())))
  {
    var rec' := rec.(ts := ts, te := te);
    var live := Accrue(rec, t);
    assert AheadOf(live.(ts := ts, te := te), rec') <==> SameTokens(rec, rec', t);
    ReachingTokens(rec, rec', t);
    if !Reaches(rec, t) && !Reaches(rec', t) {
      WindowTokens(rec, t, ts, te);
    }
    hide Accrue, Reaches;
  }

  /** A Report followed by a shorter window: the live budget banked the interval at the old
      pace, the replay banks it at the new one. */
  lemma WindowAfterReportDiverges(s: State, report: int, end: int, later: int)
    requires ExampleBucket(s.bk) && report == 60 && end == 60 && later == 61
    ensures
      var t := Run(s, [Peek(report), Do(SetWindow(10, end, report), true)]);
      var r := Replay(s, t.log);
      && r.Recovered? && !Matches(t.s, r.s)
      && Accrue(t.s.bk, later).pot == 52 && Accrue(r.s.bk, later).pot == 100
  {
    var op := Do(SetWindow(10, end, report), true);
    RunTwo(s, Peek(report), op);
    var s1 := Exec(s, Peek(report)).s;
    assert s1.bk == s.bk.(pot := 50, lastTouch := report);
    var live := Exec(s1, op).s;
    assert live.bk == s1.bk.(te := end);
    var log := Run(s, [Peek(report), op]).log;
    assert log == [op.cmd];
    var rec := Call(s, op.cmd, true).s;
    assert rec.bk == s.bk.(te := end);
    assert Replay(s, log) == Recovered(rec) by {
      assert log[1..] == [];
    }
    assert Accrue(live.bk, later).pot == 52 && Accrue(rec.bk, later).pot == 100;
    if Matches(live, rec) {
      MatchesConverge(live, rec, later);
    }
  }

  /** A Report followed by a TopUp: the live budget banked the interval at the old
      allocation, the replay banks it at the new one. */
  lemma TopUpAfterReportDiverges(s: State, report: int, topUp: int, later: int)
    requires ExampleBucket(s.bk) && report == 60 && topUp == 100 && later == 70
    ensures
      var t := Run(s, [Peek(report), Do(TopUp(topUp, "", report), true)]);
      var r := Replay(s, t.log);
      && r.Recovered? && !Matches(t.s, r.s)
      && Accrue(t.s.bk, later).pot == 70 && Accrue(r.s.bk, later).pot == 120
  {
    var op := Do(TopUp(topUp, "", report), true);
    RunTwo(s, Peek(report), op);
    var s1 := Exec(s, Peek(report)).s;
    assert s1.bk == s.bk.(pot := 50, lastTouch := report);
    var live := Exec(s1, op).s;
    assert live.bk == s1.bk.(b0 := 200);
    var log := Run(s, [Peek(report), op]).log;
    assert log == [op.cmd];
    var rec := Call(s, op.cmd, true).s;
    assert rec.bk == s.bk.(b0 := 200);
    assert Replay(s, log) == Recovered(rec) by {
      assert log[1..] == [];
    }
    assert Accrue(live.bk, later).pot == 70 && Accrue(rec.bk, later).pot == 120;
    if Matches(live, rec) {
      MatchesConverge(live, rec, later);
    }
  }

  /** The bucket's clock starts at the window start, so a Report before the window opens
      rolls it back and the live budget banks time the replay never sees. */
  lemma ReportBeforeWindowDiverges(s: State, report: int, later: int)
    requires ExampleBucket(s.bk) && report == 0 && later == 20
    ensures
      var t := Run(s, [Peek(report)]);
      var r := Replay(s, t.log);
      r == Recovered(s) && Accrue(t.s.bk, later).pot == 20 && Accrue(r.s.bk, later).pot == 10
  {
    RunOne(s, Peek(report));
    assert Exec(s, Peek(report)).s.bk == s.bk.(lastTouch := report);
  }

  lemma FullFromThere(r: Bucket, t: int, now: int)
    requires r.on && t <= now && (Unused(r) <= 0 || Full(Accrue(r, t)))
    ensures Accrue(r, now) == Accrue(r, t).(lastTouch := now)
  {
    if r.lastTouch <= t {
      AccrueSplits(r, t, now);
      FullStays(Accrue(r, t), now);
    } else {
      FullStays(r, now);
    }
  }

  /** A read before the live bucket's clock rolls the clock back and logs nothing. From then
      on the live and the recovered bucket accrue alike, at every instant from the read on, if
      and only if the burn leaves nothing to bank or the recovered bucket is full by then. */
  lemma BackwardReadRecoversIff(live: State, rec: State, t: int)
    requires Matches(live, rec) && rec.bk.on && t < live.bk.lastTouch
    ensures
      var after := Exec(live, Peek(t)).s.bk;
      (forall now :: t <= now ==> Accrue(after, now) == Accrue(rec.bk, now))
      <==> Unused(rec.bk) <= 0 || Full(Accrue(rec.bk, t))
  {
    var l, r := live.bk, rec.bk;
    var after := Exec(live, Peek(t)).s.bk;
    assert after == l.(lastTouch := t);
    if forall now :: t <= now ==> Accrue(after, now) == Accrue(r, now) {
      forall now | l.lastTouch <= now
        ensures Accrue(after, now) == Accrue(l, now)
      {
        AccrueCatchesUp(l, r, now);
      }
      RollbackHarmlessIff(l, t);
      assert Accrue(after, t) == Accrue(r, t);
    }
    if Unused(r) <= 0 || Full(Accrue(r, t)) {
      forall now | t <= now
        ensures Accrue(after, now) == Accrue(r, now)
      {
        FullFromThere(r, t, now);
        FullFromThere(r, t, l.lastTouch);
        FullStays(after, now);
      }
    }
  }

  /** One settlement of an unknown array is enough to make the log unreplayable. */
  lemma RefusedSettlementPoisonsLog(s: State, id: Id, idx: int, runtime: int, now: int)
    requires id !in s.arrays
    ensures
      var o := Call(s, CompleteTask(id, idx, runtime, now), true);
      o.err == NoSuchJob && o.s == s && Replay(s, o.log) == ReplayFailed
  {
  }
}
