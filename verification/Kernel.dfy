/** The money kernel as a transition function on values: one function per locked
    method of internal/budget/budget.go and internal/budget/array.go.

    `Call` runs one method call on a state. A `Command` is both the call and the log
    record it leaves: the record carries exactly the call's arguments, with a submit's
    rate already resolved. `ok` says whether the append to the log succeeded. */
module Kernel {
  import opened Arith
  import opened TokenBucket

  /** An escrow key: a gate token, or the per-source token derived from it. */
  datatype Id = Whole(token: string) | LegOf(master: string, index: nat)

  datatype Status = Active | Lapsed

  datatype Err =
    | Ok | Insufficient | RateExceeded | BudgetLapsed | NoSuchJob | BadState
    | DrawCapExceeded | BurstInsufficient | AppendFailed | Panicked

  datatype Escrow = Escrow(c: int, reserved: int, w: int, started: bool, burstResv: int, submitted: int)

  datatype Task = Task(started: bool, settled: bool, burstResv: int)

  /** Tasks are keyed 0..n-1 and never removed, so the task map is a sequence. */
  datatype ArrayEscrow = ArrayEscrow(
    c: int, w: int, n: int, remaining: int, reserved: int, submitted: int, tasks: seq<Task>)
  {
    function Slice(): int { c * w }
  }

  /** `rateCmp(b, rem, demand, k)` stands for the float test of the rate ceiling. */
  datatype State = State(
    c: int, billInfra: bool, k: real, rateCmp: (int, int, int, real) -> bool,
    b: int, reservedTotal: int, consumed: int, writeOff: int,
    bk: Bucket,
    escrows: map<Id, Escrow>, arrays: map<Id, ArrayEscrow>, status: Status)

  datatype Command =
    | Submit(id: Id, c: int, w: int, now: int)
    | Start(id: Id, now: int)
    | Complete(id: Id, runtime: int, now: int)
    | Timeout(id: Id, now: int)
    | Cancel(id: Id, elapsed: int, now: int)
    | InfraFail(id: Id, elapsed: int, now: int)
    | SubmitArray(id: Id, c: int, n: int, w: int, now: int)
    | StartTask(id: Id, idx: int, now: int)
    | CompleteTask(id: Id, idx: int, runtime: int, now: int)
    | TimeoutTask(id: Id, idx: int, now: int)
    | CancelTask(id: Id, idx: int, elapsed: int, now: int)
    | InfraFailTask(id: Id, idx: int, elapsed: int, now: int)
    | Lapse
    | TopUp(amount: int, xfer: string, now: int)
    | Withdraw(amount: int, xfer: string, now: int)
    | Reprice(id: Id, c: int, now: int)
    | SetRate(c: int, now: int)
    | SetWindow(ts: int, te: int, now: int)
    | SetBurst(on: bool, pct: real, cap: int, now: int)

  datatype Outcome = Outcome(s: State, err: Err, log: seq<Command>)

  function Refuse(s: State, err: Err): Outcome {
    Outcome(s, err, [])
  }

  /** A fresh budget: burst disabled, accrual measured from the window start. */
  function New(c: int, b0: int, ts: int, te: int, k: real, billInfra: bool,
               ceil: (real, int) -> int, rateCmp: (int, int, int, real) -> bool): State
    requires ts < te
  {
    State(c, billInfra, k, rateCmp, b0, 0, 0, 0,
          Bucket(ceil, false, 0.0, 0, b0, ts, te, 0, 0, 0, ts), map[], map[], Active)
  }

  /** A budget created with burst on: the configuration is set before the first snapshot, and
      the clock stays at the window start. */
  function NewBurst(c: int, b0: int, ts: int, te: int, k: real, billInfra: bool,
                    ceil: (real, int) -> int, rateCmp: (int, int, int, real) -> bool, pct: real, cap: int): State
    requires ts < te
  {
    var s := New(c, b0, ts, te, k, billInfra, ceil, rateCmp);
    s.(bk := s.bk.(on := true, pct := pct, drawCap := cap))
  }

  function RateOK(s: State, cost: int, now: int): bool {
    if s.k <= 0.0 then true
    else if s.bk.te - now <= 0 then false
    else s.rateCmp(s.b, s.bk.te - now, s.reservedTotal + cost, s.k)
  }

  predicate Open(s: State, now: int) {
    s.status == Active && s.bk.ts <= now < s.bk.te
  }

  function Rate(s: State, c: int): int {
    if c <= 0 then s.c else c
  }

  function SubmitAt(s: State, id: Id, c: int, w: int, now: int, ok: bool): Outcome {
    var rate := Rate(s, c);
    var cost := rate * w;
    if !Open(s, now) then Refuse(s, BudgetLapsed)
    else if id in s.escrows then Refuse(s, BadState)
    else if cost > s.b then Refuse(s, Insufficient)
    else if !RateOK(s, cost, now) then Refuse(s, RateExceeded)
    else if !ok then Refuse(s, AppendFailed)
    else
      Outcome(s.(b := s.b - cost, reservedTotal := s.reservedTotal + cost,
                 escrows := s.escrows[id := Escrow(rate, cost, w, false, 0, now)]),
              Ok, [Submit(id, rate, w, now)])
  }

  /** Two buckets under one configuration, allocation and window. */
  predicate SameTerms(a: Bucket, b: Bucket) {
    a.on == b.on && a.b0 == b.b0 && a.ts == b.ts && a.te == b.te && a.pct == b.pct && a.drawCap == b.drawCap
  }

  /** What a dispatch attempt leaves: the bucket, the verdict, the tokens reserved. */
  datatype Gate = Gate(bk: Bucket, err: Err, resv: int)

  /** The burst gate shared by Start and StartTask. A reservation that is needed is
      checked before the append; with none needed, the burn is raised before it. */
  function Dispatch(b: Bucket, c: int, w: int, now: int, ok: bool): (g: Gate)
    ensures SameTerms(g.bk, b) && 0 <= g.resv
    ensures g.bk.lastTouch == if b.on then now else b.lastTouch
    ensures g.err in {Ok, DrawCapExceeded, BurstInsufficient, AppendFailed}
  {
    if !b.on then Gate(b, if ok then Ok else AppendFailed, 0)
    else
      var a := Accrue(b, now);
      var resv := ReserveForRate(a, c, w);
      if resv > 0 then
        if a.drawCap > 0 && resv > a.drawCap then Gate(a, DrawCapExceeded, 0)
        else if resv > a.pot then Gate(a, BurstInsufficient, 0)
        else if !ok then Gate(a, AppendFailed, 0)
        else Gate(a.(pot := a.pot - resv, rLive := a.rLive + c), Ok, resv)
      else
        Gate(a.(rLive := a.rLive + c), if ok then Ok else AppendFailed, 0)
  }

  function StartJob(s: State, id: Id, now: int, ok: bool): (o: Outcome)
    ensures SameTerms(o.s.bk, s.bk)
  {
    if id !in s.escrows then Refuse(s, NoSuchJob)
    else
      var e := s.escrows[id];
      if e.started then Refuse(s, Ok)
      else
        var g := Dispatch(s.bk, e.c, e.w, now, ok);
        if g.err != Ok then Refuse(s.(bk := g.bk), g.err)
        else
          var e' := e.(started := true, burstResv := if g.resv > 0 then g.resv else e.burstResv);
          Outcome(s.(bk := g.bk, escrows := s.escrows[id := e']), Ok, [Start(id, now)])
  }

  /** The burst side of a settlement: accrue with the work still counted, then drop
      its burn and refund the unused token tail, capped at the ceiling. */
  function Release(b: Bucket, c: int, w: int, started: bool, resv: int, runtime: int, now: int): (r: Bucket)
    ensures SameTerms(r, b)
    ensures r.lastTouch == if b.on then now else b.lastTouch
  {
    var a := Accrue(b, now);
    if !b.on || !started then a
    else
      var live := Max(a.rLive - c, 0);
      if resv > 0 && w > 0 then
        var pot := a.pot + Quo(resv * (w - runtime), w);
        a.(rLive := live, pot := if pot > a.Ceiling() then a.Ceiling() else pot)
      else a.(rLive := live)
  }

  /** The shared refund core of the four 1:1 settlements. */
  function Settle(s: State, id: Id, runtime: int, writeOff: bool, now: int, log: seq<Command>): (o: Outcome)
    requires id in s.escrows
    ensures SameTerms(o.s.bk, s.bk)
  {
    var e := s.escrows[id];
    var r := Clamp(runtime, e.w);
    var used := e.c * r;
    Outcome(s.(reservedTotal := s.reservedTotal - e.reserved,
               b := s.b + (e.reserved - used),
               writeOff := if writeOff then s.writeOff + used else s.writeOff,
               consumed := if writeOff then s.consumed else s.consumed + used,
               bk := Release(s.bk, e.c, e.w, e.started, e.burstResv, r, now),
               escrows := s.escrows - {id}),
            Ok, log)
  }

  predicate SettlesJob(cmd: Command) {
    cmd.Complete? || cmd.Timeout? || cmd.Cancel? || cmd.InfraFail?
  }

  /** The runtime a 1:1 settlement bills, before clamping: a timeout bills the whole
      walltime, and cancelling work that never started bills nothing. */
  function JobRuntime(e: Escrow, cmd: Command): int
    requires SettlesJob(cmd)
  {
    match cmd
    case Complete(_, runtime, _) => runtime
    case Timeout(_, _) => e.w
    case Cancel(_, elapsed, _) => if e.started then elapsed else 0
    case InfraFail(_, elapsed, _) => elapsed
  }

  function SettleJob(s: State, cmd: Command, ok: bool): Outcome
    requires SettlesJob(cmd)
  {
    if cmd.id !in s.escrows then Refuse(s, NoSuchJob)
    else if !ok then Refuse(s, AppendFailed)
    else
      Settle(s, cmd.id, JobRuntime(s.escrows[cmd.id], cmd), cmd.InfraFail? && !s.billInfra, cmd.now, [cmd])
  }

  function SubmitArrayAt(s: State, id: Id, c: int, n: int, w: int, now: int, ok: bool): Outcome {
    var rate := Rate(s, c);
    var cost := rate * w * n;
    if !Open(s, now) then Refuse(s, BudgetLapsed)
    else if id in s.arrays || n <= 0 || w <= 0 then Refuse(s, BadState)
    else if cost > s.b then Refuse(s, Insufficient)
    else if !RateOK(s, cost, now) then Refuse(s, RateExceeded)
    else if !ok then Refuse(s, AppendFailed)
    else
      var ae := ArrayEscrow(rate, w, n, n, cost, now, seq(n, _ => Task(false, false, 0)));
      Outcome(s.(b := s.b - cost, reservedTotal := s.reservedTotal + cost, arrays := s.arrays[id := ae]),
              Ok, [SubmitArray(id, rate, n, w, now)])
  }

  predicate HasTask(s: State, id: Id, idx: int) {
    id in s.arrays && 0 <= idx < |s.arrays[id].tasks|
  }

  function StartArrayTask(s: State, id: Id, idx: int, now: int, ok: bool): (o: Outcome)
    ensures SameTerms(o.s.bk, s.bk)
  {
    if id !in s.arrays then Refuse(s, NoSuchJob)
    else if !HasTask(s, id, idx) || s.arrays[id].tasks[idx].settled then Refuse(s, BadState)
    else
      var ae := s.arrays[id];
      var t := ae.tasks[idx];
      if t.started then Refuse(s, Ok)
      else
        var g := Dispatch(s.bk, ae.c, ae.w, now, ok);
        if g.err != Ok then Refuse(s.(bk := g.bk), g.err)
        else
          var t' := t.(started := true, burstResv := if g.resv > 0 then g.resv else t.burstResv);
          Outcome(s.(bk := g.bk, arrays := s.arrays[id := ae.(tasks := ae.tasks[idx := t'])]),
                  Ok, [StartTask(id, idx, now)])
  }

  /** The per-task refund core. It validates after the command has been logged, and
      panics when the array's own books do not match its remaining tasks. */
  function SettleTask(s: State, id: Id, idx: int, runtime: int, writeOff: bool, now: int, log: seq<Command>): (o: Outcome)
    ensures SameTerms(o.s.bk, s.bk)
  {
    if !HasTask(s, id, idx) then Outcome(s, NoSuchJob, log)
    else if s.arrays[id].tasks[idx].settled then Outcome(s, BadState, log)
    else
      var ae := s.arrays[id];
      var t := ae.tasks[idx];
      var r := Clamp(runtime, ae.w);
      var used := ae.c * r;
      var ae' := ae.(reserved := ae.reserved - ae.Slice(), remaining := ae.remaining - 1,
                     tasks := ae.tasks[idx := t.(settled := true)]);
      var s' := s.(reservedTotal := s.reservedTotal - ae.Slice(),
                   b := s.b + (ae.Slice() - used),
                   writeOff := if writeOff then s.writeOff + used else s.writeOff,
                   consumed := if writeOff then s.consumed else s.consumed + used,
                   bk := Release(s.bk, ae.c, ae.w, t.started, t.burstResv, r, now));
      if ae'.reserved != ae'.remaining * ae.Slice() then
        Outcome(s'.(arrays := s.arrays[id := ae']), Panicked, log)
      else
        Outcome(s'.(arrays := if ae'.remaining == 0 then s.arrays - {id} else s.arrays[id := ae']), Ok, log)
  }

  predicate SettlesTask(cmd: Command) {
    cmd.CompleteTask? || cmd.TimeoutTask? || cmd.CancelTask? || cmd.InfraFailTask?
  }

  /** The pre-checks each task settlement makes before it logs. */
  predicate TaskLogged(s: State, cmd: Command)
    requires SettlesTask(cmd)
  {
    cmd.CompleteTask? || (cmd.id in s.arrays && (cmd.CancelTask? ==> HasTask(s, cmd.id, cmd.idx)))
  }

  function TaskRuntime(s: State, cmd: Command): int
    requires SettlesTask(cmd) && TaskLogged(s, cmd)
  {
    match cmd
    case CompleteTask(_, _, runtime, _) => runtime
    case TimeoutTask(id, _, _) => s.arrays[id].w
    case CancelTask(id, idx, elapsed, _) => if s.arrays[id].tasks[idx].started then elapsed else 0
    case InfraFailTask(_, _, elapsed, _) => elapsed
  }

  /** Each task settlement logs once its own pre-checks pass, then settles. */
  function SettleArrayTask(s: State, cmd: Command, ok: bool): Outcome
    requires SettlesTask(cmd)
  {
    if !TaskLogged(s, cmd) then Refuse(s, NoSuchJob)
    else if !ok then Refuse(s, AppendFailed)
    else
      SettleTask(s, cmd.id, cmd.idx, TaskRuntime(s, cmd), cmd.InfraFailTask? && !s.billInfra, cmd.now, [cmd])
  }

  function RepriceJob(s: State, id: Id, c: int, now: int, ok: bool): Outcome {
    if id !in s.escrows then Refuse(s, NoSuchJob)
    else
      var e := s.escrows[id];
      var delta := (e.c - c) * e.w;
      if e.started || c <= 0 || c > e.c then Refuse(s, BadState)
      else if !ok then Refuse(s, AppendFailed)
      else
        Outcome(s.(reservedTotal := s.reservedTotal - delta, b := s.b + delta,
                   escrows := s.escrows[id := e.(c := c, reserved := e.reserved - delta)]),
                Ok, [Reprice(id, c, now)])
  }

  function TopUpBy(s: State, amount: int, xfer: string, now: int, ok: bool): Outcome {
    if amount <= 0 then Refuse(s, BadState)
    else if !ok then Refuse(s, AppendFailed)
    else Outcome(s.(b := s.b + amount, bk := s.bk.(b0 := s.bk.b0 + amount)), Ok, [TopUp(amount, xfer, now)])
  }

  function WithdrawBy(s: State, amount: int, xfer: string, now: int, ok: bool): Outcome {
    if amount <= 0 then Refuse(s, BadState)
    else if amount > s.b then Refuse(s, Insufficient)
    else if !ok then Refuse(s, AppendFailed)
    else Outcome(s.(b := s.b - amount, bk := s.bk.(b0 := s.bk.b0 - amount)), Ok, [Withdraw(amount, xfer, now)])
  }

  function Configure(b: Bucket, on: bool, pct: real, cap: int, now: int): (r: Bucket)
    ensures r.b0 == b.b0 && r.ts == b.ts && r.te == b.te
  {
    if !on then b.(on := false, pct := 0.0, drawCap := 0, pot := 0, rLive := 0, frac := 0)
    else
      var a := if b.on then Accrue(b, now) else b.(lastTouch := now, on := true);
      var r := a.(pct := pct, drawCap := cap);
      if r.pot > r.Ceiling() then r.(pot := r.Ceiling(), frac := 0) else r
  }

  function SetBurstTo(s: State, on: bool, pct: real, cap: int, now: int, ok: bool): Outcome {
    if !on && (pct != 0.0 || cap != 0) then Refuse(s, BadState)
    else if on && (pct <= 0.0 || pct > 1.0 || cap < 0) then Refuse(s, BadState)
    else if !ok then Refuse(s, AppendFailed)
    else Outcome(s.(bk := Configure(s.bk, on, pct, cap, now)), Ok, [SetBurst(on, pct, cap, now)])
  }

  predicate Administers(cmd: Command) {
    cmd.Lapse? || cmd.TopUp? || cmd.Withdraw? || cmd.SetRate? || cmd.SetWindow? || cmd.SetBurst?
  }

  /** The calls that move no reservation. Lapse ignores a failed append and closes anyway. */
  function Administer(s: State, cmd: Command, ok: bool): Outcome
    requires Administers(cmd)
  {
    match cmd
    case Lapse => Outcome(s.(status := Lapsed), Ok, if ok then [Lapse] else [])
    case TopUp(amount, xfer, now) => TopUpBy(s, amount, xfer, now, ok)
    case Withdraw(amount, xfer, now) => WithdrawBy(s, amount, xfer, now, ok)
    case SetRate(c, now) =>
      if c <= 0 then Refuse(s, BadState)
      else if !ok then Refuse(s, AppendFailed)
      else Outcome(s.(c := c), Ok, [cmd])
    case SetWindow(ts, te, now) =>
      if ts >= te then Refuse(s, BadState)
      else if !ok then Refuse(s, AppendFailed)
      else Outcome(s.(bk := s.bk.(ts := ts, te := te)), Ok, [cmd])
    case SetBurst(on, pct, cap, now) => SetBurstTo(s, on, pct, cap, now, ok)
  }

  /** One locked method call. */
  function Call(s: State, cmd: Command, ok: bool): Outcome {
    if SettlesJob(cmd) then SettleJob(s, cmd, ok)
    else if SettlesTask(cmd) then SettleArrayTask(s, cmd, ok)
    else if Administers(cmd) then Administer(s, cmd, ok)
    else
      match cmd
      case Submit(id, c, w, now) => SubmitAt(s, id, c, w, now, ok)
      case Start(id, now) => StartJob(s, id, now, ok)
      case SubmitArray(id, c, n, w, now) => SubmitArrayAt(s, id, c, n, w, now, ok)
      case StartTask(id, idx, now) => StartArrayTask(s, id, idx, now, ok)
      case Reprice(id, c, now) => RepriceJob(s, id, c, now, ok)
  }

  /** Which transition each call runs. */
  lemma CallRuns(s: State, cmd: Command, ok: bool)
    ensures SettlesJob(cmd) ==> Call(s, cmd, ok) == SettleJob(s, cmd, ok)
    ensures SettlesTask(cmd) ==> Call(s, cmd, ok) == SettleArrayTask(s, cmd, ok)
    ensures Administers(cmd) ==> Call(s, cmd, ok) == Administer(s, cmd, ok)
    ensures cmd.Submit? ==> Call(s, cmd, ok) == SubmitAt(s, cmd.id, cmd.c, cmd.w, cmd.now, ok)
    ensures cmd.Start? ==> Call(s, cmd, ok) == StartJob(s, cmd.id, cmd.now, ok)
    ensures cmd.SubmitArray? ==> Call(s, cmd, ok) == SubmitArrayAt(s, cmd.id, cmd.c, cmd.n, cmd.w, cmd.now, ok)
    ensures cmd.StartTask? ==> Call(s, cmd, ok) == StartArrayTask(s, cmd.id, cmd.idx, cmd.now, ok)
    ensures cmd.Reprice? ==> Call(s, cmd, ok) == RepriceJob(s, cmd.id, cmd.c, cmd.now, ok)
  {
    hide SettleJob, SettleArrayTask, Administer, SubmitAt, StartJob, SubmitArrayAt, StartArrayTask, RepriceJob;
  }

  /** What a call logs is the call itself, but for a submit's resolved rate. */
  lemma CallLogsItself(s: State, cmd: Command, ok: bool)
    ensures
      var log := Call(s, cmd, ok).log;
      || log == []
      || log == [cmd]
      || (cmd.Submit? && log == [Submit(cmd.id, Rate(s, cmd.c), cmd.w, cmd.now)])
      || (cmd.SubmitArray? && log == [SubmitArray(cmd.id, Rate(s, cmd.c), cmd.n, cmd.w, cmd.now)])
  {
    hide Dispatch, Release, Configure, Accrue, RateOK;
  }

  /** What can happen to a live budget: a method call, or a read that accrues the
      bucket without logging (Report and BurstSnapshot). */
  datatype Op = Do(cmd: Command, ok: bool) | Peek(now: int)

  function Exec(s: State, op: Op): Outcome {
    match op
    case Do(cmd, ok) => Call(s, cmd, ok)
    case Peek(now) => Outcome(s.(bk := Accrue(s.bk, now)), Ok, [])
  }

  datatype Trace = Trace(s: State, log: seq<Command>)

  /** The state a whole run ends in, and the log it leaves. */
  function Run(s: State, ops: seq<Op>): Trace
    decreases |ops|
  {
    if ops == [] then Trace(s, [])
    else
      var o := Exec(s, ops[0]);
      var rest := Run(o.s, ops[1..]);
      Trace(rest.s, o.log + rest.log)
  }

  lemma {:induction false} RunConcat(s: State, ops1: seq<Op>, ops2: seq<Op>)
    ensures
      var t1 := Run(s, ops1);
      var t2 := Run(t1.s, ops2);
      Run(s, ops1 + ops2) == Trace(t2.s, t1.log + t2.log)
    decreases |ops1|
  {
    hide Exec;
    if ops1 == [] {
      assert ops1 + ops2 == ops2;
    } else {
      assert (ops1 + ops2)[0] == ops1[0] && (ops1 + ops2)[1..] == ops1[1..] + ops2;
      var o := Exec(s, ops1[0]);
      RunConcat(o.s, ops1[1..], ops2);
      var t1 := Run(o.s, ops1[1..]);
      assert o.log + (t1.log + Run(t1.s, ops2).log) == (o.log + t1.log) + Run(t1.s, ops2).log;
    }
  }

  lemma RunOne(s: State, op: Op)
    ensures Run(s, [op]) == Trace(Exec(s, op).s, Exec(s, op).log)
  {
    hide Exec;
    assert [op][1..] == [];
  }
}
