/** What each settlement bills: the seconds it charges for, who pays, and what comes back
    (internal/budget/budget.go, array.go). */
module Billing {
  import opened Arith
  import opened Sums
  import opened TokenBucket
  import opened Kernel
  import opened Books

  /** The runtime as billed: not negative and not beyond the walltime. */
  function Within(runtime: int, w: int): int {
    Min(Max(runtime, 0), w)
  }

  /** `s'` is `s` after `used` of a reservation was spent and the rest refunded. */
  ghost predicate Charged(s: State, s': State, reserved: int, used: int, off: bool) {
    && s'.b == s.b + (reserved - used) && s'.reservedTotal == s.reservedTotal - reserved
    && s'.consumed == s.consumed + (if off then 0 else used)
    && s'.writeOff == s.writeOff + (if off then used else 0)
    && s'.bk.b0 == s.bk.b0
  }

  // ---- jobs ----

  /** A settlement of a live job whose append goes through ends it. A completion is charged for
      the runtime; a timeout for the whole walltime; a cancel for the elapsed time if the job
      started and for nothing if not; an infrastructure failure for the elapsed time, to the
      user or written off as the policy says. */
  lemma JobBills(s: State, cmd: Command)
    requires SettlesJob(cmd) && cmd.id in s.escrows && EscrowOK(s.escrows[cmd.id])
    ensures
      var o := Call(s, cmd, true);
      var e := s.escrows[cmd.id];
      && o.err == Ok && o.log == [cmd] && o.s.escrows == s.escrows - {cmd.id} && o.s.arrays == s.arrays
      && (cmd.Complete? ==> Charged(s, o.s, e.c * e.w, e.c * Within(cmd.runtime, e.w), false))
      && (cmd.Timeout? ==> Charged(s, o.s, e.c * e.w, e.c * e.w, false))
      && (cmd.Cancel? ==>
            Charged(s, o.s, e.c * e.w, if e.started then e.c * Within(cmd.elapsed, e.w) else 0, false))
      && (cmd.InfraFail? ==> Charged(s, o.s, e.c * e.w, e.c * Within(cmd.elapsed, e.w), !s.billInfra))
  {
    hide Release;
  }

  /** An unknown job is refused; a failed append changes nothing. */
  lemma JobRefusals(s: State, cmd: Command, ok: bool)
    requires SettlesJob(cmd) && (cmd.id !in s.escrows || !ok)
    ensures Call(s, cmd, ok) == Outcome(s, if cmd.id !in s.escrows then NoSuchJob else AppendFailed, [])
  {
  }

  // ---- array tasks ----

  lemma SettleTaskCharges(s: State, id: Id, idx: int, runtime: int, off: bool, now: int, log: seq<Command>)
    requires Balanced(s) && HasTask(s, id, idx) && !s.arrays[id].tasks[idx].settled
    ensures
      var o := SettleTask(s, id, idx, runtime, off, now, log);
      var a := s.arrays[id];
      && o.err == Ok && o.log == log && o.s.escrows == s.escrows
      && o.s.arrays == (if 1 < a.remaining then s.arrays[id := AfterTask(a, idx)] else s.arrays - {id})
      && Charged(s, o.s, a.c * a.w, a.c * Clamp(runtime, a.w), off)
  {
    hide Balanced, Release, Clamp;
    SettleTaskKeepsBooks(s, id, idx, runtime, off, now, log);
  }

  lemma ClampIsWithin(runtime: int, w: int)
    requires 0 <= w
    ensures Clamp(runtime, w) == Within(runtime, w) && Clamp(w, w) == w && Clamp(0, w) == 0
  {
  }

  lemma TaskArrayOK(s: State, id: Id)
    requires Balanced(s) && id in s.arrays
    ensures ArrayOK(s.arrays[id])
  {
  }

  /** The same for one open task of an array, out of its slice: the task is settled, the others
      are not touched, and the array goes with its last open task. */
  lemma TaskBills(s: State, cmd: Command)
    requires SettlesTask(cmd) && Balanced(s) && HasTask(s, cmd.id, cmd.idx) && !s.arrays[cmd.id].tasks[cmd.idx].settled
    ensures
      var o := Call(s, cmd, true);
      var a, t := s.arrays[cmd.id], s.arrays[cmd.id].tasks[cmd.idx];
      var slice := a.c * a.w;
      && o.err == Ok && o.log == [cmd] && o.s.escrows == s.escrows
      && o.s.arrays == (if 1 < a.remaining then s.arrays[cmd.id := AfterTask(a, cmd.idx)] else s.arrays - {cmd.id})
      && (cmd.CompleteTask? ==> Charged(s, o.s, slice, a.c * Within(cmd.runtime, a.w), false))
      && (cmd.TimeoutTask? ==> Charged(s, o.s, slice, slice, false))
      && (cmd.CancelTask? ==> Charged(s, o.s, slice, if t.started then a.c * Within(cmd.elapsed, a.w) else 0, false))
      && (cmd.InfraFailTask? ==> Charged(s, o.s, slice, a.c * Within(cmd.elapsed, a.w), !s.billInfra))
  {
    hide Balanced, SettleTask, Charged, Within, Clamp;
    var a := s.arrays[cmd.id];
    TaskArrayOK(s, cmd.id);
    hide ArrayOK;
    var runtime := TaskRuntime(s, cmd);
    ClampIsWithin(runtime, a.w);
    SettleTaskCharges(s, cmd.id, cmd.idx, runtime, cmd.InfraFailTask? && !s.billInfra, cmd.now, [cmd]);
  }

  /** A settlement of anything but an open task changes no budget; whether it is logged all the
      same depends on the call. */
  lemma TaskRefusals(s: State, cmd: Command, ok: bool)
    requires SettlesTask(cmd) && (HasTask(s, cmd.id, cmd.idx) ==> s.arrays[cmd.id].tasks[cmd.idx].settled)
    ensures
      var o := Call(s, cmd, ok);
      var checked := cmd.CompleteTask? || (if cmd.CancelTask? then HasTask(s, cmd.id, cmd.idx) else cmd.id in s.arrays);
      && o.s == s
      && o.log == (if checked && ok then [cmd] else [])
      && o.err == (if checked && !ok then AppendFailed
                   else if HasTask(s, cmd.id, cmd.idx) then BadState else NoSuchJob)
  {
  }

  // ---- a whole array ----

  function CompleteOps(id: Id, order: seq<int>, runtime: int -> int, now: int): seq<Op> {
    if order == [] then []
    else [Do(CompleteTask(id, order[0], runtime(order[0]), now), true)] + CompleteOps(id, order[1..], runtime, now)
  }

  /** The seconds billed for tasks that ran for the given runtimes. */
  function BilledSeconds(order: seq<int>, runtime: int -> int, w: int): int {
    if order == [] then 0 else Within(runtime(order[0]), w) + BilledSeconds(order[1..], runtime, w)
  }

  predicate OpenTasks(s: State, id: Id, order: seq<int>) {
    && (forall i :: 0 <= i < |order| ==> HasTask(s, id, order[i]) && !s.arrays[id].tasks[order[i]].settled)
    && (forall i, j :: 0 <= i < j < |order| ==> order[i] != order[j])
  }

  /** With one task remaining there is only one open task. */
  lemma OneOpenTask(a: ArrayEscrow, i: int, j: int)
    requires ArrayOK(a) && a.remaining == 1 && 0 <= i < |a.tasks| && 0 <= j < |a.tasks|
    requires !a.tasks[i].settled && !a.tasks[j].settled
    ensures i == j
  {
    if i != j {
      CountUpdate(a.tasks, Unsettled, i, a.tasks[i].(settled := true));
      CountPositive(a.tasks[i := a.tasks[i].(settled := true)], Unsettled, j);
    }
  }

  /** After the first of several open tasks has settled, the others are still open. */
  lemma OthersStayOpen(s: State, s': State, id: Id, order: seq<int>)
    requires Balanced(s) && order != [] && OpenTasks(s, id, order)
    requires s'.arrays == if 1 < s.arrays[id].remaining then s.arrays[id := AfterTask(s.arrays[id], order[0])] else s.arrays - {id}
    ensures OpenTasks(s', id, order[1..])
    ensures s.arrays[id].remaining == 1 ==> |order| == 1
  {
    TaskArrayOK(s, id);
    hide Balanced;
    if s.arrays[id].remaining == 1 && 1 < |order| {
      OneOpenTask(s.arrays[id], order[0], order[1]);
    }
    hide ArrayOK;
  }

  lemma ChargeTwice(s: State, m: State, t: State, c: int, w: int, k: int, x: int, y: int)
    requires Charged(s, m, c * w, c * x, false) && Charged(m, t, k * (c * w), c * y, false)
    ensures Charged(s, t, (k + 1) * (c * w), c * (x + y), false)
  {
  }

  lemma RemainingPositive(a: ArrayEscrow)
    requires ArrayOK(a)
    ensures 1 <= a.remaining
  {
  }

  /** The first of several completions. */
  lemma FirstCompletes(s: State, id: Id, order: seq<int>, runtime: int -> int, now: int)
    requires Balanced(s) && id in s.arrays && order != [] && OpenTasks(s, id, order)
    ensures
      var m, a := Call(s, CompleteTask(id, order[0], runtime(order[0]), now), true).s, s.arrays[id];
      && Balanced(m) && OpenTasks(m, id, order[1..]) && 1 <= a.remaining && (a.remaining == 1 ==> |order| == 1)
      && Charged(s, m, a.c * a.w, a.c * Within(runtime(order[0]), a.w), false)
      && (id in m.arrays <==> 1 < a.remaining)
      && (id in m.arrays ==> m.arrays[id].c == a.c && m.arrays[id].w == a.w && m.arrays[id].remaining == a.remaining - 1)
      && Run(s, CompleteOps(id, order, runtime, now)).s == Run(m, CompleteOps(id, order[1..], runtime, now)).s
  {
    hide Balanced, Call, ArrayOK, Within, Charged;
    var cmd := CompleteTask(id, order[0], runtime(order[0]), now);
    var ops := CompleteOps(id, order, runtime, now);
    assert ops[0] == Do(cmd, true) && ops[1..] == CompleteOps(id, order[1..], runtime, now);
    TaskArrayOK(s, id);
    RemainingPositive(s.arrays[id]);
    TaskBills(s, cmd);
    CallKeepsBooks(s, cmd, true);
    OthersStayOpen(s, Call(s, cmd, true).s, id, order);
    hide OpenTasks, CompleteOps;
  }

  lemma NothingCompleted(s: State, id: Id, runtime: int -> int, now: int, c: int, w: int)
    ensures Run(s, CompleteOps(id, [], runtime, now)).s == s && Charged(s, s, 0 * (c * w), c * BilledSeconds([], runtime, w), false)
  {
  }

  /** Completing any number of open tasks, in any order, spends the rate times the sum of their
      runtimes as billed, and returns the rest of their slices; the array goes exactly with its
      last open task. */
  lemma {:induction false} CompletingBillsTheSum(s: State, id: Id, order: seq<int>, runtime: int -> int, now: int)
    requires Balanced(s) && id in s.arrays && OpenTasks(s, id, order)
    ensures
      var t := Run(s, CompleteOps(id, order, runtime, now)).s;
      var a := s.arrays[id];
      && Charged(s, t, |order| * (a.c * a.w), a.c * BilledSeconds(order, runtime, a.w), false)
      && |order| <= a.remaining && (id in t.arrays <==> |order| < a.remaining)
    decreases |order|
  {
    hide Balanced, Call, Run, Within, Charged, OpenTasks, CompleteOps, ArrayOK;
    var a := s.arrays[id];
    NothingCompleted(s, id, runtime, now, a.c, a.w);
    if order == [] {
      TaskArrayOK(s, id);
      RemainingPositive(a);
    } else {
      FirstCompletes(s, id, order, runtime, now);
      var m := Call(s, CompleteTask(id, order[0], runtime(order[0]), now), true).s;
      var rest := order[1..];
      var t := Run(m, CompleteOps(id, rest, runtime, now)).s;
      if a.remaining == 1 {
        assert rest == [];
        NothingCompleted(m, id, runtime, now, a.c, a.w);
      } else {
        CompletingBillsTheSum(m, id, rest, runtime, now);
      }
      ChargeTwice(s, m, t, a.c, a.w, |rest|, Within(runtime(order[0]), a.w), BilledSeconds(rest, runtime, a.w));
    }
  }
}
