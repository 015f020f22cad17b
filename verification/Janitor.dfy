/** The janitors of internal/budget/janitor.go: two sweeps that split orphaned work by
    whether it ever started. Each collects its targets first, then settles them one by one. */
module Janitor {
  import opened Arith
  import opened Sums
  import opened Kernel
  import opened Books
  import opened Budgets

  datatype TaskRef = TaskRef(id: Id, idx: int)

  /** Never started, and submitted at least `ttl` ago. */
  predicate UnboundJob(e: Escrow, ttl: int, now: int) {
    !e.started && now - e.submitted >= ttl
  }

  predicate NoneStarted(tasks: seq<Task>) {
    forall i :: 0 <= i < |tasks| ==> !tasks[i].started
  }

  predicate UnboundArray(a: ArrayEscrow, ttl: int, now: int) {
    now - a.submitted >= ttl && NoneStarted(a.tasks)
  }

  predicate UnboundTask(s: State, r: TaskRef, ttl: int, now: int) {
    && HasTask(s, r.id, r.idx) && UnboundArray(s.arrays[r.id], ttl, now)
    && !s.arrays[r.id].tasks[r.idx].settled
  }

  predicate OrphanTask(s: State, r: TaskRef, live: set<Id>) {
    && HasTask(s, r.id, r.idx) && r.id !in live
    && s.arrays[r.id].tasks[r.idx].started && !s.arrays[r.id].tasks[r.idx].settled
  }

  /** The tasks of `a` once those that `gone` names have been settled. */
  function ClosedTasks(id: Id, a: ArrayEscrow, gone: set<TaskRef>): (ts: seq<Task>)
    ensures |ts| == |a.tasks|
    ensures forall i :: 0 <= i < |ts| ==>
      ts[i] == a.tasks[i].(settled := a.tasks[i].settled || TaskRef(id, i) in gone)
  {
    seq(|a.tasks|, i requires 0 <= i < |a.tasks| =>
      a.tasks[i].(settled := a.tasks[i].settled || TaskRef(id, i) in gone))
  }

  function ClosedArray(id: Id, a: ArrayEscrow, gone: set<TaskRef>): ArrayEscrow {
    var ts := ClosedTasks(id, a, gone);
    a.(tasks := ts, remaining := Count(ts, Unsettled), reserved := Count(ts, Unsettled) * a.Slice())
  }

  /** The arrays once the tasks in `gone` have been settled: an array with no unsettled
      task left is dropped. */
  function ClosedArrays(m: map<Id, ArrayEscrow>, gone: set<TaskRef>): map<Id, ArrayEscrow> {
    map id | id in m && 0 < ClosedArray(id, m[id], gone).remaining :: ClosedArray(id, m[id], gone)
  }

  /** `s` is `s0` with exactly the escrows in `jobs` and the tasks in `tasks` settled. The
      books balance and nothing is written off; with `bill` their reservations are consumed
      in full, otherwise they return to the balance in full. */
  ghost predicate Swept(s0: State, s: State, jobs: set<Id>, tasks: set<TaskRef>, bill: bool) {
    && Balanced(s)
    && s.escrows == s0.escrows - jobs
    && s.arrays == ClosedArrays(s0.arrays, tasks)
    && s.bk.b0 == s0.bk.b0 && s.writeOff == s0.writeOff
    && (if bill then s.b == s0.b else s.consumed == s0.consumed)
  }

  lemma {:induction false} ClosingNoTaskChangesNothing(id: Id, a: ArrayEscrow)
    requires ArrayOK(a)
    ensures ClosedArray(id, a, {}) == a
  {
    assert ClosedTasks(id, a, {}) == a.tasks;
  }

  lemma NothingSwept(s: State, bill: bool)
    requires Balanced(s)
    ensures Swept(s, s, {}, {}, bill)
  {
    forall id | id in s.arrays
      ensures ClosedArray(id, s.arrays[id], {}) == s.arrays[id] && 0 < s.arrays[id].remaining
    {
      ClosingNoTaskChangesNothing(id, s.arrays[id]);
    }
    hide Count, ClosedArray, ArrayOK, EscrowOK;
    assert ClosedArrays(s.arrays, {}) == s.arrays;
  }

  function JobCommand(id: Id, bill: bool, now: int): Command {
    if bill then Timeout(id, now) else Cancel(id, 0, now)
  }

  function TaskCommand(r: TaskRef, bill: bool, now: int): Command {
    if bill then TimeoutTask(r.id, r.idx, now) else CancelTask(r.id, r.idx, 0, now)
  }

  lemma SweepJobStep(s0: State, s: State, jobs: set<Id>, tasks: set<TaskRef>, bill: bool, id: Id, now: int)
    requires Swept(s0, s, jobs, tasks, bill) && id in s0.escrows && id !in jobs
    ensures
      var o := SettleJob(s, JobCommand(id, bill, now), true);
      o.err == Ok && Swept(s0, o.s, jobs + {id}, tasks, bill)
  {
    var cmd := JobCommand(id, bill, now);
    var e := s.escrows[id];
    var r := JobRuntime(e, cmd);
    assert EscrowOK(e);
    SettleKeepsBooks(s, id, r, false, now, [cmd]);
    assert Clamp(r, e.w) == if bill then e.w else 0;
    hide Balanced, ClosedArrays, Release;
    assert s.escrows - {id} == s0.escrows - (jobs + {id});
  }

  /** Settling task `idx` as well is one update of the settled flags. */
  lemma CloseOneFlag(id: Id, a: ArrayEscrow, gone: set<TaskRef>, idx: int)
    requires 0 <= idx < |a.tasks| && !a.tasks[idx].settled && TaskRef(id, idx) !in gone
    ensures
      var before, after := ClosedTasks(id, a, gone), ClosedTasks(id, a, gone + {TaskRef(id, idx)});
      && after == before[idx := before[idx].(settled := true)]
      && Count(after, Unsettled) == Count(before, Unsettled) - 1
  {
    var before := ClosedTasks(id, a, gone);
    CountUpdate(before, Unsettled, idx, before[idx].(settled := true));
    assert ClosedTasks(id, a, gone + {TaskRef(id, idx)}) == before[idx := before[idx].(settled := true)];
  }

  /** Closing one more open task of an array is the settlement the kernel makes. */
  lemma CloseOneMore(id: Id, a: ArrayEscrow, gone: set<TaskRef>, idx: int)
    requires 0 <= idx < |a.tasks| && !a.tasks[idx].settled && TaskRef(id, idx) !in gone
    ensures 0 < ClosedArray(id, a, gone).remaining
    ensures AfterTask(ClosedArray(id, a, gone), idx) == ClosedArray(id, a, gone + {TaskRef(id, idx)})
  {
    hide Count, ClosedTasks;
    CloseOneFlag(id, a, gone, idx);
    var n := Count(ClosedTasks(id, a, gone), Unsettled);
    assert (n - 1) * a.Slice() == n * a.Slice() - a.Slice();
  }

  lemma OthersUntouched(id: Id, a: ArrayEscrow, gone: set<TaskRef>, r: TaskRef)
    requires r.id != id
    ensures ClosedArray(id, a, gone + {r}) == ClosedArray(id, a, gone)
  {
    assert ClosedTasks(id, a, gone + {r}) == ClosedTasks(id, a, gone);
  }

  /** The arrays after one more task of `r.id` has been closed. */
  lemma ArraysAfterOneMore(m: map<Id, ArrayEscrow>, gone: set<TaskRef>, r: TaskRef)
    requires r.id in m && 0 <= r.idx < |m[r.id].tasks| && !m[r.id].tasks[r.idx].settled && r !in gone
    ensures r.id in ClosedArrays(m, gone)
    ensures
      var a := ClosedArrays(m, gone)[r.id];
      && a == ClosedArray(r.id, m[r.id], gone)
      && ClosedArrays(m, gone + {r})
         == if 1 < a.remaining then ClosedArrays(m, gone)[r.id := AfterTask(a, r.idx)]
            else ClosedArrays(m, gone) - {r.id}
  {
    hide ClosedArray, Count;
    CloseOneMore(r.id, m[r.id], gone, r.idx);
    forall id | id in m && id != r.id
      ensures ClosedArray(id, m[id], gone + {r}) == ClosedArray(id, m[id], gone)
    {
      OthersUntouched(id, m[id], gone, r);
    }
  }

  /** A sweep's task command bills the whole walltime or nothing, and writes nothing off. */
  lemma TaskCommandRuns(s: State, r: TaskRef, bill: bool, now: int)
    requires HasTask(s, r.id, r.idx) && !s.arrays[r.id].tasks[r.idx].settled && 0 <= s.arrays[r.id].w
    ensures
      var cmd := TaskCommand(r, bill, now);
      var rt := if bill then s.arrays[r.id].w else 0;
      var o := SettleTask(s, r.id, r.idx, rt, false, now, [cmd]);
      && SettleArrayTask(s, cmd, true) == o
      && Clamp(rt, s.arrays[r.id].w) == rt
      && o.err in {Ok, Panicked}
      && o.s.escrows == s.escrows && o.s.bk.b0 == s.bk.b0 && o.s.writeOff == s.writeOff
  {
    hide Release;
  }

  lemma SweepTaskStep(s0: State, s: State, jobs: set<Id>, tasks: set<TaskRef>, bill: bool, r: TaskRef, now: int)
    requires Swept(s0, s, jobs, tasks, bill) && r !in tasks
    requires HasTask(s0, r.id, r.idx) && !s0.arrays[r.id].tasks[r.idx].settled
    ensures
      var o := SettleArrayTask(s, TaskCommand(r, bill, now), true);
      o.err == Ok && Swept(s0, o.s, jobs, tasks + {r}, bill)
  {
    hide SettleTask, SettleArrayTask, Count, EscrowOK;
    ArraysAfterOneMore(s0.arrays, tasks, r);
    var a := s.arrays[r.id];
    assert a.tasks == ClosedTasks(r.id, s0.arrays[r.id], tasks);
    assert ArrayOK(a);
    TaskCommandRuns(s, r, bill, now);
    SettleTaskKeepsBooks(s, r.id, r.idx, if bill then a.w else 0, false, now, [TaskCommand(r, bill, now)]);
    hide Balanced, ClosedArrays, ArrayOK;
  }

  function UnboundJobs(s: State, ttl: int, now: int): set<Id> {
    set id | id in s.escrows && UnboundJob(s.escrows[id], ttl, now)
  }

  function OrphanJobs(s: State, live: set<Id>): set<Id> {
    set id | id in s.escrows && s.escrows[id].started && id !in live
  }

  function AllTasks(s: State): set<TaskRef> {
    set id, i | id in s.arrays && 0 <= i < |s.arrays[id].tasks| :: TaskRef(id, i)
  }

  function UnboundTasks(s: State, ttl: int, now: int): (r: set<TaskRef>)
    ensures forall t :: t in r <==> UnboundTask(s, t, ttl, now)
  {
    set t | t in AllTasks(s) && UnboundTask(s, t, ttl, now)
  }

  function OrphanTasks(s: State, live: set<Id>): (r: set<TaskRef>)
    ensures forall t :: t in r <==> OrphanTask(s, t, live)
  {
    set t | t in AllTasks(s) && OrphanTask(s, t, live)
  }

  predicate OpenTask(s: State, r: TaskRef) {
    HasTask(s, r.id, r.idx) && !s.arrays[r.id].tasks[r.idx].settled
  }

  /** A task is open after a sweep exactly when it was and was not swept, and then it is as it was. */
  lemma OpenAfterSweep(s0: State, s: State, jobs: set<Id>, tasks: set<TaskRef>, bill: bool, r: TaskRef)
    requires Swept(s0, s, jobs, tasks, bill)
    ensures OpenTask(s, r) <==> OpenTask(s0, r) && r !in tasks
    ensures OpenTask(s, r) ==> s.arrays[r.id].tasks[r.idx] == s0.arrays[r.id].tasks[r.idx]
  {
    hide Balanced;
    if r.id in s0.arrays {
      var ts := ClosedTasks(r.id, s0.arrays[r.id], tasks);
      if 0 <= r.idx < |ts| && !ts[r.idx].settled {
        CountPositive(ts, Unsettled, r.idx);
      }
    }
  }

  /** An array none of whose tasks is swept does not change. */
  lemma ArrayAfterSweep(s0: State, s: State, jobs: set<Id>, tasks: set<TaskRef>, bill: bool, id: Id)
    requires Balanced(s0) && Swept(s0, s, jobs, tasks, bill) && forall r :: r in tasks ==> r.id != id
    ensures id in s.arrays <==> id in s0.arrays
    ensures id in s.arrays ==> s.arrays[id] == s0.arrays[id]
  {
    if id in s0.arrays {
      assert ArrayOK(s0.arrays[id]);
      assert ClosedTasks(id, s0.arrays[id], tasks) == s0.arrays[id].tasks;
    }
    hide Balanced, ClosedTasks, Count;
  }

  /** Where the reservations a sweep ended have gone: back to the balance, or into what is
      consumed, and nothing into the write-off. */
  predicate Ended(s0: State, s: State, bill: bool) {
    var ended := s0.reservedTotal - s.reservedTotal;
    && s.b == s0.b + (if bill then 0 else ended)
    && s.consumed == s0.consumed + (if bill then ended else 0)
    && s.writeOff == s0.writeOff && s.bk.b0 == s0.bk.b0 && 0 <= s.reservedTotal
  }

  lemma SweepEnds(s0: State, s: State, jobs: set<Id>, tasks: set<TaskRef>, bill: bool)
    requires Balanced(s0) && Swept(s0, s, jobs, tasks, bill)
    ensures Ended(s0, s, bill)
  {
    hide ClosedArrays, Total;
  }

  /** What an orphan sweep leaves. A job stays, unchanged, exactly when it had not started, or is
      live, or its append failed. A task stays open, unchanged, exactly when it had not started,
      or its array is live, or its append failed. No live array changes. */
  ghost predicate OrphansLeft(s0: State, s: State, live: set<Id>, okJob: Id -> bool, okTask: TaskRef -> bool, sure: bool) {
    && (forall id :: id in s.escrows <==>
          id in s0.escrows && (!s0.escrows[id].started || id in live || !(sure || okJob(id))))
    && (forall id :: id in s.escrows ==> s.escrows[id] == s0.escrows[id])
    && (forall r :: OpenTask(s, r) <==>
          OpenTask(s0, r) && (!s0.arrays[r.id].tasks[r.idx].started || r.id in live || !(sure || okTask(r))))
    && (forall r :: OpenTask(s, r) ==> s.arrays[r.id].tasks[r.idx] == s0.arrays[r.id].tasks[r.idx])
    && (forall id :: id in live ==> (id in s.arrays <==> id in s0.arrays) && (id in s.arrays ==> s.arrays[id] == s0.arrays[id]))
  }

  /** The members of `xs` whose append goes through: all of them where nothing is written. */
  ghost function Logged<T>(xs: set<T>, ok: T -> bool, sure: bool): set<T> {
    set x | x in xs && (sure || ok(x))
  }

  lemma OrphanSweepLeaves(s0: State, s: State, live: set<Id>, okJob: Id -> bool, okTask: TaskRef -> bool, sure: bool, bill: bool)
    requires Balanced(s0)
    requires Swept(s0, s, Logged(OrphanJobs(s0, live), okJob, sure), Logged(OrphanTasks(s0, live), okTask, sure), bill)
    ensures OrphansLeft(s0, s, live, okJob, okTask, sure)
  {
    hide Balanced, ClosedArrays;
    var jobs, tasks := Logged(OrphanJobs(s0, live), okJob, sure), Logged(OrphanTasks(s0, live), okTask, sure);
    assert s.escrows == s0.escrows - jobs;
    hide Swept;
    forall r: TaskRef
      ensures OpenTask(s, r) <==>
        OpenTask(s0, r) && (!s0.arrays[r.id].tasks[r.idx].started || r.id in live || !(sure || okTask(r)))
      ensures OpenTask(s, r) ==> s.arrays[r.id].tasks[r.idx] == s0.arrays[r.id].tasks[r.idx]
    {
      OpenAfterSweep(s0, s, jobs, tasks, bill, r);
      assert r in tasks <==> OrphanTask(s0, r, live) && (sure || okTask(r));
    }
    hide OpenTask;
    forall id | id in live
      ensures (id in s.arrays <==> id in s0.arrays) && (id in s.arrays ==> s.arrays[id] == s0.arrays[id])
    {
      ArrayAfterSweep(s0, s, jobs, tasks, bill, id);
    }
  }

  /** No task of the array has started, and it is at least `ttl` old. */
  predicate AgedUnstarted(a: ArrayEscrow, ttl: int, now: int) {
    a.submitted + ttl <= now && !exists i :: 0 <= i < |a.tasks| && a.tasks[i].started
  }

  /** What an unbound sweep leaves. A job stays, unchanged, exactly when it had started, or is
      younger than `ttl`, or its append failed. A task stays open, unchanged, exactly when its
      array is not both aged and unstarted, or its append failed. No other array changes. */
  ghost predicate UnboundLeft(s0: State, s: State, ttl: int, now: int, okJob: Id -> bool, okTask: TaskRef -> bool, sure: bool) {
    && (forall id :: id in s.escrows <==>
          id in s0.escrows && (s0.escrows[id].started || now < s0.escrows[id].submitted + ttl || !(sure || okJob(id))))
    && (forall id :: id in s.escrows ==> s.escrows[id] == s0.escrows[id])
    && (forall r :: OpenTask(s, r) <==> OpenTask(s0, r) && (!AgedUnstarted(s0.arrays[r.id], ttl, now) || !(sure || okTask(r))))
    && (forall r :: OpenTask(s, r) ==> s.arrays[r.id].tasks[r.idx] == s0.arrays[r.id].tasks[r.idx])
    && (forall id :: id in s0.arrays && !AgedUnstarted(s0.arrays[id], ttl, now) ==> id in s.arrays && s.arrays[id] == s0.arrays[id])
  }

  lemma AgedIsUnbound(a: ArrayEscrow, ttl: int, now: int)
    ensures AgedUnstarted(a, ttl, now) <==> UnboundArray(a, ttl, now)
  {
  }

  lemma UnboundSweepLeaves(s0: State, s: State, ttl: int, now: int, okJob: Id -> bool, okTask: TaskRef -> bool, sure: bool)
    requires Balanced(s0)
    requires Swept(s0, s, Logged(UnboundJobs(s0, ttl, now), okJob, sure), Logged(UnboundTasks(s0, ttl, now), okTask, sure), false)
    ensures UnboundLeft(s0, s, ttl, now, okJob, okTask, sure)
  {
    hide Balanced, ClosedArrays, AgedUnstarted, UnboundArray;
    var jobs, tasks := Logged(UnboundJobs(s0, ttl, now), okJob, sure), Logged(UnboundTasks(s0, ttl, now), okTask, sure);
    assert s.escrows == s0.escrows - jobs;
    hide Swept;
    forall r: TaskRef
      ensures OpenTask(s, r) <==> OpenTask(s0, r) && (!AgedUnstarted(s0.arrays[r.id], ttl, now) || !(sure || okTask(r)))
      ensures OpenTask(s, r) ==> s.arrays[r.id].tasks[r.idx] == s0.arrays[r.id].tasks[r.idx]
    {
      OpenAfterSweep(s0, s, jobs, tasks, false, r);
      assert r in tasks <==> UnboundTask(s0, r, ttl, now) && (sure || okTask(r));
      if r.id in s0.arrays {
        AgedIsUnbound(s0.arrays[r.id], ttl, now);
      }
    }
    hide OpenTask;
    forall id | id in s0.arrays && !AgedUnstarted(s0.arrays[id], ttl, now)
      ensures id in s.arrays && s.arrays[id] == s0.arrays[id]
    {
      AgedIsUnbound(s0.arrays[id], ttl, now);
      ArrayAfterSweep(s0, s, jobs, tasks, false, id);
    }
  }

  ghost function Elems<T>(xs: seq<T>): set<T> {
    set x | x in xs
  }

  ghost predicate NoRepeats<T>(xs: seq<T>) {
    forall i, j :: 0 <= i < j < |xs| ==> xs[i] != xs[j]
  }

  lemma ElemsSnoc<T>(xs: seq<T>, i: nat)
    requires i < |xs| && NoRepeats(xs)
    ensures Elems(xs[..i + 1]) == Elems(xs[..i]) + {xs[i]} && xs[i] !in Elems(xs[..i])
  {
    assert xs[..i + 1] == xs[..i] + [xs[i]];
  }

  lemma RefusedJob(s: State, id: Id, bill: bool, now: int)
    ensures SettleJob(s, JobCommand(id, bill, now), false).err != Ok
    ensures SettleJob(s, JobCommand(id, bill, now), false).s == s
  {
  }

  lemma RefusedTask(s: State, r: TaskRef, bill: bool, now: int)
    ensures SettleArrayTask(s, TaskCommand(r, bill, now), false).err != Ok
    ensures SettleArrayTask(s, TaskCommand(r, bill, now), false).s == s
  {
  }

  lemma LoggedNone<T>(xs: seq<T>, ok: T -> bool, sure: bool)
    requires xs == []
    ensures Logged(Elems(xs), ok, sure) == {}
  {
  }

  lemma LoggedSnoc<T>(xs: seq<T>, i: nat, ok: T -> bool, sure: bool)
    requires i < |xs| && NoRepeats(xs)
    ensures
      var before, after := Logged(Elems(xs[..i]), ok, sure), Logged(Elems(xs[..i + 1]), ok, sure);
      xs[i] !in before && after == if sure || ok(xs[i]) then before + {xs[i]} else before
  {
    ElemsSnoc(xs, i);
  }

  /** Settle the collected jobs one by one, counting those that succeed. */
  method SettleJobs(bd: Budget, ids: seq<Id>, bill: bool, now: int, ok: Id -> bool) returns (swept: nat)
    requires Balanced(bd.Value()) && NoRepeats(ids) && Elems(ids) <= bd.escrows.Keys
    modifies bd
    ensures bd.replaying == old(bd.replaying) && bd.durable == old(bd.durable)
    ensures
      var gone := Logged(Elems(ids), ok, old(bd.Appends(false)));
      swept == |gone| && Swept(old(bd.Value()), bd.Value(), gone, {}, bill)
  {
    hide Swept, SettleJob, Balanced, ReadView.ViewOf, Logged;
    ghost var s0, sure := bd.Value(), bd.Appends(false);
    NothingSwept(s0, bill);
    swept := 0;
    assert Logged(Elems(ids[..0]), ok, sure) == {} by {
      LoggedNone(ids[..0], ok, sure);
    }
    for i := 0 to |ids|
      invariant bd.replaying == old(bd.replaying) && bd.durable == old(bd.durable)
      invariant swept == |Logged(Elems(ids[..i]), ok, sure)|
      invariant Swept(s0, bd.Value(), Logged(Elems(ids[..i]), ok, sure), {}, bill)
    {
      LoggedSnoc(ids, i, ok, sure);
      assert ids[i] in Elems(ids);
      RefusedJob(bd.Value(), ids[i], bill, now);
      SweepJobStep(s0, bd.Value(), Logged(Elems(ids[..i]), ok, sure), {}, bill, ids[i], now);
      var err;
      if bill {
        err := bd.Timeout(ids[i], now, ok(ids[i]));
      } else {
        err := bd.Cancel(ids[i], 0, now, ok(ids[i]));
      }
      if err == Ok {
        swept := swept + 1;
      }
    }
    assert ids[..|ids|] == ids;
  }

  /** Settle the collected tasks one by one, after the jobs. */
  method SettleTasks(bd: Budget, ghost s0: State, ghost jobs: set<Id>, refs: seq<TaskRef>, bill: bool, now: int,
                     ok: TaskRef -> bool)
    returns (swept: nat)
    requires NoRepeats(refs)
    requires forall i :: 0 <= i < |refs| ==>
      HasTask(s0, refs[i].id, refs[i].idx) && !s0.arrays[refs[i].id].tasks[refs[i].idx].settled
    requires Swept(s0, bd.Value(), jobs, {}, bill)
    modifies bd
    ensures bd.replaying == old(bd.replaying) && bd.durable == old(bd.durable)
    ensures
      var gone := Logged(Elems(refs), ok, old(bd.Appends(false)));
      swept == |gone| && Swept(s0, bd.Value(), jobs, gone, bill)
  {
    hide Swept, SettleArrayTask, HasTask, ReadView.ViewOf, Logged;
    ghost var sure := bd.Appends(false);
    swept := 0;
    assert Logged(Elems(refs[..0]), ok, sure) == {} by {
      LoggedNone(refs[..0], ok, sure);
    }
    for i := 0 to |refs|
      invariant bd.replaying == old(bd.replaying) && bd.durable == old(bd.durable)
      invariant swept == |Logged(Elems(refs[..i]), ok, sure)|
      invariant Swept(s0, bd.Value(), jobs, Logged(Elems(refs[..i]), ok, sure), bill)
    {
      LoggedSnoc(refs, i, ok, sure);
      RefusedTask(bd.Value(), refs[i], bill, now);
      SweepTaskStep(s0, bd.Value(), jobs, Logged(Elems(refs[..i]), ok, sure), bill, refs[i], now);
      var err;
      if bill {
        err := bd.TimeoutTask(refs[i].id, refs[i].idx, now, ok(refs[i]));
      } else {
        err := bd.CancelTask(refs[i].id, refs[i].idx, 0, now, ok(refs[i]));
      }
      if err == Ok {
        swept := swept + 1;
      }
    }
    assert refs[..|refs|] == refs;
  }

  /** Settle everything collected: jobs first, then tasks. */
  method SettleAll(bd: Budget, ids: seq<Id>, refs: seq<TaskRef>, bill: bool, now: int,
                   okJob: Id -> bool, okTask: TaskRef -> bool)
    returns (swept: nat)
    requires Balanced(bd.Value()) && NoRepeats(ids) && NoRepeats(refs) && Elems(ids) <= bd.escrows.Keys
    requires forall r :: r in refs ==> HasTask(bd.Value(), r.id, r.idx) && !bd.arrays[r.id].tasks[r.idx].settled
    modifies bd
    ensures bd.replaying == old(bd.replaying) && bd.durable == old(bd.durable)
    ensures
      var sure := old(bd.Appends(false));
      var jobs, tasks := Logged(Elems(ids), okJob, sure), Logged(Elems(refs), okTask, sure);
      Swept(old(bd.Value()), bd.Value(), jobs, tasks, bill) && swept == |jobs| + |tasks|
  {
    hide Swept, Balanced, HasTask, Logged;
    ghost var s0, sure := bd.Value(), bd.Appends(false);
    var nj := SettleJobs(bd, ids, bill, now, okJob);
    var nt := SettleTasks(bd, s0, Logged(Elems(ids), okJob, sure), refs, bill, now, okTask);
    return nj + nt;
  }

  method CollectUnboundTasks(bd: Budget, ttl: int, now: int) returns (refs: seq<TaskRef>)
    ensures NoRepeats(refs) && Elems(refs) == UnboundTasks(bd.Value(), ttl, now)
  {
    refs := [];
    var todo := bd.arrays.Keys;
    while todo != {}
      invariant todo <= bd.arrays.Keys && NoRepeats(refs)
      invariant forall r :: r in refs <==> UnboundTask(bd.Value(), r, ttl, now) && r.id !in todo
      decreases todo
    {
      var id :| id in todo;
      todo := todo - {id};
      var a := bd.arrays[id];
      if now - a.submitted < ttl {
        continue;
      }
      var anyStarted := false;
      for i := 0 to |a.tasks|
        invariant !anyStarted
        invariant forall j :: 0 <= j < i ==> !a.tasks[j].started
      {
        if a.tasks[i].started {
          anyStarted := true;
          break;
        }
      }
      if anyStarted {
        continue;
      }
      for i := 0 to |a.tasks|
        invariant NoRepeats(refs)
        invariant forall r :: r in refs <==>
          UnboundTask(bd.Value(), r, ttl, now) && r.id !in todo && (r.id == id ==> r.idx < i)
      {
        if !a.tasks[i].settled {
          refs := refs + [TaskRef(id, i)];
        }
      }
    }
  }

  method CollectOrphanTasks(bd: Budget, live: set<Id>) returns (refs: seq<TaskRef>)
    ensures NoRepeats(refs) && Elems(refs) == OrphanTasks(bd.Value(), live)
  {
    refs := [];
    var todo := bd.arrays.Keys;
    while todo != {}
      invariant todo <= bd.arrays.Keys && NoRepeats(refs)
      invariant forall r :: r in refs <==> OrphanTask(bd.Value(), r, live) && r.id !in todo
      decreases todo
    {
      var id :| id in todo;
      todo := todo - {id};
      if id in live {
        continue;
      }
      var a := bd.arrays[id];
      for i := 0 to |a.tasks|
        invariant NoRepeats(refs)
        invariant forall r :: r in refs <==>
          OrphanTask(bd.Value(), r, live) && r.id !in todo && (r.id == id ==> r.idx < i)
      {
        if a.tasks[i].started && !a.tasks[i].settled {
          refs := refs + [TaskRef(id, i)];
        }
      }
    }
  }

  /** Never-started work older than `ttl` is cancelled with a full refund, except where an append fails; nothing else moves. */
  method SweepUnbound(bd: Budget, ttl: int, now: int,
                      okJob: Id -> bool, okTask: TaskRef -> bool)
    returns (swept: nat)
    requires Balanced(bd.Value())
    modifies bd
    ensures bd.replaying == old(bd.replaying) && bd.durable == old(bd.durable)
    ensures
      var s0, sure := old(bd.Value()), old(bd.Appends(false));
      var jobs := Logged(UnboundJobs(s0, ttl, now), okJob, sure);
      var tasks := Logged(UnboundTasks(s0, ttl, now), okTask, sure);
      Swept(s0, bd.Value(), jobs, tasks, false) && swept == |jobs| + |tasks|
    ensures Ended(old(bd.Value()), bd.Value(), false)
    ensures UnboundLeft(old(bd.Value()), bd.Value(), ttl, now, okJob, okTask, old(bd.Appends(false)))
  {
    hide Swept, Balanced, Logged, UnboundLeft, Ended;
    ghost var s0, sure := bd.Value(), bd.Appends(false);
    var ids: seq<Id> := [];
    var todo := bd.escrows.Keys;
    while todo != {}
      invariant todo <= bd.escrows.Keys && NoRepeats(ids)
      invariant forall id :: id in ids <==> id in UnboundJobs(bd.Value(), ttl, now) && id !in todo
      decreases todo
    {
      var id :| id in todo;
      if UnboundJob(bd.escrows[id], ttl, now) {
        ids := ids + [id];
      }
      todo := todo - {id};
    }
    var refs := CollectUnboundTasks(bd, ttl, now);
    assert forall r :: r in refs <==> r in UnboundTasks(bd.Value(), ttl, now);
    assert Elems(ids) == UnboundJobs(bd.Value(), ttl, now) && Elems(refs) == UnboundTasks(bd.Value(), ttl, now);
    swept := SettleAll(bd, ids, refs, false, now, okJob, okTask);
    UnboundSweepLeaves(s0, bd.Value(), ttl, now, okJob, okTask, sure);
    SweepEnds(s0, bd.Value(), Logged(UnboundJobs(s0, ttl, now), okJob, sure), Logged(UnboundTasks(s0, ttl, now), okTask, sure), false);
  }

  /** Started work outside the live set is settled, refunded in full or billed in full, except where an append fails. */
  method SweepOrphans(bd: Budget, live: set<Id>, refund: bool, now: int,
                      okJob: Id -> bool, okTask: TaskRef -> bool)
    returns (swept: nat)
    requires Balanced(bd.Value())
    modifies bd
    ensures bd.replaying == old(bd.replaying) && bd.durable == old(bd.durable)
    ensures
      var s0, sure := old(bd.Value()), old(bd.Appends(false));
      var jobs := Logged(OrphanJobs(s0, live), okJob, sure);
      var tasks := Logged(OrphanTasks(s0, live), okTask, sure);
      Swept(s0, bd.Value(), jobs, tasks, !refund) && swept == |jobs| + |tasks|
    ensures Ended(old(bd.Value()), bd.Value(), !refund)
    ensures OrphansLeft(old(bd.Value()), bd.Value(), live, okJob, okTask, old(bd.Appends(false)))
  {
    hide Swept, Balanced, Logged, OrphansLeft, Ended;
    ghost var s0, sure := bd.Value(), bd.Appends(false);
    var ids: seq<Id> := [];
    var todo := bd.escrows.Keys;
    while todo != {}
      invariant todo <= bd.escrows.Keys && NoRepeats(ids)
      invariant forall id :: id in ids <==> id in OrphanJobs(bd.Value(), live) && id !in todo
      decreases todo
    {
      var id :| id in todo;
      if bd.escrows[id].started && id !in live {
        ids := ids + [id];
      }
      todo := todo - {id};
    }
    var refs := CollectOrphanTasks(bd, live);
    assert forall r :: r in refs <==> r in OrphanTasks(bd.Value(), live);
    assert Elems(ids) == OrphanJobs(bd.Value(), live) && Elems(refs) == OrphanTasks(bd.Value(), live);
    swept := SettleAll(bd, ids, refs, !refund, now, okJob, okTask);
    OrphanSweepLeaves(s0, bd.Value(), live, okJob, okTask, sure, !refund);
    SweepEnds(s0, bd.Value(), Logged(OrphanJobs(s0, live), okJob, sure), Logged(OrphanTasks(s0, live), okTask, sure), !refund);
  }

  lemma ArrayUnboundOrKept(s0: State, id: Id, ttl: int, now: int)
    requires id in s0.arrays && ArrayOK(s0.arrays[id])
    ensures
      var a, gone := s0.arrays[id], UnboundTasks(s0, ttl, now);
      if UnboundArray(a, ttl, now) then ClosedArray(id, a, gone).remaining == 0 else ClosedArray(id, a, gone) == a
  {
    var a, gone := s0.arrays[id], UnboundTasks(s0, ttl, now);
    if UnboundArray(a, ttl, now) {
      forall i | 0 <= i < |a.tasks|
        ensures ClosedTasks(id, a, gone)[i].settled
      {
        assert !a.tasks[i].settled ==> UnboundTask(s0, TaskRef(id, i), ttl, now);
      }
      CountNone(ClosedTasks(id, a, gone), Unsettled);
    } else {
      assert ClosedTasks(id, a, gone) == a.tasks;
    }
  }

  /** The unbound sweep removes whole arrays: those aged with no task ever started. */
  lemma UnboundSweepDropsWholeArrays(s0: State, s: State, ttl: int, now: int)
    requires Balanced(s0)
    requires Swept(s0, s, UnboundJobs(s0, ttl, now), UnboundTasks(s0, ttl, now), false)
    ensures s.escrows == s0.escrows - UnboundJobs(s0, ttl, now)
    ensures s.arrays == s0.arrays - set id | id in s0.arrays && UnboundArray(s0.arrays[id], ttl, now)
    ensures s.b - s0.b == s0.reservedTotal - s.reservedTotal && s.consumed == s0.consumed
  {
    var gone := UnboundTasks(s0, ttl, now);
    hide ClosedArray, UnboundArray, EscrowOK, Total;
    forall id | id in s0.arrays
      ensures if UnboundArray(s0.arrays[id], ttl, now) then ClosedArray(id, s0.arrays[id], gone).remaining == 0
              else ClosedArray(id, s0.arrays[id], gone) == s0.arrays[id]
      ensures 0 < s0.arrays[id].remaining
    {
      ArrayUnboundOrKept(s0, id, ttl, now);
    }
    hide ArrayOK;
  }

  /** What neither janitor owns: the never-started tasks of an array some task of which started. */
  predicate Unowned(s: State, r: TaskRef) {
    && HasTask(s, r.id, r.idx) && !NoneStarted(s.arrays[r.id].tasks)
    && !s.arrays[r.id].tasks[r.idx].started && !s.arrays[r.id].tasks[r.idx].settled
  }

  predicate AllAged(s: State, ttl: int, now: int) {
    && (forall id :: id in s.escrows ==> now - s.escrows[id].submitted >= ttl)
    && (forall id :: id in s.arrays ==> now - s.arrays[id].submitted >= ttl)
  }

  /** The orphan sweep with nothing live settles every started task and no other, and no
      task's started flag changes. */
  lemma OrphansSettleStarted(s: State, s': State, r: TaskRef, bill: bool)
    requires Swept(s, s', OrphanJobs(s, {}), OrphanTasks(s, {}), bill)
    ensures OpenTask(s', r) <==> OpenTask(s, r) && !s.arrays[r.id].tasks[r.idx].started
    ensures r.id in s'.arrays ==>
      && r.id in s.arrays
      && s'.arrays[r.id].submitted == s.arrays[r.id].submitted
      && (NoneStarted(s'.arrays[r.id].tasks) <==> NoneStarted(s.arrays[r.id].tasks))
    ensures OpenTask(s', r) ==> s'.arrays[r.id].tasks[r.idx] == s.arrays[r.id].tasks[r.idx]
  {
    hide Balanced;
    var gone := OrphanTasks(s, {});
    assert r in gone <==> OrphanTask(s, r, {});
    if r.id in s.arrays {
      var ts := ClosedTasks(r.id, s.arrays[r.id], gone);
      if 0 <= r.idx < |ts| && !ts[r.idx].settled {
        CountPositive(ts, Unsettled, r.idx);
      }
    }
  }

  lemma UnboundThenOrphans(s0: State, s1: State, s2: State, ttl: int, now: int, bill: bool, r: TaskRef)
    requires Balanced(s0) && AllAged(s0, ttl, now)
    requires s1.arrays == s0.arrays - set id | id in s0.arrays && UnboundArray(s0.arrays[id], ttl, now)
    requires OpenTask(s2, r) <==> OpenTask(s1, r) && !s1.arrays[r.id].tasks[r.idx].started
    ensures OpenTask(s2, r) <==> Unowned(s0, r)
  {
    hide Balanced;
    if r.id in s0.arrays {
      assert UnboundArray(s0.arrays[r.id], ttl, now) <==> NoneStarted(s0.arrays[r.id].tasks);
    }
    hide NoneStarted;
  }

  /** With everything aged and nothing live, the two sweeps leave no escrow, and leave open
      exactly the tasks that neither owned at the start. */
  lemma SweepsLeaveOnlyUnowned(s0: State, s1: State, s2: State, ttl: int, now: int, bill: bool)
    requires Balanced(s0) && AllAged(s0, ttl, now)
    requires Swept(s0, s1, UnboundJobs(s0, ttl, now), UnboundTasks(s0, ttl, now), false)
    requires Swept(s1, s2, OrphanJobs(s1, {}), OrphanTasks(s1, {}), bill)
    ensures s2.escrows == map[]
    ensures forall r :: OpenTask(s2, r) <==> Unowned(s0, r)
  {
    UnboundSweepDropsWholeArrays(s0, s1, ttl, now);
    hide Balanced, ClosedArrays, UnboundTasks;
    assert s2.escrows == map[];
    hide OpenTask, Unowned, UnboundArray, AllAged;
    forall r: TaskRef
      ensures OpenTask(s2, r) <==> Unowned(s0, r)
    {
      OrphansSettleStarted(s1, s2, r, bill);
      UnboundThenOrphans(s0, s1, s2, ttl, now, bill, r);
    }
  }

  lemma OrphansThenUnbound(s0: State, s1: State, s2: State, ttl: int, now: int, bill: bool, r: TaskRef)
    requires AllAged(s0, ttl, now)
    requires Swept(s0, s1, OrphanJobs(s0, {}), OrphanTasks(s0, {}), bill)
    requires s2.arrays == s1.arrays - set id | id in s1.arrays && UnboundArray(s1.arrays[id], ttl, now)
    ensures OpenTask(s2, r) <==> Unowned(s0, r)
  {
    OrphansSettleStarted(s0, s1, r, bill);
    hide Swept;
    if r.id in s1.arrays {
      assert UnboundArray(s1.arrays[r.id], ttl, now) <==> NoneStarted(s1.arrays[r.id].tasks);
    }
    hide NoneStarted;
  }

  /** The order of the two sweeps does not matter for what is left open. */
  lemma SweepsLeaveOnlyUnownedEitherOrder(s0: State, s1: State, s2: State, ttl: int, now: int, bill: bool)
    requires Balanced(s0) && AllAged(s0, ttl, now)
    requires Swept(s0, s1, OrphanJobs(s0, {}), OrphanTasks(s0, {}), bill)
    requires Swept(s1, s2, UnboundJobs(s1, ttl, now), UnboundTasks(s1, ttl, now), false)
    ensures s2.escrows == map[]
    ensures forall r :: OpenTask(s2, r) <==> Unowned(s0, r)
  {
    UnboundSweepDropsWholeArrays(s1, s2, ttl, now);
    hide Balanced, ClosedArrays, UnboundTasks, OrphanTasks;
    assert s2.escrows == map[];
    hide OpenTask, Unowned, UnboundArray, AllAged, Swept;
    forall r: TaskRef
      ensures OpenTask(s2, r) <==> Unowned(s0, r)
    {
      OrphansThenUnbound(s0, s1, s2, ttl, now, bill, r);
    }
  }
}
