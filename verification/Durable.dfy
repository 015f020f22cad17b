/** Snapshots and crash recovery on files: internal/budget/snapshot.go and the recovery
    half of durable.go, with the log scan of auditlog.go. */
module Durable {
  import opened TokenBucket
  import opened Kernel
  import opened Books
  import opened Recovery
  import opened LogFormat
  import opened ReadView
  import opened Budgets

  datatype EscrowSnap = EscrowSnap(id: Id, e: Escrow)

  datatype TaskSnap = TaskSnap(idx: nat, t: Task)

  /** `head` holds the array's own counters; its tasks are listed apart, in any order. */
  datatype ArraySnap = ArraySnap(id: Id, head: ArrayEscrow, n: nat, tasks: seq<TaskSnap>)

  /** Every field of a budget but its live work, and the log offset the snapshot covers.
      The two abstract float functions are code, not data: they are not saved. */
  datatype Snapshot = Snapshot(
    c: int, billInfra: bool, k: real,
    b: int, reservedTotal: int, consumed: int, writeOff: int, status: Status,
    on: bool, pct: real, drawCap: int, b0: int, ts: int, te: int,
    pot: int, frac: int, rLive: int, lastTouch: int,
    escrows: seq<EscrowSnap>, arrays: seq<ArraySnap>, walOffset: nat)

  /** The maps a list of records rebuilds: later records win. */
  function EscrowsFrom(l: seq<EscrowSnap>): map<Id, Escrow> {
    if l == [] then map[] else EscrowsFrom(l[..|l| - 1])[l[|l| - 1].id := l[|l| - 1].e]
  }

  function TasksFrom(n: nat, l: seq<TaskSnap>): (ts: seq<Task>)
    ensures |ts| == n
  {
    if l == [] then seq(n, _ => Task(false, false, 0))
    else
      var ts, t := TasksFrom(n, l[..|l| - 1]), l[|l| - 1];
      if t.idx < n then ts[t.idx := t.t] else ts
  }

  function ArrayFrom(a: ArraySnap): ArrayEscrow {
    a.head.(tasks := TasksFrom(a.n, a.tasks))
  }

  function ArraysFrom(l: seq<ArraySnap>): map<Id, ArrayEscrow> {
    if l == [] then map[] else ArraysFrom(l[..|l| - 1])[l[|l| - 1].id := ArrayFrom(l[|l| - 1])]
  }

  predicate WellFormed(s: Snapshot) {
    s.ts < s.te && 0 <= s.frac
  }

  type Ceil = (real, int) -> int
  type RateCmp = (int, int, int, real) -> bool

  /** The budget a snapshot stands for. */
  function Rebuild(s: Snapshot, ceil: Ceil, rateCmp: RateCmp): State
    requires WellFormed(s)
  {
    State(s.c, s.billInfra, s.k, rateCmp, s.b, s.reservedTotal, s.consumed, s.writeOff,
          Bucket(ceil, s.on, s.pct, s.drawCap, s.b0, s.ts, s.te, s.pot, s.frac, s.rLive, s.lastTouch),
          EscrowsFrom(s.escrows), ArraysFrom(s.arrays), s.status)
  }

  // ---- capture ----

  lemma EscrowsFromNone()
    ensures EscrowsFrom([]) == map[]
  {
  }

  lemma ArraysFromNone()
    ensures ArraysFrom([]) == map[]
  {
  }

  lemma EscrowsSnoc(l: seq<EscrowSnap>, x: EscrowSnap)
    ensures EscrowsFrom(l + [x]) == EscrowsFrom(l)[x.id := x.e]
  {
    assert (l + [x])[..|l|] == l;
  }

  lemma ArraysSnoc(l: seq<ArraySnap>, x: ArraySnap)
    ensures ArraysFrom(l + [x]) == ArraysFrom(l)[x.id := ArrayFrom(x)]
  {
    assert (l + [x])[..|l|] == l;
  }

  lemma OneFewerLeft<K, V>(m: map<K, V>, todo: set<K>, k: K)
    requires k in m && k in todo
    ensures (m - todo)[k := m[k]] == m - (todo - {k})
  {
  }

  method CaptureEscrows(bd: Budget) returns (l: seq<EscrowSnap>)
    ensures EscrowsFrom(l) == bd.escrows
  {
    hide EscrowsFrom;
    l := [];
    EscrowsFromNone();
    var todo := bd.escrows.Keys;
    while todo != {}
      invariant todo <= bd.escrows.Keys
      invariant EscrowsFrom(l) == bd.escrows - todo
      decreases todo
    {
      var id :| id in todo;
      var x := EscrowSnap(id, bd.escrows[id]);
      EscrowsSnoc(l, x);
      OneFewerLeft(bd.escrows, todo, id);
      l := l + [x];
      todo := todo - {id};
    }
    assert bd.escrows - {} == bd.escrows;
  }

  function Below(n: nat): (s: set<nat>)
    ensures forall i: nat :: i in s <==> i < n
  {
    if n == 0 then {} else Below(n - 1) + {n - 1}
  }

  /** Tasks may be listed in any order. */
  method CaptureTasks(ts: seq<Task>) returns (l: seq<TaskSnap>)
    ensures TasksFrom(|ts|, l) == ts
  {
    l := [];
    var todo := Below(|ts|);
    while todo != {}
      invariant forall i :: i in todo ==> i < |ts|
      invariant forall i :: 0 <= i < |ts| && i !in todo ==> TasksFrom(|ts|, l)[i] == ts[i]
      decreases todo
    {
      var i :| i in todo;
      var x := TaskSnap(i, ts[i]);
      assert (l + [x])[..|l|] == l;
      l := l + [x];
      todo := todo - {i};
    }
  }

  method CaptureArrays(bd: Budget) returns (l: seq<ArraySnap>)
    ensures ArraysFrom(l) == bd.arrays
  {
    hide ArraysFrom, TasksFrom;
    l := [];
    ArraysFromNone();
    var todo := bd.arrays.Keys;
    while todo != {}
      invariant todo <= bd.arrays.Keys
      invariant ArraysFrom(l) == bd.arrays - todo
      decreases todo
    {
      var id :| id in todo;
      var a := bd.arrays[id];
      var ts := CaptureTasks(a.tasks);
      var x := ArraySnap(id, a.(tasks := []), |a.tasks|, ts);
      assert ArrayFrom(x) == a;
      ArraysSnoc(l, x);
      OneFewerLeft(bd.arrays, todo, id);
      l := l + [x];
      todo := todo - {id};
    }
    assert bd.arrays - {} == bd.arrays;
  }

  /** Whatever order the maps are walked in, the snapshot rebuilds to the budget captured. */
  method CaptureSnapshot(bd: Budget, off: nat) returns (s: Snapshot)
    ensures WellFormed(s) && s.walOffset == off
    ensures Rebuild(s, bd.bk.ceil, bd.rateCmp) == bd.Value()
  {
    hide EscrowsFrom, ArraysFrom;
    var escrows := CaptureEscrows(bd);
    var arrays := CaptureArrays(bd);
    s := Snapshot(bd.c, bd.billInfra, bd.k, bd.b, bd.reservedTotal, bd.consumed, bd.writeOff, bd.status,
                  bd.bk.on, bd.bk.pct, bd.bk.drawCap, bd.bk.b0, bd.bk.ts, bd.bk.te,
                  bd.bk.pot, bd.bk.frac, bd.bk.rLive, bd.bk.lastTouch, escrows, arrays, off);
  }

  // ---- rebuild ----

  method RebuildTasks(n: nat, l: seq<TaskSnap>) returns (ts: seq<Task>)
    ensures ts == TasksFrom(n, l)
  {
    ts := seq(n, _ => Task(false, false, 0));
    assert l[..0] == [];
    for i := 0 to |l|
      invariant ts == TasksFrom(n, l[..i])
    {
      assert l[..i + 1][..i] == l[..i];
      if l[i].idx < n {
        ts := ts[l[i].idx := l[i].t];
      }
    }
    assert l[..|l|] == l;
  }

  method RebuildEscrows(l: seq<EscrowSnap>) returns (m: map<Id, Escrow>)
    ensures m == EscrowsFrom(l)
  {
    m := map[];
    for i := 0 to |l|
      invariant m == EscrowsFrom(l[..i])
    {
      assert l[..i + 1][..i] == l[..i];
      m := m[l[i].id := l[i].e];
    }
    assert l[..|l|] == l;
  }

  method RebuildArrays(l: seq<ArraySnap>) returns (m: map<Id, ArrayEscrow>)
    ensures m == ArraysFrom(l)
  {
    m := map[];
    for i := 0 to |l|
      invariant m == ArraysFrom(l[..i])
    {
      assert l[..i + 1][..i] == l[..i];
      var ts := RebuildTasks(l[i].n, l[i].tasks);
      m := m[l[i].id := l[i].head.(tasks := ts)];
    }
    assert l[..|l|] == l;
  }

  /** Rebuild a budget and seed its read view. */
  method BudgetFromSnapshot(s: Snapshot, ceil: Ceil, rateCmp: RateCmp) returns (bd: Budget)
    requires WellFormed(s)
    ensures fresh(bd) && bd.Value() == Rebuild(s, ceil, rateCmp) && bd.view == ViewOf(bd.Value())
    ensures !bd.durable && !bd.replaying && bd.log == []
  {
    hide EscrowsFrom, ArraysFrom;
    var escrows := RebuildEscrows(s.escrows);
    var arrays := RebuildArrays(s.arrays);
    var bk := Bucket(ceil, s.on, s.pct, s.drawCap, s.b0, s.ts, s.te, s.pot, s.frac, s.rLive, s.lastTouch);
    bd := new Budget.Restore(s.c, s.billInfra, s.k, rateCmp, s.b, s.reservedTotal, s.consumed, s.writeOff, bk,
                             escrows, arrays, s.status);
  }

  /** A fresh durable budget with burst configured, or not: the configuration is set before the
      first snapshot, which therefore rebuilds to the budget and covers no log. */
  method NewDurableBurst(c: int, b0: int, ts: int, te: int, k: real, billInfra: bool, ceil: Ceil, rateCmp: RateCmp,
                         on: bool, pct: real, cap: int)
    returns (bd: Budget, snap: Snapshot)
    requires ts < te
    ensures fresh(bd) && bd.durable && !bd.replaying && bd.log == [] && bd.view == ViewOf(bd.Value())
    ensures bd.Value() == if on then NewBurst(c, b0, ts, te, k, billInfra, ceil, rateCmp, pct, cap)
                          else New(c, b0, ts, te, k, billInfra, ceil, rateCmp)
    ensures WellFormed(snap) && snap.walOffset == 0 && Rebuild(snap, ceil, rateCmp) == bd.Value()
  {
    bd := new Budget(c, b0, ts, te, k, billInfra, ceil, rateCmp);
    if on {
      bd.bk := bd.bk.(on := true, pct := pct, drawCap := cap);
      bd.Publish();
    }
    snap := CaptureSnapshot(bd, 0);
    bd.durable := true;
  }

  // ---- recovery ----

  /** The check recovery ends with: the ledger adds up and every array's slices do. */
  predicate Conserved(s: State) {
    && s.b + s.reservedTotal + s.consumed + s.writeOff == s.bk.b0
    && forall id :: id in s.arrays ==> s.arrays[id].reserved == s.arrays[id].remaining * s.arrays[id].Slice()
  }

  lemma WhatIsConserved(s: State)
    ensures Conserved(s) <==>
      && s.b + s.reservedTotal + s.consumed + s.writeOff == s.bk.b0
      && forall id :: id in s.arrays ==> s.arrays[id].reserved == s.arrays[id].remaining * (s.arrays[id].c * s.arrays[id].w)
  {
  }

  method ConservationOKArrays(bd: Budget) returns (conserved: bool)
    ensures conserved <==> Conserved(bd.Value())
  {
    if bd.b + bd.reservedTotal + bd.consumed + bd.writeOff != bd.bk.b0 {
      return false;
    }
    var todo := bd.arrays.Keys;
    while todo != {}
      invariant todo <= bd.arrays.Keys
      invariant forall id :: id in bd.arrays && id !in todo ==>
        bd.arrays[id].reserved == bd.arrays[id].remaining * bd.arrays[id].Slice()
      decreases todo
    {
      var id :| id in todo;
      if bd.arrays[id].reserved != bd.arrays[id].remaining * bd.arrays[id].Slice() {
        return false;
      }
      todo := todo - {id};
    }
    return true;
  }

  /** What recovery from a snapshot and a log file computes. */
  function RecoverFile(s: Snapshot, k: Codec, file: seq<Byte>, ceil: Ceil, rateCmp: RateCmp): Recovered
    requires WellFormed(s)
  {
    Replay(Rebuild(s, ceil, rateCmp), Scan(k, file, s.walOffset).log)
  }

  /** Re-apply every intact record past the snapshot's offset; the first that fails to
      apply aborts. `good` is the offset where the last intact record applied ends. */
  method ReplayWAL(bd: Budget, k: Codec, file: seq<Byte>, off: nat) returns (good: nat, failed: bool)
    requires bd.replaying
    modifies bd
    ensures bd.replaying && bd.durable == old(bd.durable)
    ensures
      var r := Replay(old(bd.Value()), Scan(k, file, off).log);
      && (failed <==> r.ReplayFailed?)
      && (!failed ==> bd.Value() == r.s && good == Scan(k, file, off).good)
    ensures old(bd.log) == [] ==> bd.log == []
  {
    hide Call, NextRecord, ReadView.ViewOf;
    good, failed := off, false;
    ghost var rest := Scan(k, file, off);
    while true
      invariant bd.replaying && bd.durable == old(bd.durable) && !failed
      invariant Scan(k, file, good).good == Scan(k, file, off).good
      invariant Replay(bd.Value(), Scan(k, file, good).log) == Replay(old(bd.Value()), Scan(k, file, off).log)
      invariant old(bd.log) == [] ==> bd.log == []
      decreases |file| - good
    {
      match NextRecord(k, file, good) {
        case Torn => return;
        case Frame(cmd, end) =>
          assert Scan(k, file, good).log == [cmd] + Scan(k, file, end).log;
          assert ([cmd] + Scan(k, file, end).log)[1..] == Scan(k, file, end).log;
          var err := bd.ApplyCommand(cmd);
          if err != Ok {
            failed := true;
            return;
          }
          good := end;
      }
    }
  }

  /** Recover a budget: rebuild the snapshot, replay the log past its offset without
      logging, check conservation, and only then start appending. */
  method OpenBudget(s: Snapshot, k: Codec, file: seq<Byte>, ceil: Ceil, rateCmp: RateCmp) returns (bd: Budget?)
    requires WellFormed(s)
    ensures
      var r := RecoverFile(s, k, file, ceil, rateCmp);
      if r.Recovered? && Conserved(r.s) then
        bd != null && fresh(bd) && bd.Value() == r.s && bd.durable && !bd.replaying && bd.log == []
      else bd == null
    ensures bd != null ==>
              && bd.b + bd.reservedTotal + bd.consumed + bd.writeOff == bd.bk.b0
              && (forall id :: id in bd.arrays ==> bd.arrays[id].reserved == bd.arrays[id].remaining * (bd.arrays[id].c * bd.arrays[id].w))
  {
    hide Scan, Replay, Conserved, Rebuild, ReadView.ViewOf;
    bd := BudgetFromSnapshot(s, ceil, rateCmp);
    bd.replaying := true;
    var _, failed := ReplayWAL(bd, k, file, s.walOffset);
    bd.replaying := false;
    if failed {
      return null;
    }
    var conserved := ConservationOKArrays(bd);
    if !conserved {
      return null;
    }
    WhatIsConserved(bd.Value());
    bd.durable := true;
  }

  /** Whether a log holds a leg of transfer `xfer`: a top-up or a withdrawal with its tag. */
  predicate IsLeg(c: Command, deposit: bool, xfer: string) {
    if deposit then c.TopUp? && c.xfer == xfer else c.Withdraw? && c.xfer == xfer
  }

  method HasXfer(k: Codec, file: seq<Byte>, deposit: bool, xfer: string) returns (found: bool)
    ensures found <==> exists c :: c in Scan(k, file, 0).log && IsLeg(c, deposit, xfer)
  {
    hide NextRecord;
    found := false;
    var good := 0;
    ghost var seen: seq<Command> := [];
    while true
      invariant Scan(k, file, 0).log == seen + Scan(k, file, good).log
      invariant found <==> exists c :: c in seen && IsLeg(c, deposit, xfer)
      decreases |file| - good
    {
      match NextRecord(k, file, good) {
        case Torn =>
          assert seen + [] == seen;
          return;
        case Frame(cmd, end) =>
          seen := seen + [cmd];
          if IsLeg(cmd, deposit, xfer) {
            found := true;
          }
          good := end;
      }
    }
  }

  // ---- what a crash can lose ----

  lemma LogsOneAtMost(s: State, op: Op)
    ensures |Exec(s, op).log| <= 1
  {
    hide Call;
    if op.Do? {
      CallLogsItself(s, op.cmd, op.ok);
    }
  }

  /** How much of a run it takes to log j records. */
  function Upto(s: State, ops: seq<Op>, j: nat): (m: nat)
    ensures m <= |ops|
    decreases |ops|
  {
    if j == 0 || ops == [] then 0
    else
      var o := Exec(s, ops[0]);
      1 + Upto(o.s, ops[1..], if o.log == [] then j else j - 1)
  }

  lemma RunFrom(s: State, ops: seq<Op>)
    requires ops != []
    ensures Run(s, ops).log == Exec(s, ops[0]).log + Run(Exec(s, ops[0]).s, ops[1..]).log
  {
    hide Exec;
  }

  lemma PrefixFrom(o: seq<Command>, rest: seq<Command>, j: nat)
    requires |o| <= 1 && 0 < j <= |o + rest|
    ensures
      var i := if o == [] then j else j - 1;
      i <= |rest| && (o + rest)[..j] == o + rest[..i]
  {
  }

  lemma RunOfNone(s: State)
    ensures Run(s, []).log == []
  {
  }

  /** Each call logs at most one record, so every prefix of a run's log is the whole log of
      a prefix of the run. */
  lemma {:induction false} UptoIsPrefix(s: State, ops: seq<Op>, j: nat)
    requires j <= |Run(s, ops).log|
    ensures Run(s, ops[..Upto(s, ops, j)]).log == Run(s, ops).log[..j]
    decreases |ops|
  {
    hide Exec, Run;
    if j == 0 || ops == [] {
      assert ops[..0] == [];
      RunOfNone(s);
      if ops == [] {
        assert j == 0;
      }
    } else {
      var o := Exec(s, ops[0]);
      var i := if o.log == [] then j else j - 1;
      var m := Upto(o.s, ops[1..], i);
      LogsOneAtMost(s, ops[0]);
      RunFrom(s, ops);
      PrefixFrom(o.log, Run(o.s, ops[1..]).log, j);
      UptoIsPrefix(o.s, ops[1..], i);
      assert ops[..m + 1][0] == ops[0] && ops[..m + 1][1..] == ops[1..][..m];
      RunFrom(s, ops[..m + 1]);
    }
  }

  /** A prefix of a safe run is safe. */
  lemma PrefixIsSafe(s: State, ops: seq<Op>, m: nat)
    requires m <= |ops| && Safe(s, s.bk.lastTouch, ops) && NoneRefused(s, ops)
    ensures Safe(s, s.bk.lastTouch, ops[..m]) && NoneRefused(s, ops[..m])
  {
    assert ops[..m] + ops[m..] == ops;
    SafeSplits(s, s.bk.lastTouch, ops[..m], ops[m..]);
  }

  /** What matches balanced books passes the conservation check. */
  lemma MatchIsConserved(live: State, rec: State)
    requires Balanced(live) && Matches(live, rec)
    ensures Conserved(rec)
  {
    hide Accrue;
    forall id | id in live.arrays
      ensures ArrayOK(live.arrays[id])
    {
    }
  }

  /** The log of a run in two parts: it is the log of the run as a whole. */
  function WholeLog(s: State, ops1: seq<Op>, ops2: seq<Op>): (log: seq<Command>)
    ensures log == Run(s, ops1 + ops2).log
  {
    RunConcat(s, ops1, ops2);
    Run(s, ops1).log + Run(Run(s, ops1).s, ops2).log
  }

  /** A crash that keeps any byte prefix of the log, down to the snapshot's offset: recovery
      succeeds, and rebuilds a budget matching the live one as it stood at an earlier
      moment of the run, no earlier than the snapshot. */
  lemma CrashLosesOnlyASuffix(s: State, ops1: seq<Op>, ops2: seq<Op>, snap: Snapshot, k: Codec, n: nat)
    requires Sound(k, WholeLog(s, ops1, ops2)) && Safe(s, s.bk.lastTouch, ops1 + ops2) && NoneRefused(s, ops1 + ops2)
    requires WellFormed(snap) && Rebuild(snap, s.bk.ceil, s.rateCmp) == Run(s, ops1).s
    requires snap.walOffset == |Encode(k, Run(s, ops1).log)|
    requires snap.walOffset <= n <= |Encode(k, WholeLog(s, ops1, ops2))|
    ensures
      var file := Encode(k, WholeLog(s, ops1, ops2))[..n];
      var t1 := Run(s, ops1);
      var r := RecoverFile(snap, k, file, s.bk.ceil, s.rateCmp);
      var j := Fit(k, Run(t1.s, ops2).log, n - snap.walOffset);
      && r.Recovered?
      && Matches(Run(s, ops1 + ops2[..Upto(t1.s, ops2, j)]).s, r.s)
      && (Balanced(s) && (forall op :: op in ops1 + ops2 ==> Reasonable(op)) ==> Conserved(r.s))
  {
    hide Balanced, Conserved, Reasonable, Matches, Replay, Run, Upto, Encode, Scan, Fit, Rebuild, Framed, Safe, NoneRefused;
    var t1 := Run(s, ops1);
    var log2 := Run(t1.s, ops2).log;
    assert Sound(k, t1.log) && Sound(k, log2);
    hide Sound;
    EncodeConcat(k, t1.log, log2);
    var pre := Encode(k, t1.log);
    var m := n - |pre|;
    assert Encode(k, WholeLog(s, ops1, ops2))[..n] == pre + Encode(k, log2)[..m];
    PrefixScans(k, pre, log2, m);
    SafeSplits(s, s.bk.lastTouch, ops1, ops2);
    var j := Fit(k, log2, m);
    var u := Upto(t1.s, ops2, j);
    UptoIsPrefix(t1.s, ops2, j);
    PrefixIsSafe(t1.s, ops2, u);
    RecoveryMatchesLive(t1.s, ops2[..u]);
    RunConcat(s, ops1, ops2[..u]);
    if Balanced(s) && forall op :: op in ops1 + ops2 ==> Reasonable(op) {
      RunKeepsBooks(s, ops1 + ops2[..u]);
      MatchIsConserved(Run(s, ops1 + ops2[..u]).s, Replay(t1.s, log2[..j]).s);
    }
  }
}
