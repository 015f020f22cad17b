/** The daemon's multi-source handlers: gate, settle and array-task routing
    (internal/daemon/server.go). The server maps account names to budgets; every kernel
    call is one locked step on one of them. */
module Server {
  import opened Arith
  import opened Kernel
  import opened Books
  import opened Funding
  import opened MultiSource
  import opened FanOut
  import opened Billing

  // ---- the legs of a funding plan ----

  /** The leg for the k-th slice of a plan. For an array the plan's unit is a task. */
  function LegAt(master: string, sources: seq<Name>, plan: seq<LegPlan>, w: int, isArray: bool, k: nat): Leg
    requires k < |plan| && plan[k].index < |sources| && 0 < plan[k].w
  {
    var lp := plan[k];
    if isArray then Leg(sources[lp.index], LegOf(master, lp.index), w, Seconds(plan[..k]), lp.w)
    else Leg(sources[lp.index], LegOf(master, lp.index), lp.w, 0, 0)
  }

  predicate PlanOK(plan: seq<LegPlan>, sources: seq<Name>) {
    && (forall k :: 0 <= k < |plan| ==> plan[k].index < |sources| && 0 < plan[k].w)
    && (forall j, k :: 0 <= j < k < |plan| ==> plan[j].index < plan[k].index)
  }

  predicate LegsOf(legs: seq<Leg>, master: string, sources: seq<Name>, plan: seq<LegPlan>, w: int, isArray: bool)
    requires PlanOK(plan, sources)
  {
    |legs| <= |plan| && forall k :: 0 <= k < |legs| ==> legs[k] == LegAt(master, sources, plan, w, isArray, k)
  }

  lemma PlanIsOK(balances: seq<int>, c: int, w: int, plan: seq<LegPlan>, sources: seq<Name>)
    requires 0 < c && GreedyPlan(balances, c, w, plan, |balances|) && |sources| == |balances|
    ensures PlanOK(plan, sources)
  {
    hide Capacities, Seconds, Capacity;
  }

  /** The reservations of the legs add up to the unit cost times the units planned. */
  lemma {:induction false} LegsCost(legs: seq<Leg>, master: string, sources: seq<Name>, plan: seq<LegPlan>,
                                    c: int, w: int, isArray: bool)
    requires PlanOK(plan, sources) && LegsOf(legs, master, sources, plan, w, isArray)
    ensures TotalCost(legs, c) == (if isArray then c * w else c) * Seconds(plan[..|legs|])
    decreases |legs|
  {
    if legs != [] {
      var n := |legs| - 1;
      LegsCost(legs[..n], master, sources, plan, c, w, isArray);
      assert plan[..n + 1][..n] == plan[..n];
      var unit := if isArray then c * w else c;
      assert CostOf(legs[n], c) == unit * plan[n].w;
      assert unit * (Seconds(plan[..n]) + plan[n].w) == unit * Seconds(plan[..n]) + unit * plan[n].w;
    }
  }

  /** The budget is as before: balance, totals and live work, up to bucket accrual. */
  ghost predicate Unmoved(s0: State, s: State) {
    s == s0.(bk := s.bk) && Quiet(s0.bk, s.bk)
  }

  lemma HoldsNothing(s0: State, s: State, a: Name, c: int, now: int)
    ensures Holds(s0, s, [], a, c, now) <==> Unmoved(s0, s)
  {
    assert s0.escrows + map[] == s0.escrows && s0.arrays + map[] == s0.arrays;
  }

  /** Every account holds exactly its share of `legs` on top of what it held before. */
  ghost predicate AllHold(before: map<Name, State>, after: map<Name, State>, legs: seq<Leg>, c: int, now: int) {
    && after.Keys == before.Keys
    && forall a :: a in before ==> Holds(before[a], after[a], legs, a, c, now)
  }

  lemma PlaceAllHold(before: map<Name, State>, after: map<Name, State>, legs: seq<Leg>, l: Leg, c: int, now: int, ok: bool)
    requires AllHold(before, after, legs, c, now) && 0 < c && l.acct in after && NotIn(l.id, legs)
    requires Call(after[l.acct], PlaceCmd(l, c, now), ok).err == Ok
    ensures AllHold(before, after[l.acct := Call(after[l.acct], PlaceCmd(l, c, now), ok).s], legs + [l], c, now)
  {
    hide Holds, Call, PlaceCmd;
    forall a | a in before
      ensures Holds(before[a], after[l.acct := Call(after[l.acct], PlaceCmd(l, c, now), ok).s][a], legs + [l], a, c, now)
    {
      if a == l.acct {
        PlaceHolds(before[a], after[a], legs, l, c, now, ok);
      } else {
        PlaceElsewhere(before[a], after[a], legs, l, a, c, now);
      }
    }
  }

  lemma UndoAllHold(before: map<Name, State>, after: map<Name, State>, l: Leg, rest: seq<Leg>, c: int, now: int,
                    ok: nat -> bool)
    requires (forall i :: 0 <= i < Max(1, l.n) ==> ok(i)) && AllHold(before, after, [l] + rest, c, now) && l.acct in after && 0 <= l.w
    requires NotIn(l.id, rest) && Absent(before[l.acct], l.id)
    ensures AllHold(before, after[l.acct := Undo(after[l.acct], l, now, ok)], rest, c, now)
  {
    hide Holds, Undo;
    forall a | a in before
      ensures Holds(before[a], after[l.acct := Undo(after[l.acct], l, now, ok)][a], rest, a, c, now)
    {
      if a == l.acct {
        UndoHolds(before[a], after[a], l, rest, c, now, ok);
      } else {
        UndoElsewhere(before[a], after[a], l, rest, a, c, now);
      }
    }
  }

  lemma NothingHeldYet(before: map<Name, State>, c: int, now: int)
    ensures AllHold(before, before, [], c, now)
  {
    forall a | a in before
      ensures Holds(before[a], before[a], [], a, c, now)
    {
      HoldsNothing(before[a], before[a], a, c, now);
    }
    hide Holds;
  }

  lemma NothingHeldAfter(before: map<Name, State>, after: map<Name, State>, c: int, now: int)
    requires AllHold(before, after, [], c, now)
    ensures after.Keys == before.Keys && forall a :: a in after ==> Unmoved(before[a], after[a])
  {
    forall a | a in after
      ensures Unmoved(before[a], after[a])
    {
      HoldsNothing(before[a], after[a], a, c, now);
    }
    hide Holds, Unmoved;
  }

  lemma SomethingHeldAfter(before: map<Name, State>, after: map<Name, State>, c: int, now: int)
    requires after.Keys == before.Keys && !AllHold(before, after, [], c, now)
    ensures exists a :: a in after && !Unmoved(before[a], after[a])
  {
    hide Holds, Unmoved;
    var a :| a in before && !Holds(before[a], after[a], [], a, c, now);
    HoldsNothing(before[a], after[a], a, c, now);
  }

  lemma AllHoldKeys(before: map<Name, State>, after: map<Name, State>, legs: seq<Leg>, c: int, now: int)
    requires AllHold(before, after, legs, c, now)
    ensures after.Keys == before.Keys
  {
  }

  function TasksBefore(legs: seq<Leg>, k: nat): int
    requires k <= |legs|
  {
    if k == 0 then 0 else TasksBefore(legs, k - 1) + legs[k - 1].n
  }

  /** Array legs own consecutive, non-empty ranges of task indices, from 0. */
  predicate Contiguous(legs: seq<Leg>) {
    forall k :: 0 <= k < |legs| ==> 0 < legs[k].n && legs[k].first == TasksBefore(legs, k)
  }

  lemma {:induction false} PlanTasks(legs: seq<Leg>, master: string, sources: seq<Name>, plan: seq<LegPlan>, w: int, k: nat)
    requires PlanOK(plan, sources) && LegsOf(legs, master, sources, plan, w, true) && k <= |legs|
    ensures TasksBefore(legs, k) == Seconds(plan[..k])
  {
    if k > 0 {
      PlanTasks(legs, master, sources, plan, w, k - 1);
      assert plan[..k][..k - 1] == plan[..k - 1];
    }
  }

  lemma LegsContiguous(legs: seq<Leg>, master: string, sources: seq<Name>, plan: seq<LegPlan>, w: int)
    requires PlanOK(plan, sources) && LegsOf(legs, master, sources, plan, w, true)
    ensures Contiguous(legs) && TasksBefore(legs, |legs|) == Seconds(plan[..|legs|])
  {
    hide Seconds, TasksBefore;
    PlanTasks(legs, master, sources, plan, w, |legs|);
    forall k | 0 <= k < |legs|
      ensures 0 < legs[k].n && legs[k].first == TasksBefore(legs, k)
    {
      PlanTasks(legs, master, sources, plan, w, k);
    }
  }

  /** No budget knows a leg token of this master yet. */
  ghost predicate FreshMaster(budgets: map<Name, State>, master: string) {
    forall a, i: nat :: a in budgets ==> Absent(budgets[a], LegOf(master, i))
  }

  /** The next leg is new to the placed ones and to its budget. */
  lemma NextLegIsNew(legs: seq<Leg>, l: Leg, budgets: map<Name, State>, master: string, sources: seq<Name>,
                     plan: seq<LegPlan>, w: int, isArray: bool)
    requires PlanOK(plan, sources) && LegsOf(legs, master, sources, plan, w, isArray) && |legs| < |plan|
    requires l == LegAt(master, sources, plan, w, isArray, |legs|) && FreshMaster(budgets, master)
    ensures NotIn(l.id, legs) && LegsOf(legs + [l], master, sources, plan, w, isArray)
    ensures l.acct in budgets ==> Absent(budgets[l.acct], l.id)
  {
    hide Seconds;
  }

  lemma LegsDistinct(legs: seq<Leg>, master: string, sources: seq<Name>, plan: seq<LegPlan>, w: int, isArray: bool)
    requires PlanOK(plan, sources) && LegsOf(legs, master, sources, plan, w, isArray)
    ensures Distinct(legs)
  {
    hide Seconds;
  }

  /** One leg for each slice of the plan, on the slice's own source: of a job the slice's
      seconds, of an array as many tasks of the whole walltime. */
  predicate Follows(legs: seq<Leg>, master: string, sources: seq<Name>, plan: seq<LegPlan>, w: int, isArray: bool) {
    |legs| == |plan| && forall k :: 0 <= k < |plan| ==>
      && plan[k].index < |sources|
      && legs[k].acct == sources[plan[k].index] && legs[k].id == LegOf(master, plan[k].index)
      && if isArray then legs[k].n == plan[k].w && legs[k].w == w else legs[k].n == 0 && legs[k].w == plan[k].w
  }

  lemma LegsFollow(legs: seq<Leg>, master: string, sources: seq<Name>, plan: seq<LegPlan>, w: int, isArray: bool)
    requires PlanOK(plan, sources) && LegsOf(legs, master, sources, plan, w, isArray) && |legs| == |plan|
    ensures Follows(legs, master, sources, plan, w, isArray)
  {
    hide Seconds;
  }

  predicate DistinctNames(sources: seq<Name>) {
    forall i, j :: 0 <= i < j < |sources| ==> sources[i] != sources[j]
  }

  lemma SliceCost(l: Leg, c: int, w: int, isArray: bool, x: int)
    requires if isArray then l.n == x > 0 && l.w == w else l.n == 0 && l.w == x
    ensures CostOf(l, c) == (if isArray then c * w else c) * x
  {
  }

  lemma ShareNonNeg(balances: seq<int>, c: int, w: int, j: nat)
    requires 0 < c && j < |balances|
    ensures 0 <= Share(balances, c, w, j)
  {
  }

  /** Of legs that follow a full plan over distinct sources, each source holds the cost of what
      it is to pay for. */
  lemma HeldBySource(legs: seq<Leg>, master: string, sources: seq<Name>, plan: seq<LegPlan>, balances: seq<int>,
                     c: int, w: int, isArray: bool, need: int, j: nat)
    requires Follows(legs, master, sources, plan, w, isArray) && DistinctNames(sources) && |balances| == |sources|
    requires
      var unit := if isArray then c * w else c;
      0 < unit && 0 < need && FullPlan(balances, unit, need, plan)
    requires j < |sources|
    ensures
      var unit := if isArray then c * w else c;
      Held(legs, sources[j], c) == unit * Share(balances, unit, need, j)
  {
    hide Seconds, Capacities, Capacity, Share, CostOf;
    var unit := if isArray then c * w else c;
    PlanFunds(balances, unit, need, plan, j);
    if exists k :: 0 <= k < |plan| && plan[k].index == j {
      var k :| 0 <= k < |plan| && plan[k].index == j;
      HeldByOne(legs, sources[j], c, k);
      SliceCost(legs[k], c, w, isArray, plan[k].w);
    } else {
      HeldNowhere(legs, sources[j], c);
      ShareNonNeg(balances, unit, need, j);
    }
  }

  // ---- array task routing ----

  predicate Owns(l: Leg, g: int) {
    0 < l.n && l.first <= g < l.first + l.n
  }

  lemma {:induction false} TasksMonotone(legs: seq<Leg>, i: nat, j: nat)
    requires i <= j <= |legs|
    ensures TasksBefore(legs, i) <= TasksBefore(legs, j)
    decreases j
  {
    if i < j {
      TasksMonotone(legs, i, j - 1);
    }
  }

  lemma {:induction false} OwnerExists(legs: seq<Leg>, k: nat, g: int) returns (i: nat)
    requires Contiguous(legs) && k <= |legs| && 0 <= g < TasksBefore(legs, k)
    ensures i < k && Owns(legs[i], g)
  {
    i := k - 1;
    if g < TasksBefore(legs, k - 1) {
      i := OwnerExists(legs, k - 1, g);
    }
  }

  lemma OwnedBelow(legs: seq<Leg>, i: nat, j: nat, g: int)
    requires Contiguous(legs) && i < j <= |legs| && Owns(legs[i], g)
    ensures g < TasksBefore(legs, j)
  {
    TasksMonotone(legs, i + 1, j);
  }

  lemma OwnedInRange(legs: seq<Leg>, i: nat, g: int)
    requires Contiguous(legs) && i < |legs| && Owns(legs[i], g)
    ensures 0 <= g < TasksBefore(legs, |legs|)
  {
    TasksMonotone(legs, 0, i);
    OwnedBelow(legs, i, |legs|, g);
  }

  /** Each index 0..N-1 belongs to exactly one leg, at one local index below that leg's
      task count, and no other index belongs to any. */
  lemma LegsPartitionTasks(legs: seq<Leg>, g: int)
    requires Contiguous(legs)
    ensures (exists i :: 0 <= i < |legs| && Owns(legs[i], g)) <==> 0 <= g < TasksBefore(legs, |legs|)
    ensures forall i, j :: 0 <= i < |legs| && 0 <= j < |legs| && Owns(legs[i], g) && Owns(legs[j], g) ==> i == j
  {
    hide TasksBefore;
    if 0 <= g < TasksBefore(legs, |legs|) {
      var i := OwnerExists(legs, |legs|, g);
    }
    forall i | 0 <= i < |legs| && Owns(legs[i], g)
      ensures 0 <= g < TasksBefore(legs, |legs|)
    {
      OwnedInRange(legs, i, g);
    }
    forall i, j | 0 <= i < j < |legs| && Owns(legs[i], g)
      ensures !Owns(legs[j], g)
    {
      OwnedBelow(legs, i, j, g);
    }
  }

  /** Leg k is the first that owns the index; of legs that partition the tasks, the only one. */
  predicate OwnerIs(legs: seq<Leg>, g: int, k: int) {
    0 <= k < |legs| && Owns(legs[k], g) && forall i :: 0 <= i < k ==> !Owns(legs[i], g)
  }

  lemma NoOwner(legs: seq<Leg>, g: int)
    ensures (exists k :: OwnerIs(legs, g, k)) ==> exists i :: 0 <= i < |legs| && Owns(legs[i], g)
  {
    hide Owns;
  }

  lemma OwnerUnique(legs: seq<Leg>, g: int, k: int)
    requires OwnerIs(legs, g, k)
    ensures forall i :: OwnerIs(legs, g, i) ==> i == k
    ensures exists i :: 0 <= i < |legs| && Owns(legs[i], g)
  {
    hide Owns;
  }

  /** The search over the legs: found exactly when some leg owns the index. The time slices of
      a job own none. */
  method LegForTask(legs: seq<Leg>, g: int) returns (k: nat, local: int, ok: bool)
    ensures ok ==> OwnerIs(legs, g, k) && local == g - legs[k].first && 0 <= local < legs[k].n
    ensures ok <==> exists i :: 0 <= i < |legs| && Owns(legs[i], g)
  {
    k := 0;
    while k < |legs|
      invariant 0 <= k <= |legs| && forall i :: 0 <= i < k ==> !Owns(legs[i], g)
    {
      var l := legs[k];
      if l.n > 0 && g >= l.first && g < l.first + l.n {
        return k, g - l.first, true;
      }
      k := k + 1;
    }
    return k, 0, false;
  }

  // ---- settling a multi-source job ----

  datatype SettleKind = SettleComplete | SettleTimeout | SettleCancel | SettleInfraFail

  function Slices(legs: seq<Leg>): seq<int> {
    seq(|legs|, i requires 0 <= i < |legs| => legs[i].w)
  }

  function SettleCmd(kind: SettleKind, legs: seq<Leg>, i: nat, runtime: int, now: int): Command
    requires i < |legs|
  {
    var share := LegRuntime(Slices(legs), i, runtime);
    match kind
    case SettleComplete => Complete(legs[i].id, share, now)
    case SettleTimeout => Timeout(legs[i].id, now)
    case SettleCancel => Cancel(legs[i].id, share, now)
    case SettleInfraFail => InfraFail(legs[i].id, share, now)
  }

  /** The fan-out over legs k.., each with its own share of the runtime and its own append. */
  function SettleFrom(budgets: map<Name, State>, kind: SettleKind, legs: seq<Leg>, runtime: int, now: int,
                      ok: nat -> bool, k: nat)
    : map<Name, State>
    requires k <= |legs| && forall i :: 0 <= i < |legs| ==> legs[i].acct in budgets
    decreases |legs| - k
  {
    if k == |legs| then budgets
    else
      var a := legs[k].acct;
      SettleFrom(budgets[a := Call(budgets[a], SettleCmd(kind, legs, k, runtime, now), ok(k)).s],
                 kind, legs, runtime, now, ok, k + 1)
  }

  /** Binding a multi-source job: every leg repriced, then every leg started. */
  function RepriceFrom(budgets: map<Name, State>, legs: seq<Leg>, rate: int, now: int, ok: nat -> bool, k: nat)
    : (after: map<Name, State>)
    requires k <= |legs| && forall i :: 0 <= i < |legs| ==> legs[i].acct in budgets
    ensures after.Keys == budgets.Keys
    decreases |legs| - k
  {
    if k == |legs| then budgets
    else
      var a := legs[k].acct;
      RepriceFrom(budgets[a := Call(budgets[a], Reprice(legs[k].id, rate, now), ok(k)).s], legs, rate, now, ok, k + 1)
  }

  function StartFrom(budgets: map<Name, State>, legs: seq<Leg>, now: int, ok: nat -> bool, k: nat): (after: map<Name, State>)
    requires k <= |legs| && forall i :: 0 <= i < |legs| ==> legs[i].acct in budgets
    ensures after.Keys == budgets.Keys
    decreases |legs| - k
  {
    if k == |legs| then budgets
    else
      var a := legs[k].acct;
      StartFrom(budgets[a := Call(budgets[a], Start(legs[k].id, now), ok(k)).s], legs, now, ok, k + 1)
  }

  function Bound(budgets: map<Name, State>, legs: seq<Leg>, rate: int, now: int, okRate: nat -> bool, okStart: nat -> bool)
    : (after: map<Name, State>)
    requires forall i :: 0 <= i < |legs| ==> legs[i].acct in budgets
    ensures after.Keys == budgets.Keys
  {
    StartFrom(if 0 < rate then RepriceFrom(budgets, legs, rate, now, okRate, 0) else budgets, legs, now, okStart, 0)
  }

  function StartCmds(legs: seq<Leg>, now: int): seq<Command> {
    seq(|legs|, i requires 0 <= i < |legs| => Start(legs[i].id, now))
  }

  function RepriceCmds(legs: seq<Leg>, rate: int, now: int): seq<Command> {
    seq(|legs|, i requires 0 <= i < |legs| => Reprice(legs[i].id, rate, now))
  }

  /** What a settle request calls on each leg, by its kind: each leg its own share. */
  function SettleCmds(kind: SettleKind, legs: seq<Leg>, runtime: int, now: int): seq<Command> {
    seq(|legs|, i requires 0 <= i < |legs| => SettleCmd(kind, legs, i, runtime, now))
  }

  /** What a bind calls on account a: a reprice of each of its legs if there is a rate to offer,
      then a start of each. */
  function BindOps(legs: seq<Leg>, a: Name, rate: int, now: int, okRate: nat -> bool, okStart: nat -> bool): seq<Op> {
    (if 0 < rate then OwnOps(legs, RepriceCmds(legs, rate, now), okRate, a, |legs|) else [])
    + OwnOps(legs, StartCmds(legs, now), okStart, a, |legs|)
  }

  lemma {:induction false} RepriceFansOut(before: map<Name, State>, budgets: map<Name, State>, legs: seq<Leg>, rate: int,
                                          now: int, ok: nat -> bool, k: nat)
    requires k <= |legs| && forall i :: 0 <= i < |legs| ==> legs[i].acct in budgets
    requires FannedOut(before, budgets, legs, RepriceCmds(legs, rate, now), ok, k)
    ensures FannedOut(before, RepriceFrom(budgets, legs, rate, now, ok, k), legs, RepriceCmds(legs, rate, now), ok, |legs|)
    decreases |legs| - k
  {
    hide Call, FannedOut;
    if k < |legs| {
      var a := legs[k].acct;
      FanOutOneMore(before, budgets, legs, RepriceCmds(legs, rate, now), ok, k);
      RepriceFansOut(before, budgets[a := Call(budgets[a], Reprice(legs[k].id, rate, now), ok(k)).s], legs, rate, now, ok, k + 1);
    }
  }

  lemma {:induction false} StartFansOut(before: map<Name, State>, budgets: map<Name, State>, legs: seq<Leg>, now: int,
                                        ok: nat -> bool, k: nat)
    requires k <= |legs| && forall i :: 0 <= i < |legs| ==> legs[i].acct in budgets
    requires FannedOut(before, budgets, legs, StartCmds(legs, now), ok, k)
    ensures FannedOut(before, StartFrom(budgets, legs, now, ok, k), legs, StartCmds(legs, now), ok, |legs|)
    decreases |legs| - k
  {
    hide Call, FannedOut;
    if k < |legs| {
      var a := legs[k].acct;
      FanOutOneMore(before, budgets, legs, StartCmds(legs, now), ok, k);
      StartFansOut(before, budgets[a := Call(budgets[a], Start(legs[k].id, now), ok(k)).s], legs, now, ok, k + 1);
    }
  }

  lemma {:induction false} SettleFansOut(before: map<Name, State>, budgets: map<Name, State>, kind: SettleKind, legs: seq<Leg>,
                                         runtime: int, now: int, ok: nat -> bool, k: nat)
    requires k <= |legs| && forall i :: 0 <= i < |legs| ==> legs[i].acct in budgets
    requires FannedOut(before, budgets, legs, SettleCmds(kind, legs, runtime, now), ok, k)
    ensures FannedOut(before, SettleFrom(budgets, kind, legs, runtime, now, ok, k), legs,
                      SettleCmds(kind, legs, runtime, now), ok, |legs|)
    decreases |legs| - k
  {
    hide Call, FannedOut, SettleCmd;
    if k < |legs| {
      var a := legs[k].acct;
      var cmd := SettleCmds(kind, legs, runtime, now)[k];
      assert cmd == SettleCmd(kind, legs, k, runtime, now);
      FanOutOneMore(before, budgets, legs, SettleCmds(kind, legs, runtime, now), ok, k);
      SettleFansOut(before, budgets[a := Call(budgets[a], cmd, ok(k)).s], kind, legs, runtime, now, ok, k + 1);
    }
  }

  /** The state account a is in after a bind's reprices. */
  function Repriced(s: State, legs: seq<Leg>, a: Name, rate: int, now: int, ok: nat -> bool): State {
    if 0 < rate then Run(s, OwnOps(legs, RepriceCmds(legs, rate, now), ok, a, |legs|)).s else s
  }

  lemma BindRunsInTwo(s: State, legs: seq<Leg>, a: Name, rate: int, now: int, okRate: nat -> bool, okStart: nat -> bool)
    ensures Run(s, BindOps(legs, a, rate, now, okRate, okStart)).s
            == Run(Repriced(s, legs, a, rate, now, okRate), OwnOps(legs, StartCmds(legs, now), okStart, a, |legs|)).s
  {
    var starts := OwnOps(legs, StartCmds(legs, now), okStart, a, |legs|);
    hide Run, OwnOps;
    if 0 < rate {
      RunConcat(s, OwnOps(legs, RepriceCmds(legs, rate, now), okRate, a, |legs|), starts);
    } else {
      assert [] + starts == starts;
    }
  }

  /** A bind runs on each account the calls on that account's own legs, and nothing else. */
  lemma BindFansOut(budgets: map<Name, State>, legs: seq<Leg>, rate: int, now: int, okRate: nat -> bool, okStart: nat -> bool)
    requires forall i :: 0 <= i < |legs| ==> legs[i].acct in budgets
    ensures
      var after := Bound(budgets, legs, rate, now, okRate, okStart);
      forall a :: a in budgets ==> after[a] == Run(budgets[a], BindOps(legs, a, rate, now, okRate, okStart)).s
  {
    hide Call, Run, OwnOps, BindOps;
    NothingFannedOut(budgets, legs, RepriceCmds(legs, rate, now), okRate);
    RepriceFansOut(budgets, budgets, legs, rate, now, okRate, 0);
    var mid := if 0 < rate then RepriceFrom(budgets, legs, rate, now, okRate, 0) else budgets;
    NothingFannedOut(mid, legs, StartCmds(legs, now), okStart);
    StartFansOut(mid, mid, legs, now, okStart, 0);
    hide RepriceFrom, StartFrom, RepriceCmds, StartCmds;
    forall a | a in budgets
      ensures Bound(budgets, legs, rate, now, okRate, okStart)[a]
              == Run(budgets[a], BindOps(legs, a, rate, now, okRate, okStart)).s
    {
      BindRunsInTwo(budgets[a], legs, a, rate, now, okRate, okStart);
    }
  }

  function TaskCmd(kind: SettleKind, l: Leg, local: int, runtime: int, now: int): Command {
    match kind
    case SettleComplete => CompleteTask(l.id, local, runtime, now)
    case SettleTimeout => TimeoutTask(l.id, local, now)
    case SettleCancel => CancelTask(l.id, local, runtime, now)
    case SettleInfraFail => InfraFailTask(l.id, local, runtime, now)
  }

  /** How many legs of the plan are placed, one after the other, before a source refuses one. */
  function PlacedCount(budgets: map<Name, State>, sources: seq<Name>, plan: seq<LegPlan>, c: int, w: int, isArray: bool,
                       master: string, now: int, ok: nat -> bool, k: nat): (n: nat)
    requires PlanOK(plan, sources) && k <= |plan| && forall i :: 0 <= i < |sources| ==> sources[i] in budgets
    ensures k <= n <= |plan|
    decreases |plan| - k
  {
    if k == |plan| then k
    else
      var l := LegAt(master, sources, plan, w, isArray, k);
      var o := Call(budgets[l.acct], PlaceCmd(l, c, now), ok(k));
      if o.err != Ok then k
      else PlacedCount(budgets[l.acct := o.s], sources, plan, c, w, isArray, master, now, ok, k + 1)
  }

  /** Every append a roll-back makes for the first m legs of the plan goes through: one cancel
      for a time slice, one for each task of an array leg. */
  predicate PlanUndone(plan: seq<LegPlan>, isArray: bool, undo: (nat, nat) -> bool, m: nat)
    requires m <= |plan|
  {
    forall j, i :: 0 <= j < m && 0 <= i < (if isArray then plan[j].w else 1) ==> undo(j, i)
  }

  function BalancesOf(budgets: map<Name, State>, sources: seq<Name>): (r: seq<int>)
    requires forall i :: 0 <= i < |sources| ==> sources[i] in budgets
    ensures |r| == |sources| && forall i :: 0 <= i < |r| ==> r[i] == budgets[sources[i]].b
  {
    seq(|sources|, i requires 0 <= i < |sources| => budgets[sources[i]].b)
  }

  /** The gate gets as far as placing legs: known sources, a positive price and need, and
      enough capacity in all. */
  predicate Fundable(budgets: map<Name, State>, sources: seq<Name>, c: int, w: int, nTasks: int) {
    && (forall i :: 0 <= i < |sources| ==> sources[i] in budgets)
    && var unit, need := if nTasks > 1 then c * w else c, if nTasks > 1 then nTasks else w;
    0 < c && 0 < unit && 0 < need <= Capacities(BalancesOf(budgets, sources), unit)
  }

  /** The one greedy plan of a fundable request. */
  predicate PlanFor(budgets: map<Name, State>, sources: seq<Name>, c: int, w: int, nTasks: int, plan: seq<LegPlan>)
    requires Fundable(budgets, sources, c, w, nTasks)
  {
    && FullPlan(BalancesOf(budgets, sources), if nTasks > 1 then c * w else c, if nTasks > 1 then nTasks else w, plan)
    && PlanOK(plan, sources)
  }

  /** When the gate admits: a fundable request, every leg of its plan accepted by its source. */
  ghost predicate Admits(budgets: map<Name, State>, sources: seq<Name>, c: int, w: int, nTasks: int, master: string,
                         now: int, ok: nat -> bool) {
    && Fundable(budgets, sources, c, w, nTasks)
    && exists plan :: PlanFor(budgets, sources, c, w, nTasks, plan)
         && PlacedCount(budgets, sources, plan, c, w, nTasks > 1, master, now, ok, 0) == |plan|
  }

  /** Every append that a rejection's roll-back makes, for the legs placed so far, goes through. */
  ghost predicate TakesBack(budgets: map<Name, State>, sources: seq<Name>, c: int, w: int, nTasks: int, master: string,
                            now: int, ok: nat -> bool, undo: (nat, nat) -> bool) {
    Fundable(budgets, sources, c, w, nTasks) ==>
      forall plan :: PlanFor(budgets, sources, c, w, nTasks, plan) ==>
        PlanUndone(plan, nTasks > 1, undo, PlacedCount(budgets, sources, plan, c, w, nTasks > 1, master, now, ok, 0))
  }

  /** The error a fan-out reports: its first. */
  function FirstError(budgets: map<Name, State>, kind: SettleKind, legs: seq<Leg>, runtime: int, now: int,
                      ok: nat -> bool, k: nat): Err
    requires k <= |legs| && forall i :: 0 <= i < |legs| ==> legs[i].acct in budgets
    decreases |legs| - k
  {
    if k == |legs| then Ok
    else
      var a := legs[k].acct;
      var o := Call(budgets[a], SettleCmd(kind, legs, k, runtime, now), ok(k));
      if o.err != Ok then o.err else FirstError(budgets[a := o.s], kind, legs, runtime, now, ok, k + 1)
  }

  // ---- what a settle request reports and bills ----

  /** The error of settling leg i: its token is unknown to its budget, or the append fails. */
  function LegError(budgets: map<Name, State>, legs: seq<Leg>, ok: nat -> bool, i: nat): Err
    requires i < |legs| && legs[i].acct in budgets
  {
    if legs[i].id !in budgets[legs[i].acct].escrows then NoSuchJob else if ok(i) then Ok else AppendFailed
  }

  /** `err` is the first error among legs k.., or none has any. */
  ghost predicate FirstOf(err: Err, budgets: map<Name, State>, legs: seq<Leg>, ok: nat -> bool, k: nat)
    requires forall i :: 0 <= i < |legs| ==> legs[i].acct in budgets
  {
    if err == Ok then forall i :: k <= i < |legs| ==> LegError(budgets, legs, ok, i) == Ok
    else exists i :: k <= i < |legs| && LegError(budgets, legs, ok, i) == err
           && forall j :: k <= j < i ==> LegError(budgets, legs, ok, j) == Ok
  }

  lemma SettleOneLeg(s: State, kind: SettleKind, legs: seq<Leg>, i: nat, runtime: int, now: int, ok: bool)
    requires i < |legs|
    ensures
      var o := Call(s, SettleCmd(kind, legs, i, runtime, now), ok);
      && o.err == (if legs[i].id !in s.escrows then NoSuchJob else if ok then Ok else AppendFailed)
      && forall id :: id != legs[i].id ==> (id in o.s.escrows <==> id in s.escrows)
  {
    hide Release, LegRuntime;
  }

  lemma FirstOfNext(err: Err, budgets: map<Name, State>, after: map<Name, State>, legs: seq<Leg>, ok: nat -> bool, k: nat)
    requires k < |legs| && Distinct(legs) && forall i :: 0 <= i < |legs| ==> legs[i].acct in budgets && legs[i].acct in after
    requires forall i :: k < i < |legs| ==>
      (legs[i].id in after[legs[i].acct].escrows <==> legs[i].id in budgets[legs[i].acct].escrows)
    requires LegError(budgets, legs, ok, k) == Ok && FirstOf(err, after, legs, ok, k + 1)
    ensures FirstOf(err, budgets, legs, ok, k)
  {
    forall i | k < i < |legs|
      ensures LegError(after, legs, ok, i) == LegError(budgets, legs, ok, i)
    {
    }
    hide LegError, Distinct;
  }

  /** A settle request reports the first leg whose token is unknown or whose append fails, and
      settles the rest all the same. */
  lemma {:induction false} ReportsFirst(budgets: map<Name, State>, kind: SettleKind, legs: seq<Leg>, runtime: int, now: int,
                                        ok: nat -> bool, k: nat)
    requires Distinct(legs) && k <= |legs| && forall i :: 0 <= i < |legs| ==> legs[i].acct in budgets
    ensures FirstOf(FirstError(budgets, kind, legs, runtime, now, ok, k), budgets, legs, ok, k)
    decreases |legs| - k
  {
    hide Call, SettleCmd;
    if k < |legs| {
      var a := legs[k].acct;
      SettleOneLeg(budgets[a], kind, legs, k, runtime, now, ok(k));
      var o := Call(budgets[a], SettleCmd(kind, legs, k, runtime, now), ok(k));
      assert o.err == LegError(budgets, legs, ok, k);
      if o.err == Ok {
        var after := budgets[a := o.s];
        ReportsFirst(after, kind, legs, runtime, now, ok, k + 1);
        FirstOfNext(FirstError(after, kind, legs, runtime, now, ok, k + 1), budgets, after, legs, ok, k);
      }
    }
  }

  predicate OpenAt(s: State, id: Id, idx: int) {
    HasTask(s, id, idx) && !s.arrays[id].tasks[idx].settled
  }

  /** What settling one task by a request of this kind is charged. */
  ghost predicate BilledByKind(kind: SettleKind, s: State, s': State, id: Id, idx: int, runtime: int)
    requires HasTask(s, id, idx)
  {
    var a, t := s.arrays[id], s.arrays[id].tasks[idx];
    var slice := a.c * a.w;
    match kind
    case SettleComplete => Charged(s, s', slice, a.c * Within(runtime, a.w), false)
    case SettleTimeout => Charged(s, s', slice, slice, false)
    case SettleCancel => Charged(s, s', slice, if t.started then a.c * Within(runtime, a.w) else 0, false)
    case SettleInfraFail => Charged(s, s', slice, a.c * Within(runtime, a.w), !s.billInfra)
  }

  lemma TaskRequestBills(s: State, kind: SettleKind, l: Leg, local: int, runtime: int, now: int)
    requires Balanced(s) && OpenAt(s, l.id, local)
    ensures
      var o := Call(s, TaskCmd(kind, l, local, runtime, now), true);
      o.err == Ok && BilledByKind(kind, s, o.s, l.id, local, runtime)
  {
    hide Call, Balanced, Charged;
    TaskBills(s, TaskCmd(kind, l, local, runtime, now));
  }

  /** Balanced books everywhere. */
  ghost predicate AllBalanced(budgets: map<Name, State>) {
    forall a :: a in budgets ==> Balanced(budgets[a])
  }

  lemma TaskRequestsBill(budgets: map<Name, State>, kind: SettleKind, l: Leg, local: int, runtime: int, now: int, ok: bool)
    requires l.acct in budgets
    ensures
      var s := budgets[l.acct];
      var o := Call(s, TaskCmd(kind, l, local, runtime, now), ok);
      ok && AllBalanced(budgets) && OpenAt(s, l.id, local) ==> o.err == Ok && BilledByKind(kind, s, o.s, l.id, local, runtime)
  {
    hide Call, Balanced, BilledByKind, OpenAt, TaskCmd;
    if ok && AllBalanced(budgets) && OpenAt(budgets[l.acct], l.id, local) {
      TaskRequestBills(budgets[l.acct], kind, l, local, runtime, now);
    }
  }

  /** The plan the gate computed is the plan that decides admission and roll-back. */
  lemma AdmitsByPlan(budgets: map<Name, State>, sources: seq<Name>, c: int, w: int, nTasks: int, master: string,
                     now: int, ok: nat -> bool, undo: (nat, nat) -> bool, plan: seq<LegPlan>)
    requires Fundable(budgets, sources, c, w, nTasks) && PlanFor(budgets, sources, c, w, nTasks, plan)
    ensures
      var n := PlacedCount(budgets, sources, plan, c, w, nTasks > 1, master, now, ok, 0);
      && (Admits(budgets, sources, c, w, nTasks, master, now, ok) <==> n == |plan|)
      && (TakesBack(budgets, sources, c, w, nTasks, master, now, ok, undo) <==> PlanUndone(plan, nTasks > 1, undo, n))
  {
    hide PlacedCount, PlanUndone, FullPlan, Capacities, PlanOK;
    var unit, need := if nTasks > 1 then c * w else c, if nTasks > 1 then nTasks else w;
    forall p | PlanFor(budgets, sources, c, w, nTasks, p)
      ensures p == plan
    {
      PlanUnique(BalancesOf(budgets, sources), unit, need, p, plan);
    }
  }

  /** Every append the roll-back makes for legs k.. goes through. */
  predicate UndoAppended(placed: seq<Leg>, ok: (nat, nat) -> bool, k: nat) {
    forall j, i :: k <= j < |placed| && 0 <= i < Max(1, placed[j].n) ==> ok(j, i)
  }

  lemma LegsUndone(placed: seq<Leg>, master: string, sources: seq<Name>, plan: seq<LegPlan>, w: int, isArray: bool,
                   undo: (nat, nat) -> bool)
    requires PlanOK(plan, sources) && LegsOf(placed, master, sources, plan, w, isArray)
    ensures UndoAppended(placed, undo, 0) <==> PlanUndone(plan, isArray, undo, |placed|)
  {
    hide Seconds;
    assert forall j :: 0 <= j < |placed| ==> Max(1, placed[j].n) == if isArray then plan[j].w else 1;
  }

  /** The outcomes of leg j's appends. */
  function Row(ok: (nat, nat) -> bool, j: nat): nat -> bool {
    (i: nat) => ok(j, i)
  }

  /** The roll-back from leg k on, in placement order; `ok(j, i)` is the outcome of the append
      for leg j's i-th cancel. */
  function UndoFrom(budgets: map<Name, State>, placed: seq<Leg>, now: int, ok: (nat, nat) -> bool, k: nat)
    : (after: map<Name, State>)
    requires k <= |placed| && forall i :: 0 <= i < |placed| ==> placed[i].acct in budgets
    ensures after.Keys == budgets.Keys
    decreases |placed| - k
  {
    if k == |placed| then budgets
    else
      var a := placed[k].acct;
      UndoFrom(budgets[a := Undo(budgets[a], placed[k], now, Row(ok, k))], placed, now, ok, k + 1)
  }

  /** A roll-back whose appends go through takes back everything the legs hold. */
  lemma {:induction false} UndoTakesAllBack(before: map<Name, State>, budgets: map<Name, State>, placed: seq<Leg>, c: int,
                                            now: int, ok: (nat, nat) -> bool, k: nat)
    requires UndoAppended(placed, ok, k) && k <= |placed| && AllHold(before, budgets, placed[k..], c, now) && Distinct(placed)
    requires forall i :: 0 <= i < |placed| ==>
      placed[i].acct in budgets && placed[i].acct in before && 0 <= placed[i].w && Absent(before[placed[i].acct], placed[i].id)
    ensures AllHold(before, UndoFrom(budgets, placed, now, ok, k), [], c, now)
    decreases |placed| - k
  {
    hide AllHold, Undo;
    if k == |placed| {
      assert placed[k..] == [];
    } else {
      var l := placed[k];
      assert placed[k..] == [l] + placed[k + 1..];
      UndoAllHold(before, budgets, l, placed[k + 1..], c, now, Row(ok, k));
      UndoTakesAllBack(before, budgets[l.acct := Undo(budgets[l.acct], l, now, Row(ok, k))], placed, c, now, ok, k + 1);
    }
  }

  lemma LegUndoKeepsBooks(s: State, l: Leg, now: int, ok: nat -> bool)
    requires Balanced(s)
    ensures Balanced(Undo(s, l, now, ok))
  {
    hide Balanced, CancelTasks;
    UndoKeepsBooks(s, l, 0, now, ok);
  }

  lemma {:induction false} UndoKeepsBalanced(budgets: map<Name, State>, placed: seq<Leg>, now: int,
                                             ok: (nat, nat) -> bool, k: nat)
    requires k <= |placed| && AllBalanced(budgets) && forall i :: 0 <= i < |placed| ==> placed[i].acct in budgets
    ensures AllBalanced(UndoFrom(budgets, placed, now, ok, k))
    decreases |placed| - k
  {
    hide Balanced, Undo;
    if k < |placed| {
      var l := placed[k];
      LegUndoKeepsBooks(budgets[l.acct], l, now, Row(ok, k));
      UndoKeepsBalanced(budgets[l.acct := Undo(budgets[l.acct], l, now, Row(ok, k))], placed, now, ok, k + 1);
    }
  }

  /** Legs k.. are in their budgets as placed. */
  predicate FreshFrom(budgets: map<Name, State>, placed: seq<Leg>, c: int, now: int, k: nat) {
    forall j :: k <= j < |placed| ==> placed[j].acct in budgets && Fresh(budgets[placed[j].acct], placed[j], c, now)
  }

  lemma PlacedAreFresh(before: map<Name, State>, budgets: map<Name, State>, placed: seq<Leg>, c: int, now: int)
    requires AllHold(before, budgets, placed, c, now) && Distinct(placed)
    requires forall j :: 0 <= j < |placed| ==> placed[j].acct in before
    ensures FreshFrom(budgets, placed, c, now, 0)
  {
    hide FreshEscrow, FreshArray, HeldEscrows, HeldArrays, Held;
    forall j | 0 <= j < |placed|
      ensures placed[j].acct in budgets && Fresh(budgets[placed[j].acct], placed[j], c, now)
    {
      var a := placed[j].acct;
      if placed[j].n == 0 {
        HeldEscrowAt(placed, a, c, now, j);
      } else {
        HeldArrayAt(placed, a, c, now, j);
      }
      assert Holds(before[a], budgets[a], placed, a, c, now);
    }
  }

  lemma UndoKeepsFresh(budgets: map<Name, State>, placed: seq<Leg>, c: int, now: int, ok: nat -> bool, k: nat)
    requires Distinct(placed) && k < |placed| && FreshFrom(budgets, placed, c, now, k)
    ensures FreshFrom(budgets[placed[k].acct := Undo(budgets[placed[k].acct], placed[k], now, ok)], placed, c, now, k + 1)
  {
    hide Undo, FreshEscrow, FreshArray;
    forall j | k + 1 <= j < |placed|
      ensures
        var after := budgets[placed[k].acct := Undo(budgets[placed[k].acct], placed[k], now, ok)];
        placed[j].acct in after && Fresh(after[placed[j].acct], placed[j], c, now)
    {
      assert placed[k].id != placed[j].id;
      UndoLeavesOthers(budgets[placed[k].acct], placed[k], now, ok, placed[j].id);
    }
  }

  /** A leg that survives its own undo survives the rest of the roll-back. */
  lemma {:induction false} SurvivorStays(budgets: map<Name, State>, placed: seq<Leg>, now: int, ok: (nat, nat) -> bool,
                                         k: nat, l: Leg)
    requires k <= |placed| && forall i :: 0 <= i < |placed| ==> placed[i].acct in budgets
    requires l.acct in budgets && Alive(budgets[l.acct], l) && forall j :: k <= j < |placed| ==> placed[j].id != l.id
    ensures Alive(UndoFrom(budgets, placed, now, ok, k)[l.acct], l)
    decreases |placed| - k
  {
    hide Undo;
    if k < |placed| {
      var a := placed[k].acct;
      UndoLeavesOthers(budgets[a], placed[k], now, Row(ok, k), l.id);
      SurvivorStays(budgets[a := Undo(budgets[a], placed[k], now, Row(ok, k))], placed, now, ok, k + 1, l);
    }
  }

  lemma UndoAppendedFrom(placed: seq<Leg>, ok: (nat, nat) -> bool, k: nat)
    requires k < |placed|
    ensures UndoAppended(placed, ok, k)
            <==> (forall i :: 0 <= i < Max(1, placed[k].n) ==> Row(ok, k)(i)) && UndoAppended(placed, ok, k + 1)
  {
    if (forall i :: 0 <= i < Max(1, placed[k].n) ==> Row(ok, k)(i)) && UndoAppended(placed, ok, k + 1) {
      forall j, i | k <= j < |placed| && 0 <= i < Max(1, placed[j].n)
        ensures ok(j, i)
      {
        assert Row(ok, k)(i) == ok(k, i);
      }
    }
    if UndoAppended(placed, ok, k) {
      forall i | 0 <= i < Max(1, placed[k].n)
        ensures Row(ok, k)(i)
      {
        assert ok(k, i);
      }
    }
  }

  /** One append of the roll-back that fails leaves its leg behind. */
  lemma {:induction false} FailedUndoLeavesLeg(budgets: map<Name, State>, placed: seq<Leg>, c: int, now: int,
                                               ok: (nat, nat) -> bool, k: nat)
    returns (j: nat)
    requires k <= |placed| && AllBalanced(budgets) && Distinct(placed) && FreshFrom(budgets, placed, c, now, k)
    requires forall i :: 0 <= i < |placed| ==> placed[i].acct in budgets
    requires !UndoAppended(placed, ok, k)
    ensures j < |placed| && Alive(UndoFrom(budgets, placed, now, ok, k)[placed[j].acct], placed[j])
    decreases |placed| - k
  {
    hide Undo, Balanced, Fresh, Alive, Row;
    var l := placed[k];
    UndoAppendedFrom(placed, ok, k);
    hide UndoAppended;
    var after := budgets[l.acct := Undo(budgets[l.acct], l, now, Row(ok, k))];
    UndoLeavesNothingIff(budgets[l.acct], l, c, now, now, Row(ok, k));
    if Alive(after[l.acct], l) {
      j := k;
      SurvivorStays(after, placed, now, ok, k + 1, l);
    } else {
      LegUndoKeepsBooks(budgets[l.acct], l, now, Row(ok, k));
      UndoKeepsFresh(budgets, placed, c, now, Row(ok, k), k);
      j := FailedUndoLeavesLeg(after, placed, c, now, ok, k + 1);
    }
  }

  /** A roll-back restores every budget exactly when each append it makes goes through. */
  lemma UndoRestoresIff(before: map<Name, State>, budgets: map<Name, State>, placed: seq<Leg>, c: int, now: int,
                        ok: (nat, nat) -> bool)
    requires AllHold(before, budgets, placed, c, now) && Distinct(placed)
    requires forall i :: 0 <= i < |placed| ==>
      placed[i].acct in budgets && placed[i].acct in before && 0 <= placed[i].w && Absent(before[placed[i].acct], placed[i].id)
    ensures UndoAppended(placed, ok, 0) ==> AllHold(before, UndoFrom(budgets, placed, now, ok, 0), [], c, now)
    ensures AllBalanced(budgets) && !UndoAppended(placed, ok, 0) ==>
      !AllHold(before, UndoFrom(budgets, placed, now, ok, 0), [], c, now)
  {
    hide UndoAppended, UndoFrom;
    assert placed[0..] == placed;
    var after := UndoFrom(budgets, placed, now, ok, 0);
    if UndoAppended(placed, ok, 0) {
      UndoTakesAllBack(before, budgets, placed, c, now, ok, 0);
    } else if AllBalanced(budgets) {
      PlacedAreFresh(before, budgets, placed, c, now);
      var j := FailedUndoLeavesLeg(budgets, placed, c, now, ok, 0);
      var a := placed[j].acct;
      HoldsNothing(before[a], after[a], a, c, now);
    }
  }

  lemma PositiveFactor(c: int, w: int, isArray: bool)
    requires 0 < c && 0 < if isArray then c * w else c
    ensures isArray ==> 0 < w
  {
    if w <= 0 {
      MulMono(w, 0, c);
    }
  }

  /** What the legs of an admitted request are: for a job, time slices that add up to its
      walltime; for an array, whole-walltime legs that partition its tasks. Together they
      reserve exactly what the request costs. */
  ghost predicate Funds(legs: seq<Leg>, c: int, w: int, nTasks: int) {
    && Distinct(legs)
    && if nTasks > 1 then
         && (forall i :: 0 <= i < |legs| ==> 0 < legs[i].n && legs[i].w == w > 0)
         && Contiguous(legs) && TasksBefore(legs, |legs|) == nTasks
         && TotalCost(legs, c) == c * w * nTasks
       else
         && (forall i :: 0 <= i < |legs| ==> legs[i].n == 0 && 0 < legs[i].w)
         && Sum(Slices(legs)) == w
         && TotalCost(legs, c) == c * w
  }

  lemma {:induction false} SlicesSum(legs: seq<Leg>, master: string, sources: seq<Name>, plan: seq<LegPlan>, w: int)
    requires PlanOK(plan, sources) && LegsOf(legs, master, sources, plan, w, false)
    ensures Sum(Slices(legs)) == Seconds(plan[..|legs|])
    decreases |legs|
  {
    if legs != [] {
      var n := |legs| - 1;
      SlicesSum(legs[..n], master, sources, plan, w);
      assert Slices(legs)[..n] == Slices(legs[..n]);
      assert plan[..n + 1][..n] == plan[..n];
    }
  }

  /** What a fully placed plan amounts to. */
  lemma GateAdmits(legs: seq<Leg>, master: string, sources: seq<Name>, plan: seq<LegPlan>, c: int, w: int, nTasks: int)
    requires PlanOK(plan, sources) && LegsOf(legs, master, sources, plan, w, nTasks > 1) && |legs| == |plan|
    requires Seconds(plan) == if nTasks > 1 then nTasks else w
    requires nTasks > 1 ==> 0 < w
    ensures Funds(legs, c, w, nTasks)
    ensures forall i :: 0 <= i < |legs| ==> legs[i].acct in sources
  {
    hide Distinct, TotalCost, Contiguous, TasksBefore, Seconds, Sum;
    assert plan[..|legs|] == plan;
    LegsDistinct(legs, master, sources, plan, w, nTasks > 1);
    LegsCost(legs, master, sources, plan, c, w, nTasks > 1);
    if nTasks > 1 {
      LegsContiguous(legs, master, sources, plan, w);
    } else {
      SlicesSum(legs, master, sources, plan, w);
    }
  }

  lemma PlaceKeepsBalanced(budgets: map<Name, State>, l: Leg, c: int, now: int, ok: bool)
    requires AllBalanced(budgets) && l.acct in budgets && 0 <= l.w
    ensures AllBalanced(budgets[l.acct := Call(budgets[l.acct], PlaceCmd(l, c, now), ok).s])
  {
    hide Balanced, Call;
    CallKeepsBooks(budgets[l.acct], PlaceCmd(l, c, now), ok);
  }

  /** What a rejection leaves: every budget restored exactly when the appends go through. */
  lemma RejectionLeaves(before: map<Name, State>, budgets: map<Name, State>, placed: seq<Leg>, master: string,
                        sources: seq<Name>, plan: seq<LegPlan>, c: int, w: int, isArray: bool, now: int,
                        undo: (nat, nat) -> bool)
    requires PlanOK(plan, sources) && LegsOf(placed, master, sources, plan, w, isArray)
    requires AllHold(before, budgets, placed, c, now)
    requires forall i :: 0 <= i < |placed| ==>
      placed[i].acct in budgets && placed[i].acct in before && 0 <= placed[i].w && Absent(before[placed[i].acct], placed[i].id)
    ensures
      var after := UndoFrom(budgets, placed, now, undo, 0);
      && (PlanUndone(plan, isArray, undo, |placed|) ==> AllHold(before, after, [], c, now))
      && (AllBalanced(budgets) && !PlanUndone(plan, isArray, undo, |placed|) ==> !AllHold(before, after, [], c, now))
      && (AllBalanced(budgets) ==> AllBalanced(after))
  {
    hide AllHold, AllBalanced, UndoFrom, UndoAppended, PlanUndone;
    LegsDistinct(placed, master, sources, plan, w, isArray);
    LegsUndone(placed, master, sources, plan, w, isArray, undo);
    UndoRestoresIff(before, budgets, placed, c, now, undo);
    if AllBalanced(budgets) {
      UndoKeepsBalanced(budgets, placed, now, undo, 0);
    }
  }

  lemma PlacedAll(budgets: map<Name, State>, sources: seq<Name>, plan: seq<LegPlan>, c: int, w: int, isArray: bool,
                  master: string, now: int, ok: nat -> bool)
    requires PlanOK(plan, sources) && forall i :: 0 <= i < |sources| ==> sources[i] in budgets
    ensures PlacedCount(budgets, sources, plan, c, w, isArray, master, now, ok, |plan|) == |plan|
  {
  }

  /** Where the placing loop stands: the placed legs are the plan's first, each budget holds its
      share of them, and the rest of the plan decides how far it gets. */
  ghost predicate PlacedSoFar(before: map<Name, State>, budgets: map<Name, State>, placed: seq<Leg>, sources: seq<Name>,
                              plan: seq<LegPlan>, c: int, w: int, isArray: bool, master: string, now: int,
                              ok: nat -> bool)
    requires PlanOK(plan, sources) && forall i :: 0 <= i < |sources| ==> sources[i] in before
  {
    && LegsOf(placed, master, sources, plan, w, isArray)
    && AllHold(before, budgets, placed, c, now)
    && budgets.Keys == before.Keys && (AllBalanced(before) ==> AllBalanced(budgets))
    && PlacedCount(budgets, sources, plan, c, w, isArray, master, now, ok, |placed|)
       == PlacedCount(before, sources, plan, c, w, isArray, master, now, ok, 0)
    && (forall i :: 0 <= i < |placed| ==>
          placed[i].acct in before && 0 <= placed[i].w && Absent(before[placed[i].acct], placed[i].id))
  }

  lemma NothingPlacedYet(before: map<Name, State>, sources: seq<Name>, plan: seq<LegPlan>, c: int, w: int, isArray: bool,
                         master: string, now: int, ok: nat -> bool)
    requires PlanOK(plan, sources) && forall i :: 0 <= i < |sources| ==> sources[i] in before
    ensures PlacedSoFar(before, before, [], sources, plan, c, w, isArray, master, now, ok)
  {
    hide AllHold, AllBalanced, PlacedCount;
    NothingHeldYet(before, c, now);
  }

  /** One more leg: placed, or refused and the count is final. */
  lemma PlaceNext(before: map<Name, State>, budgets: map<Name, State>, placed: seq<Leg>, sources: seq<Name>,
                  plan: seq<LegPlan>, c: int, w: int, isArray: bool, master: string, now: int, ok: nat -> bool)
    requires PlanOK(plan, sources) && FreshMaster(before, master) && 0 < c && (isArray ==> 0 < w)
    requires forall i :: 0 <= i < |sources| ==> sources[i] in before
    requires PlacedSoFar(before, budgets, placed, sources, plan, c, w, isArray, master, now, ok) && |placed| < |plan|
    ensures
      var l := LegAt(master, sources, plan, w, isArray, |placed|);
      && l.acct in budgets
      && var o := Call(budgets[l.acct], PlaceCmd(l, c, now), ok(|placed|));
      && (o.err != Ok ==> PlacedCount(before, sources, plan, c, w, isArray, master, now, ok, 0) == |placed|)
      && (o.err == Ok ==>
            PlacedSoFar(before, budgets[l.acct := o.s], placed + [l], sources, plan, c, w, isArray, master, now, ok))
  {
    hide AllHold, AllBalanced, FreshMaster, Seconds, Call;
    var l := LegAt(master, sources, plan, w, isArray, |placed|);
    NextLegIsNew(placed, l, before, master, sources, plan, w, isArray);
    var o := Call(budgets[l.acct], PlaceCmd(l, c, now), ok(|placed|));
    if o.err == Ok {
      PlaceAllHold(before, budgets, placed, l, c, now, ok(|placed|));
      if AllBalanced(budgets) {
        PlaceKeepsBalanced(budgets, l, c, now, ok(|placed|));
      }
    }
  }

  // ---- which source pays what ----

  /** Sources that can take a leg each: known, named once, open, without a rate ceiling. */
  predicate Ready(budgets: map<Name, State>, sources: seq<Name>, now: int) {
    && DistinctNames(sources)
    && forall i :: 0 <= i < |sources| ==>
         && sources[i] in budgets
         && var s := budgets[sources[i]];
            s.status == Active && s.bk.ts <= now < s.bk.te && s.k <= 0.0
  }

  /** The sources of slices k.. of the plan are as they were. */
  ghost predicate UntouchedFrom(before: map<Name, State>, budgets: map<Name, State>, sources: seq<Name>,
                                plan: seq<LegPlan>, k: nat)
    requires PlanOK(plan, sources) && forall i :: 0 <= i < |sources| ==> sources[i] in before
  {
    && (forall i :: 0 <= i < |sources| ==> sources[i] in budgets)
    && forall j :: k <= j < |plan| ==> budgets[sources[plan[j].index]] == before[sources[plan[j].index]]
  }

  /** The k-th slice's source, in the state `budgets` has it in, takes the slice. */
  predicate Takes(budgets: map<Name, State>, sources: seq<Name>, lp: LegPlan, c: int, w: int, isArray: bool,
                  master: string, now: int, ok: bool)
    requires lp.index < |sources| && sources[lp.index] in budgets
  {
    var id := LegOf(master, lp.index);
    Call(budgets[sources[lp.index]], if isArray then SubmitArray(id, c, lp.w, w, now) else Submit(id, c, lp.w, now), ok).err == Ok
  }

  lemma NextTakes(before: map<Name, State>, budgets: map<Name, State>, sources: seq<Name>, plan: seq<LegPlan>, c: int,
                  w: int, isArray: bool, master: string, now: int, ok: bool, k: nat)
    requires PlanOK(plan, sources) && k < |plan| && DistinctNames(sources)
    requires forall i :: 0 <= i < |sources| ==> sources[i] in before
    requires UntouchedFrom(before, budgets, sources, plan, k)
    ensures
      var l := LegAt(master, sources, plan, w, isArray, k);
      && l.acct in budgets
      && var o := Call(budgets[l.acct], PlaceCmd(l, c, now), ok);
      && (o.err == Ok <==> Takes(before, sources, plan[k], c, w, isArray, master, now, ok))
      && UntouchedFrom(before, budgets[l.acct := o.s], sources, plan, k + 1)
  {
    hide Seconds, Call;
  }

  lemma {:induction false} PlacedAllIff(before: map<Name, State>, budgets: map<Name, State>, sources: seq<Name>,
                                        plan: seq<LegPlan>, c: int, w: int, isArray: bool, master: string,
                                        now: int, ok: nat -> bool, k: nat)
    requires PlanOK(plan, sources) && k <= |plan| && DistinctNames(sources)
    requires forall i :: 0 <= i < |sources| ==> sources[i] in before
    requires UntouchedFrom(before, budgets, sources, plan, k)
    ensures PlacedCount(budgets, sources, plan, c, w, isArray, master, now, ok, k) == |plan|
            <==> forall j :: k <= j < |plan| ==> Takes(before, sources, plan[j], c, w, isArray, master, now, ok(j))
    decreases |plan| - k
  {
    hide DistinctNames, UntouchedFrom, Call, PlaceCmd, Takes, LegAt;
    if k < |plan| {
      NextTakes(before, budgets, sources, plan, c, w, isArray, master, now, ok(k), k);
      var l := LegAt(master, sources, plan, w, isArray, k);
      var o := Call(budgets[l.acct], PlaceCmd(l, c, now), ok(k));
      if o.err == Ok {
        PlacedAllIff(before, budgets[l.acct := o.s], sources, plan, c, w, isArray, master, now, ok, k + 1);
      }
    }
  }

  /** Each slice of the plan is one its own source would take by itself. */
  ghost predicate AllTake(budgets: map<Name, State>, sources: seq<Name>, c: int, w: int, nTasks: int, master: string,
                          now: int, ok: nat -> bool)
    requires Fundable(budgets, sources, c, w, nTasks)
  {
    exists plan :: PlanFor(budgets, sources, c, w, nTasks, plan)
      && forall k :: 0 <= k < |plan| ==> Takes(budgets, sources, plan[k], c, w, nTasks > 1, master, now, ok(k))
  }

  /** Over distinct sources the gate admits exactly when each source takes its slice. */
  lemma AdmitsIffAllTake(budgets: map<Name, State>, sources: seq<Name>, c: int, w: int, nTasks: int, master: string,
                         now: int, ok: nat -> bool)
    requires DistinctNames(sources) && Fundable(budgets, sources, c, w, nTasks)
    ensures Admits(budgets, sources, c, w, nTasks, master, now, ok)
            <==> AllTake(budgets, sources, c, w, nTasks, master, now, ok)
  {
    hide FullPlan, DistinctNames, PlacedCount, Capacities, Takes;
    forall plan | PlanFor(budgets, sources, c, w, nTasks, plan)
      ensures PlacedCount(budgets, sources, plan, c, w, nTasks > 1, master, now, ok, 0) == |plan|
              <==> forall k :: 0 <= k < |plan| ==> Takes(budgets, sources, plan[k], c, w, nTasks > 1, master, now, ok(k))
    {
      PlacedAllIff(budgets, budgets, sources, plan, c, w, nTasks > 1, master, now, ok, 0);
    }
    hide PlanOK;
  }

  /** A ready source takes the slice planned for it. */
  lemma ReadyTakes(budgets: map<Name, State>, sources: seq<Name>, c: int, w: int, isArray: bool, need: int,
                   master: string, now: int, plan: seq<LegPlan>, k: nat)
    requires 0 < c && 0 < (if isArray then c * w else c) && k < |plan| && PlanOK(plan, sources)
    requires FreshMaster(budgets, master) && Ready(budgets, sources, now)
    requires FullPlan(BalancesOf(budgets, sources), if isArray then c * w else c, need, plan)
    ensures Takes(budgets, sources, plan[k], c, w, isArray, master, now, true)
  {
    hide Seconds, Capacities, Capacity, Call, CostOf;
    PositiveFactor(c, w, isArray);
    var l := LegAt(master, sources, plan, w, isArray, k);
    assert Greedy(BalancesOf(budgets, sources), if isArray then c * w else c, need, plan, k);
    SliceCost(l, c, w, isArray, plan[k].w);
    PlaceAccepted(budgets[l.acct], l, c, now);
  }

  /** Over ready sources, with every append going through, the gate admits exactly what the
      capacities of the balances reach. */
  lemma ReadyAdmits(budgets: map<Name, State>, sources: seq<Name>, c: int, w: int, nTasks: int, master: string,
                    now: int, ok: nat -> bool, plan: seq<LegPlan>)
    requires FreshMaster(budgets, master) && Ready(budgets, sources, now) && forall i :: ok(i)
    requires Fundable(budgets, sources, c, w, nTasks) && PlanFor(budgets, sources, c, w, nTasks, plan)
    ensures Admits(budgets, sources, c, w, nTasks, master, now, ok)
  {
    AdmitsIffAllTake(budgets, sources, c, w, nTasks, master, now, ok);
    hide FullPlan, FreshMaster, Capacities, Takes, PlanOK, Admits;
    forall k | 0 <= k < |plan|
      ensures Takes(budgets, sources, plan[k], c, w, nTasks > 1, master, now, true)
    {
      ReadyTakes(budgets, sources, c, w, nTasks > 1, if nTasks > 1 then nTasks else w, master, now, plan, k);
    }
  }

  /** What decides an admission. */
  lemma GateDecides(budgets: map<Name, State>, sources: seq<Name>, c: int, w: int, nTasks: int, master: string,
                    now: int, ok: nat -> bool, plan: seq<LegPlan>)
    requires FreshMaster(budgets, master)
    requires Fundable(budgets, sources, c, w, nTasks) && PlanFor(budgets, sources, c, w, nTasks, plan)
    ensures DistinctNames(sources) ==>
      (Admits(budgets, sources, c, w, nTasks, master, now, ok) <==> AllTake(budgets, sources, c, w, nTasks, master, now, ok))
    ensures Ready(budgets, sources, now) && (forall i :: ok(i)) ==> Admits(budgets, sources, c, w, nTasks, master, now, ok)
  {
    hide PlanFor, FreshMaster, Ready, DistinctNames, Admits, AllTake, Fundable;
    if DistinctNames(sources) {
      AdmitsIffAllTake(budgets, sources, c, w, nTasks, master, now, ok);
    }
    if Ready(budgets, sources, now) && forall i :: ok(i) {
      ReadyAdmits(budgets, sources, c, w, nTasks, master, now, ok, plan);
    }
  }

  /** The legs follow the one greedy plan of the balances. */
  ghost predicate FollowsPlan(budgets: map<Name, State>, sources: seq<Name>, c: int, w: int, nTasks: int, master: string,
                              legs: seq<Leg>) {
    && Fundable(budgets, sources, c, w, nTasks)
    && exists plan :: PlanFor(budgets, sources, c, w, nTasks, plan) && Follows(legs, master, sources, plan, w, nTasks > 1)
  }

  /** Each source has paid for as much of the need as it can of what those before it leave. */
  ghost predicate PaidInOrder(before: map<Name, State>, after: map<Name, State>, sources: seq<Name>, c: int, w: int,
                              nTasks: int)
    requires Fundable(before, sources, c, w, nTasks) && after.Keys == before.Keys
  {
    var unit, need := if nTasks > 1 then c * w else c, if nTasks > 1 then nTasks else w;
    forall j :: 0 <= j < |sources| ==>
      after[sources[j]].b == before[sources[j]].b - unit * Share(BalancesOf(before, sources), unit, need, j)
  }

  lemma HeldIsPaid(s0: State, s: State, legs: seq<Leg>, a: Name, c: int, now: int)
    requires Holds(s0, s, legs, a, c, now)
    ensures s.b == s0.b - Held(legs, a, c)
  {
    hide Held, HeldEscrows, HeldArrays;
  }

  lemma LegsPaid(before: map<Name, State>, after: map<Name, State>, legs: seq<Leg>, sources: seq<Name>, c: int, w: int,
                 nTasks: int, master: string, now: int)
    requires AllHold(before, after, legs, c, now) && DistinctNames(sources)
    requires FollowsPlan(before, sources, c, w, nTasks, master, legs)
    ensures PaidInOrder(before, after, sources, c, w, nTasks)
  {
    hide Holds, FullPlan, Share, Capacities, Held, DistinctNames, Follows;
    var unit, need := if nTasks > 1 then c * w else c, if nTasks > 1 then nTasks else w;
    var balances := BalancesOf(before, sources);
    var plan :| PlanFor(before, sources, c, w, nTasks, plan) && Follows(legs, master, sources, plan, w, nTasks > 1);
    forall j | 0 <= j < |sources|
      ensures after[sources[j]].b == before[sources[j]].b - unit * Share(balances, unit, need, j)
    {
      HeldBySource(legs, master, sources, plan, balances, c, w, nTasks > 1, need, j);
      HeldIsPaid(before[sources[j]], after[sources[j]], legs, sources[j], c, now);
    }
  }

  class Server {
    var budgets: map<Name, State>
    var tokenLegs: map<string, seq<Leg>>
    var tokenArrayN: map<string, int>

    constructor (budgets: map<Name, State>)
      ensures this.budgets == budgets && tokenLegs == map[] && tokenArrayN == map[]
    {
      this.budgets, tokenLegs, tokenArrayN := budgets, map[], map[];
    }

    /** Undo the placed legs, in placement order: a job leg by one Cancel, an array leg by
        cancelling every task. The errors are ignored. */
    method RollBack(placed: seq<Leg>, now: int, ok: (nat, nat) -> bool)
      requires forall i :: 0 <= i < |placed| ==> placed[i].acct in budgets
      modifies this`budgets
      ensures budgets == UndoFrom(old(budgets), placed, now, ok, 0)
    {
      hide Call;
      for j := 0 to |placed|
        invariant budgets.Keys == old(budgets).Keys
        invariant UndoFrom(budgets, placed, now, ok, j) == UndoFrom(old(budgets), placed, now, ok, 0)
      {
        var l := placed[j];
        ghost var start := budgets[l.acct];
        var s := budgets[l.acct];
        if l.n == 0 {
          s := Call(s, Cancel(l.id, 0, now), ok(j, 0)).s;
        } else {
          for i := 0 to l.n
            invariant CancelTasks(s, l.id, i, l.n, now, Row(ok, j)) == Undo(start, l, now, Row(ok, j))
          {
            s := Call(s, CancelTask(l.id, i, 0, now), ok(j, i)).s;
          }
        }
        budgets := budgets[l.acct := s];
      }
    }

    /** Place one escrow per planned slice; on any failure undo the ones placed so far. */
    method PlaceLegs(sources: seq<Name>, plan: seq<LegPlan>, c: int, w: int, isArray: bool, master: string,
                     now: int, ok: nat -> bool, undo: (nat, nat) -> bool) returns (allow: bool)
      requires PlanOK(plan, sources) && FreshMaster(budgets, master) && 0 < c && (isArray ==> 0 < w)
      requires forall i :: 0 <= i < |sources| ==> sources[i] in budgets
      modifies this`budgets, this`tokenLegs
      ensures allow <==> PlacedCount(old(budgets), sources, plan, c, w, isArray, master, now, ok, 0) == |plan|
      ensures budgets.Keys == old(budgets).Keys
      ensures !allow ==> tokenLegs == old(tokenLegs)
      ensures !allow ==>
                var undone := PlanUndone(plan, isArray, undo, PlacedCount(old(budgets), sources, plan, c, w, isArray, master, now, ok, 0));
                && (undone ==> AllHold(old(budgets), budgets, [], c, now))
                && (AllBalanced(old(budgets)) && !undone ==> !AllHold(old(budgets), budgets, [], c, now))
      ensures allow ==>
                && master in tokenLegs && tokenLegs == old(tokenLegs)[master := tokenLegs[master]]
                && |tokenLegs[master]| == |plan|
                && LegsOf(tokenLegs[master], master, sources, plan, w, isArray)
                && Follows(tokenLegs[master], master, sources, plan, w, isArray)
                && AllHold(old(budgets), budgets, tokenLegs[master], c, now)
      ensures AllBalanced(old(budgets)) ==> AllBalanced(budgets)
    {
      hide AllBalanced, AllHold, FreshMaster, Seconds, Call, UndoFrom, PlanUndone, PlacedCount, Follows;
      ghost var before := budgets;
      NothingPlacedYet(before, sources, plan, c, w, isArray, master, now, ok);
      var placed: seq<Leg> := [];
      while |placed| < |plan|
        invariant tokenLegs == old(tokenLegs) && |placed| <= |plan|
        invariant PlacedSoFar(before, budgets, placed, sources, plan, c, w, isArray, master, now, ok)
        decreases |plan| - |placed|
      {
        PlaceNext(before, budgets, placed, sources, plan, c, w, isArray, master, now, ok);
        var l := LegAt(master, sources, plan, w, isArray, |placed|);
        var o := Call(budgets[l.acct], PlaceCmd(l, c, now), ok(|placed|));
        if o.err != Ok {
          RejectionLeaves(before, budgets, placed, master, sources, plan, c, w, isArray, now, undo);
          RollBack(placed, now, undo);
          return false;
        }
        budgets := budgets[l.acct := o.s];
        placed := placed + [l];
      }
      PlacedAll(budgets, sources, plan, c, w, isArray, master, now, ok);
      LegsFollow(placed, master, sources, plan, w, isArray);
      tokenLegs := tokenLegs[master := placed];
      allow := true;
    }

    /** The ordered-fallback gate. It is all or nothing: rejected, every source's totals
        and live work are exactly as before, whichever leg failed and even when a source is
        named twice, if and only if each append its roll-back makes goes through; admitted, the legs reserve exactly c times the
        walltime (times the task count for an array), as time slices that add up to the
        walltime, or as array legs that partition the tasks. */
    method GateMultiSource(sources: seq<Name>, c: int, w: int, nTasks: int, master: string, now: int,
                           ok: nat -> bool, undo: (nat, nat) -> bool) returns (allow: bool)
      requires FreshMaster(budgets, master)
      modifies this
      ensures budgets.Keys == old(budgets).Keys
      ensures allow <==> Admits(old(budgets), sources, c, w, nTasks, master, now, ok)
      ensures DistinctNames(sources) && Fundable(old(budgets), sources, c, w, nTasks) ==>
                (allow <==> AllTake(old(budgets), sources, c, w, nTasks, master, now, ok))
      ensures Ready(old(budgets), sources, now) && (forall i :: ok(i)) ==>
                (allow <==> Fundable(old(budgets), sources, c, w, nTasks))
      ensures !allow ==> tokenLegs == old(tokenLegs) && tokenArrayN == old(tokenArrayN)
      ensures !allow && TakesBack(old(budgets), sources, c, w, nTasks, master, now, ok, undo) ==>
                forall a :: a in budgets ==> Unmoved(old(budgets)[a], budgets[a])
      ensures !allow && AllBalanced(old(budgets)) && !TakesBack(old(budgets), sources, c, w, nTasks, master, now, ok, undo) ==>
                exists a :: a in budgets && !Unmoved(old(budgets)[a], budgets[a])
      ensures allow ==>
                && master in tokenLegs && tokenLegs == old(tokenLegs)[master := tokenLegs[master]]
                && AllHold(old(budgets), budgets, tokenLegs[master], c, now)
                && Funds(tokenLegs[master], c, w, nTasks)
                && FollowsPlan(old(budgets), sources, c, w, nTasks, master, tokenLegs[master])
                && (DistinctNames(sources) ==> PaidInOrder(old(budgets), budgets, sources, c, w, nTasks))
                && (forall i :: 0 <= i < |tokenLegs[master]| ==> tokenLegs[master][i].acct in budgets)
                && tokenArrayN == if nTasks > 1 then old(tokenArrayN)[master := nTasks] else old(tokenArrayN)
      ensures AllBalanced(old(budgets)) ==> AllBalanced(budgets)
    {
      hide AllHold, AllBalanced, Unmoved, GreedyPlan, Capacities, FreshMaster, LegsOf, Funds, Seconds, PlacedCount, PlanUndone;
      hide Follows, DistinctNames, PaidInOrder, Ready, AllTake;
      NothingHeldYet(budgets, c, now);
      NothingHeldAfter(budgets, budgets, c, now);
      if exists i :: 0 <= i < |sources| && sources[i] !in budgets {
        return false;
      }
      var isArray := nTasks > 1;
      var unit := if isArray then c * w else c;
      if c <= 0 || unit <= 0 {
        return false;
      }
      var need := if isArray then nTasks else w;
      var balances := BalancesOf(budgets, sources);
      var plan, fundable := FundingPlan(balances, unit, need);
      if !fundable {
        return false;
      }
      PlanIsOK(balances, unit, need, plan, sources);
      AdmitsByPlan(budgets, sources, c, w, nTasks, master, now, ok, undo, plan);
      PositiveFactor(c, w, isArray);
      GateDecides(budgets, sources, c, w, nTasks, master, now, ok, plan);
      allow := PlaceLegs(sources, plan, c, w, isArray, master, now, ok, undo);
      if allow {
        GateAdmits(tokenLegs[master], master, sources, plan, c, w, nTasks);
        AllHoldKeys(old(budgets), budgets, tokenLegs[master], c, now);
        if DistinctNames(sources) {
          LegsPaid(old(budgets), budgets, tokenLegs[master], sources, c, w, nTasks, master, now);
        }
        if isArray {
          tokenArrayN := tokenArrayN[master := nTasks];
        }
      } else {
        if AllHold(old(budgets), budgets, [], c, now) {
          NothingHeldAfter(old(budgets), budgets, c, now);
        } else {
          SomethingHeldAfter(old(budgets), budgets, c, now);
        }
      }
    }

    /** Bind a job: reprice all its legs if the node has a rate, then start them all. */
    method BindMultiSource(master: string, rate: int, now: int, okRate: nat -> bool, okStart: nat -> bool)
      requires master in tokenLegs && forall i :: 0 <= i < |tokenLegs[master]| ==> tokenLegs[master][i].acct in budgets
      modifies this`budgets
      ensures budgets == Bound(old(budgets), tokenLegs[master], rate, now, okRate, okStart)
      ensures forall a :: a in old(budgets) ==>
                budgets[a] == Run(old(budgets)[a], BindOps(tokenLegs[master], a, rate, now, okRate, okStart)).s
    {
      hide Call, BindOps, Run;
      BindFansOut(budgets, tokenLegs[master], rate, now, okRate, okStart);
      var legs := tokenLegs[master];
      if 0 < rate {
        for i := 0 to |legs|
          invariant forall j :: 0 <= j < |legs| ==> legs[j].acct in budgets
          invariant RepriceFrom(budgets, legs, rate, now, okRate, i) == RepriceFrom(old(budgets), legs, rate, now, okRate, 0)
        {
          var a := legs[i].acct;
          budgets := budgets[a := Call(budgets[a], Reprice(legs[i].id, rate, now), okRate(i)).s];
        }
      }
      ghost var repriced := budgets;
      for i := 0 to |legs|
        invariant forall j :: 0 <= j < |legs| ==> legs[j].acct in budgets
        invariant StartFrom(budgets, legs, now, okStart, i) == StartFrom(repriced, legs, now, okStart, 0)
      {
        var a := legs[i].acct;
        budgets := budgets[a := Call(budgets[a], Start(legs[i].id, now), okStart(i)).s];
      }
    }

    /** Bind one task of an array: it starts on the one leg that owns its index. */
    method BindArrayTask(master: string, idx: int, now: int, ok: bool) returns (bound: bool)
      requires master in tokenLegs
      requires forall i :: 0 <= i < |tokenLegs[master]| ==> tokenLegs[master][i].acct in budgets
      modifies this`budgets
      ensures (forall i :: 0 <= i < |tokenLegs[master]| ==> !Owns(tokenLegs[master][i], idx)) ==>
                !bound && budgets == old(budgets)
      ensures forall k :: OwnerIs(tokenLegs[master], idx, k) ==>
                var l := tokenLegs[master][k];
                var o := Call(old(budgets)[l.acct], StartTask(l.id, idx - l.first, now), ok);
                budgets == old(budgets)[l.acct := o.s] && (bound <==> o.err in {Ok, NoSuchJob, BadState})
    {
      hide Call, Owns, OwnerIs;
      var k, local, found := LegForTask(tokenLegs[master], idx);
      NoOwner(tokenLegs[master], idx);
      if !found {
        return false;
      }
      OwnerUnique(tokenLegs[master], idx, k);
      var l := tokenLegs[master][k];
      var o := Call(budgets[l.acct], StartTask(l.id, local, now), ok);
      budgets := budgets[l.acct := o.s];
      return o.err == Ok || o.err == NoSuchJob || o.err == BadState;
    }

    /** Settle one task of an array on the leg that owns it, then count it off; the routing
        goes with the last. */
    method SettleMultiSourceArrayTask(master: string, kind: SettleKind, idx: int, runtime: int, now: int, ok: bool)
      returns (settled: bool)
      requires master in tokenLegs
      requires forall i :: 0 <= i < |tokenLegs[master]| ==> tokenLegs[master][i].acct in budgets
      modifies this
      ensures
        var legs := old(tokenLegs)[master];
        && ((forall i :: 0 <= i < |legs| ==> !Owns(legs[i], idx)) ==> !settled && budgets == old(budgets))
        && (forall k :: OwnerIs(legs, idx, k) ==>
              var o := Call(old(budgets)[legs[k].acct], TaskCmd(kind, legs[k], idx - legs[k].first, runtime, now), ok);
              budgets == old(budgets)[legs[k].acct := o.s] && (settled <==> o.err == Ok))
        && (forall k :: OwnerIs(legs, idx, k) && ok && AllBalanced(old(budgets)) ==>
              var l, local := legs[k], idx - legs[k].first;
              OpenAt(old(budgets)[l.acct], l.id, local) ==>
                settled && BilledByKind(kind, old(budgets)[l.acct], budgets[l.acct], l.id, local, runtime))
      ensures
        var counted := settled && master in old(tokenArrayN);
        && tokenArrayN == (if !counted then old(tokenArrayN)
                           else if old(tokenArrayN)[master] <= 1 then old(tokenArrayN) - {master}
                           else old(tokenArrayN)[master := old(tokenArrayN)[master] - 1])
        && tokenLegs == if counted && old(tokenArrayN)[master] <= 1 then old(tokenLegs) - {master} else old(tokenLegs)
    {
      hide Call, Owns, OwnerIs, TaskCmd, AllBalanced, OpenAt, BilledByKind;
      var legs := tokenLegs[master];
      var k, local, found := LegForTask(legs, idx);
      NoOwner(legs, idx);
      if !found {
        return false;
      }
      OwnerUnique(legs, idx, k);
      var l := legs[k];
      TaskRequestsBill(budgets, kind, l, local, runtime, now, ok);
      var o := Call(budgets[l.acct], TaskCmd(kind, l, local, runtime, now), ok);
      budgets := budgets[l.acct := o.s];
      settled := o.err == Ok;
      if settled && master in tokenArrayN {
        if tokenArrayN[master] <= 1 {
          tokenArrayN := tokenArrayN - {master};
          tokenLegs := tokenLegs - {master};
        } else {
          tokenArrayN := tokenArrayN[master := tokenArrayN[master] - 1];
        }
      }
    }

    /** Settle every leg of a job with its share, and drop the job's routing regardless. */
    method SettleMultiSource(master: string, kind: SettleKind, runtime: int, now: int, ok: nat -> bool) returns (err: Err)
      requires master in tokenLegs && forall i :: 0 <= i < |tokenLegs[master]| ==> tokenLegs[master][i].acct in budgets
      modifies this`budgets, this`tokenLegs
      ensures budgets == SettleFrom(old(budgets), kind, old(tokenLegs)[master], runtime, now, ok, 0)
      ensures
        var legs := old(tokenLegs)[master];
        FannedOut(old(budgets), budgets, legs, SettleCmds(kind, legs, runtime, now), ok, |legs|)
      ensures tokenLegs == old(tokenLegs) - {master}
      ensures err == FirstError(old(budgets), kind, old(tokenLegs)[master], runtime, now, ok, 0)
      ensures Distinct(old(tokenLegs)[master]) ==> FirstOf(err, old(budgets), old(tokenLegs)[master], ok, 0)
    {
      hide Call, SettleCmd, FannedOut, Distinct, FirstOf;
      var legs := tokenLegs[master];
      if Distinct(legs) {
        ReportsFirst(budgets, kind, legs, runtime, now, ok, 0);
      }
      NothingFannedOut(budgets, legs, SettleCmds(kind, legs, runtime, now), ok);
      SettleFansOut(budgets, budgets, kind, legs, runtime, now, ok, 0);
      err := Ok;
      var i := 0;
      while i < |legs|
        invariant 0 <= i <= |legs| && tokenLegs == old(tokenLegs)
        invariant forall j :: 0 <= j < |legs| ==> legs[j].acct in budgets
        invariant SettleFrom(budgets, kind, legs, runtime, now, ok, i)
                  == SettleFrom(old(budgets), kind, legs, runtime, now, ok, 0)
        invariant FirstError(old(budgets), kind, legs, runtime, now, ok, 0)
                  == if err != Ok then err else FirstError(budgets, kind, legs, runtime, now, ok, i)
      {
        var o := Call(budgets[legs[i].acct], SettleCmd(kind, legs, i, runtime, now), ok(i));
        budgets := budgets[legs[i].acct := o.s];
        if o.err != Ok && err == Ok {
          err := o.err;
        }
        i := i + 1;
      }
      tokenLegs := tokenLegs - {master};
    }
  }
}
