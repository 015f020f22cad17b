/** Routing of array-task settlements to the legs that own the tasks, with the daemon's
    counter decremented under its own lock, after the kernel call
    (settleMultiSourceArrayTask and settleArrayTask in internal/daemon/server.go). */
module Routing {
  import opened Sums
  import opened Kernel
  import opened Books
  import opened MultiSource
  import opened Server

  /** One array token: its legs, the routing counter while it is routed, and the settled
      requests that have yet to take the daemon's lock. A single-source array is one leg. */
  datatype Router = Router(budgets: map<Name, State>, legs: seq<Leg>, routed: bool, count: int, pending: nat)

  datatype Action =
    | SettleRequest(k: nat, cmd: Command, ok: bool)
    | Bookkeep
    | Kernel(a: Name, cmd: Command, ok: bool)

  /** Unsettled tasks of array `id`. */
  function Remaining(s: State, id: Id): int {
    if id in s.arrays then s.arrays[id].remaining else 0
  }

  /** Unsettled tasks of the first k legs. */
  function OutstandingTo(budgets: map<Name, State>, legs: seq<Leg>, k: nat): int
    requires k <= |legs| && forall i :: 0 <= i < |legs| ==> legs[i].acct in budgets
  {
    if k == 0 then 0
    else OutstandingTo(budgets, legs, k - 1) + Remaining(budgets[legs[k - 1].acct], legs[k - 1].id)
  }

  function Outstanding(budgets: map<Name, State>, legs: seq<Leg>): int
    requires forall i :: 0 <= i < |legs| ==> legs[i].acct in budgets
  {
    OutstandingTo(budgets, legs, |legs|)
  }

  predicate IsLegId(legs: seq<Leg>, id: Id) {
    exists i :: 0 <= i < |legs| && legs[i].id == id
  }

  /** A settle request on leg k; the kernel decides whether it goes through. */
  predicate MatchesLeg(r: Router, k: nat, cmd: Command) {
    r.routed && k < |r.legs| && SettlesTask(cmd) && cmd.id == r.legs[k].id && r.legs[k].acct in r.budgets
  }

  /** Starts, janitor sweeps, other jobs: anything but submitting a leg's token again. */
  predicate Unrelated(r: Router, a: Name, cmd: Command) {
    a in r.budgets && Reasonable(Do(cmd, true)) && !(cmd.SubmitArray? && IsLegId(r.legs, cmd.id))
  }

  function Step(r: Router, act: Action): Router {
    match act
    case SettleRequest(k, cmd, ok) =>
      if MatchesLeg(r, k, cmd) then
        var a := r.legs[k].acct;
        var o := Call(r.budgets[a], cmd, ok);
        r.(budgets := r.budgets[a := o.s], pending := if o.err == Ok then r.pending + 1 else r.pending)
      else r
    case Bookkeep =>
      if r.pending == 0 then r
      else if !r.routed then r.(pending := r.pending - 1)
      else if r.count <= 1 then r.(pending := r.pending - 1, routed := false)
      else r.(pending := r.pending - 1, count := r.count - 1)
    case Kernel(a, cmd, ok) =>
      if Unrelated(r, a, cmd) then r.(budgets := r.budgets[a := Call(r.budgets[a], cmd, ok).s]) else r
  }

  function Run(r: Router, acts: seq<Action>): Router
    decreases |acts|
  {
    if acts == [] then r else Run(Step(r, acts[0]), acts[1..])
  }

  ghost predicate WellFormed(r: Router) {
    && Distinct(r.legs)
    && (forall i :: 0 <= i < |r.legs| ==> r.legs[i].acct in r.budgets)
    && (forall a :: a in r.budgets ==> Balanced(r.budgets[a]))
  }

  /** The counter is never below the kernel's unsettled tasks plus the decrements still to
      come, and routing is gone only when nothing is unsettled. */
  ghost predicate Inv(r: Router) {
    && WellFormed(r)
    && (r.routed ==> Outstanding(r.budgets, r.legs) + r.pending <= r.count)
    && (!r.routed ==> Outstanding(r.budgets, r.legs) == 0)
  }

  lemma RemainingNonNeg(s: State, id: Id)
    requires Balanced(s)
    ensures 0 <= Remaining(s, id)
  {
    hide Total, EscrowOK;
  }

  lemma {:induction false} OutstandingNonNeg(budgets: map<Name, State>, legs: seq<Leg>, k: nat)
    requires k <= |legs| && forall i :: 0 <= i < |legs| ==> legs[i].acct in budgets
    requires forall a :: a in budgets ==> Balanced(budgets[a])
    ensures 0 <= OutstandingTo(budgets, legs, k)
  {
    hide Balanced, Remaining;
    if k > 0 {
      RemainingNonNeg(budgets[legs[k - 1].acct], legs[k - 1].id);
      OutstandingNonNeg(budgets, legs, k - 1);
    }
  }

  lemma TaskSettleRemaining(s: State, cmd: Command, id: Id)
    requires Balanced(s) && SettlesTask(cmd) && TaskLogged(s, cmd)
    ensures
      var o := SettleTask(s, cmd.id, cmd.idx, TaskRuntime(s, cmd), cmd.InfraFailTask? && !s.billInfra, cmd.now, [cmd]);
      Remaining(o.s, id) == Remaining(s, id) - if o.err == Ok && cmd.id == id then 1 else 0
  {
    SettleTaskKeepsBooks(s, cmd.id, cmd.idx, TaskRuntime(s, cmd), cmd.InfraFailTask? && !s.billInfra, cmd.now, [cmd]);
    if cmd.id in s.arrays {
      assert ArrayOK(s.arrays[cmd.id]);
    }
    hide SettleTask, Total, ArrayOK, EscrowOK;
  }

  lemma OtherRemaining(s: State, cmd: Command, ok: bool, id: Id)
    requires !SettlesTask(cmd) && !(cmd.SubmitArray? && cmd.id == id)
    ensures Remaining(Call(s, cmd, ok).s, id) == Remaining(s, id)
  {
    hide Dispatch, Release, Configure, RateOK;
  }

  /** No call moves an array's unsettled count but submitting it, and a task settlement that
      succeeds, which lowers it by exactly one. */
  lemma RemainingFalls(s: State, cmd: Command, ok: bool, id: Id)
    requires Balanced(s) && !(cmd.SubmitArray? && cmd.id == id)
    ensures Remaining(Call(s, cmd, ok).s, id)
            == Remaining(s, id) - if SettlesTask(cmd) && cmd.id == id && Call(s, cmd, ok).err == Ok then 1 else 0
  {
    if SettlesTask(cmd) {
      if TaskLogged(s, cmd) {
        SettleTaskKeepsBooks(s, cmd.id, cmd.idx, TaskRuntime(s, cmd), cmd.InfraFailTask? && !s.billInfra, cmd.now, [cmd]);
        TaskSettleRemaining(s, cmd, id);
      }
      hide SettleTask, Balanced;
    } else {
      OtherRemaining(s, cmd, ok, id);
      hide Call, Balanced;
    }
  }

  /** Running a call on one account never raises the outstanding count of the first k legs, and
      a successful settlement on one of them lowers it. */
  lemma {:induction false} OutstandingFalls(budgets: map<Name, State>, legs: seq<Leg>, a: Name, cmd: Command, ok: bool,
                                            leg: nat, k: nat)
    requires a in budgets && Balanced(budgets[a]) && k <= |legs|
    requires forall i :: 0 <= i < |legs| ==> legs[i].acct in budgets && !(cmd.SubmitArray? && cmd.id == legs[i].id)
    ensures
      var after := budgets[a := Call(budgets[a], cmd, ok).s];
      && OutstandingTo(after, legs, k) <= OutstandingTo(budgets, legs, k)
      && (leg < k && legs[leg].acct == a && SettlesTask(cmd) && cmd.id == legs[leg].id && Call(budgets[a], cmd, ok).err == Ok
          ==> OutstandingTo(after, legs, k) <= OutstandingTo(budgets, legs, k) - 1)
  {
    hide Call, Balanced, Remaining;
    if k > 0 {
      OutstandingFalls(budgets, legs, a, cmd, ok, leg, k - 1);
      RemainingFalls(budgets[a], cmd, ok, legs[k - 1].id);
    }
  }

  lemma CallKeepsWellFormed(r: Router, a: Name, cmd: Command, ok: bool)
    requires WellFormed(r) && a in r.budgets && Reasonable(Do(cmd, ok))
    ensures WellFormed(r.(budgets := r.budgets[a := Call(r.budgets[a], cmd, ok).s]))
  {
    hide Call, Balanced;
    CallKeepsBooks(r.budgets[a], cmd, ok);
  }

  lemma StepKeeps(r: Router, act: Action)
    requires Inv(r)
    ensures Inv(Step(r, act))
  {
    hide Call, Balanced, OutstandingTo;
    match act {
      case SettleRequest(k, cmd, ok) =>
        if MatchesLeg(r, k, cmd) {
          var a := r.legs[k].acct;
          OutstandingFalls(r.budgets, r.legs, a, cmd, ok, k, |r.legs|);
          CallKeepsWellFormed(r, a, cmd, ok);
        }
      case Bookkeep =>
        OutstandingNonNeg(r.budgets, r.legs, |r.legs|);
      case Kernel(a, cmd, ok) =>
        if Unrelated(r, a, cmd) {
          OutstandingFalls(r.budgets, r.legs, a, cmd, ok, |r.legs|, |r.legs|);
          CallKeepsWellFormed(r, a, cmd, ok);
          OutstandingNonNeg(r.budgets[a := Call(r.budgets[a], cmd, ok).s], r.legs, |r.legs|);
        }
    }
  }

  /** What the actions do. A settle request runs its call on its leg's budget; if the call goes
      through, its bookkeeping then takes one off the counter, and the last one the routing. Any
      other call just runs. */
  lemma RequestThenBookkeep(r: Router, k: nat, cmd: Command, ok: bool, a: Name)
    requires MatchesLeg(r, k, cmd) && r.pending == 0
    ensures
      var acct := r.legs[k].acct;
      var o := Call(r.budgets[acct], cmd, ok);
      var t := Step(Step(r, SettleRequest(k, cmd, ok)), Bookkeep);
      && t.budgets == r.budgets[acct := o.s] && t.legs == r.legs && t.pending == 0
      && (o.err != Ok ==> t.routed && t.count == r.count)
      && (o.err == Ok ==> (t.routed <==> 1 < r.count) && (t.routed ==> t.count == r.count - 1))
    ensures Unrelated(r, a, cmd) ==>
      Step(r, Kernel(a, cmd, ok)) == r.(budgets := r.budgets[a := Call(r.budgets[a], cmd, ok).s])
  {
    hide Call, Reasonable;
  }

  /** In every interleaving of settle requests, their bookkeeping, janitors and any other
      work: routing is dropped only when no task remains unsettled. */
  lemma {:induction false} RoutingOutlivesTasks(r: Router, acts: seq<Action>)
    requires Inv(r)
    ensures Inv(Run(r, acts))
    decreases |acts|
  {
    if acts != [] {
      StepKeeps(r, acts[0]);
      hide Step, Inv;
      RoutingOutlivesTasks(Step(r, acts[0]), acts[1..]);
    }
  }

  lemma PlacedRemaining(before: map<Name, State>, after: map<Name, State>, legs: seq<Leg>, c: int, now: int, k: nat)
    requires AllHold(before, after, legs, c, now) && Distinct(legs) && k < |legs| && 0 < legs[k].n && legs[k].acct in before
    ensures legs[k].acct in after && Remaining(after[legs[k].acct], legs[k].id) == legs[k].n
  {
    hide HeldArrays, Held, HeldEscrows;
    HeldArrayAt(legs, legs[k].acct, c, now, k);
    assert Holds(before[legs[k].acct], after[legs[k].acct], legs, legs[k].acct, c, now);
  }

  /** Legs whose arrays are whole have their task counts outstanding. */
  lemma {:induction false} WholeLegsOutstanding(budgets: map<Name, State>, legs: seq<Leg>, k: nat)
    requires k <= |legs| && forall i :: 0 <= i < |legs| ==> legs[i].acct in budgets
    requires forall i :: 0 <= i < |legs| ==> Remaining(budgets[legs[i].acct], legs[i].id) == legs[i].n
    ensures OutstandingTo(budgets, legs, k) == TasksBefore(legs, k)
  {
    hide Remaining;
    if k > 0 {
      WholeLegsOutstanding(budgets, legs, k - 1);
    }
  }

  /** What an admitted multi-source array starts with: the counter equals the unsettled tasks. */
  lemma GateStartsRouting(before: map<Name, State>, after: map<Name, State>, legs: seq<Leg>, c: int, now: int, k: nat)
    requires AllHold(before, after, legs, c, now) && Distinct(legs) && Contiguous(legs) && k <= |legs|
    requires forall i :: 0 <= i < |legs| ==> legs[i].acct in before
    ensures OutstandingTo(after, legs, k) == TasksBefore(legs, k)
  {
    hide Remaining, AllHold, Distinct, TasksBefore, OutstandingTo;
    AllHoldKeys(before, after, legs, c, now);
    forall i | 0 <= i < |legs|
      ensures Remaining(after[legs[i].acct], legs[i].id) == legs[i].n
    {
      PlacedRemaining(before, after, legs, c, now, i);
    }
    WholeLegsOutstanding(after, legs, k);
  }

  /** An admitted array starts with its counter equal to its unsettled tasks, so every run of
      its requests keeps the routing as long as a task remains. */
  lemma AdmittedArrayIsRouted(before: map<Name, State>, after: map<Name, State>, legs: seq<Leg>, c: int, w: int,
                              nTasks: int, now: int, acts: seq<Action>)
    requires AllHold(before, after, legs, c, now) && Funds(legs, c, w, nTasks) && 1 < nTasks && AllBalanced(after)
    requires forall i :: 0 <= i < |legs| ==> legs[i].acct in after
    ensures Outstanding(after, legs) == nTasks
    ensures Inv(Run(Router(after, legs, true, nTasks, 0), acts))
  {
    AllHoldKeys(before, after, legs, c, now);
    GateStartsRouting(before, after, legs, c, now, |legs|);
    hide OutstandingTo, Balanced, Run, Contiguous, AllHold;
    RoutingOutlivesTasks(Router(after, legs, true, nTasks, 0), acts);
  }

  /** A whole-job settle request on an array's token settles nothing in any budget; the
      handler drops the routing all the same, so requests must match the token's kind. */
  lemma {:induction false} WholeSettleOfArrayDoesNothing(budgets: map<Name, State>, kind: SettleKind, legs: seq<Leg>,
                                                         runtime: int, now: int, ok: nat -> bool, k: nat)
    requires k <= |legs| && forall i :: 0 <= i < |legs| ==> legs[i].acct in budgets && legs[i].id !in budgets[legs[i].acct].escrows
    ensures SettleFrom(budgets, kind, legs, runtime, now, ok, k) == budgets
    decreases |legs| - k
  {
    if k < |legs| {
      var a := legs[k].acct;
      assert Call(budgets[a], SettleCmd(kind, legs, k, runtime, now), ok(k)).s == budgets[a];
      assert budgets[a := budgets[a]] == budgets;
      hide Call, SettleCmd;
      WholeSettleOfArrayDoesNothing(budgets, kind, legs, runtime, now, ok, k + 1);
    }
  }

  // ---- when nothing else settles the tasks ----

  lemma {:induction false} OutstandingSame(budgets: map<Name, State>, legs: seq<Leg>, a: Name, cmd: Command, ok: bool, k: nat)
    requires a in budgets && Balanced(budgets[a]) && k <= |legs| && !(SettlesTask(cmd) && IsLegId(legs, cmd.id))
    requires forall i :: 0 <= i < |legs| ==> legs[i].acct in budgets && !(cmd.SubmitArray? && cmd.id == legs[i].id)
    ensures OutstandingTo(budgets[a := Call(budgets[a], cmd, ok).s], legs, k) == OutstandingTo(budgets, legs, k)
  {
    hide Call, Balanced, Remaining;
    if k > 0 {
      OutstandingSame(budgets, legs, a, cmd, ok, k - 1);
      RemainingFalls(budgets[a], cmd, ok, legs[k - 1].id);
    }
  }

  /** A settle request on leg j takes one off the outstanding count, or nothing if it is refused. */
  lemma {:induction false} OutstandingByOne(budgets: map<Name, State>, legs: seq<Leg>, j: nat, cmd: Command, ok: bool, k: nat)
    requires j < |legs| && k <= |legs| && Distinct(legs) && SettlesTask(cmd) && cmd.id == legs[j].id
    requires forall i :: 0 <= i < |legs| ==> legs[i].acct in budgets && Balanced(budgets[legs[i].acct])
    ensures
      var a := legs[j].acct;
      var o := Call(budgets[a], cmd, ok);
      OutstandingTo(budgets[a := o.s], legs, k) == OutstandingTo(budgets, legs, k) - if j < k && o.err == Ok then 1 else 0
  {
    hide Call, Balanced, Remaining;
    if k > 0 {
      OutstandingByOne(budgets, legs, j, cmd, ok, k - 1);
      RemainingFalls(budgets[legs[j].acct], cmd, ok, legs[k - 1].id);
    }
  }

  /** The call settles no task of the legs behind the daemon's back. */
  predicate NotBehind(r: Router, act: Action) {
    act.Kernel? ==> !(SettlesTask(act.cmd) && IsLegId(r.legs, act.cmd.id))
  }

  /** The array is routed exactly as long as something is unsettled or yet to be counted off,
      and the counter is exactly that. */
  ghost predicate Exact(r: Router) {
    && WellFormed(r)
    && (r.routed ==> 0 < r.count == Outstanding(r.budgets, r.legs) + r.pending)
    && (!r.routed ==> Outstanding(r.budgets, r.legs) == 0 && r.pending == 0)
  }

  lemma StepKeepsExact(r: Router, act: Action)
    requires Exact(r) && NotBehind(r, act)
    ensures Exact(Step(r, act)) && Step(r, act).legs == r.legs
  {
    hide Call, Balanced, OutstandingTo;
    OutstandingNonNeg(r.budgets, r.legs, |r.legs|);
    match act {
      case SettleRequest(k, cmd, ok) =>
        if MatchesLeg(r, k, cmd) {
          OutstandingByOne(r.budgets, r.legs, k, cmd, ok, |r.legs|);
          CallKeepsWellFormed(r, r.legs[k].acct, cmd, ok);
        }
      case Bookkeep =>
      case Kernel(a, cmd, ok) =>
        if Unrelated(r, a, cmd) {
          OutstandingSame(r.budgets, r.legs, a, cmd, ok, |r.legs|);
          CallKeepsWellFormed(r, a, cmd, ok);
        }
    }
  }

  /** Where only its requests settle an array's tasks, in every interleaving: the counter is
      exact, and the routing goes with the last task that is counted off. */
  lemma {:induction false} RoutingIsExact(r: Router, acts: seq<Action>)
    requires Exact(r) && forall i :: 0 <= i < |acts| ==> NotBehind(r, acts[i])
    ensures Exact(Run(r, acts))
    decreases |acts|
  {
    if acts != [] {
      StepKeepsExact(r, acts[0]);
      hide Step, Exact;
      forall i | 1 <= i < |acts|
        ensures NotBehind(Step(r, acts[0]), acts[i])
      {
        assert NotBehind(r, acts[i]);
      }
      RoutingIsExact(Step(r, acts[0]), acts[1..]);
    }
  }

  /** So an admitted array is routed exactly until its last task has been counted off. */
  lemma AdmittedArrayIsRoutedExactly(before: map<Name, State>, after: map<Name, State>, legs: seq<Leg>, c: int, w: int,
                                     nTasks: int, now: int, acts: seq<Action>)
    requires AllHold(before, after, legs, c, now) && Funds(legs, c, w, nTasks) && 1 < nTasks && AllBalanced(after)
    requires forall i :: 0 <= i < |legs| ==> legs[i].acct in after
    requires forall i :: 0 <= i < |acts| ==> NotBehind(Router(after, legs, true, nTasks, 0), acts[i])
    ensures
      var r := Run(Router(after, legs, true, nTasks, 0), acts);
      && (forall i :: 0 <= i < |r.legs| ==> r.legs[i].acct in r.budgets)
      && (r.routed <==> 0 < Outstanding(r.budgets, r.legs) + r.pending)
  {
    AdmittedArrayIsRouted(before, after, legs, c, w, nTasks, now, []);
    var r := Router(after, legs, true, nTasks, 0);
    hide OutstandingTo, Balanced, Run, Contiguous, AllHold, NotBehind;
    assert Exact(r);
    RoutingIsExact(r, acts);
    var t := Run(r, acts);
    OutstandingNonNeg(t.budgets, t.legs, |t.legs|);
  }
}
