/** Ordered-fallback funding of internal/daemon/funding.go: how a job's seconds (or an
    array's tasks) are split over several budgets, and how its runtime is split back. */
module Funding {
  import opened Arith

  datatype LegPlan = LegPlan(index: nat, w: int, cost: int)

  /** Whole seconds a balance can fund at rate c. */
  function Capacity(balance: int, c: int): int
    requires 0 < c
  {
    Max(0, Quo(balance, c))
  }

  function Capacities(balances: seq<int>, c: int): int
    requires 0 < c
  {
    if balances == [] then 0
    else Capacities(balances[..|balances| - 1], c) + Capacity(balances[|balances| - 1], c)
  }

  function Seconds(legs: seq<LegPlan>): int {
    if legs == [] then 0 else Seconds(legs[..|legs| - 1]) + legs[|legs| - 1].w
  }

  /** Leg k starts where the whole-second capacity of all earlier sources ends, and takes
      as much of the remaining need as its source can fund. */
  predicate Greedy(balances: seq<int>, c: int, w: int, legs: seq<LegPlan>, k: nat)
    requires 0 < c && k < |legs|
  {
    var l := legs[k];
    && l.index < |balances|
    && Seconds(legs[..k]) == Capacities(balances[..l.index], c)
    && 0 < l.w == Min(Capacity(balances[l.index], c), w - Seconds(legs[..k]))
    && l.cost == c * l.w <= balances[l.index]
  }

  /** Every leg greedy, in source order, all from the first n sources. */
  predicate GreedyPlan(balances: seq<int>, c: int, w: int, legs: seq<LegPlan>, n: nat)
    requires 0 < c
  {
    && (forall k :: 0 <= k < |legs| ==> legs[k].index < n && Greedy(balances, c, w, legs, k))
    && (forall j, k :: 0 <= j < k < |legs| ==> legs[j].index < legs[k].index)
  }

  lemma CapacityAffordable(balance: int, c: int, w: int)
    requires 0 < c && 0 < w <= Capacity(balance, c)
    ensures c * w <= balance
  {
    assert balance == balance / c * c + balance % c;
    MulMono(w, balance / c, c);
  }

  lemma OldLegStaysGreedy(balances: seq<int>, c: int, w: int, legs: seq<LegPlan>, l: LegPlan, k: nat)
    requires 0 < c && k < |legs| && Greedy(balances, c, w, legs, k)
    ensures Greedy(balances, c, w, legs + [l], k)
  {
    assert (legs + [l])[..k] == legs[..k];
    hide Seconds, Capacities, Capacity;
  }

  lemma NewLegIsGreedy(balances: seq<int>, c: int, w: int, legs: seq<LegPlan>, l: LegPlan)
    requires 0 < c && l.index < |balances| && Seconds(legs) == Capacities(balances[..l.index], c)
    requires 0 < l.w == Min(Capacity(balances[l.index], c), w - Seconds(legs)) && l.cost == c * l.w <= balances[l.index]
    ensures Greedy(balances, c, w, legs + [l], |legs|)
    ensures Seconds(legs + [l]) == Seconds(legs) + l.w
  {
    hide Capacities, Capacity;
    assert (legs + [l])[..|legs|] == legs;
  }

  lemma ExtendPlan(balances: seq<int>, c: int, w: int, legs: seq<LegPlan>, i: nat, wi: int)
    requires 0 < c && i < |balances| && GreedyPlan(balances, c, w, legs, i)
    requires Seconds(legs) == Capacities(balances[..i], c)
    requires 0 < wi == Min(Capacity(balances[i], c), w - Seconds(legs))
    ensures GreedyPlan(balances, c, w, legs + [LegPlan(i, wi, c * wi)], i + 1)
    ensures Seconds(legs + [LegPlan(i, wi, c * wi)]) == Seconds(legs) + wi
  {
    hide Greedy, Seconds, Capacities, Capacity;
    var l := LegPlan(i, wi, c * wi);
    CapacityAffordable(balances[i], c, wi);
    NewLegIsGreedy(balances, c, w, legs, l);
    forall k | 0 <= k < |legs| + 1
      ensures (legs + [l])[k].index < i + 1 && Greedy(balances, c, w, legs + [l], k)
    {
      if k < |legs| {
        OldLegStaysGreedy(balances, c, w, legs, l, k);
      }
    }
  }

  lemma CapacitiesGrow(balances: seq<int>, c: int, i: nat)
    requires 0 < c && i < |balances|
    ensures Capacities(balances[..i + 1], c) == Capacities(balances[..i], c) + Capacity(balances[i], c)
  {
    assert balances[..i + 1][..i] == balances[..i];
  }

  lemma {:induction false} CapacitiesMonotone(balances: seq<int>, c: int, i: nat)
    requires 0 < c && i <= |balances|
    ensures 0 <= Capacities(balances[..i], c) <= Capacities(balances, c)
    decreases |balances|
  {
    assert balances[..|balances|] == balances;
    if balances != [] {
      var n := |balances| - 1;
      CapacitiesGrow(balances, c, n);
      if i <= n {
        CapacitiesMonotone(balances[..n], c, i);
        assert balances[..n][..i] == balances[..i];
      } else {
        CapacitiesMonotone(balances[..n], c, n);
        assert balances[..n][..n] == balances[..n];
      }
    }
  }

  /** The state of the planning loop after i sources. */
  predicate Planned(balances: seq<int>, c: int, w: int, legs: seq<LegPlan>, i: nat)
    requires 0 < c && i <= |balances|
  {
    && Seconds(legs) == Min(w, Capacities(balances[..i], c))
    && GreedyPlan(balances, c, w, legs, i)
  }

  /** One turn of the planning loop: source i funds what it can of what is still needed. */
  function Turn(balances: seq<int>, c: int, need: int, legs: seq<LegPlan>, i: nat): seq<LegPlan>
    requires 0 < c && i < |balances|
  {
    var capacity := Quo(balances[i], c);
    if capacity <= 0 then legs
    else
      var wi := if capacity > need then need else capacity;
      legs + [LegPlan(i, wi, c * wi)]
  }

  lemma TurnKeepsPlan(balances: seq<int>, c: int, w: int, legs: seq<LegPlan>, i: nat)
    requires 0 < c && i < |balances| && Planned(balances, c, w, legs, i) && Seconds(legs) < w
    ensures
      var next := Turn(balances, c, w - Seconds(legs), legs, i);
      && Planned(balances, c, w, next, i + 1)
      && Seconds(next) == Seconds(legs) + Max(0, Min(Quo(balances[i], c), w - Seconds(legs)))
  {
    hide Quo, Greedy, Capacities, Seconds;
    CapacitiesGrow(balances, c, i);
    var capacity := Quo(balances[i], c);
    if 0 < capacity {
      ExtendPlan(balances, c, w, legs, i, Min(capacity, w - Seconds(legs)));
    }
  }

  /** A full greedy plan: it covers the need, or everything the sources can fund. */
  predicate FullPlan(balances: seq<int>, c: int, w: int, legs: seq<LegPlan>)
    requires 0 < c
  {
    GreedyPlan(balances, c, w, legs, |balances|) && Seconds(legs) == Min(w, Capacities(balances, c))
  }

  lemma PlanStarts(balances: seq<int>, c: int, w: int)
    requires 0 < c && 0 < w
    ensures Planned(balances, c, w, [], 0) && Seconds([]) == 0
  {
  }

  lemma PlanEnds(balances: seq<int>, c: int, w: int, legs: seq<LegPlan>, i: nat)
    requires 0 < c && i <= |balances| && Planned(balances, c, w, legs, i)
    requires i == |balances| || Seconds(legs) == w
    ensures Seconds(legs) == Min(w, Capacities(balances, c))
    ensures GreedyPlan(balances, c, w, legs, |balances|)
  {
    CapacitiesMonotone(balances, c, i);
    assert balances[..|balances|] == balances;
    hide Capacities, Greedy;
  }

  /** The plan: fundable exactly when the capacities reach the need, its legs in source
      order, each greedy, together covering the need or everything there is. */
  method FundingPlan(balances: seq<int>, c: int, w: int) returns (legs: seq<LegPlan>, fundable: bool)
    ensures c <= 0 || w <= 0 ==> legs == [] && !fundable
    ensures 0 < c && 0 < w ==>
              && (fundable <==> w <= Capacities(balances, c))
              && FullPlan(balances, c, w, legs)
  {
    hide Planned, GreedyPlan, Quo, Capacities, Seconds;
    legs := [];
    if c <= 0 || w <= 0 {
      return legs, false;
    }
    var need := w;
    var i := 0;
    PlanStarts(balances, c, w);
    while i < |balances| && need != 0
      invariant 0 <= i <= |balances| && 0 <= need == w - Seconds(legs)
      invariant Planned(balances, c, w, legs, i)
    {
      TurnKeepsPlan(balances, c, w, legs, i);
      var capacity := Quo(balances[i], c);
      if 0 < capacity {
        var wi := if capacity > need then need else capacity;
        legs := legs + [LegPlan(i, wi, c * wi)];
        need := need - wi;
      }
      i := i + 1;
    }
    PlanEnds(balances, c, w, legs, i);
    fundable := need == 0;
  }

  lemma CapacityCounts(balances: seq<int>, c: int, i: nat, j: nat)
    requires 0 < c && i < j <= |balances|
    ensures Capacities(balances[..i], c) + Capacity(balances[i], c) <= Capacities(balances[..j], c)
  {
    CapacitiesGrow(balances, c, i);
    CapacitiesMonotone(balances[..j], c, i + 1);
    assert balances[..j][..i + 1] == balances[..i + 1];
  }

  /** Each source before a leg's own is drained, so a leg's source is determined. */
  lemma SameIndex(balances: seq<int>, c: int, w: int, p: seq<LegPlan>, q: seq<LegPlan>, k: nat)
    requires 0 < c && k < |p| && k < |q| && p[..k] == q[..k]
    requires Greedy(balances, c, w, p, k) && Greedy(balances, c, w, q, k)
    ensures q[k].index <= p[k].index
  {
    hide Capacities, Seconds, Capacity;
    var i, j := p[k].index, q[k].index;
    if i < j {
      CapacityCounts(balances, c, i, j);
    }
  }

  lemma {:induction false} SamePrefix(balances: seq<int>, c: int, w: int, p: seq<LegPlan>, q: seq<LegPlan>, k: nat)
    requires 0 < c && k <= |p| && k <= |q|
    requires GreedyPlan(balances, c, w, p, |balances|) && GreedyPlan(balances, c, w, q, |balances|)
    ensures p[..k] == q[..k]
  {
    hide Capacities, Seconds, Capacity;
    if k > 0 {
      SamePrefix(balances, c, w, p, q, k - 1);
      SameIndex(balances, c, w, p, q, k - 1);
      SameIndex(balances, c, w, q, p, k - 1);
      assert Greedy(balances, c, w, p, k - 1) && Greedy(balances, c, w, q, k - 1);
      assert p[..k] == p[..k - 1] + [p[k - 1]] && q[..k] == q[..k - 1] + [q[k - 1]];
    }
  }

  lemma {:induction false} SecondsGrow(legs: seq<LegPlan>, k: nat)
    requires k <= |legs| && forall i :: 0 <= i < |legs| ==> 0 < legs[i].w
    ensures Seconds(legs[..k]) <= Seconds(legs) && (k < |legs| ==> Seconds(legs[..k]) < Seconds(legs))
    decreases |legs|
  {
    assert legs[..|legs|] == legs;
    if k < |legs| {
      var n := |legs| - 1;
      SecondsGrow(legs[..n], k);
      assert legs[..n][..k] == legs[..k];
    }
  }

  /** There is only one full greedy plan. */
  lemma PlanUnique(balances: seq<int>, c: int, w: int, p: seq<LegPlan>, q: seq<LegPlan>)
    requires 0 < c && FullPlan(balances, c, w, p) && FullPlan(balances, c, w, q)
    ensures p == q
  {
    hide Capacities, Seconds, Capacity;
    var k := Min(|p|, |q|);
    SamePrefix(balances, c, w, p, q, k);
    SecondsGrow(p, k);
    SecondsGrow(q, k);
    assert p[..|p|] == p && q[..|q|] == q;
  }

  /** The capacity is the largest number of whole units the balance can pay for. */
  lemma CapacityLaw(balance: int, c: int, n: int)
    requires 0 < c
    ensures Capacity(balance, c) == n <==> 0 <= n && c * n <= Max(balance, 0) < c * (n + 1)
  {
    var b := Max(balance, 0);
    assert b == b / c * c + b % c && Capacity(balance, c) == b / c;
    if 0 <= n && c * n <= b < c * (n + 1) {
      DivModUnique(b, c, n, b - c * n);
    }
  }

  /** What source j pays for: as much as it can of what the sources before it leave. */
  function Share(balances: seq<int>, c: int, w: int, j: nat): int
    requires 0 < c && j < |balances|
  {
    Min(Capacity(balances[j], c), Max(0, w - Capacities(balances[..j], c)))
  }

  /** Legs on the sources before j fund at most what those sources can. */
  lemma FundedBefore(balances: seq<int>, c: int, w: int, legs: seq<LegPlan>, m: nat, j: nat)
    requires 0 < c && j <= |balances| && m <= |legs| && GreedyPlan(balances, c, w, legs, |balances|)
    requires forall k :: 0 <= k < m ==> legs[k].index < j
    ensures Seconds(legs[..m]) <= Capacities(balances[..j], c)
  {
    hide Capacities, Capacity;
    CapacitiesMonotone(balances, c, j);
    CapacitiesMonotone(balances[..j], c, 0);
    if 0 < m {
      assert Greedy(balances, c, w, legs, m - 1);
      assert legs[..m][..m - 1] == legs[..m - 1];
      CapacityCounts(balances, c, legs[m - 1].index, j);
    }
  }

  lemma {:induction false} LegsBefore(legs: seq<LegPlan>, j: nat, k: nat) returns (m: nat)
    requires k <= |legs| && forall i, l :: 0 <= i < l < |legs| ==> legs[i].index < legs[l].index
    requires forall i :: k <= i < |legs| ==> j <= legs[i].index
    ensures m <= |legs| && (forall i :: 0 <= i < m ==> legs[i].index < j) && forall i :: m <= i < |legs| ==> j <= legs[i].index
  {
    m := k;
    if 0 < k && j <= legs[k - 1].index {
      m := LegsBefore(legs, j, k - 1);
    }
  }

  /** A full plan, source by source: it has a leg on source j exactly when there is something
      for it to pay, and the leg pays exactly that. */
  lemma PlanFunds(balances: seq<int>, c: int, w: int, legs: seq<LegPlan>, j: nat)
    requires 0 < c && 0 < w && FullPlan(balances, c, w, legs) && j < |balances|
    ensures forall k :: 0 <= k < |legs| && legs[k].index == j ==> legs[k].w == Share(balances, c, w, j)
    ensures (exists k :: 0 <= k < |legs| && legs[k].index == j) <==> 0 < Share(balances, c, w, j)
  {
    hide Seconds, Capacities, Capacity;
    var m := LegsBefore(legs, j, |legs|);
    FundedBefore(balances, c, w, legs, m, j);
    if m < |legs| && legs[m].index == j {
      assert Greedy(balances, c, w, legs, m);
    } else {
      CapacityCounts(balances, c, j, |balances|);
      assert balances[..|balances|] == balances && legs[..|legs|] == legs;
      if m < |legs| {
        assert Greedy(balances, c, w, legs, m);
        CapacityCounts(balances, c, j, legs[m].index);
      }
    }
  }

  // ---- apportioning the runtime ----

  function Sum(ws: seq<int>): int {
    if ws == [] then 0 else Sum(ws[..|ws| - 1]) + ws[|ws| - 1]
  }

  /** The share of the runtime that falls in leg idx's contiguous slice. */
  function LegRuntime(ws: seq<int>, idx: nat, runtime: int): int
    requires idx < |ws|
  {
    Clamp(Max(runtime, 0) - Sum(ws[..idx]), ws[idx])
  }

  method ComputeLegRuntime(legs: seq<LegPlan>, idx: nat, runtime: int, ghost ws: seq<int>) returns (r: int)
    requires idx < |legs| && |ws| == |legs| && forall i :: 0 <= i < |ws| ==> ws[i] == legs[i].w
    ensures r == LegRuntime(ws, idx, runtime)
  {
    var run := if runtime < 0 then 0 else runtime;
    var prefix := 0;
    var i := 0;
    while i < idx
      invariant 0 <= i <= idx && prefix == Sum(ws[..i])
    {
      assert ws[..i + 1][..i] == ws[..i];
      prefix := prefix + legs[i].w;
      i := i + 1;
    }
    r := run - prefix;
    if r < 0 {
      r := 0;
    }
    if r > legs[idx].w {
      r := legs[idx].w;
    }
  }

  function Shares(ws: seq<int>, runtime: int, k: nat): int
    requires k <= |ws|
  {
    if k == 0 then 0 else Shares(ws, runtime, k - 1) + LegRuntime(ws, k - 1, runtime)
  }

  /** The shares of the first k legs add up to the runtime, capped at what they fund. */
  lemma {:induction false} SharesAddUp(ws: seq<int>, runtime: int, k: nat)
    requires k <= |ws| && forall i :: 0 <= i < |ws| ==> 0 <= ws[i]
    ensures Shares(ws, runtime, k) == Clamp(runtime, Sum(ws[..k]))
    ensures 0 <= Sum(ws[..k])
  {
    if k > 0 {
      SharesAddUp(ws, runtime, k - 1);
      assert ws[..k][..k - 1] == ws[..k - 1];
    }
  }

  lemma RuntimeSplitsExactly(ws: seq<int>, runtime: int)
    requires forall i :: 0 <= i < |ws| ==> 0 <= ws[i]
    ensures Shares(ws, runtime, |ws|) == Clamp(runtime, Sum(ws))
  {
    SharesAddUp(ws, runtime, |ws|);
    assert ws[..|ws|] == ws;
  }
}
