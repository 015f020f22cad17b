/** Jobs and arrays funded by several budgets (the multi-source handlers of
    internal/daemon/server.go): what placed legs hold in each budget, and how a roll-back
    gives it all back. */
module MultiSource {
  import opened Arith
  import opened Sums
  import opened TokenBucket
  import opened Kernel
  import opened Books

  type Name = string

  /** One escrow of a multi-source submission. A leg with n == 0 is a time slice of a job;
      a leg with n > 0 is an array of n tasks whose global indices start at `first`. */
  datatype Leg = Leg(acct: Name, id: Id, w: int, first: int, n: nat)

  function CostOf(l: Leg, c: int): int {
    if l.n == 0 then c * l.w else c * l.w * l.n
  }

  function TotalCost(legs: seq<Leg>, c: int): int {
    if legs == [] then 0 else TotalCost(legs[..|legs| - 1], c) + CostOf(legs[|legs| - 1], c)
  }

  function FreshEscrow(c: int, w: int, now: int): Escrow {
    Escrow(c, c * w, w, false, 0, now)
  }

  function FreshArray(c: int, w: int, n: nat, now: int): ArrayEscrow {
    ArrayEscrow(c, w, n, n, c * w * n, now, seq(n, _ => Task(false, false, 0)))
  }

  // ---- what a sequence of legs holds in account a ----

  function Held(legs: seq<Leg>, a: Name, c: int): int {
    if legs == [] then 0
    else Held(legs[1..], a, c) + if legs[0].acct == a then CostOf(legs[0], c) else 0
  }

  function HeldEscrows(legs: seq<Leg>, a: Name, c: int, now: int): map<Id, Escrow> {
    if legs == [] then map[]
    else if legs[0].acct == a && legs[0].n == 0 then
      HeldEscrows(legs[1..], a, c, now)[legs[0].id := FreshEscrow(c, legs[0].w, now)]
    else HeldEscrows(legs[1..], a, c, now)
  }

  function HeldArrays(legs: seq<Leg>, a: Name, c: int, now: int): map<Id, ArrayEscrow> {
    if legs == [] then map[]
    else if legs[0].acct == a && legs[0].n > 0 then
      HeldArrays(legs[1..], a, c, now)[legs[0].id := FreshArray(c, legs[0].w, legs[0].n, now)]
    else HeldArrays(legs[1..], a, c, now)
  }

  /** A bucket that has done nothing but accrue. */
  ghost predicate Quiet(b: Bucket, b': Bucket) {
    b' == b.(pot := b'.pot, frac := b'.frac, lastTouch := b'.lastTouch)
  }

  /** Account a's budget is `s0` plus exactly the reservations of `legs`: the balance, the
      reserved total and the live work differ by them and by nothing else. */
  ghost predicate Holds(s0: State, s: State, legs: seq<Leg>, a: Name, c: int, now: int) {
    && s == s0.(b := s0.b - Held(legs, a, c), reservedTotal := s0.reservedTotal + Held(legs, a, c),
                escrows := s0.escrows + HeldEscrows(legs, a, c, now),
                arrays := s0.arrays + HeldArrays(legs, a, c, now), bk := s.bk)
    && Quiet(s0.bk, s.bk)
  }

  predicate Distinct(legs: seq<Leg>) {
    forall i, j :: 0 <= i < j < |legs| ==> legs[i].id != legs[j].id
  }

  predicate Absent(s: State, id: Id) {
    id !in s.escrows && id !in s.arrays
  }

  predicate NotIn(id: Id, legs: seq<Leg>) {
    forall i :: 0 <= i < |legs| ==> legs[i].id != id
  }

  lemma {:induction false} HeldKeys(legs: seq<Leg>, a: Name, c: int, now: int, id: Id)
    requires NotIn(id, legs)
    ensures id !in HeldEscrows(legs, a, c, now) && id !in HeldArrays(legs, a, c, now)
    decreases |legs|
  {
    if legs != [] {
      HeldKeys(legs[1..], a, c, now, id);
    }
  }

  /** Adding a leg at the end adds its cost and its escrow, in its own account only. */
  lemma {:induction false} HeldAppend(legs: seq<Leg>, l: Leg, a: Name, c: int, now: int)
    requires NotIn(l.id, legs)
    ensures Held(legs + [l], a, c) == Held(legs, a, c) + if l.acct == a then CostOf(l, c) else 0
    ensures HeldEscrows(legs + [l], a, c, now)
            == if l.acct == a && l.n == 0
               then HeldEscrows(legs, a, c, now)[l.id := FreshEscrow(c, l.w, now)]
               else HeldEscrows(legs, a, c, now)
    ensures HeldArrays(legs + [l], a, c, now)
            == if l.acct == a && l.n > 0
               then HeldArrays(legs, a, c, now)[l.id := FreshArray(c, l.w, l.n, now)]
               else HeldArrays(legs, a, c, now)
    decreases |legs|
  {
    hide CostOf, FreshEscrow, FreshArray;
    if legs == [] {
      assert legs + [l] == [l] && [l][1..] == [];
    } else {
      assert (legs + [l])[0] == legs[0] && (legs + [l])[1..] == legs[1..] + [l];
      HeldAppend(legs[1..], l, a, c, now);
    }
  }

  lemma {:induction false} HeldEscrowAt(legs: seq<Leg>, a: Name, c: int, now: int, k: nat)
    requires Distinct(legs) && k < |legs| && legs[k].acct == a && legs[k].n == 0
    ensures legs[k].id in HeldEscrows(legs, a, c, now)
    ensures HeldEscrows(legs, a, c, now)[legs[k].id] == FreshEscrow(c, legs[k].w, now)
    decreases |legs|
  {
    hide FreshEscrow;
    if k > 0 {
      HeldEscrowAt(legs[1..], a, c, now, k - 1);
    }
  }

  lemma {:induction false} HeldArrayAt(legs: seq<Leg>, a: Name, c: int, now: int, k: nat)
    requires Distinct(legs) && k < |legs| && legs[k].acct == a && 0 < legs[k].n
    ensures legs[k].id in HeldArrays(legs, a, c, now)
    ensures HeldArrays(legs, a, c, now)[legs[k].id] == FreshArray(c, legs[k].w, legs[k].n, now)
    decreases |legs|
  {
    hide FreshArray;
    if k > 0 {
      HeldArrayAt(legs[1..], a, c, now, k - 1);
    }
  }

  lemma {:induction false} HeldNowhere(legs: seq<Leg>, a: Name, c: int)
    requires forall i :: 0 <= i < |legs| ==> legs[i].acct != a
    ensures Held(legs, a, c) == 0
  {
    if legs != [] {
      HeldNowhere(legs[1..], a, c);
    }
  }

  /** An account with one leg holds what that leg costs. */
  lemma {:induction false} HeldByOne(legs: seq<Leg>, a: Name, c: int, k: nat)
    requires k < |legs| && forall i :: 0 <= i < |legs| ==> (legs[i].acct == a <==> i == k)
    ensures Held(legs, a, c) == CostOf(legs[k], c)
  {
    hide CostOf;
    if k == 0 {
      HeldNowhere(legs[1..], a, c);
    } else {
      assert legs[0].acct != a;
      HeldByOne(legs[1..], a, c, k - 1);
    }
  }

  // ---- placing a leg ----

  function PlaceCmd(l: Leg, c: int, now: int): Command {
    if l.n == 0 then Submit(l.id, c, l.w, now) else SubmitArray(l.id, c, l.n, l.w, now)
  }

  lemma PlaceEffect(s: State, l: Leg, c: int, now: int, ok: bool)
    requires 0 < c
    ensures
      var o := Call(s, PlaceCmd(l, c, now), ok);
      && (o.err != Ok ==> o.s == s)
      && (o.err == Ok ==>
            o.s == s.(b := s.b - CostOf(l, c), reservedTotal := s.reservedTotal + CostOf(l, c),
                      escrows := if l.n == 0 then s.escrows[l.id := FreshEscrow(c, l.w, now)] else s.escrows,
                      arrays := if l.n == 0 then s.arrays else s.arrays[l.id := FreshArray(c, l.w, l.n, now)]))
  {
    hide RateOK;
  }

  /** An open budget without a rate ceiling takes a leg it can pay for. */
  lemma PlaceAccepted(s: State, l: Leg, c: int, now: int)
    requires 0 < c && s.status == Active && s.bk.ts <= now < s.bk.te && s.k <= 0.0
    requires Absent(s, l.id) && CostOf(l, c) <= s.b && (0 < l.n ==> 0 < l.w)
    ensures Call(s, PlaceCmd(l, c, now), true).err == Ok
  {
  }

  lemma PlaceHolds(s0: State, s: State, legs: seq<Leg>, l: Leg, c: int, now: int, ok: bool)
    requires 0 < c && Holds(s0, s, legs, l.acct, c, now) && NotIn(l.id, legs)
    requires Call(s, PlaceCmd(l, c, now), ok).err == Ok
    ensures Holds(s0, Call(s, PlaceCmd(l, c, now), ok).s, legs + [l], l.acct, c, now)
  {
    hide Call, CostOf, FreshEscrow, FreshArray, Held, HeldEscrows, HeldArrays;
    PlaceEffect(s, l, c, now, ok);
    HeldAppend(legs, l, l.acct, c, now);
  }

  /** Placing a leg elsewhere changes nothing for account a. */
  lemma PlaceElsewhere(s0: State, s: State, legs: seq<Leg>, l: Leg, a: Name, c: int, now: int)
    requires Holds(s0, s, legs, a, c, now) && NotIn(l.id, legs) && a != l.acct
    ensures Holds(s0, s, legs + [l], a, c, now)
  {
    hide CostOf, FreshEscrow, FreshArray, Held, HeldEscrows, HeldArrays;
    HeldAppend(legs, l, a, c, now);
  }

  // ---- taking it back ----

  /** Cancel tasks i..n-1 of an array, as the roll-back loop does, each with its own append. */
  function CancelTasks(s: State, id: Id, i: nat, n: nat, now: int, ok: nat -> bool): State
    requires i <= n
    decreases n - i
  {
    if i == n then s else CancelTasks(Call(s, CancelTask(id, i, 0, now), ok(i)).s, id, i + 1, n, now, ok)
  }

  function Undo(s: State, l: Leg, now: int, ok: nat -> bool): State {
    if l.n == 0 then Call(s, Cancel(l.id, 0, now), ok(0)).s else CancelTasks(s, l.id, 0, l.n, now, ok)
  }

  /** A fresh array of which the first i tasks have been cancelled. */
  function Partial(c: int, w: int, n: nat, now: int, i: nat): ArrayEscrow
    requires i <= n
  {
    ArrayEscrow(c, w, n, n - i, (n - i) * (c * w), now, seq(n, k => Task(false, k < i, 0)))
  }

  lemma FreshIsPartial(c: int, w: int, n: nat, now: int)
    ensures FreshArray(c, w, n, now) == Partial(c, w, n, now, 0)
  {
    assert c * w * n == n * (c * w);
  }

  lemma PartialAdvances(c: int, w: int, n: nat, now: int, i: nat)
    requires i < n
    ensures
      var a := Partial(c, w, n, now, i);
      a.(reserved := a.reserved - c * w, remaining := n - i - 1, tasks := a.tasks[i := Task(false, true, 0)])
      == Partial(c, w, n, now, i + 1)
  {
    assert (n - i) * (c * w) - c * w == (n - i - 1) * (c * w);
  }

  lemma CancelOneTask(s: State, id: Id, c: int, w: int, n: nat, sub: int, i: nat, now: int)
    requires i < n && 0 <= w && id in s.arrays && s.arrays[id] == Partial(c, w, n, sub, i)
    ensures
      Call(s, CancelTask(id, i, 0, now), true).s
      == s.(b := s.b + c * w, reservedTotal := s.reservedTotal - c * w, bk := Accrue(s.bk, now),
            arrays := if i + 1 == n then s.arrays - {id} else s.arrays[id := Partial(c, w, n, sub, i + 1)])
  {
    hide Accrue;
    var a := s.arrays[id];
    assert a.tasks[i] == Task(false, false, 0) && a.Slice() == c * w;
    PartialAdvances(c, w, n, sub, i);
    assert c * Clamp(0, w) == 0;
  }

  lemma {:induction false} CancelTasksUndoes(s: State, id: Id, c: int, w: int, n: nat, sub: int, i: nat, now: int, ok: nat -> bool)
    requires (forall j :: i <= j < n ==> ok(j)) && i < n && 0 <= w && id in s.arrays && s.arrays[id] == Partial(c, w, n, sub, i)
    ensures
      var t := CancelTasks(s, id, i, n, now, ok);
      && t == s.(b := s.b + (n - i) * (c * w), reservedTotal := s.reservedTotal - (n - i) * (c * w),
                 bk := t.bk, arrays := s.arrays - {id})
      && Quiet(s.bk, t.bk)
    decreases n - i
  {
    hide Call, Accrue, Partial;
    CancelOneTask(s, id, c, w, n, sub, i, now);
    var s' := Call(s, CancelTask(id, i, 0, now), true).s;
    var cw := c * w;
    assert (n - i) * cw == cw + (n - i - 1) * cw;
    if i + 1 < n {
      CancelTasksUndoes(s', id, c, w, n, sub, i + 1, now, ok);
      assert s'.arrays - {id} == s.arrays - {id};
    } else {
      assert CancelTasks(s', id, n, n, now, ok) == s';
    }
  }

  lemma UndoJob(s: State, id: Id, c: int, w: int, sub: int, now: int)
    requires 0 <= w && id in s.escrows && s.escrows[id] == FreshEscrow(c, w, sub)
    ensures
      Call(s, Cancel(id, 0, now), true).s
      == s.(b := s.b + c * w, reservedTotal := s.reservedTotal - c * w, bk := Accrue(s.bk, now),
            escrows := s.escrows - {id})
  {
    hide Accrue;
    assert c * Clamp(0, w) == 0;
  }

  lemma UndoEffect(s: State, l: Leg, c: int, sub: int, now: int, ok: nat -> bool)
    requires 0 <= l.w && forall i :: 0 <= i < Max(1, l.n) ==> ok(i)
    requires l.n == 0 ==> l.id in s.escrows && s.escrows[l.id] == FreshEscrow(c, l.w, sub)
    requires l.n > 0 ==> l.id in s.arrays && s.arrays[l.id] == FreshArray(c, l.w, l.n, sub)
    ensures
      var t := Undo(s, l, now, ok);
      && t == s.(b := s.b + CostOf(l, c), reservedTotal := s.reservedTotal - CostOf(l, c), bk := t.bk,
                 escrows := if l.n == 0 then s.escrows - {l.id} else s.escrows,
                 arrays := if l.n == 0 then s.arrays else s.arrays - {l.id})
      && Quiet(s.bk, t.bk)
  {
    if l.n == 0 {
      UndoJob(s, l.id, c, l.w, sub, now);
    } else {
      FreshIsPartial(c, l.w, l.n, sub);
      CancelTasksUndoes(s, l.id, c, l.w, l.n, sub, 0, now, ok);
      assert c * l.w * l.n == l.n * (c * l.w);
    }
    hide Call, CancelTasks, Partial, FreshArray;
  }

  lemma HeldFront(l: Leg, rest: seq<Leg>, c: int, now: int)
    ensures
      var he, ha := HeldEscrows(rest, l.acct, c, now), HeldArrays(rest, l.acct, c, now);
      && HeldEscrows([l] + rest, l.acct, c, now) == (if l.n == 0 then he[l.id := FreshEscrow(c, l.w, now)] else he)
      && HeldArrays([l] + rest, l.acct, c, now) == (if l.n == 0 then ha else ha[l.id := FreshArray(c, l.w, l.n, now)])
      && Held([l] + rest, l.acct, c) == Held(rest, l.acct, c) + CostOf(l, c)
  {
    hide FreshEscrow, FreshArray, CostOf;
    assert ([l] + rest)[0] == l && ([l] + rest)[1..] == rest;
  }

  lemma PutBack<V>(m: map<Id, V>, held: map<Id, V>, id: Id, v: V)
    requires id !in m && id !in held
    ensures (m + held[id := v]) - {id} == m + held
    ensures id in m + held[id := v] && (m + held[id := v])[id] == v
  {
  }

  /** Undoing the first of the held legs leaves exactly the others. */
  lemma UndoHolds(s0: State, s: State, l: Leg, rest: seq<Leg>, c: int, now: int, ok: nat -> bool)
    requires (forall i :: 0 <= i < Max(1, l.n) ==> ok(i)) && 0 <= l.w && Holds(s0, s, [l] + rest, l.acct, c, now) && NotIn(l.id, rest) && Absent(s0, l.id)
    ensures Holds(s0, Undo(s, l, now, ok), rest, l.acct, c, now)
  {
    hide CostOf, FreshEscrow, FreshArray, Undo, HeldEscrows, HeldArrays, Held;
    HeldFront(l, rest, c, now);
    HeldKeys(rest, l.acct, c, now, l.id);
    PutBack(s0.escrows, HeldEscrows(rest, l.acct, c, now), l.id, FreshEscrow(c, l.w, now));
    PutBack(s0.arrays, HeldArrays(rest, l.acct, c, now), l.id, FreshArray(c, l.w, l.n, now));
    UndoEffect(s, l, c, now, now, ok);
  }

  lemma UndoElsewhere(s0: State, s: State, l: Leg, rest: seq<Leg>, a: Name, c: int, now: int)
    requires Holds(s0, s, [l] + rest, a, c, now) && a != l.acct
    ensures Holds(s0, s, rest, a, c, now)
  {
    assert ([l] + rest)[0] == l && ([l] + rest)[1..] == rest;
  }

  // ---- when an undo's appends fail ----

  predicate SomeOpen(a: ArrayEscrow, i: int) {
    exists t :: 0 <= t < i && t < |a.tasks| && !a.tasks[t].settled
  }

  predicate OpenFrom(a: ArrayEscrow, i: int) {
    forall t :: i <= t < |a.tasks| && 0 <= t ==> !a.tasks[t].settled
  }

  lemma CancelAtEffect(s: State, id: Id, i: nat, now: int, ok: bool)
    requires Balanced(s) && HasTask(s, id, i) && !s.arrays[id].tasks[i].settled
    ensures
      var a := s.arrays[id];
      Call(s, CancelTask(id, i, 0, now), ok).s.arrays
      == if !ok then s.arrays else if 1 < a.remaining then s.arrays[id := AfterTask(a, i)] else s.arrays - {id}
  {
    hide Release, Balanced;
    SettleTaskKeepsBooks(s, id, i, 0, false, now, [CancelTask(id, i, 0, now)]);
  }

  lemma OpenTaskExists(a: ArrayEscrow)
    requires ArrayOK(a)
    ensures SomeOpen(a, |a.tasks|)
  {
    if !SomeOpen(a, |a.tasks|) {
      CountNone(a.tasks, Unsettled);
    }
  }

  /** An array with one task remaining and every task from i on open: i is the last. */
  lemma LastOpenTask(a: ArrayEscrow, i: nat)
    requires ArrayOK(a) && a.remaining == 1 && i < |a.tasks| && OpenFrom(a, i)
    ensures i + 1 == |a.tasks| && !SomeOpen(a, i)
  {
    assert !a.tasks[i].settled;
    var rest := a.tasks[i := a.tasks[i].(settled := true)];
    CountUpdate(a.tasks, Unsettled, i, a.tasks[i].(settled := true));
    forall t | 0 <= t < |a.tasks| && t != i
      ensures a.tasks[t].settled
    {
      if !a.tasks[t].settled {
        CountPositive(rest, Unsettled, t);
      }
    }
    assert !a.tasks[|a.tasks| - 1].settled;
  }

  lemma SameOpen(a: ArrayEscrow, i: nat)
    requires i < |a.tasks|
    ensures SomeOpen(AfterTask(a, i), i + 1) <==> SomeOpen(a, i)
  {
    var a' := AfterTask(a, i);
    assert forall t :: 0 <= t < |a.tasks| ==> a'.tasks[t] == if t == i then a.tasks[i].(settled := true) else a.tasks[t];
    if SomeOpen(a', i + 1) {
      var t :| 0 <= t < i + 1 && t < |a'.tasks| && !a'.tasks[t].settled;
      assert !a.tasks[t].settled;
    }
    if SomeOpen(a, i) {
      var t :| 0 <= t < i && t < |a.tasks| && !a.tasks[t].settled;
      assert !a'.tasks[t].settled;
    }
  }

  /** One more cancel: the array is gone exactly when it was the last open task and the append
      went through; otherwise what is open before the next task is known. */
  lemma CancelStep(s: State, id: Id, i: nat, now: int, ok: bool)
    requires Balanced(s) && HasTask(s, id, i) && OpenFrom(s.arrays[id], i)
    ensures
      var a, after := s.arrays[id], Call(s, CancelTask(id, i, 0, now), ok).s;
      && Balanced(after)
      && (id !in after.arrays ==> ok && i + 1 == |a.tasks| && !SomeOpen(a, i))
      && (id in after.arrays ==>
            && |after.arrays[id].tasks| == |a.tasks| && OpenFrom(after.arrays[id], i + 1)
            && (SomeOpen(after.arrays[id], i + 1) <==> SomeOpen(a, i) || !ok))
  {
    var a := s.arrays[id];
    assert ArrayOK(a) && !a.tasks[i].settled;
    CallKeepsBooks(s, CancelTask(id, i, 0, now), ok);
    CancelAtEffect(s, id, i, now, ok);
    hide Call, Balanced, ArrayOK;
    if ok && a.remaining == 1 {
      LastOpenTask(a, i);
    } else if ok {
      SameOpen(a, i);
      hide SomeOpen;
    }
  }

  /** Cancelling tasks i..n-1 clears the array exactly when nothing before i is open and every
      append goes through. */
  lemma {:induction false} CancelTasksClearsIff(s: State, id: Id, i: nat, n: nat, now: int, ok: nat -> bool)
    requires Balanced(s) && i <= n && id in s.arrays && |s.arrays[id].tasks| == n && OpenFrom(s.arrays[id], i)
    ensures id !in CancelTasks(s, id, i, n, now, ok).arrays
            <==> !SomeOpen(s.arrays[id], i) && forall t :: i <= t < n ==> ok(t)
    decreases n - i
  {
    hide Call, SomeOpen, OpenFrom;
    var a := s.arrays[id];
    if i == n {
      assert ArrayOK(a);
      OpenTaskExists(a);
    } else {
      hide Balanced;
      CancelStep(s, id, i, now, ok(i));
      var s' := Call(s, CancelTask(id, i, 0, now), ok(i)).s;
      if id in s'.arrays {
        CancelTasksClearsIff(s', id, i + 1, n, now, ok);
      }
    }
  }

  /** Work placed for a leg is there, as it was placed. */
  predicate Fresh(s: State, l: Leg, c: int, now: int) {
    if l.n == 0 then l.id in s.escrows && s.escrows[l.id] == FreshEscrow(c, l.w, now)
    else l.id in s.arrays && s.arrays[l.id] == FreshArray(c, l.w, l.n, now)
  }

  /** Some work of a leg is there. */
  predicate Alive(s: State, l: Leg) {
    if l.n == 0 then l.id in s.escrows else l.id in s.arrays
  }

  /** What a roll-back leaves of a leg freshly placed: nothing exactly when every one of its
      appends goes through. */
  lemma UndoLeavesNothingIff(s: State, l: Leg, c: int, sub: int, now: int, ok: nat -> bool)
    requires Balanced(s) && Fresh(s, l, c, sub)
    ensures !Alive(Undo(s, l, now, ok), l) <==> forall i :: 0 <= i < Max(1, l.n) ==> ok(i)
  {
    if l.n == 0 {
      hide Release;
    } else {
      hide Call;
      CancelTasksClearsIff(s, l.id, 0, l.n, now, ok);
    }
  }

  lemma {:induction false} UndoKeepsBooks(s: State, l: Leg, i: nat, now: int, ok: nat -> bool)
    requires Balanced(s) && i <= l.n
    ensures Balanced(CancelTasks(s, l.id, i, l.n, now, ok)) && (l.n == 0 ==> Balanced(Undo(s, l, now, ok)))
    decreases l.n - i
  {
    hide Call, Balanced;
    CallKeepsBooks(s, Cancel(l.id, 0, now), ok(0));
    if i < l.n {
      CallKeepsBooks(s, CancelTask(l.id, i, 0, now), ok(i));
      UndoKeepsBooks(Call(s, CancelTask(l.id, i, 0, now), ok(i)).s, l, i + 1, now, ok);
    }
  }

  /** The same work under `id` in both budgets. */
  ghost predicate SameWork(s: State, t: State, id: Id) {
    && (id in s.escrows <==> id in t.escrows) && (id in s.escrows ==> t.escrows[id] == s.escrows[id])
    && (id in s.arrays <==> id in t.arrays) && (id in s.arrays ==> t.arrays[id] == s.arrays[id])
  }

  lemma CancelElsewhere(s: State, cmd: Command, ok: bool, id: Id)
    requires (cmd.Cancel? || cmd.CancelTask?) && cmd.id != id
    ensures SameWork(s, Call(s, cmd, ok).s, id)
  {
    hide Release;
  }

  lemma {:induction false} CancelTasksElsewhere(s: State, l: Leg, i: nat, now: int, ok: nat -> bool, id: Id)
    requires i <= l.n && l.id != id
    ensures SameWork(s, CancelTasks(s, l.id, i, l.n, now, ok), id)
    decreases l.n - i
  {
    hide Call;
    if i < l.n {
      CancelElsewhere(s, CancelTask(l.id, i, 0, now), ok(i), id);
      CancelTasksElsewhere(Call(s, CancelTask(l.id, i, 0, now), ok(i)).s, l, i + 1, now, ok, id);
    }
  }

  /** Undoing a leg leaves work under any other id alone. */
  lemma UndoLeavesOthers(s: State, l: Leg, now: int, ok: nat -> bool, id: Id)
    requires l.id != id
    ensures SameWork(s, Undo(s, l, now, ok), id)
  {
    hide Call, CancelTasks;
    CancelElsewhere(s, Cancel(l.id, 0, now), ok(0), id);
    CancelTasksElsewhere(s, l, 0, now, ok, id);
  }
}
