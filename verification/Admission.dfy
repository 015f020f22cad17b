/** What the two gates and the administrative calls do to a budget, field by field, and that a
    lapsed budget stays closed (internal/budget/budget.go, array.go). */
module Admission {
  import opened Arith
  import opened TokenBucket
  import opened Kernel

  // ---- the gates ----

  /** A submit at its own rate is admitted exactly when the budget is active, inside its window,
      does not know the id, can pay, and stays under the rate ceiling if there is one; then it
      moves exactly rate times walltime and records the terms. */
  lemma SubmitAdmitsIff(s: State, id: Id, c: int, w: int, now: int, ok: bool)
    requires 0 < c
    ensures
      var o := Call(s, Submit(id, c, w, now), ok);
      var admits :=
        && s.status == Active && s.bk.ts <= now < s.bk.te && id !in s.escrows && c * w <= s.b && ok
        && (s.k <= 0.0 || s.rateCmp(s.b, s.bk.te - now, s.reservedTotal + c * w, s.k));
      && (o.err == Ok <==> admits)
      && (admits ==>
            && o.s == s.(b := s.b - c * w, reservedTotal := s.reservedTotal + c * w,
                         escrows := s.escrows[id := Escrow(c, c * w, w, false, 0, now)])
            && o.log == [Submit(id, c, w, now)])
      && (!admits ==> o.s == s && o.log == [])
  {
  }

  /** Without a rate of its own a submit runs at the budget's flat rate. */
  lemma FlatRate(s: State, id: Id, c: int, n: int, w: int, now: int, ok: bool)
    requires c <= 0
    ensures Call(s, Submit(id, c, w, now), ok) == Call(s, Submit(id, s.c, w, now), ok)
    ensures Call(s, SubmitArray(id, c, n, w, now), ok) == Call(s, SubmitArray(id, s.c, n, w, now), ok)
  {
    hide RateOK, Open;
  }

  /** The same for an array, all or nothing: it pays for every task, and starts with none
      started and none settled. */
  lemma SubmitArrayAdmitsIff(s: State, id: Id, c: int, n: int, w: int, now: int, ok: bool)
    requires 0 < c
    ensures
      var o := Call(s, SubmitArray(id, c, n, w, now), ok);
      var cost := c * w * n;
      var admits :=
        && s.status == Active && s.bk.ts <= now < s.bk.te && id !in s.arrays && 0 < n && 0 < w && cost <= s.b && ok
        && (s.k <= 0.0 || s.rateCmp(s.b, s.bk.te - now, s.reservedTotal + cost, s.k));
      && (o.err == Ok <==> admits)
      && (admits ==>
            && id in o.s.arrays
            && var a := o.s.arrays[id];
            && o.s == s.(b := s.b - cost, reservedTotal := s.reservedTotal + cost, arrays := s.arrays[id := a])
            && a.c == c && a.w == w && a.n == n && a.remaining == n && a.reserved == cost && a.submitted == now
            && |a.tasks| == n && (forall i :: 0 <= i < n ==> a.tasks[i] == Task(false, false, 0))
            && o.log == [SubmitArray(id, c, n, w, now)])
      && (!admits ==> o.s == s && o.log == [])
  {
  }

  // ---- a lapsed budget ----

  lemma LapseCloses(s: State, ok: bool)
    ensures
      var o := Call(s, Lapse, ok);
      o.err == Ok && o.s == s.(status := Lapsed) && o.log == if ok then [Lapse] else []
  {
  }

  lemma JobKeepsStatus(s: State, cmd: Command, ok: bool)
    ensures SettlesJob(cmd) ==> SettleJob(s, cmd, ok).s.status == s.status
    ensures SettlesTask(cmd) ==> SettleArrayTask(s, cmd, ok).s.status == s.status
  {
    hide Release, JobRuntime, TaskRuntime, Clamp;
  }

  lemma CallKeepsStatus(s: State, cmd: Command, ok: bool)
    requires s.status == Lapsed
    ensures
      var o := Call(s, cmd, ok);
      o.s.status == Lapsed && (cmd.Submit? || cmd.SubmitArray? ==> o.err == BudgetLapsed && o.s == s && o.log == [])
  {
    hide SettleJob, SettleArrayTask, Dispatch, Configure, RateOK;
    JobKeepsStatus(s, cmd, ok);
  }

  /** A closed gate: every submit is refused and changes nothing. */
  ghost predicate Closed(s: State) {
    forall cmd: Command, ok :: cmd.Submit? || cmd.SubmitArray? ==>
      Call(s, cmd, ok).err == BudgetLapsed && Call(s, cmd, ok).s == s
  }

  /** Once lapsed, a budget admits nothing for the rest of its life, whatever else runs. */
  lemma {:induction false} LapseIsFinal(s: State, ops: seq<Op>)
    requires s.status == Lapsed
    ensures Run(s, ops).s.status == Lapsed && Closed(Run(s, ops).s)
    decreases |ops|
  {
    hide Call;
    if ops == [] {
      forall cmd: Command, ok | cmd.Submit? || cmd.SubmitArray?
        ensures Call(s, cmd, ok).err == BudgetLapsed && Call(s, cmd, ok).s == s
      {
        CallKeepsStatus(s, cmd, ok);
      }
    } else {
      if ops[0].Do? {
        CallKeepsStatus(s, ops[0].cmd, ops[0].ok);
      }
      hide Closed;
      LapseIsFinal(Exec(s, ops[0]).s, ops[1..]);
    }
  }

  // ---- the other calls ----

  /** A reprice lowers the rate of a job that has not started, and returns the difference over
      its whole walltime; anything else is refused. */
  lemma RepriceRefunds(s: State, id: Id, c: int, now: int, ok: bool)
    ensures
      var o := Call(s, Reprice(id, c, now), ok);
      var accepts := id in s.escrows && !s.escrows[id].started && 0 < c <= s.escrows[id].c && ok;
      && (o.err == Ok <==> accepts)
      && (accepts ==>
            var e := s.escrows[id];
            var back := e.c * e.w - c * e.w;
            && o.s == s.(b := s.b + back, reservedTotal := s.reservedTotal - back,
                         escrows := s.escrows[id := e.(c := c, reserved := e.reserved - back)])
            && o.log == [Reprice(id, c, now)])
      && (!accepts ==> o.s == s && o.log == [])
  {
    if id in s.escrows {
      var e := s.escrows[id];
      assert (e.c - c) * e.w == e.c * e.w - c * e.w;
    }
  }

  /** A top-up and a withdrawal of the same amount undo each other; each moves the balance and
      the allocation together and nothing else, and is refused only for its amount, its cover
      or its append. */
  lemma TopUpWithdrawInverse(s: State, amount: int, x: string, y: string, now: int, later: int)
    requires 0 < amount
    ensures
      var up := Call(s, TopUp(amount, x, now), true);
      && up.err == Ok && up.s.b == s.b + amount && up.s.bk.b0 == s.bk.b0 + amount && up.log == [TopUp(amount, x, now)]
      && (0 <= s.b ==> Call(up.s, Withdraw(amount, y, later), true).s == s)
      && (Call(s, Withdraw(amount, x, now), true).err == Ok <==> amount <= s.b)
      && (Call(s, Withdraw(amount, x, now), true).err == Ok || Call(s, Withdraw(amount, x, now), true).s == s)
      && (amount <= s.b ==> Call(Call(s, Withdraw(amount, x, now), true).s, TopUp(amount, y, later), true).s == s)
  {
  }

  /** The flat rate and the window are replaced, or refused; nothing else moves. */
  lemma RateAndWindowSet(s: State, c: int, ts: int, te: int, now: int, ok: bool)
    ensures
      var r, w := Call(s, SetRate(c, now), ok), Call(s, SetWindow(ts, te, now), ok);
      && (r.err == Ok <==> 0 < c && ok) && r.s == (if 0 < c && ok then s.(c := c) else s)
      && (w.err == Ok <==> ts < te && ok)
      && w.s == (if ts < te && ok then s.(bk := s.bk.(ts := ts, te := te)) else s)
  {
  }

  /** Switching burst off forgets every token and the burn; switching it on starts the clock at
      that instant with the pot as it is; changing it banks first under the old terms; and the
      pot never exceeds the new ceiling. */
  lemma BurstConfigured(s: State, on: bool, pct: real, cap: int, now: int, ok: bool)
    ensures
      var o := Call(s, SetBurst(on, pct, cap, now), ok);
      var valid := if on then 0.0 < pct <= 1.0 && 0 <= cap else pct == 0.0 && cap == 0;
      && (o.err == Ok <==> valid && ok)
      && (o.err != Ok ==> o.s == s && o.log == [])
      && (o.err == Ok ==>
            && o.s == s.(bk := o.s.bk) && o.s.bk.on == on && o.s.bk.pct == pct && o.s.bk.drawCap == cap
            && o.log == [SetBurst(on, pct, cap, now)]
            && (!on ==> o.s.bk == s.bk.(on := false, pct := 0.0, drawCap := 0, pot := 0, rLive := 0, frac := 0))
            && (on ==>
                  var before := if s.bk.on then Accrue(s.bk, now) else s.bk.(lastTouch := now);
                  var ceiling := s.bk.ceil(pct, s.bk.b0);
                  o.s.bk == before.(on := true, pct := pct, drawCap := cap, pot := Min(before.pot, ceiling),
                                    frac := if before.pot > ceiling then 0 else before.frac)))
  {
    hide Accrue;
  }
}
