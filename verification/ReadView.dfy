/** The published read view, the lock-free dispatch query that answers from it, and the
    dry run: internal/budget/readview.go, dispatch.go and simulate.go. */
module ReadView {
  import opened Arith
  import opened TokenBucket
  import opened Kernel
  import opened Books

  /** The immutable snapshot a mutation publishes. */
  datatype View = View(b: int, bk: Bucket)

  function ViewOf(s: State): View {
    View(s.b, s.bk)
  }

  /** Gate, dispatch and admin calls publish on every exit; a settlement publishes only
      when it succeeds; Lapse and the accruing reads never do. */
  predicate Publishes(cmd: Command, err: Err) {
    if SettlesJob(cmd) || SettlesTask(cmd) then err == Ok else !cmd.Lapse?
  }

  datatype Live = Live(s: State, view: View)

  function ExecLive(l: Live, op: Op): Live {
    var o := Exec(l.s, op);
    Live(o.s, if op.Do? && Publishes(op.cmd, o.err) then ViewOf(o.s) else l.view)
  }

  /** The lock-free query: one load of the view, then the shared verdict. */
  function MayDispatch(v: View, c: int, w: int, now: int): Verdict {
    DispatchVerdict(v.bk, c, w, now)
  }

  /** A call that publishes nothing changed nothing the view shows. */
  lemma SilentCallsChangeNothing(s: State, cmd: Command, ok: bool)
    requires Balanced(s) && !Publishes(cmd, Call(s, cmd, ok).err)
    ensures Call(s, cmd, ok).s.b == s.b && Call(s, cmd, ok).s.bk == s.bk
  {
    hide EscrowOK, ArrayOK, Release, Balanced, SettleTask;
    if SettlesTask(cmd) && TaskLogged(s, cmd) {
      SettleTaskKeepsBooks(s, cmd.id, cmd.idx, TaskRuntime(s, cmd), cmd.InfraFailTask? && !s.billInfra, cmd.now, [cmd]);
    }
  }

  /** The verdict is the gate Start runs, with its reasons and its reservation. */
  lemma VerdictIsGate(b: Bucket, c: int, w: int, now: int)
    ensures
      var v := DispatchVerdict(b, c, w, now);
      var g := Dispatch(b, c, w, now, true);
      && (v.dispatch <==> g.err == Ok)
      && (v.reason == HoldDrawCap <==> g.err == DrawCapExceeded)
      && (v.reason == HoldHeadroom <==> g.err == BurstInsufficient)
      && (v.dispatch ==> g.resv == Max(v.reserve, 0))
  {
    if b.on {
      ProjectionIsAccrual(b, now);
      hide Accrue, ProjectPot;
    }
  }

  /** Start itself obeys the verdict, on an unstarted escrow of that rate and walltime. */
  lemma StartObeysVerdict(s: State, id: Id, now: int)
    requires id in s.escrows && !s.escrows[id].started
    ensures StartJob(s, id, now, true).err == Ok
            <==> DispatchVerdict(s.bk, s.escrows[id].c, s.escrows[id].w, now).dispatch
  {
    VerdictIsGate(s.bk, s.escrows[id].c, s.escrows[id].w, now);
    hide DispatchVerdict, Dispatch;
  }

  /** The view holds the live balance and the live bucket up to pot, remainder and clock. */
  ghost predicate Shows(l: Live) {
    && l.view.b == l.s.b
    && l.s.bk == l.view.bk.(pot := l.s.bk.pot, frac := l.s.bk.frac, lastTouch := l.s.bk.lastTouch)
  }

  /** The lock-free answer is the locked projection's, for every rate, walltime and clock not
      before the bucket's. */
  ghost predicate Agrees(l: Live) {
    forall c, w, now :: l.s.bk.lastTouch <= now ==> MayDispatch(l.view, c, w, now) == DispatchVerdict(l.s.bk, c, w, now)
  }

  /** The same in terms of the pots alone. */
  ghost predicate PotsAgree(v: Bucket, b: Bucket) {
    forall now :: b.lastTouch <= now ==> ProjectPot(v, now) == ProjectPot(b, now)
  }

  lemma AgreesByPots(l: Live)
    requires Shows(l)
    ensures Agrees(l) <==> !l.s.bk.on || PotsAgree(l.view.bk, l.s.bk)
  {
    var v, b := l.view.bk, l.s.bk;
    if Agrees(l) && b.on {
      forall now | b.lastTouch <= now
        ensures ProjectPot(v, now) == ProjectPot(b, now)
      {
        assert MayDispatch(l.view, 0, 0, now) == DispatchVerdict(b, 0, 0, now);
      }
    }
    hide ProjectPot;
  }

  /** A read at `t` that is not before the bucket's clock, or that cannot show: the burn leaves
      nothing to bank, or the view already projects a pot at the ceiling then. */
  predicate HarmlessRead(l: Live, t: int) {
    l.s.bk.on && t < l.s.bk.lastTouch ==>
      Unused(l.s.bk) <= 0 || ProjectPot(l.view.bk, t) == l.view.bk.Ceiling()
  }

  lemma ForwardReadAgrees(v: Bucket, b: Bucket, t: int)
    requires b.on && PotsAgree(v, b) && b.lastTouch <= t
    ensures PotsAgree(v, Accrue(b, t))
  {
    forall now | t <= now
      ensures ProjectPot(Accrue(b, t), now) == ProjectPot(b, now)
    {
      AccrueSplits(b, t, now);
      ProjectionIsAccrual(b, now);
      ProjectionIsAccrual(Accrue(b, t), now);
    }
    hide ProjectPot;
  }

  /** What has been earned over an interval does not shrink with time. */
  lemma EarnsMore(u: int, d: int, d': int, frac: nat, T: int)
    requires 0 < u && 0 <= d <= d' && 0 < T
    ensures 0 <= u * d && 0 <= u * d' && (frac + u * d) / T <= (frac + u * d') / T
  {
    MulMono(d, d', u);
    MulMono(0, d, u);
    DivMonotone(frac + u * d, frac + u * d', T);
  }

  /** A pot projected at the ceiling stays there. */
  lemma ProjectedFullStays(v: Bucket, t: int, now: int)
    requires t <= now && (Unused(v) <= 0 || ProjectPot(v, t) == v.Ceiling())
    ensures ProjectPot(v, now) == ProjectPot(v, t)
  {
    if 0 < Unused(v) {
      if t <= v.lastTouch {
        AtCeilingStays(v, now);
      } else {
        EarnsMore(Unused(v), t - v.lastTouch, now - v.lastTouch, v.frac, v.Window());
        hide Unused;
      }
    }
  }

  lemma BackwardReadAgreesIff(v: Bucket, b: Bucket, t: int)
    requires PotsAgree(v, b) && t < b.lastTouch
    requires b == v.(pot := b.pot, frac := b.frac, lastTouch := b.lastTouch)
    ensures PotsAgree(v, b.(lastTouch := t)) <==> Unused(b) <= 0 || ProjectPot(v, t) == v.Ceiling()
  {
    var after := b.(lastTouch := t);
    assert b.pot == ProjectPot(b, b.lastTouch) == ProjectPot(v, b.lastTouch);
    if PotsAgree(v, after) {
      assert forall now :: b.lastTouch <= now ==> ProjectPot(after, now) == ProjectPot(v, now) == ProjectPot(b, now);
      RollbackUnseenIff(b, t);
      assert ProjectPot(v, t) == ProjectPot(after, t) == b.pot;
    }
    if Unused(b) <= 0 || ProjectPot(v, t) == v.Ceiling() {
      ProjectedFullStays(v, t, b.lastTouch);
      forall now | t <= now
        ensures ProjectPot(v, now) == ProjectPot(after, now)
      {
        ProjectedFullStays(v, t, now);
        AtCeilingStays(after, now);
      }
    }
  }

  /** A read keeps the two answers equal if and only if it is harmless. */
  lemma ReadAgreesIff(l: Live, t: int)
    requires Shows(l) && Agrees(l)
    ensures Shows(ExecLive(l, Peek(t)))
    ensures Agrees(ExecLive(l, Peek(t))) <==> HarmlessRead(l, t)
  {
    var v, b, after := l.view.bk, l.s.bk, ExecLive(l, Peek(t));
    AgreesByPots(l);
    AgreesByPots(after);
    if b.on {
      if b.lastTouch <= t {
        ForwardReadAgrees(v, b, t);
      } else {
        assert after.s.bk == b.(lastTouch := t);
        BackwardReadAgreesIff(v, b, t);
      }
    }
    hide Agrees, ProjectPot, Accrue;
  }

  predicate ReadsHarmless(l: Live, ops: seq<Op>)
    decreases |ops|
  {
    ops != [] ==>
      && (ops[0].Peek? ==> HarmlessRead(l, ops[0].now))
      && ReadsHarmless(ExecLive(l, ops[0]), ops[1..])
  }

  ghost predicate AgreesThroughout(l: Live, ops: seq<Op>)
    decreases |ops|
  {
    Agrees(l) && (ops != [] ==> AgreesThroughout(ExecLive(l, ops[0]), ops[1..]))
  }

  lemma CallAgrees(l: Live, cmd: Command, ok: bool)
    requires Shows(l) && Agrees(l) && Balanced(l.s)
    ensures Shows(ExecLive(l, Do(cmd, ok))) && Agrees(ExecLive(l, Do(cmd, ok)))
  {
    if !Publishes(cmd, Call(l.s, cmd, ok).err) {
      SilentCallsChangeNothing(l.s, cmd, ok);
    }
    hide Call, DispatchVerdict;
  }

  lemma NextIsBalanced(l: Live, op: Op)
    requires Balanced(l.s) && Reasonable(op)
    ensures Balanced(ExecLive(l, op).s)
  {
    ExecKeepsBooks(l.s, op);
  }

  lemma DisagreesAtOnce(l: Live, ops: seq<Op>)
    requires !Agrees(l)
    ensures !AgreesThroughout(l, ops)
  {
  }

  /** Over every run: the lock-free answer equals the locked projection's at every moment, for
      every rate, walltime and clock not before the bucket's, if and only if every read in it
      was harmless. Reads accrue without republishing; those that run the clock forward
      always are. */
  lemma {:induction false} LockFreeAgreesIff(l: Live, ops: seq<Op>)
    requires Shows(l) && Agrees(l) && Balanced(l.s)
    requires forall i :: 0 <= i < |ops| ==> Reasonable(ops[i])
    ensures AgreesThroughout(l, ops) <==> ReadsHarmless(l, ops)
    decreases |ops|
  {
    hide Shows, Agrees, Balanced, Exec, HarmlessRead, Reasonable;
    if ops != [] {
      var next := ExecLive(l, ops[0]);
      NextIsBalanced(l, ops[0]);
      if ops[0].Do? {
        CallAgrees(l, ops[0].cmd, ops[0].ok);
      } else {
        ReadAgreesIff(l, ops[0].now);
      }
      hide ExecLive;
      if Agrees(next) {
        LockFreeAgreesIff(next, ops[1..]);
      } else {
        DisagreesAtOnce(next, ops[1..]);
      }
    }
  }

  /** The example bucket is what such a creation leaves. */
  lemma ExampleIsACreation(s: State)
    requires s == NewBurst(1, 100, 10, 110, 0.0, false, (p: real, b: int) => b, (a, b, c, k) => true, 1.0, 0)
    ensures ExampleBucket(s.bk) && Balanced(s)
  {
  }

  /** A creation with burst on starts the clock at the window start; a read before it misleads:
      the view holds a job that the locked gate would start. */
  lemma BackwardReadMisleads(s: State, t: int, c: int, w: int, now: int)
    requires ExampleBucket(s.bk) && t == 0 && c == 2 && w == 5 && now == 12
    ensures
      var l := Live(s, ViewOf(s));
      var after := ExecLive(l, Peek(t));
      && Shows(l) && Agrees(l) && after.s.bk.lastTouch <= now
      && !MayDispatch(after.view, c, w, now).dispatch && DispatchVerdict(after.s.bk, c, w, now).dispatch
  {
  }

  /** Where the answers agree, a dispatch answer is one Start would accept. */
  lemma AgreementIsStart(l: Live, id: Id, now: int)
    requires Agrees(l) && id in l.s.escrows && !l.s.escrows[id].started && l.s.bk.lastTouch <= now
    ensures MayDispatch(l.view, l.s.escrows[id].c, l.s.escrows[id].w, now).dispatch
            <==> StartJob(l.s, id, now, true).err == Ok
  {
    hide DispatchVerdict, MayDispatch, StartJob;
    StartObeysVerdict(l.s, id, now);
  }

  // ---- the dry run ----

  datatype Denial = Admitted | DeniedLapsed | DeniedWindow | DeniedBudget | DeniedRate | DeniedHeadroom

  datatype Simulation = Simulation(cost: int, reason: Denial, runway: int)

  function Simulate(s: State, c: int, w: int, now: int): Simulation {
    var rate := Rate(s, c);
    var cost := rate * w;
    var reason :=
      if s.status != Active then DeniedLapsed
      else if now < s.bk.ts || now >= s.bk.te then DeniedWindow
      else if cost > s.b then DeniedBudget
      else if !RateOK(s, cost, now) then DeniedRate
      else if s.bk.on && !DispatchVerdict(s.bk, rate, w, now).dispatch then DeniedHeadroom
      else Admitted;
    Simulation(cost, reason, if 0 < s.c then Quo(s.b, s.c) else -1)
  }

  lemma OffAlwaysDispatches(b: Bucket, c: int, w: int, now: int)
    ensures !b.on ==> DispatchVerdict(b, c, w, now).dispatch
  {
  }

  /** The dry run admits exactly when a submit under a fresh id and a start at the same
      instant would both succeed; each denial names the error the real calls would give. */
  lemma SimulateIsSubmitThenStart(s: State, id: Id, c: int, w: int, now: int)
    requires id !in s.escrows
    ensures
      var sim := Simulate(s, c, w, now);
      var sub := SubmitAt(s, id, c, w, now, true);
      && (sim.reason == Admitted <==> sub.err == Ok && StartJob(sub.s, id, now, true).err == Ok)
      && (sim.reason in {DeniedLapsed, DeniedWindow} <==> sub.err == BudgetLapsed)
      && (sim.reason == DeniedBudget <==> sub.err == Insufficient)
      && (sim.reason == DeniedRate <==> sub.err == RateExceeded)
      && (sim.reason == DeniedHeadroom <==> sub.err == Ok && StartJob(sub.s, id, now, true).err != Ok)
      && (sub.err == Ok ==> sub.s.b == s.b - sim.cost)
  {
    var sub := SubmitAt(s, id, c, w, now, true);
    hide DispatchVerdict, Dispatch, StartJob;
    if sub.err == Ok {
      StartObeysVerdict(sub.s, id, now);
      OffAlwaysDispatches(s.bk, Rate(s, c), w, now);
    }
  }

  /** The runway a dry run reports: the whole seconds the balance lasts at the flat rate. */
  lemma RunwayLaw(s: State, c: int, w: int, now: int, n: int)
    requires 0 <= s.b
    ensures s.c <= 0 ==> Simulate(s, c, w, now).runway == -1
    ensures 0 < s.c ==> (Simulate(s, c, w, now).runway == n <==> s.c * n <= s.b < s.c * (n + 1))
  {
    hide RateOK, DispatchVerdict;
    if 0 < s.c {
      assert s.b == s.b / s.c * s.c + s.b % s.c;
      if s.c * n <= s.b < s.c * (n + 1) {
        DivModUnique(s.b, s.c, n, s.b - s.c * n);
      }
    }
  }
}
