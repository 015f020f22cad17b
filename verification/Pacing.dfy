/** What running above the sustainable pace costs in tokens: the last arriver pays for the
    excess, and gets the unused tail back (internal/budget/burst.go, budget.go, array.go). */
module Pacing {
  import opened Arith
  import opened TokenBucket
  import opened Kernel
  import opened Books
  import opened Billing

  /** `r0` is the floor of the sustainable rate: the allocation spread over the window. */
  predicate Pace(b: Bucket, r0: int) {
    r0 * b.Window() <= b.b0 < (r0 + 1) * b.Window()
  }

  lemma PaceIsQuo(b: Bucket, r0: int)
    requires 0 <= b.b0 && Pace(b, r0)
    ensures Quo(b.b0, b.Window()) == r0
  {
    DivModUnique(b.b0, b.Window(), r0, b.b0 - r0 * b.Window());
  }

  lemma PaceExists(b: Bucket)
    requires 0 <= b.b0
    ensures Pace(b, b.b0 / b.Window())
  {
    assert b.b0 == b.b0 / b.Window() * b.Window() + b.b0 % b.Window();
  }

  /** The part of a burn that is above the pace. */
  function Above(r: int, r0: int): int {
    Max(r, r0) - r0
  }

  /** Last arriver pays: an arrival at rate c reserves what it adds to the burn above the pace,
      over its walltime. */
  lemma LastArriverPays(b: Bucket, c: int, w: int, r0: int)
    requires 0 <= b.b0 && 0 <= c && Pace(b, r0)
    ensures ReserveForRate(b, c, w) == w * (Above(b.rLive + c, r0) - Above(b.rLive, r0))
  {
    PaceIsQuo(b, r0);
    hide Quo;
  }

  lemma Factored(w: int, x: int, y: int, z: int)
    ensures w * (x - y) + w * (z - x) == w * (z - y)
  {
  }

  /** So an arrival that stays within the pace reserves nothing, one from at or above the pace
      reserves its whole rate over its walltime, and cutting an arrival in two changes nothing. */
  lemma ArrivalsAddUp(b: Bucket, c: int, d: int, w: int, r0: int)
    requires 0 <= b.b0 && 0 <= c && 0 <= d && Pace(b, r0)
    ensures b.rLive + c <= r0 ==> ReserveForRate(b, c, w) == 0
    ensures r0 <= b.rLive ==> ReserveForRate(b, c, w) == c * w
    ensures ReserveForRate(b, c, w) + ReserveForRate(b.(rLive := b.rLive + c), d, w) == ReserveForRate(b, c + d, w)
  {
    LastArriverPays(b, c, w, r0);
    LastArriverPays(b, c + d, w, r0);
    LastArriverPays(b.(rLive := b.rLive + c), d, w, r0);
    Factored(w, Above(b.rLive + c, r0), Above(b.rLive, r0), Above(b.rLive + c + d, r0));
    hide ReserveForRate;
  }

  // ---- the dispatch gate ----

  /** The bucket `b` at `now` has room for a reservation. */
  predicate Room(b: Bucket, resv: int, now: int) {
    resv <= 0 || ((b.drawCap <= 0 || resv <= b.drawCap) && resv <= Accrue(b, now).pot)
  }

  /** With burst on, work of rate c and walltime w is dispatched exactly when its excess over
      the pace fits the draw cap and the tokens banked by then, and its append goes through. It
      then holds that many tokens, and burns. */
  lemma GateCharges(b: Bucket, c: int, w: int, now: int, ok: bool, r0: int)
    requires b.on && 0 <= b.b0 && 0 <= c && 0 <= w && Pace(b, r0)
    ensures
      var a, g := Accrue(b, now), Dispatch(b, c, w, now, ok);
      var resv := w * (Above(b.rLive + c, r0) - Above(b.rLive, r0));
      && 0 <= resv
      && (g.err == Ok <==> Room(b, resv, now) && ok)
      && (g.err == DrawCapExceeded <==> resv > 0 && 0 < b.drawCap < resv)
      && (g.err == BurstInsufficient <==> resv > 0 && (b.drawCap <= 0 || resv <= b.drawCap) && a.pot < resv)
      && (g.err == Ok ==> g.resv == resv && g.bk == a.(pot := a.pot - resv, rLive := b.rLive + c))
      && (g.err in {DrawCapExceeded, BurstInsufficient} ==> g.bk == a)
  {
    var a := Accrue(b, now);
    assert Pace(a, r0) && a.b0 == b.b0 && a.rLive == b.rLive;
    LastArriverPays(a, c, w, r0);
    MulMono(0, Above(b.rLive + c, r0) - Above(b.rLive, r0), w);
    hide ReserveForRate, Accrue;
  }

  lemma AllocationNonNeg(s: State)
    requires Balanced(s)
    ensures 0 <= s.bk.b0
  {
  }

  /** The verdict, with its figures: the pot as accrual would leave it, the reservation as the
      rise above the pace, and room for the one in the other. */
  lemma VerdictReports(b: Bucket, c: int, w: int, now: int, r0: int)
    requires b.on && 0 <= b.b0 && 0 <= c && Pace(b, r0)
    ensures
      var v := DispatchVerdict(b, c, w, now);
      var resv := w * (Above(b.rLive + c, r0) - Above(b.rLive, r0));
      && v.pot == Accrue(b, now).pot && v.reserve == resv && (v.dispatch <==> Room(b, resv, now))
      && (v.reason == HoldDrawCap <==> resv > 0 && 0 < b.drawCap < resv)
      && (v.dispatch <==> v.reason == NoHold)
  {
    LastArriverPays(b, c, w, r0);
    ProjectionIsAccrual(b, now);
    hide ReserveForRate, ProjectPot, Accrue, Above;
  }

  /** What dispatching one piece of work owes: with burst off it needs only its append; with
      burst on the gate must have room too, and the tokens and the burn move. */
  ghost predicate Dispatched(b: Bucket, b': Bucket, c: int, w: int, now: int, ok: bool, r0: int, err: Err, resv: int) {
    var above := w * (Above(b.rLive + c, r0) - Above(b.rLive, r0));
    if !b.on then b' == b && resv == 0 && (err == Ok <==> ok)
    else
      && (err == Ok <==> Room(b, above, now) && ok)
      && (err == Ok ==> resv == above && b' == Accrue(b, now).(pot := Accrue(b, now).pot - above, rLive := b.rLive + c))
  }

  lemma DispatchCharges(b: Bucket, c: int, w: int, now: int, ok: bool, r0: int)
    requires 0 <= b.b0 && 0 <= c && 0 <= w && Pace(b, r0)
    ensures
      var g := Dispatch(b, c, w, now, ok);
      Dispatched(b, g.bk, c, w, now, ok, r0, g.err, if g.err == Ok then g.resv else 0)
  {
    hide Accrue, ReserveForRate, Above, Room;
    if b.on {
      GateCharges(b, c, w, now, ok, r0);
    }
  }

  /** Starting a job that has not started: the gate decides, and the job holds what it reserved. */
  lemma StartCharges(s: State, id: Id, now: int, ok: bool, r0: int)
    requires Balanced(s) && id in s.escrows && !s.escrows[id].started && Pace(s.bk, r0)
    ensures
      var o, e := Call(s, Start(id, now), ok), s.escrows[id];
      && (o.err != Ok ==> o.s == s.(bk := o.s.bk) && o.log == [])
      && exists resv ::
           && Dispatched(s.bk, o.s.bk, e.c, e.w, now, ok, r0, o.err, resv)
           && (o.err == Ok ==>
                 && o.log == [Start(id, now)]
                 && o.s.escrows == s.escrows[id := e.(started := true, burstResv := if 0 < resv then resv else e.burstResv)]
                 && o.s == s.(bk := o.s.bk, escrows := o.s.escrows))
  {
    assert EscrowOK(s.escrows[id]);
    AllocationNonNeg(s);
    hide Balanced, Dispatched, Pace;
    var e := s.escrows[id];
    DispatchCharges(s.bk, e.c, e.w, now, ok, r0);
    var g := Dispatch(s.bk, e.c, e.w, now, ok);
    hide Dispatch;
    assert Dispatched(s.bk, g.bk, e.c, e.w, now, ok, r0, g.err, if g.err == Ok then g.resv else 0);
  }

  /** The same for an array task. */
  lemma StartTaskCharges(s: State, id: Id, idx: int, now: int, ok: bool, r0: int)
    requires Balanced(s) && HasTask(s, id, idx) && Pace(s.bk, r0)
    requires !s.arrays[id].tasks[idx].settled && !s.arrays[id].tasks[idx].started
    ensures
      var o, a, t := Call(s, StartTask(id, idx, now), ok), s.arrays[id], s.arrays[id].tasks[idx];
      && (o.err != Ok ==> o.s == s.(bk := o.s.bk) && o.log == [])
      && exists resv ::
           && Dispatched(s.bk, o.s.bk, a.c, a.w, now, ok, r0, o.err, resv)
           && (o.err == Ok ==>
                 && o.log == [StartTask(id, idx, now)]
                 && o.s.arrays == s.arrays[id := a.(tasks := a.tasks[idx := t.(started := true, burstResv := if 0 < resv then resv else t.burstResv)])]
                 && o.s == s.(bk := o.s.bk, arrays := o.s.arrays))
  {
    TaskArrayOK(s, id);
    AllocationNonNeg(s);
    hide Balanced, Dispatched, Pace;
    var a := s.arrays[id];
    DispatchCharges(s.bk, a.c, a.w, now, ok, r0);
    var g := Dispatch(s.bk, a.c, a.w, now, ok);
    hide Dispatch;
    assert Dispatched(s.bk, g.bk, a.c, a.w, now, ok, r0, g.err, if g.err == Ok then g.resv else 0);
  }

  /** Starting what already started, or what is not there, changes nothing. */
  lemma StartRefusals(s: State, id: Id, idx: int, now: int, ok: bool)
    ensures id !in s.escrows ==> Call(s, Start(id, now), ok) == Outcome(s, NoSuchJob, [])
    ensures id in s.escrows && s.escrows[id].started ==> Call(s, Start(id, now), ok) == Outcome(s, Ok, [])
    ensures id !in s.arrays ==> Call(s, StartTask(id, idx, now), ok) == Outcome(s, NoSuchJob, [])
    ensures id in s.arrays && (!HasTask(s, id, idx) || s.arrays[id].tasks[idx].settled) ==>
      Call(s, StartTask(id, idx, now), ok) == Outcome(s, BadState, [])
    ensures HasTask(s, id, idx) && s.arrays[id].tasks[idx].started && !s.arrays[id].tasks[idx].settled ==>
      Call(s, StartTask(id, idx, now), ok) == Outcome(s, Ok, [])
  {
    hide Dispatch;
  }

  // ---- several arrivals ----

  function StartOps(ids: seq<Id>, now: int): seq<Op> {
    if ids == [] then [] else [Do(Start(ids[0], now), true)] + StartOps(ids[1..], now)
  }

  /** Every one of the starts is accepted, one after the other. */
  predicate AllAccepted(s: State, ids: seq<Id>, now: int)
    decreases |ids|
  {
    ids == [] ||
    (Call(s, Start(ids[0], now), true).err == Ok && AllAccepted(Call(s, Start(ids[0], now), true).s, ids[1..], now))
  }

  /** Tokens held by the given jobs. */
  function HeldBy(escrows: map<Id, Escrow>, ids: seq<Id>): int
    requires forall i :: 0 <= i < |ids| ==> ids[i] in escrows
  {
    if ids == [] then 0 else escrows[ids[0]].burstResv + HeldBy(escrows, ids[1..])
  }

  /** Jobs of walltime w that have not started and hold nothing, each named once. */
  predicate Waiting(s: State, ids: seq<Id>, w: int) {
    && (forall i :: 0 <= i < |ids| ==>
          ids[i] in s.escrows && !s.escrows[ids[i]].started && s.escrows[ids[i]].w == w && s.escrows[ids[i]].burstResv == 0)
    && (forall i, j :: 0 <= i < j < |ids| ==> ids[i] != ids[j])
  }

  lemma StartElsewhere(s: State, id: Id, now: int, other: Id)
    requires other != id && other in s.escrows
    ensures
      var t := Call(s, Start(id, now), true).s;
      other in t.escrows && t.escrows[other] == s.escrows[other]
  {
    hide Dispatch;
  }

  lemma {:induction false} StartsElsewhere(s: State, ids: seq<Id>, now: int, other: Id)
    requires other in s.escrows && forall i :: 0 <= i < |ids| ==> ids[i] != other
    ensures
      var t := Run(s, StartOps(ids, now)).s;
      other in t.escrows && t.escrows[other] == s.escrows[other]
    decreases |ids|
  {
    hide Call;
    if ids != [] {
      StartElsewhere(s, ids[0], now, other);
      assert StartOps(ids, now)[1..] == StartOps(ids[1..], now);
      StartsElsewhere(Call(s, Start(ids[0], now), true).s, ids[1..], now, other);
    }
  }

  lemma StartKeepsWaiting(s: State, ids: seq<Id>, now: int, w: int)
    requires ids != [] && Waiting(s, ids, w)
    ensures Waiting(Call(s, Start(ids[0], now), true).s, ids[1..], w)
  {
    hide Call;
    forall i | 1 <= i < |ids|
      ensures
        var t := Call(s, Start(ids[0], now), true).s;
        ids[i] in t.escrows && t.escrows[ids[i]] == s.escrows[ids[i]]
    {
      assert ids[0] != ids[i];
      StartElsewhere(s, ids[0], now, ids[i]);
    }
  }

  /** One accepted start, in the terms the sum is taken in. */
  lemma StartStep(s: State, id: Id, now: int, w: int, r0: int)
    requires Balanced(s) && s.bk.on && Pace(s.bk, r0) && Waiting(s, [id], w)
    requires Call(s, Start(id, now), true).err == Ok
    ensures
      var m := Call(s, Start(id, now), true).s;
      && Balanced(m) && m.bk.on && Pace(m.bk, r0) && Accrue(m.bk, now) == m.bk
      && id in m.escrows
      && m.escrows[id].burstResv == w * (Above(m.bk.rLive, r0) - Above(s.bk.rLive, r0))
      && m.bk.pot == Accrue(s.bk, now).pot - m.escrows[id].burstResv
  {
    assert [id][0] == id;
    assert EscrowOK(s.escrows[id]);
    CallKeepsBooks(s, Start(id, now), true);
    StartCharges(s, id, now, true, r0);
    var c := s.escrows[id].c;
    MulMono(0, Above(s.bk.rLive + c, r0) - Above(s.bk.rLive, r0), w);
    hide Balanced, Call, Above;
  }

  /** Last arriver pays, over any number of accepted starts of one walltime: together they hold
      what the burn has risen above the pace, over that walltime, and the pot has paid for it. */
  lemma {:induction false} StartsAddUp(s: State, ids: seq<Id>, now: int, w: int, r0: int)
    requires Balanced(s) && s.bk.on && Pace(s.bk, r0) && Waiting(s, ids, w) && AllAccepted(s, ids, now)
    ensures
      var t := Run(s, StartOps(ids, now)).s;
      && (forall i :: 0 <= i < |ids| ==> ids[i] in t.escrows)
      && HeldBy(t.escrows, ids) == w * (Above(t.bk.rLive, r0) - Above(s.bk.rLive, r0))
      && (ids != [] ==> t.bk.pot == Accrue(s.bk, now).pot - HeldBy(t.escrows, ids))
    decreases |ids|
  {
    hide Call, Balanced, Above, Pace, Accrue;
    if ids != [] {
      var m := Call(s, Start(ids[0], now), true).s;
      assert Waiting(s, [ids[0]], w);
      StartStep(s, ids[0], now, w, r0);
      StartKeepsWaiting(s, ids, now, w);
      assert StartOps(ids, now)[1..] == StartOps(ids[1..], now);
      StartsAddUp(m, ids[1..], now, w, r0);
      StartsElsewhere(m, ids[1..], now, ids[0]);
      var t := Run(m, StartOps(ids[1..], now)).s;
      Factored(w, Above(m.bk.rLive, r0), Above(s.bk.rLive, r0), Above(t.bk.rLive, r0));
      hide Waiting;
    }
  }

  // ---- the refund ----

  /** `part` is `x` of `w` parts of `resv`, rounded down. */
  predicate FloorShare(resv: int, x: int, w: int, part: int) {
    w * part <= resv * x < w * (part + 1)
  }

  /** The pot after tokens come back, up to the ceiling. */
  predicate Refunded(a: Bucket, pot: int, back: int) {
    pot == Min(a.pot + back, a.Ceiling())
  }

  /** What the bucket owes when work ends after being billed r of its w seconds: accrue with
      the work still burning; if it had started, stop its burn and return the unused share of
      its tokens, rounded down, up to the ceiling. */
  ghost predicate Released(b: Bucket, b': Bucket, c: int, w: int, started: bool, resv: int, r: int, now: int) {
    var a := Accrue(b, now);
    if !b.on then b' == b
    else if !started then b' == a
    else
      && b' == a.(pot := b'.pot, rLive := Max(b.rLive - c, 0))
      && (resv <= 0 || w <= 0 ==> b'.pot == a.pot)
      && (0 < resv && 0 < w ==> exists back :: FloorShare(resv, w - r, w, back) && Refunded(a, b'.pot, back))
  }

  lemma ShareIsQuo(resv: int, x: int, w: int)
    requires 0 <= resv && 0 <= x && 0 < w
    ensures FloorShare(resv, x, w, Quo(resv * x, w))
  {
    MulMono(0, x, resv);
    var p := resv * x;
    assert p == p / w * w + p % w;
  }

  lemma AccrueWhenOff(b: Bucket, now: int)
    ensures !b.on ==> Accrue(b, now) == b
  {
  }

  lemma ReleaseReturns(b: Bucket, c: int, w: int, started: bool, resv: int, r: int, now: int)
    requires 0 <= r <= w
    ensures Released(b, Release(b, c, w, started, resv, r, now), c, w, started, resv, r, now)
  {
    hide Accrue, Quo, FloorShare;
    if 0 < resv && 0 < w {
      ShareIsQuo(resv, w - r, w);
      if b.on && started {
        assert Refunded(Accrue(b, now), Release(b, c, w, started, resv, r, now).pot, Quo(resv * (w - r), w));
      }
    }
    AccrueWhenOff(b, now);
  }

  lemma ClampInRange(runtime: int, w: int)
    requires 0 <= w
    ensures 0 <= Clamp(runtime, w) <= w
  {
  }

  /** The bucket side of every 1:1 settlement: released for the seconds the settlement bills. */
  lemma JobReleases(s: State, cmd: Command)
    requires SettlesJob(cmd) && cmd.id in s.escrows && EscrowOK(s.escrows[cmd.id])
    ensures
      var e, b' := s.escrows[cmd.id], Call(s, cmd, true).s.bk;
      && (cmd.Complete? ==> Released(s.bk, b', e.c, e.w, e.started, e.burstResv, Within(cmd.runtime, e.w), cmd.now))
      && (cmd.Timeout? ==> Released(s.bk, b', e.c, e.w, e.started, e.burstResv, e.w, cmd.now))
      && (cmd.Cancel? ==>
            Released(s.bk, b', e.c, e.w, e.started, e.burstResv, if e.started then Within(cmd.elapsed, e.w) else 0, cmd.now))
      && (cmd.InfraFail? ==> Released(s.bk, b', e.c, e.w, e.started, e.burstResv, Within(cmd.elapsed, e.w), cmd.now))
  {
    hide Release, Released, Clamp, Within;
    var e := s.escrows[cmd.id];
    var runtime := JobRuntime(e, cmd);
    ClampIsWithin(runtime, e.w);
    ClampInRange(runtime, e.w);
    ReleaseReturns(s.bk, e.c, e.w, e.started, e.burstResv, Clamp(runtime, e.w), cmd.now);
  }

  /** The bucket side of every task settlement. */
  lemma TaskReleases(s: State, cmd: Command)
    requires SettlesTask(cmd) && Balanced(s) && HasTask(s, cmd.id, cmd.idx) && !s.arrays[cmd.id].tasks[cmd.idx].settled
    ensures
      var a, t, b' := s.arrays[cmd.id], s.arrays[cmd.id].tasks[cmd.idx], Call(s, cmd, true).s.bk;
      && (cmd.CompleteTask? ==> Released(s.bk, b', a.c, a.w, t.started, t.burstResv, Within(cmd.runtime, a.w), cmd.now))
      && (cmd.TimeoutTask? ==> Released(s.bk, b', a.c, a.w, t.started, t.burstResv, a.w, cmd.now))
      && (cmd.CancelTask? ==>
            Released(s.bk, b', a.c, a.w, t.started, t.burstResv, if t.started then Within(cmd.elapsed, a.w) else 0, cmd.now))
      && (cmd.InfraFailTask? ==> Released(s.bk, b', a.c, a.w, t.started, t.burstResv, Within(cmd.elapsed, a.w), cmd.now))
  {
    TaskArrayOK(s, cmd.id);
    hide Balanced, Release, Released, Clamp, Within, ArrayEscrow.Slice;
    var a, t := s.arrays[cmd.id], s.arrays[cmd.id].tasks[cmd.idx];
    var runtime := TaskRuntime(s, cmd);
    ClampIsWithin(runtime, a.w);
    ClampInRange(runtime, a.w);
    ReleaseReturns(s.bk, a.c, a.w, t.started, t.burstResv, Clamp(runtime, a.w), cmd.now);
  }

  lemma AccrueAgain(b: Bucket, now: int)
    requires b.lastTouch == now
    ensures Accrue(b, now) == b
  {
  }

  /** A dispatch undone before any time passes leaves what the accrual alone would. */
  lemma DispatchUndone(b: Bucket, c: int, w: int, now: int)
    requires b.on && 0 <= b.rLive && 0 <= c && 0 <= w && InBounds(b) && 0 <= b.Ceiling()
    requires Dispatch(b, c, w, now, true).err == Ok
    ensures
      var g := Dispatch(b, c, w, now, true);
      Release(g.bk, c, w, true, g.resv, 0, now) == Accrue(b, now)
  {
    var g := Dispatch(b, c, w, now, true);
    AccrueKeepsBounds(b, now);
    AccrueAgain(g.bk, now);
    if w == 0 {
      assert g.resv == 0;
    } else {
      DivModUnique(g.resv * w, w, g.resv, 0);
    }
    hide Accrue;
  }

  /** A job started and cancelled at the same instant leaves the budget as that instant's
      accrual alone would: the money, the tokens and the burn are all back. */
  lemma StartCancelRestores(s: State, id: Id, now: int)
    requires Balanced(s) && id in s.escrows && !s.escrows[id].started && s.escrows[id].burstResv == 0
    requires s.bk.on && 0 <= s.bk.rLive && InBounds(s.bk) && 0 <= s.bk.Ceiling()
    requires Call(s, Start(id, now), true).err == Ok
    ensures
      var t := Call(Call(s, Start(id, now), true).s, Cancel(id, 0, now), true).s;
      && t.bk == Accrue(s.bk, now)
      && t.b == s.b + s.escrows[id].reserved && t.consumed == s.consumed && t.writeOff == s.writeOff
      && t.escrows == s.escrows - {id} && t.arrays == s.arrays
  {
    var e := s.escrows[id];
    var m := Call(s, Start(id, now), true).s;
    assert EscrowOK(e);
    DispatchUndone(s.bk, e.c, e.w, now);
    assert m.escrows - {id} == s.escrows - {id};
    assert e.c * Clamp(0, e.w) == 0;
    hide Balanced, Dispatch, Release, Accrue, InBounds;
  }
}
