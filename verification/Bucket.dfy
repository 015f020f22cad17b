/** The burst token bucket of internal/budget/burst.go, and the side-effect-free
    projection of it in internal/budget/dispatch.go.

    A `Bucket` holds what the source calls a burst projection: the configuration
    and the mutable bucket fields that accrual, the dispatch gate and the published
    read view share. */
module TokenBucket {
  import opened Arith

  /** `ceil(pct, b0)` stands for the float expression `Units(pct * float64(B0))`. */
  datatype BucketFields = Bucket(
    ceil: (real, int) -> int,
    on: bool, pct: real, drawCap: int,
    b0: int, ts: int, te: int,
    pot: int, frac: int, rLive: int, lastTouch: int)
  {
    function Window(): int { te - ts }

    function Ceiling(): int { ceil(pct, b0) }
  }

  /** A bucket whose window is non-empty and whose carried remainder is not negative,
      so that every division in accrual has Go's meaning. */
  type Bucket = b: BucketFields | b.ts < b.te && 0 <= b.frac
    witness Bucket((p: real, b: int) => 0, false, 0.0, 0, 0, 0, 1, 0, 0, 0, 0)

  /** Unused pace scaled by the window: (r0 - rLive) * T. */
  function Unused(b: Bucket): int {
    b.b0 - b.rLive * b.Window()
  }

  /** Fast-forward the bucket to `now`, banking unused pace in fixed point. */
  function Accrue(b: Bucket, now: int): (r: Bucket)
    ensures r == b.(pot := r.pot, frac := r.frac, lastTouch := r.lastTouch)
    ensures r.lastTouch == if b.on then now else b.lastTouch
  {
    var dt := now - b.lastTouch;
    if !b.on then b
    else if dt <= 0 || Unused(b) <= 0 then b.(lastTouch := now)
    else
      assert 0 <= Unused(b) * dt;
      var acc := b.frac + Unused(b) * dt;
      var pot := b.pot + acc / b.Window();
      if pot >= b.Ceiling() then b.(pot := b.Ceiling(), frac := 0, lastTouch := now)
      else b.(pot := pot, frac := acc % b.Window(), lastTouch := now)
  }

  /** Tokens a job at rate `c` reserves: the last arriver pays for the excess over
      the larger of the current burn and the floor of the sustainable rate. */
  function ReserveForRate(b: Bucket, c: int, w: int): int {
    var base := Max(b.rLive, Quo(b.b0, b.Window()));
    Max(b.rLive + c - base, 0) * w
  }

  /** The bucket once `earned`, in units scaled by the window, has been banked. */
  function Banked(b: Bucket, earned: nat, now: int): Bucket {
    var acc := b.frac + earned;
    if b.pot + acc / b.Window() >= b.Ceiling() then b.(pot := b.Ceiling(), frac := 0, lastTouch := now)
    else b.(pot := b.pot + acc / b.Window(), frac := acc % b.Window(), lastTouch := now)
  }

  /** One accrual that banks. */
  lemma AccrueBanks(b: Bucket, now: int, earned: nat)
    requires b.on && b.lastTouch < now && 0 < Unused(b) && earned == Unused(b) * (now - b.lastTouch)
    ensures Accrue(b, now) == Banked(b, earned, now)
    ensures Unused(Accrue(b, now)) == Unused(b)
  {
  }

  /** Dividing a sum in two steps, the remainder carried. */
  lemma CarrySplits(acc: nat, y: nat, T: int)
    requires 0 < T
    ensures acc / T + (acc % T + y) / T == (acc + y) / T && (acc % T + y) % T == (acc + y) % T
    ensures 0 <= (acc % T + y) / T && 0 <= y / T
  {
    DivCarry(acc, y, T);
    DivMonotone(0, y, T);
    DivMonotone(0, acc % T + y, T);
  }

  lemma BankedSplits(b: Bucket, x: nat, y: nat, t1: int, t2: int)
    ensures Banked(Banked(b, x, t1), y, t2) == Banked(b, x + y, t2)
  {
    var T, acc := b.Window(), b.frac + x;
    var q1, r1 := acc / T, acc % T;
    var q2, r2, all := (r1 + y) / T, (r1 + y) % T, (acc + y) / T;
    CarrySplits(acc, y, T);
    var m := Banked(b, x, t1);
    if b.pot + q1 >= b.Ceiling() {
      assert m == b.(pot := b.Ceiling(), frac := 0, lastTouch := t1);
      assert b.Ceiling() <= m.pot + y / T && b.Ceiling() <= b.pot + all;
    } else {
      assert m == b.(pot := b.pot + q1, frac := r1, lastTouch := t1);
      assert m.pot + q2 == b.pot + all;
    }
  }

  lemma EarnedSplits(u: int, d1: int, d2: int)
    requires 0 < u && 0 < d1 && 0 < d2
    ensures 0 < u * d1 && 0 < u * d2 && u * (d1 + d2) == u * d1 + u * d2
  {
  }

  /** Accrual does not depend on how an interval is cut up. */
  lemma AccrueSplits(b: Bucket, t1: int, t2: int)
    requires b.lastTouch <= t1 <= t2
    ensures Accrue(Accrue(b, t1), t2) == Accrue(b, t2)
  {
    if b.on && b.lastTouch < t1 < t2 && 0 < Unused(b) {
      hide Banked, Unused, Accrue;
      var u := Unused(b);
      var d1, d2 := t1 - b.lastTouch, t2 - t1;
      EarnedSplits(u, d1, d2);
      var x, y := u * d1, u * d2;
      AccrueBanks(b, t1, x);
      AccrueBanks(b, t2, x + y);
      AccrueBanks(Accrue(b, t1), t2, y);
      BankedSplits(b, x, y, t1, t2);
    }
  }

  /** Below the ceiling accrual is exact: pot * T + frac grows by unused * dt, to the
      last sub-unit. */
  lemma AccrueIsExact(b: Bucket, now: int)
    requires b.on && b.lastTouch <= now && 0 < Unused(b)
    requires Accrue(b, now).pot < b.Ceiling()
    ensures Accrue(b, now).pot * b.Window() + Accrue(b, now).frac
            == b.pot * b.Window() + b.frac + Unused(b) * (now - b.lastTouch)
  {
    var acc := b.frac + Unused(b) * (now - b.lastTouch);
    if b.lastTouch < now {
      assert acc == acc / b.Window() * b.Window() + acc % b.Window();
      assert (b.pot + acc / b.Window()) * b.Window() == b.pot * b.Window() + acc / b.Window() * b.Window();
    }
  }

  /** What accrual owes, with time and pot counted in units scaled by the window T: over dt it
      earns (b0 - rLive * T) * dt of them, if that is anything. Nothing is lost below the ceiling;
      at the ceiling the pot is full and the remainder is dropped. */
  ghost predicate Accrued(b: Bucket, b': Bucket, now: int) {
    var T, dt := b.te - b.ts, now - b.lastTouch;
    var unused := b.b0 - b.rLive * T;
    var full := b.ceil(b.pct, b.b0);
    if !b.on then b' == b
    else
      && b' == b.(pot := b'.pot, frac := b'.frac, lastTouch := now)
      && if dt <= 0 || unused <= 0 then b'.pot == b.pot && b'.frac == b.frac
         else if full * T <= b.pot * T + b.frac + unused * dt then b'.pot == full && b'.frac == 0
         else b'.pot * T + b'.frac == b.pot * T + b.frac + unused * dt && 0 <= b'.frac < T
  }

  lemma FullOrNot(pot: int, acc: nat, full: int, T: int)
    requires 0 < T
    ensures full <= pot + acc / T <==> full * T <= pot * T + acc
    ensures (pot + acc / T) * T + acc % T == pot * T + acc
  {
    assert acc == acc / T * T + acc % T;
    var q := pot + acc / T;
    assert q * T + acc % T == pot * T + acc;
    if full <= q {
      MulMono(full, q, T);
    } else {
      MulMono(q + 1, full, T);
    }
  }

  lemma SameDigits(q: int, r: int, q': int, r': int, T: int)
    requires 0 <= r < T && 0 <= r' < T && q * T + r == q' * T + r'
    ensures q == q' && r == r'
  {
    DivModUnique(q * T + r, T, q, r);
    DivModUnique(q' * T + r', T, q', r');
  }

  lemma BankedLaw(b: Bucket, now: int, earned: nat, b': Bucket)
    requires b' == b.(pot := b'.pot, frac := b'.frac, lastTouch := now)
    ensures
      var T, full := b.Window(), b.Ceiling();
      b' == Banked(b, earned, now)
      <==> if full * T <= b.pot * T + b.frac + earned then b'.pot == full && b'.frac == 0
           else b'.pot * T + b'.frac == b.pot * T + b.frac + earned && 0 <= b'.frac < T
  {
    var T, full, acc := b.Window(), b.Ceiling(), b.frac + earned;
    FullOrNot(b.pot, acc, full, T);
    if !(full * T <= b.pot * T + acc) && b'.pot * T + b'.frac == b.pot * T + acc && 0 <= b'.frac < T {
      SameDigits(b'.pot, b'.frac, b.pot + acc / T, acc % T, T);
    }
  }

  /** Accrual leaves the one bucket that owes this. */
  lemma AccrueLaw(b: Bucket, now: int, b': Bucket)
    ensures Accrued(b, b', now) <==> b' == Accrue(b, now)
  {
    var dt, unused := now - b.lastTouch, Unused(b);
    if b.on && 0 < dt && 0 < unused {
      MulMono(0, dt, unused);
      AccrueBanks(b, now, unused * dt);
      hide Accrue, Banked;
      if b' == b.(pot := b'.pot, frac := b'.frac, lastTouch := now) {
        BankedLaw(b, now, unused * dt, b');
      } else {
        assert Accrue(b, now) == b.(pot := Accrue(b, now).pot, frac := Accrue(b, now).frac, lastTouch := now);
      }
    }
  }

  /** The documented bounds: 0 <= pot <= ceiling and 0 <= frac < T. */
  predicate InBounds(b: Bucket) {
    0 <= b.pot <= b.Ceiling() && b.frac < b.Window()
  }

  /** The call banks: burst is on, time advances and pace is unused. */
  predicate Banks(b: Bucket, now: int) {
    b.on && b.lastTouch < now && 0 < Unused(b)
  }

  lemma AccrueKeepsBounds(b: Bucket, now: int)
    requires 0 <= b.pot && 0 <= b.Ceiling()
    requires InBounds(b) || Banks(b, now)
    ensures InBounds(Accrue(b, now))
  {
    if Banks(b, now) {
      assert 0 <= Unused(b) * (now - b.lastTouch);
    }
  }

  // ---- the lock-free projection (dispatch.go) ----

  datatype Verdict = Verdict(dispatch: bool, reason: Hold, reserve: int, pot: int)
  datatype Hold = NoHold | HoldDrawCap | HoldHeadroom

  /** dispatch.go's own copy of accrual's arithmetic, committing nothing. */
  function ProjectPot(b: Bucket, now: int): int {
    var dt := now - b.lastTouch;
    if dt <= 0 || Unused(b) <= 0 then b.pot
    else
      var pot := b.pot + Quo(b.frac + Unused(b) * dt, b.Window());
      if pot > b.Ceiling() then b.Ceiling() else pot
  }

  function DispatchVerdict(b: Bucket, c: int, w: int, now: int): Verdict {
    if !b.on then Verdict(true, NoHold, 0, 0)
    else
      var pot := ProjectPot(b, now);
      var resv := ReserveForRate(b, c, w);
      if resv <= 0 then Verdict(true, NoHold, resv, pot)
      else if b.drawCap > 0 && resv > b.drawCap then Verdict(false, HoldDrawCap, resv, pot)
      else if resv > pot then Verdict(false, HoldHeadroom, resv, pot)
      else Verdict(true, NoHold, resv, pot)
  }

  /** The projected pot is the pot accrual would leave, for every clock. */
  lemma ProjectionIsAccrual(b: Bucket, now: int)
    requires b.on
    ensures ProjectPot(b, now) == Accrue(b, now).pot
  {
    if Banks(b, now) {
      assert 0 <= Unused(b) * (now - b.lastTouch);
    }
  }

  /** A stale bucket and the same bucket fast-forwarded give the same verdict at any
      instant not before the fast-forwarded clock. */
  lemma VerdictIgnoresStaleness(b: Bucket, t: int, c: int, w: int, now: int)
    requires b.lastTouch <= t <= now
    ensures DispatchVerdict(b, c, w, now) == DispatchVerdict(Accrue(b, t), c, w, now)
  {
    if b.on {
      ProjectionIsAccrual(b, now);
      ProjectionIsAccrual(Accrue(b, t), now);
      AccrueSplits(b, t, now);
    }
  }

  // ---- reads before the bucket's own clock ----

  /** A fresh bucket: allocation 100 over [10, 110), its ceiling the whole allocation. */
  predicate ExampleBucket(b: Bucket) {
    && b.on && b.b0 == 100 && b.ts == 10 && b.te == 110 && b.lastTouch == 10
    && b.pot == 0 && b.frac == 0 && b.rLive == 0 && b.drawCap == 0
    && b.ceil(b.pct, 100) == 100 && b.ceil(b.pct, 200) == 200
  }

  /** At the ceiling with no remainder. */
  predicate Full(b: Bucket) {
    b.pot == b.Ceiling() && b.frac == 0
  }

  /** The projected pot at a given age of the bucket. */
  function PotAt(b: Bucket, age: int): int {
    ProjectPot(b, b.lastTouch + age)
  }

  /** If ageing by `d` never shows, ageing by any multiple of it never shows. */
  lemma {:induction false} ShiftRepeats(b: Bucket, d: int, n: nat)
    requires 0 < d && forall age :: 0 <= age ==> PotAt(b, age + d) == PotAt(b, age)
    ensures PotAt(b, n * d) == b.pot
  {
    if n > 0 {
      ShiftRepeats(b, d, n - 1);
      assert n * d == (n - 1) * d + d;
      MulMono(0, n - 1, d);
    }
  }

  /** A bucket that banks reaches its ceiling within (ceiling - pot) * T steps of any length. */
  lemma FillsUp(b: Bucket, d: int)
    requires 0 < Unused(b) && b.pot < b.Ceiling() && 0 < d
    ensures PotAt(b, (b.Ceiling() - b.pot) * b.Window() * d) == b.Ceiling()
  {
    var T, missing := b.Window(), b.Ceiling() - b.pot;
    var age := missing * T * d;
    MulMono(1, missing, T);
    MulMono(1, d, missing * T);
    assert missing * T <= age && 0 < age;
    MulMono(1, Unused(b), age);
    var acc := b.frac + Unused(b) * age;
    assert missing * T <= acc;
    DivMonotone(missing * T, acc, T);
    DivModUnique(missing * T, T, missing, 0);
  }

  lemma RollbackAges(b: Bucket, d: int, age: int)
    requires 0 < d && 0 <= age
    ensures ProjectPot(b.(lastTouch := b.lastTouch - d), b.lastTouch + age) == PotAt(b, age + d)
  {
  }

  lemma OverCeilingDrops(b: Bucket, d: int)
    requires 0 < d && 0 < Unused(b) && b.Ceiling() < b.pot
    ensures PotAt(b, d) != PotAt(b, 0)
  {
    assert 0 <= Unused(b) * d;
  }

  lemma RollbackShows(b: Bucket, d: int)
    requires 0 < d && 0 < Unused(b) && b.pot != b.Ceiling()
    ensures !(forall now :: b.lastTouch <= now ==> ProjectPot(b.(lastTouch := b.lastTouch - d), now) == ProjectPot(b, now))
  {
    if forall now :: b.lastTouch <= now ==> ProjectPot(b.(lastTouch := b.lastTouch - d), now) == ProjectPot(b, now) {
      forall age | 0 <= age
        ensures PotAt(b, age + d) == PotAt(b, age)
      {
        RollbackAges(b, d, age);
      }
      hide ProjectPot, PotAt, Unused;
      if b.Ceiling() < b.pot {
        OverCeilingDrops(b, d);
      } else {
        MulMono(0, b.Ceiling() - b.pot, b.Window());
        FillsUp(b, d);
        ShiftRepeats(b, d, (b.Ceiling() - b.pot) * b.Window());
      }
    }
  }

  lemma AtCeilingStays(b: Bucket, now: int)
    requires Unused(b) <= 0 || b.pot == b.Ceiling()
    ensures ProjectPot(b, now) == b.pot
  {
    if 0 < Unused(b) && b.lastTouch < now {
      assert 0 <= Unused(b) * (now - b.lastTouch);
    }
  }

  /** Rolling the clock back to `t` never shows in a projected pot, at any instant from the
      old clock on, if and only if the bucket does not bank or its pot is at the ceiling. */
  lemma RollbackUnseenIff(b: Bucket, t: int)
    requires t < b.lastTouch
    ensures (forall now :: b.lastTouch <= now ==> ProjectPot(b.(lastTouch := t), now) == ProjectPot(b, now))
            <==> Unused(b) <= 0 || b.pot == b.Ceiling()
  {
    var d := b.lastTouch - t;
    var early := b.(lastTouch := t);
    assert Unused(early) == Unused(b);
    if 0 < Unused(b) && b.pot != b.Ceiling() {
      if forall now :: b.lastTouch <= now ==> ProjectPot(early, now) == ProjectPot(b, now) {
        RollbackShows(b, d);
      }
    } else {
      forall now | b.lastTouch <= now
        ensures ProjectPot(early, now) == ProjectPot(b, now)
      {
        AtCeilingStays(b, now);
        AtCeilingStays(early, now);
      }
    }
  }

  lemma FullStays(b: Bucket, now: int)
    requires b.on && (Unused(b) <= 0 || Full(b))
    ensures Accrue(b, now) == b.(lastTouch := now)
  {
    if 0 < Unused(b) && b.lastTouch < now {
      assert 0 <= Unused(b) * (now - b.lastTouch);
    }
  }

  /** The same for the whole bucket: any later accrual undoes the roll-back if and only if
      the bucket does not bank or is full. */
  lemma RollbackHarmlessIff(b: Bucket, t: int)
    requires b.on && t < b.lastTouch
    ensures (forall now :: b.lastTouch <= now ==> Accrue(b.(lastTouch := t), now) == Accrue(b, now))
            <==> Unused(b) <= 0 || Full(b)
  {
    var early := b.(lastTouch := t);
    if forall now :: b.lastTouch <= now ==> Accrue(early, now) == Accrue(b, now) {
      forall now | b.lastTouch <= now
        ensures ProjectPot(early, now) == ProjectPot(b, now)
      {
        ProjectionIsAccrual(early, now);
        ProjectionIsAccrual(b, now);
      }
      RollbackUnseenIff(b, t);
      assert Accrue(early, b.lastTouch) == b;
    }
    if Unused(b) <= 0 || Full(b) {
      forall now | b.lastTouch <= now
        ensures Accrue(early, now) == Accrue(b, now)
      {
        FullStays(b, now);
        FullStays(early, now);
      }
    }
  }
}
