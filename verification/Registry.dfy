/** The account registry as the object it is: the transfer call and the recovery loop of
    internal/daemon/transfer.go, proved to be runs of the crashable steps of `Transfer`. */
module Registries {
  import opened Sums
  import opened Kernel
  import opened LogFormat
  import opened Transfer
  import Durable

  datatype Result =
    | Moved(amount: int) | SameAccount | UnknownAccount | NothingToMove | SourceShort
    | WithdrawFailed | DepositFailed

  function Legs(w: World, x: string, e: Entry, okOut: bool, okIn: bool): World {
    DepositStep(WithdrawStep(BeginStep(w, x, e), x, okOut), x, okIn)
  }

  /** The four steps of one uninterrupted transfer. */
  function Attempt(w: World, x: string, e: Entry, okOut: bool, okIn: bool): World {
    DropStep(Legs(w, x, e, okOut, okIn), x)
  }

  /** A leg goes through exactly when the balance covers it and the append succeeds. */
  lemma LegRuns(s: State, amount: int, x: string, now: int, ok: bool)
    requires 0 < amount
    ensures
      var o := Call(s, Withdraw(amount, x, now), ok);
      && (o.err == Ok <==> ok && amount <= s.b)
      && o.s == if o.err == Ok then s.(b := s.b - amount, bk := s.bk.(b0 := s.bk.b0 - amount)) else s
    ensures
      var o := Call(s, TopUp(amount, x, now), ok);
      && (o.err == Ok <==> ok)
      && o.s == if o.err == Ok then s.(b := s.b + amount, bk := s.bk.(b0 := s.bk.b0 + amount)) else s
  {
  }

  predicate CanBegin(w: World, x: string, e: Entry) {
    && w.mode == Serving && x !in w.history && x !in w.journal && x !in w.threads && x != ""
    && e.source != e.target && e.source in w.accts && e.target in w.accts && 0 < e.amount
  }

  /** Account `a` has `d` more than it had. */
  predicate MovedBy(m: map<Name, Account>, m': map<Name, Account>, a: Name, d: int) {
    a in m && a in m' && m'[a].s.b == m[a].s.b + d && m'[a].s.bk.b0 == m[a].s.bk.b0 + d
  }

  ghost predicate OthersSame(m: map<Name, Account>, m': map<Name, Account>, but: set<Name>) {
    m'.Keys == m.Keys && forall a :: a in m && a !in but ==> m'[a] == m[a]
  }

  lemma PutThenDrop<K, V>(m: map<K, V>, k: K, u: V, v: V)
    requires k !in m
    ensures m - {k} == m && m[k := v] - {k} == m && m[k := u][k := v] == m[k := v]
  {
  }

  lemma WithdrawStepMoves(w: World, x: string, e: Entry, ok: bool)
    requires x in w.threads && x in w.history && w.history[x] == History(e, false, false)
    requires e.source in w.accts && 0 < e.amount && w.threads[x] == Journaled
    ensures
      var w' := WithdrawStep(w, x, ok);
      var paid := ok && e.amount <= w.accts[e.source].s.b;
      && MovedBy(w.accts, w'.accts, e.source, if paid then -e.amount else 0) && OthersSame(w.accts, w'.accts, {e.source})
      && w'.journal == w.journal
      && w'.history == w.history[x := History(e, paid, false)]
      && w'.threads == w.threads[x := if paid then Withdrawn else Aborted]
  {
    hide Call;
    LegRuns(w.accts[e.source].s, e.amount, x, e.now, ok);
  }

  lemma OutLegMoves(w: World, x: string, e: Entry, ok: bool)
    requires CanBegin(w, x, e)
    ensures
      var w' := WithdrawStep(BeginStep(w, x, e), x, ok);
      var paid := ok && e.amount <= w.accts[e.source].s.b;
      && MovedBy(w.accts, w'.accts, e.source, if paid then -e.amount else 0) && OthersSame(w.accts, w'.accts, {e.source})
      && w'.journal == w.journal[x := e]
      && w'.history == w.history[x := History(e, paid, false)]
      && w'.threads == w.threads[x := if paid then Withdrawn else Aborted]
  {
    hide WithdrawStep, MovedBy, OthersSame;
    var w1 := BeginStep(w, x, e);
    assert w1 == w.(journal := w.journal[x := e], history := w.history[x := History(e, false, false)],
                    threads := w.threads[x := Journaled]);
    WithdrawStepMoves(w1, x, e, ok);
    PutThenDrop(w.history, x, History(e, false, false), History(e, true, false));
    PutThenDrop(w.history, x, History(e, false, false), History(e, false, false));
    PutThenDrop(w.threads, x, Journaled, Withdrawn);
    PutThenDrop(w.threads, x, Journaled, Aborted);
  }

  lemma InLegMoves(w: World, x: string, e: Entry, ok: bool)
    requires x in w.threads && x in w.history && w.history[x] == History(e, true, false)
    requires e.target in w.accts && 0 < e.amount && w.threads[x] == Withdrawn
    ensures
      var w' := DepositStep(w, x, ok);
      && MovedBy(w.accts, w'.accts, e.target, if ok then e.amount else 0) && OthersSame(w.accts, w'.accts, {e.target})
      && w'.journal == w.journal
      && w'.history == w.history[x := History(e, true, ok)]
      && w'.threads == if ok then w.threads[x := Deposited] else w.threads - {x}
  {
    hide Call;
    LegRuns(w.accts[e.target].s, e.amount, x, e.now, ok);
  }

  /** Two moves of different accounts, one after the other. */
  lemma MovesCompose(m: map<Name, Account>, m1: map<Name, Account>, m2: map<Name, Account>, a: Name, d: int, a2: Name, d2: int)
    requires a != a2 && a2 in m
    requires MovedBy(m, m1, a, d) && OthersSame(m, m1, {a}) && MovedBy(m1, m2, a2, d2) && OthersSame(m1, m2, {a2})
    ensures MovedBy(m, m2, a, d) && MovedBy(m, m2, a2, d2) && OthersSame(m, m2, {a, a2})
  {
  }

  lemma SameAccounts(m: map<Name, Account>, m': map<Name, Account>, but: set<Name>)
    requires OthersSame(m, m', but)
    ensures m'.Keys == m.Keys
  {
  }

  lemma NoMove(m: map<Name, Account>, m': map<Name, Account>, a: Name, a2: Name)
    requires OthersSame(m, m', {a}) && a2 in m && a2 != a
    ensures MovedBy(m, m', a2, 0) && OthersSame(m, m', {a, a2})
  {
  }

  /** After both legs have been tried: `w3` before the record is dropped. */
  lemma LegsMove(w: World, x: string, e: Entry, okOut: bool, okIn: bool)
    requires CanBegin(w, x, e)
    ensures
      var w3 := Legs(w, x, e, okOut, okIn);
      var paid := okOut && e.amount <= w.accts[e.source].s.b;
      var landed := paid && okIn;
      && MovedBy(w.accts, w3.accts, e.source, if paid then -e.amount else 0)
      && MovedBy(w.accts, w3.accts, e.target, if landed then e.amount else 0)
      && OthersSame(w.accts, w3.accts, {e.source, e.target})
      && w3.journal == w.journal[x := e]
      && w3.history == w.history[x := History(e, paid, landed)]
      && w3.threads == if !paid then w.threads[x := Aborted]
                       else if landed then w.threads[x := Deposited] else w.threads - {x}
  {
    hide MovedBy, OthersSame;
    OutLegMoves(w, x, e, okOut);
    var w2 := WithdrawStep(BeginStep(w, x, e), x, okOut);
    SameAccounts(w.accts, w2.accts, {e.source});
    hide BeginStep, WithdrawStep;
    if w2.threads[x] == Withdrawn {
      InLegMoves(w2, x, e, okIn);
      var w3 := DepositStep(w2, x, okIn);
      MovesCompose(w.accts, w2.accts, w3.accts, e.source, -e.amount, e.target, if okIn then e.amount else 0);
      hide DepositStep;
      PutThenDrop(w.threads, x, Withdrawn, Deposited);
      PutThenDrop(w.threads, x, Deposited, Withdrawn);
      PutThenDrop(w.history, x, History(e, true, false), History(e, true, okIn));
    } else {
      assert DepositStep(w2, x, okIn) == w2;
      NoMove(w.accts, w2.accts, e.source, e.target);
    }
  }

  /** What one transfer does: the source pays when it can and its append goes through, the
      target receives when its append does too, no other account moves, and the journal
      keeps the record exactly when the money is still in flight. */
  lemma TransferMoves(w: World, x: string, e: Entry, okOut: bool, okIn: bool)
    requires CanBegin(w, x, e)
    ensures
      var w' := Attempt(w, x, e, okOut, okIn);
      var paid := okOut && e.amount <= w.accts[e.source].s.b;
      var landed := paid && okIn;
      && MovedBy(w.accts, w'.accts, e.source, if paid then -e.amount else 0)
      && MovedBy(w.accts, w'.accts, e.target, if landed then e.amount else 0)
      && OthersSame(w.accts, w'.accts, {e.source, e.target})
      && w'.journal == (if paid && !landed then w.journal[x := e] else w.journal)
      && w'.history == w.history[x := History(e, paid, landed)]
      && w'.threads == w.threads
  {
    LegsMove(w, x, e, okOut, okIn);
    hide Legs, MovedBy, OthersSame;
    PutThenDrop(w.journal, x, e, e);
    PutThenDrop(w.threads, x, Withdrawn, Aborted);
    PutThenDrop(w.threads, x, Withdrawn, Deposited);
  }

  /** The recovery oracle on files: scanning an account's encoded log for a tagged record
      finds exactly what counting the log's records finds. */
  lemma {:induction false} TaggedMeansCounted(log: seq<Command>, x: string)
    ensures 0 < CountOut(log, x) <==> exists c :: c in log && Durable.IsLeg(c, false, x)
    ensures 0 < CountIn(log, x) <==> exists c :: c in log && Durable.IsLeg(c, true, x)
  {
    if log != [] {
      var front, c := log[..|log| - 1], log[|log| - 1];
      TaggedMeansCounted(front, x);
      assert log == front + [c];
      assert forall d :: d in log ==> d in front || d == c;
      assert c in log && forall d :: d in front ==> d in log;
      assert Durable.IsLeg(c, false, x) == IsOut(c, x) && Durable.IsLeg(c, true, x) == IsIn(c, x);
    }
  }

  lemma OracleReadsTheFile(k: Codec, log: seq<Command>, x: string)
    requires Sound(k, log)
    ensures
      var scanned := Scan(k, Encode(k, log), 0).log;
      && (0 < CountOut(log, x) <==> exists c :: c in scanned && Durable.IsLeg(c, false, x))
      && (0 < CountIn(log, x) <==> exists c :: c in scanned && Durable.IsLeg(c, true, x))
  {
    BoundaryScans(k, [], log);
    assert [] + log == log && Encode(k, []) == [];
    TaggedMeansCounted(log, x);
  }

  /** A world whose next transfer id is fresh can begin one. */
  lemma FreshCanBegin(w: World, x: string)
    requires Inv(w) && x !in w.history
    ensures x !in w.journal && x !in w.threads
  {
  }

  lemma AttemptKeeps(w: World, x: string, e: Entry, okOut: bool, okIn: bool)
    requires Inv(w)
    ensures Kept(w, Attempt(w, x, e, okOut, okIn))
  {
    hide Inv, Worth, BeginStep, WithdrawStep, DepositStep, DropStep;
    var w1 := BeginStep(w, x, e);
    var w2 := WithdrawStep(w1, x, okOut);
    BeginKeeps(w, x, e);
    WithdrawKeeps(w1, x, okOut);
    DepositStepKeeps(w2, x, okIn);
    DropKeeps(DepositStep(w2, x, okIn), x);
  }

  lemma DoneMeansLanded(w: World)
    requires Inv(w) && w.journal == map[]
    ensures Total(w.history, InFlightOf) == 0
    ensures forall x :: x in w.history ==> w.history[x].landed == w.history[x].out
  {
    hide AllocationsLogged, Tagged;
    forall x | x in w.history
      ensures w.history[x].landed == w.history[x].out
    {
      assert TransferOK(w, x, w.history[x]);
    }
    NothingInFlight(w.history);
  }

  /** The money of transfer x is in flight, and its deposit does not append. */
  predicate Stuck(history: map<string, History>, x: string, ok: bool) {
    x in history && history[x].out && !history[x].landed && !ok
  }

  class Registry {
    var accts: map<Name, Account>
    var journal: map<string, Entry>
    var mode: Mode
    ghost var history: map<string, History>
    ghost var threads: map<string, Stage>
    ghost var external: int

    ghost function Value(): World
      reads this
    {
      World(accts, journal, history, threads, mode, external)
    }

    /** Run one leg on an account through its budget. */
    method Leg(a: Name, cmd: Command, ok: bool) returns (err: Err)
      requires a in accts
      modifies this`accts
      ensures accts == old(accts)[a := Post(old(accts)[a], cmd, ok)] && err == Call(old(accts)[a].s, cmd, ok).err
    {
      var acct := accts[a];
      var o := Call(acct.s, cmd, ok);
      accts := accts[a := Account(acct.init, o.s, acct.log + o.log)];
      return o.err;
    }

    /** Journal first, then withdraw, deposit, and drop the record; a failed withdrawal drops
        it too, a failed deposit leaves it for recovery. */
    method MoveMoney(x: string, e: Entry, okOut: bool, okIn: bool) returns (r: Result)
      requires CanBegin(Value(), x, e)
      modifies this
      ensures Value() == Attempt(old(Value()), x, e, okOut, okIn)
      ensures r == if !okOut || e.amount > old(accts[e.source].s.b) then WithdrawFailed
                   else if !okIn then DepositFailed else Moved(e.amount)
    {
      hide Call, Post, WithdrawStep, BeginStep;
      ghost var w := Value();
      var err := TakeOut(x, e, okOut);
      if err != Ok {
        assert DepositStep(Value(), x, okIn) == Value();
        journal, threads := journal - {x}, threads - {x};
        return WithdrawFailed;
      }
      r := Land(x, e, okIn);
    }

    method TakeOut(x: string, e: Entry, okOut: bool) returns (err: Err)
      requires CanBegin(Value(), x, e)
      modifies this
      ensures Value() == WithdrawStep(BeginStep(old(Value()), x, e), x, okOut)
      ensures err == Ok <==> okOut && e.amount <= old(accts[e.source].s.b)
      ensures x in threads && threads[x] == if err == Ok then Withdrawn else Aborted
      ensures x in history && history[x].entry == e && e.target in accts
    {
      hide Call, Post;
      LegRuns(accts[e.source].s, e.amount, x, e.now, okOut);
      journal := journal[x := e];
      history := history[x := History(e, false, false)];
      threads := threads[x := Journaled];
      assert Value() == BeginStep(old(Value()), x, e);
      hide BeginStep;
      err := Leg(e.source, Withdraw(e.amount, x, e.now), okOut);
      if err == Ok {
        history := history[x := history[x].(out := true)];
        threads := threads[x := Withdrawn];
      } else {
        threads := threads[x := Aborted];
      }
    }

    method Land(x: string, e: Entry, okIn: bool) returns (r: Result)
      requires x in threads && threads[x] == Withdrawn && x in history && history[x].entry == e
      requires e.target in accts && 0 < e.amount
      modifies this
      ensures Value() == DropStep(DepositStep(old(Value()), x, okIn), x)
      ensures r == if okIn then Moved(e.amount) else DepositFailed
    {
      hide Call, Post;
      LegRuns(accts[e.target].s, e.amount, x, e.now, okIn);
      var err := Leg(e.target, TopUp(e.amount, x, e.now), okIn);
      if err != Ok {
        threads := threads - {x};
        return DepositFailed;
      }
      history := history[x := history[x].(landed := true)];
      threads := threads[x := Deposited];
      journal, threads := journal - {x}, threads - {x};
      return Moved(e.amount);
    }

    /** The transfer call: refuse what cannot move, else run the four steps. */
    method Transfer(from: Name, to: Name, amount: int, all: bool, x: string, now: int, okOut: bool, okIn: bool)
      returns (r: Result)
      requires Inv(Value()) && mode == Serving && x !in history && x != ""
      modifies this
      ensures Kept(old(Value()), Value())
      ensures
        var w := old(Value());
        if from == to then r == SameAccount && Value() == w
        else if from !in w.accts || to !in w.accts then r == UnknownAccount && Value() == w
        else
          var held := w.accts[from].s.b;
          var amt := if all then held else amount;
          if amt <= 0 then r == NothingToMove && Value() == w
          else if amt > held then r == SourceShort && Value() == w
          else
            && Value() == Attempt(w, x, Entry(from, to, amt, now), okOut, okIn)
            && r == if !okOut then WithdrawFailed else if !okIn then DepositFailed else Moved(amt)
    {
      hide Inv, Worth, Attempt;
      ghost var w := Value();
      if from == to {
        return SameAccount;
      }
      if from !in accts || to !in accts {
        return UnknownAccount;
      }
      var amt := if all then accts[from].s.b else amount;
      if amt <= 0 {
        return NothingToMove;
      }
      if amt > accts[from].s.b {
        return SourceShort;
      }
      FreshCanBegin(w, x);
      AttemptKeeps(w, x, Entry(from, to, amt, now), okOut, okIn);
      r := MoveMoney(x, Entry(from, to, amt, now), okOut, okIn);
    }

    /** Complete one journaled transfer from what the two logs show. */
    method CompleteTransfer(x: string, ok: bool) returns (failed: bool)
      requires Inv(Value()) && mode == Recovering && x in journal
      modifies this`accts, this`history
      ensures Kept(old(Value()), Value())
      ensures failed <==> Stuck(old(history), x, ok)
      ensures failed ==> history == old(history)
      ensures !failed ==> SawOut(Value(), journal[x], x) == SawIn(Value(), journal[x], x)
      ensures history.Keys == old(history).Keys
      ensures forall y :: y in history ==> history[y] == old(history)[y].(landed := history[y].landed)
      ensures forall y :: y in history && y != x ==> history[y] == old(history)[y]
    {
      hide Call, Post, CountOut, CountIn, AllocationsLogged, Tagged, Worth, Net;
      ghost var w := Value();
      OracleIsRight(w, x);
      StepKeeps(w, CompleteLeg(x, ok));
      var rec := journal[x];
      assert TransferOK(w, x, w.history[x]);
      hide Shaped, Inv;
      LegRuns(accts[rec.target].s, rec.amount, x, rec.now, ok);
      var withdrew := 0 < CountOut(accts[rec.source].log, x);
      var deposited := 0 < CountIn(accts[rec.target].log, x);
      failed := !withdrew && deposited;
      if withdrew && !deposited {
        var err := Leg(rec.target, TopUp(rec.amount, x, rec.now), ok);
        if err == Ok {
          history := history[x := history[x].(landed := true)];
        } else {
          failed := true;
        }
        assert Value() == CompleteStep(w, x, ok);
      }
      if !failed {
        OracleIsRight(Value(), x);
      }
    }

    /** Recovery: complete every journaled transfer and clear its record. It fails exactly when
        the deposit of some record whose money is in flight does not append. Otherwise each
        transfer whose money left has landed, no withdrawal has been added, and nothing is in
        flight. */
    method RecoverTransfers(ok: string -> bool) returns (failed: bool)
      requires Inv(Value()) && mode == Recovering
      modifies this
      ensures Kept(old(Value()), Value())
      ensures failed <==> exists x :: x in old(journal) && Stuck(old(history), x, ok(x))
      ensures failed ==> mode == Recovering
      ensures !failed ==> journal == map[] && mode == Serving && Total(history, InFlightOf) == 0
      ensures history.Keys == old(history).Keys
      ensures forall y :: y in history ==> history[y] == old(history)[y].(landed := history[y].landed)
      ensures !failed ==> forall y :: y in history ==> history[y].landed == history[y].out
    {
      hide Inv, Worth, SawOut, SawIn;
      failed := false;
      var todo := journal.Keys;
      while todo != {} && !failed
        invariant Kept(old(Value()), Value()) && mode == Recovering && journal.Keys == todo
        invariant todo <= old(journal).Keys
        invariant failed ==> exists x :: x in old(journal) && Stuck(old(history), x, ok(x))
        invariant forall y :: y in old(journal) && y !in todo ==> !Stuck(old(history), y, ok(y))
        invariant history.Keys == old(history).Keys
        invariant forall y :: y in todo && y in history ==> history[y] == old(history)[y]
        invariant forall y :: y in history ==> history[y] == old(history)[y].(landed := history[y].landed)
        decreases todo, !failed
      {
        var x :| x in todo;
        failed := CompleteTransfer(x, ok(x));
        if !failed {
          StepKeeps(Value(), ClearEntry(x));
          journal := journal - {x};
          todo := todo - {x};
        }
      }
      if !failed {
        DoneMeansLanded(Value());
        StepKeeps(Value(), Serve);
        mode := Serving;
      }
    }
  }
}
