/** The journaled two-leg transfer of internal/daemon/transfer.go, as crashable steps.

    A world holds every account's live budget and log, the journal directory, and the
    transfers in progress. Steps of different transfers, kernel calls, crashes and
    recoveries interleave freely; a step that cannot be taken is a no-op. */
module Transfer {
  import opened Sums
  import opened TokenBucket
  import opened Kernel
  import opened Recovery

  type Name = string

  datatype Account = Account(init: State, s: State, log: seq<Command>)

  datatype Entry = Entry(source: Name, target: Name, amount: int, now: int)

  /** A transfer's journal entry, and which of its legs have been applied so far. The two
      flags are history: no step reads them. */
  datatype History = History(entry: Entry, out: bool, landed: bool)

  datatype Stage = Journaled | Withdrawn | Deposited | Aborted

  datatype Mode = Serving | Recovering

  /** `external` is the net of admin top-ups and withdrawals. */
  datatype World = World(
    accts: map<Name, Account>, journal: map<string, Entry>, history: map<string, History>,
    threads: map<string, Stage>, mode: Mode, external: int)

  datatype Action =
    | Begin(x: string, entry: Entry)
    | WithdrawLeg(x: string, ok: bool)
    | DepositLeg(x: string, ok: bool)
    | Drop(x: string)
    | Kernel(a: Name, cmd: Command, ok: bool)
    | Crash
    | CompleteLeg(x: string, ok: bool)
    | ClearEntry(x: string)
    | Serve

  predicate IsOut(c: Command, x: string) { c.Withdraw? && c.xfer == x }

  predicate IsIn(c: Command, x: string) { c.TopUp? && c.xfer == x }

  /** How often the withdrawal leg of `x` appears in a log, and likewise the deposit leg. */
  function CountOut(log: seq<Command>, x: string): nat {
    if log == [] then 0
    else CountOut(log[..|log| - 1], x) + if IsOut(log[|log| - 1], x) then 1 else 0
  }

  function CountIn(log: seq<Command>, x: string): nat {
    if log == [] then 0
    else CountIn(log[..|log| - 1], x) + if IsIn(log[|log| - 1], x) then 1 else 0
  }

  function NetOf(c: Command): int {
    if c.TopUp? then c.amount else if c.Withdraw? then -c.amount else 0
  }

  /** What a log adds to the allocation. */
  function Net(log: seq<Command>): int {
    if log == [] then 0 else Net(log[..|log| - 1]) + NetOf(log[|log| - 1])
  }

  function Post(acct: Account, cmd: Command, ok: bool): Account {
    var o := Call(acct.s, cmd, ok);
    Account(acct.init, o.s, acct.log + o.log)
  }

  function Restart(acct: Account): Account {
    match Replay(acct.init, acct.log)
    case Recovered(s) => acct.(s := s)
    case ReplayFailed => acct
  }

  predicate Restartable(w: World) {
    forall a :: a in w.accts ==> Replay(w.accts[a].init, w.accts[a].log).Recovered?
  }

  /** The recovery oracle: what the two logs show. */
  predicate SawOut(w: World, e: Entry, x: string) {
    e.source in w.accts && 0 < CountOut(w.accts[e.source].log, x)
  }

  predicate SawIn(w: World, e: Entry, x: string) {
    e.target in w.accts && 0 < CountIn(w.accts[e.target].log, x)
  }

  function BeginStep(w: World, x: string, e: Entry): World {
    if w.mode == Serving && x !in w.history && x != "" && e.source != e.target
       && e.source in w.accts && e.target in w.accts && 0 < e.amount
    then
      w.(journal := w.journal[x := e], history := w.history[x := History(e, false, false)],
         threads := w.threads[x := Journaled])
    else w
  }

  function WithdrawStep(w: World, x: string, ok: bool): World {
    if x in w.threads && w.threads[x] == Journaled && x in w.history && w.history[x].entry.source in w.accts then
      var e := w.history[x].entry;
      var cmd := Withdraw(e.amount, x, e.now);
      var acct := w.accts[e.source];
      var w' := w.(accts := w.accts[e.source := Post(acct, cmd, ok)]);
      if Call(acct.s, cmd, ok).err == Ok
      then w'.(threads := w.threads[x := Withdrawn], history := w.history[x := w.history[x].(out := true)])
      else w'.(threads := w.threads[x := Aborted])
    else w
  }

  function Deposit(w: World, x: string, e: Entry, ok: bool): World
    requires x in w.history && e.target in w.accts
  {
    var cmd := TopUp(e.amount, x, e.now);
    var acct := w.accts[e.target];
    var w' := w.(accts := w.accts[e.target := Post(acct, cmd, ok)]);
    if Call(acct.s, cmd, ok).err == Ok
    then w'.(history := w.history[x := w.history[x].(landed := true)])
    else w'
  }

  /** A deposit that fails leaves its record for recovery and gives up. */
  function DepositStep(w: World, x: string, ok: bool): World {
    if x in w.threads && w.threads[x] == Withdrawn && x in w.history && w.history[x].entry.target in w.accts then
      var e := w.history[x].entry;
      var w' := Deposit(w, x, e, ok);
      if Call(w.accts[e.target].s, TopUp(e.amount, x, e.now), ok).err == Ok
      then w'.(threads := w.threads[x := Deposited])
      else w'.(threads := w.threads - {x})
    else w
  }

  function DropStep(w: World, x: string): World {
    if x in w.threads && w.threads[x] in {Deposited, Aborted}
    then w.(journal := w.journal - {x}, threads := w.threads - {x})
    else w
  }

  /** Any other call on an account. Admin top-ups and withdrawals carry no transfer id. */
  function KernelStep(w: World, a: Name, cmd: Command, ok: bool): World {
    if w.mode == Serving && a in w.accts && (cmd.TopUp? || cmd.Withdraw? ==> cmd.xfer == "") then
      w.(accts := w.accts[a := Post(w.accts[a], cmd, ok)],
         external := w.external + Net(Call(w.accts[a].s, cmd, ok).log))
    else w
  }

  /** The process dies and every budget is rebuilt from its log; a daemon whose logs do
      not replay never comes back. */
  function CrashStep(w: World): World {
    if Restartable(w)
    then w.(accts := map a | a in w.accts :: Restart(w.accts[a]), threads := map[], mode := Recovering)
    else w
  }

  /** Recovery of one record: deposit exactly when the logs show the withdrawal alone. */
  function CompleteStep(w: World, x: string, ok: bool): World {
    if w.mode == Recovering && x in w.journal && x in w.history
       && SawOut(w, w.journal[x], x) && !SawIn(w, w.journal[x], x) && w.journal[x].target in w.accts
    then Deposit(w, x, w.journal[x], ok)
    else w
  }

  /** The record is cleared once there is nothing left to complete. */
  function ClearStep(w: World, x: string): World {
    if w.mode == Recovering && x in w.journal && SawOut(w, w.journal[x], x) == SawIn(w, w.journal[x], x)
    then w.(journal := w.journal - {x})
    else w
  }

  function Step(w: World, act: Action): World {
    match act
    case Begin(x, e) => BeginStep(w, x, e)
    case WithdrawLeg(x, ok) => WithdrawStep(w, x, ok)
    case DepositLeg(x, ok) => DepositStep(w, x, ok)
    case Drop(x) => DropStep(w, x)
    case Kernel(a, cmd, ok) => KernelStep(w, a, cmd, ok)
    case Crash => CrashStep(w)
    case CompleteLeg(x, ok) => CompleteStep(w, x, ok)
    case ClearEntry(x) => ClearStep(w, x)
    case Serve => if w.mode == Recovering && w.journal == map[] then w.(mode := Serving) else w
  }

  function Run(w: World, acts: seq<Action>): World
    decreases |acts|
  {
    if acts == [] then w else Run(Step(w, acts[0]), acts[1..])
  }

  // ---- what every step keeps ----

  function B0Of(acct: Account): int { acct.s.bk.b0 }

  function InFlightOf(h: History): int { if h.out && !h.landed then h.entry.amount else 0 }

  /** Every account's allocation is its creation amount plus what its log says. */
  ghost predicate AllocationsLogged(accts: map<Name, Account>) {
    forall a :: a in accts ==> accts[a].s.bk.b0 == accts[a].init.bk.b0 + Net(accts[a].log)
  }

  /** Each leg is in exactly the one log it belongs to, exactly once, iff it was applied. */
  predicate TagsOK(accts: map<Name, Account>, x: string, h: History) {
    forall a :: a in accts ==>
      && CountOut(accts[a].log, x) == (if h.out && a == h.entry.source then 1 else 0)
      && CountIn(accts[a].log, x) == (if h.landed && a == h.entry.target then 1 else 0)
  }

  predicate Untagged(accts: map<Name, Account>, x: string) {
    forall a :: a in accts ==> CountOut(accts[a].log, x) == 0 && CountIn(accts[a].log, x) == 0
  }

  predicate TransferOK(w: World, x: string, h: History) {
    && x != "" && h.entry.source != h.entry.target && 0 < h.entry.amount
    && h.entry.source in w.accts && h.entry.target in w.accts
    && (h.landed ==> h.out)
    && (h.out && !h.landed ==> x in w.journal)
    && (x in w.journal ==> w.journal[x] == h.entry)
    && (x in w.threads ==>
          && x in w.journal
          && (w.threads[x] in {Journaled, Aborted} ==> !h.out)
          && (w.threads[x] == Withdrawn ==> h.out && !h.landed)
          && (w.threads[x] == Deposited ==> h.landed))
  }

  ghost predicate Tagged(accts: map<Name, Account>, history: map<string, History>) {
    && (forall x :: x in history ==> TagsOK(accts, x, history[x]))
    && (forall x :: x !in history && x != "" ==> Untagged(accts, x))
  }

  ghost predicate Shaped(w: World) {
    && (forall x :: x in w.history ==> TransferOK(w, x, w.history[x]))
    && w.journal.Keys <= w.history.Keys && w.threads.Keys <= w.history.Keys
    && (w.mode == Recovering ==> w.threads == map[])
  }

  /** Money in the accounts plus money in flight, net of admin movements. */
  ghost function Worth(w: World): int {
    Total(w.accts, B0Of) + Total(w.history, InFlightOf) - w.external
  }

  ghost predicate Inv(w: World) {
    AllocationsLogged(w.accts) && Tagged(w.accts, w.history) && Shaped(w)
  }

  // ---- logs ----

  lemma LogGrows(log: seq<Command>, c: Command, x: string)
    ensures CountOut(log + [c], x) == CountOut(log, x) + (if IsOut(c, x) then 1 else 0)
    ensures CountIn(log + [c], x) == CountIn(log, x) + (if IsIn(c, x) then 1 else 0)
    ensures Net(log + [c]) == Net(log) + NetOf(c)
  {
    assert (log + [c])[..|log|] == log;
  }

  lemma {:induction false} NetFront(c: Command, log: seq<Command>)
    ensures Net([c] + log) == NetOf(c) + Net(log)
    decreases |log|
  {
    if log == [] {
      assert [c] + log == [] + [c];
      LogGrows([], c, "");
    } else {
      var n := |log| - 1;
      NetFront(c, log[..n]);
      assert [c] + log == ([c] + log[..n]) + [log[n]];
      LogGrows([c] + log[..n], log[n], "");
    }
  }

  /** The allocation moves exactly when a top-up or withdrawal goes through. */
  ghost predicate MovesAsLogged(s: State, cmd: Command, o: Outcome) {
    && o.s.bk.b0 == s.bk.b0 + (if o.log == [cmd] then NetOf(cmd) else 0)
    && (cmd.TopUp? || cmd.Withdraw? ==> o.log == if o.err == Ok then [cmd] else [])
  }

  lemma JobMovesAllocation(s: State, cmd: Command, ok: bool)
    requires SettlesJob(cmd)
    ensures MovesAsLogged(s, cmd, SettleJob(s, cmd, ok))
  {
    hide Settle;
  }

  lemma TaskMovesAllocation(s: State, cmd: Command, ok: bool)
    requires SettlesTask(cmd)
    ensures MovesAsLogged(s, cmd, SettleArrayTask(s, cmd, ok))
  {
    hide SettleTask, TaskRuntime;
  }

  lemma AdminMovesAllocation(s: State, cmd: Command, ok: bool)
    requires Administers(cmd)
    ensures MovesAsLogged(s, cmd, Administer(s, cmd, ok))
  {
    hide Configure;
  }

  lemma SubmitMovesAllocation(s: State, cmd: Command, ok: bool)
    requires cmd.Submit? || cmd.SubmitArray? || cmd.Reprice?
    ensures MovesAsLogged(s, cmd, Call(s, cmd, ok))
  {
    hide RateOK;
  }

  lemma StartMovesAllocation(s: State, cmd: Command, ok: bool)
    requires cmd.Start? || cmd.StartTask?
    ensures MovesAsLogged(s, cmd, Call(s, cmd, ok))
  {
    hide StartJob, StartArrayTask;
  }

  lemma CallMovesAllocation(s: State, cmd: Command, ok: bool)
    ensures MovesAsLogged(s, cmd, Call(s, cmd, ok))
  {
    hide MovesAsLogged, SettleJob, SettleArrayTask, Administer;
    if SettlesJob(cmd) {
      JobMovesAllocation(s, cmd, ok);
    } else if SettlesTask(cmd) {
      TaskMovesAllocation(s, cmd, ok);
    } else if Administers(cmd) {
      AdminMovesAllocation(s, cmd, ok);
    } else if cmd.Start? || cmd.StartTask? {
      StartMovesAllocation(s, cmd, ok);
    } else {
      SubmitMovesAllocation(s, cmd, ok);
    }
  }

  /** What a log of at most one record adds. */
  lemma NetOfOne(c: Command)
    ensures Net([]) == 0 && Net([c]) == NetOf(c)
  {
    assert [c][..0] == [];
  }

  /** A call moves the allocation exactly as its log record says, and logs a tagged leg
      only when it is that leg. */
  lemma CallLogsAllocation(s: State, cmd: Command, ok: bool)
    ensures
      var o := Call(s, cmd, ok);
      && |o.log| <= 1
      && o.s.bk.b0 == s.bk.b0 + Net(o.log)
      && (cmd.TopUp? || cmd.Withdraw? ==> o.log == if o.err == Ok then [cmd] else [])
      && (!cmd.TopUp? && !cmd.Withdraw? && o.log != [] ==> !o.log[0].TopUp? && !o.log[0].Withdraw?)
  {
    hide Call, Net;
    CallLogsItself(s, cmd, ok);
    CallMovesAllocation(s, cmd, ok);
    NetOfOne(cmd);
    var log := Call(s, cmd, ok).log;
    if log != [] {
      NetOfOne(log[0]);
      assert log == [log[0]];
    }
  }

  lemma ReplayedNet(s: State, cmd: Command)
    requires Call(s, cmd, true).err == Ok
    ensures Call(s, cmd, true).s.bk.b0 == s.bk.b0 + NetOf(cmd)
  {
    hide Call;
    CallLogsAllocation(s, cmd, true);
    var o := Call(s, cmd, true);
    if o.log != [] {
      assert o.log == [] + [o.log[0]];
      LogGrows([], o.log[0], "");
    }
  }

  lemma {:induction false} ReplayAllocation(s: State, log: seq<Command>)
    requires Replay(s, log).Recovered?
    ensures Replay(s, log).s.bk.b0 == s.bk.b0 + Net(log)
    decreases |log|
  {
    if log != [] {
      var o := Call(s, log[0], true);
      CallLogsAllocation(s, log[0], true);
      assert log == [log[0]] + log[1..];
      NetFront(log[0], log[1..]);
      ReplayedNet(s, log[0]);
      hide Call;
      ReplayAllocation(o.s, log[1..]);
    }
  }

  /** Posting a command to one account: its allocation stays logged, and its tags move
      only by the leg it carries. */
  lemma PostEffects(acct: Account, cmd: Command, ok: bool, x: string)
    requires acct.s.bk.b0 == acct.init.bk.b0 + Net(acct.log)
    ensures
      var p := Post(acct, cmd, ok);
      var o := Call(acct.s, cmd, ok);
      && p.init == acct.init
      && p.s.bk.b0 == p.init.bk.b0 + Net(p.log)
      && p.s.bk.b0 == acct.s.bk.b0 + Net(o.log)
      && CountOut(p.log, x) == CountOut(acct.log, x) + (if o.err == Ok && IsOut(cmd, x) then 1 else 0)
      && CountIn(p.log, x) == CountIn(acct.log, x) + (if o.err == Ok && IsIn(cmd, x) then 1 else 0)
  {
    hide Call, Net, CountOut, CountIn;
    CallLogsAllocation(acct.s, cmd, ok);
    var o := Call(acct.s, cmd, ok);
    NetOfOne(cmd);
    if o.log == [] {
      assert acct.log + o.log == acct.log;
    } else {
      assert o.log == [o.log[0]];
      LogGrows(acct.log, o.log[0], x);
      NetOfOne(o.log[0]);
    }
  }

  // ---- the steps ----

  /** The command carries a leg of transfer `x` that account `a` owes and has not applied. */
  predicate Owes(a: Name, cmd: Command, x: string, h: History) {
    && (IsOut(cmd, x) ==> a == h.entry.source && !h.out)
    && (IsIn(cmd, x) ==> a == h.entry.target && !h.landed)
  }

  function Mark(h: History, cmd: Command, err: Err, x: string): History {
    if err != Ok then h
    else if IsOut(cmd, x) then h.(out := true)
    else if IsIn(cmd, x) then h.(landed := true)
    else h
  }

  lemma TagsAfterPost(accts: map<Name, Account>, a: Name, cmd: Command, ok: bool, x: string, h: History)
    requires a in accts && accts[a].s.bk.b0 == accts[a].init.bk.b0 + Net(accts[a].log)
    requires TagsOK(accts, x, h) && Owes(a, cmd, x, h)
    ensures TagsOK(accts[a := Post(accts[a], cmd, ok)], x, Mark(h, cmd, Call(accts[a].s, cmd, ok).err, x))
  {
    hide Call, Post, CountOut, CountIn, Net;
    PostEffects(accts[a], cmd, ok, x);
  }

  lemma UntaggedAfterPost(accts: map<Name, Account>, a: Name, cmd: Command, ok: bool, x: string)
    requires a in accts && accts[a].s.bk.b0 == accts[a].init.bk.b0 + Net(accts[a].log)
    requires Untagged(accts, x) && !IsOut(cmd, x) && !IsIn(cmd, x)
    ensures Untagged(accts[a := Post(accts[a], cmd, ok)], x)
  {
    hide Call, Post, CountOut, CountIn, Net;
    PostEffects(accts[a], cmd, ok, x);
  }

  /** Tagged stays true when an account runs a command and its transfer is marked. */
  lemma PostKeepsTags(accts: map<Name, Account>, history: map<string, History>,
                      a: Name, cmd: Command, ok: bool, x: string)
    requires AllocationsLogged(accts) && Tagged(accts, history) && a in accts
    requires cmd.TopUp? || cmd.Withdraw? ==> cmd.xfer == x
    requires x != "" ==> x in history && Owes(a, cmd, x, history[x])
    requires "" !in history
    ensures
      var accts' := accts[a := Post(accts[a], cmd, ok)];
      && AllocationsLogged(accts')
      && Tagged(accts', if x == "" then history
                        else history[x := Mark(history[x], cmd, Call(accts[a].s, cmd, ok).err, x)])
  {
    hide Call, Post, CountOut, CountIn, Net;
    var accts' := accts[a := Post(accts[a], cmd, ok)];
    PostEffects(accts[a], cmd, ok, "");
    forall y | y in history
      ensures TagsOK(accts', y, Mark(history[y], cmd, Call(accts[a].s, cmd, ok).err, y))
    {
      TagsAfterPost(accts, a, cmd, ok, y, history[y]);
    }
    forall y | y !in history && y != ""
      ensures Untagged(accts', y)
    {
      UntaggedAfterPost(accts, a, cmd, ok, y);
    }
    hide TagsOK, Untagged;
  }

  lemma WorthAfterPost(w: World, a: Name, cmd: Command, ok: bool)
    requires AllocationsLogged(w.accts) && a in w.accts
    ensures Total(w.accts[a := Post(w.accts[a], cmd, ok)], B0Of)
            == Total(w.accts, B0Of) + Net(Call(w.accts[a].s, cmd, ok).log)
  {
    hide Call, Post, CountOut, CountIn, Net;
    PostEffects(w.accts[a], cmd, ok, "");
    TotalInsert(w.accts, B0Of, a, Post(w.accts[a], cmd, ok));
  }

  lemma LegNet(s: State, cmd: Command, ok: bool)
    requires cmd.TopUp? || cmd.Withdraw?
    ensures Net(Call(s, cmd, ok).log) == if Call(s, cmd, ok).err == Ok then NetOf(cmd) else 0
  {
    hide Call;
    CallLogsAllocation(s, cmd, ok);
    assert [cmd] == [] + [cmd];
    LogGrows([], cmd, "");
  }

  /** What a step owes: the invariant, and the total worth. */
  ghost predicate Kept(w: World, w': World) {
    Inv(w') && Worth(w') == Worth(w)
  }

  lemma FreshTags(accts: map<Name, Account>, x: string, h: History)
    requires Untagged(accts, x) && !h.out && !h.landed
    ensures TagsOK(accts, x, h)
  {
    hide CountOut, CountIn;
  }

  lemma BeginShaped(w: World, x: string, e: Entry)
    requires Shaped(w)
    ensures Shaped(BeginStep(w, x, e))
  {
  }

  lemma BeginKeeps(w: World, x: string, e: Entry)
    requires Inv(w)
    ensures Kept(w, BeginStep(w, x, e))
  {
    hide CountOut, CountIn, Net, TagsOK, Untagged, AllocationsLogged, Total, TransferOK;
    var w' := BeginStep(w, x, e);
    if w' != w {
      TotalInsert(w.history, InFlightOf, x, History(e, false, false));
      FreshTags(w.accts, x, History(e, false, false));
      BeginShaped(w, x, e);
    }
  }

  lemma WithdrawShaped(w: World, x: string, ok: bool)
    requires Shaped(w)
    ensures Shaped(WithdrawStep(w, x, ok))
  {
    hide Call, Post;
  }

  lemma WithdrawKeeps(w: World, x: string, ok: bool)
    requires Inv(w)
    ensures Kept(w, WithdrawStep(w, x, ok))
  {
    hide CountOut, CountIn, Net, TagsOK, Untagged, AllocationsLogged, Total, Call, Post, Tagged;
    WithdrawShaped(w, x, ok);
    if x in w.threads && w.threads[x] == Journaled {
      var h := w.history[x];
      assert TransferOK(w, x, h);
      var cmd := Withdraw(h.entry.amount, x, h.entry.now);
      var err := Call(w.accts[h.entry.source].s, cmd, ok).err;
      PostKeepsTags(w.accts, w.history, h.entry.source, cmd, ok, x);
      WorthAfterPost(w, h.entry.source, cmd, ok);
      LegNet(w.accts[h.entry.source].s, cmd, ok);
      TotalInsert(w.history, InFlightOf, x, Mark(h, cmd, err, x));
      assert err != Ok ==> w.history[x := h] == w.history;
      hide Shaped, TransferOK;
    }
  }

  lemma DepositKeeps(w: World, x: string, ok: bool)
    requires Inv(w) && x in w.journal && w.history[x].out && !w.history[x].landed
    ensures
      var w' := Deposit(w, x, w.history[x].entry, ok);
      && AllocationsLogged(w'.accts) && Tagged(w'.accts, w'.history) && Worth(w') == Worth(w)
  {
    hide CountOut, CountIn, Net, TagsOK, Untagged, AllocationsLogged, Total, Call, Post, Tagged;
    var h := w.history[x];
    assert TransferOK(w, x, h);
    var cmd := TopUp(h.entry.amount, x, h.entry.now);
    var err := Call(w.accts[h.entry.target].s, cmd, ok).err;
    PostKeepsTags(w.accts, w.history, h.entry.target, cmd, ok, x);
    WorthAfterPost(w, h.entry.target, cmd, ok);
    LegNet(w.accts[h.entry.target].s, cmd, ok);
    TotalInsert(w.history, InFlightOf, x, Mark(h, cmd, err, x));
    assert err != Ok ==> w.history[x := h] == w.history;
    hide Shaped, TransferOK;
  }

  lemma DepositShaped(w: World, x: string, ok: bool)
    requires Shaped(w)
    ensures Shaped(DepositStep(w, x, ok))
  {
    hide Call, Post;
  }

  lemma DepositStepKeeps(w: World, x: string, ok: bool)
    requires Inv(w)
    ensures Kept(w, DepositStep(w, x, ok))
  {
    hide Call, Post, Tagged, AllocationsLogged, Total, Deposit;
    DepositShaped(w, x, ok);
    if x in w.threads && w.threads[x] == Withdrawn {
      assert TransferOK(w, x, w.history[x]);
      DepositKeeps(w, x, ok);
      hide Shaped, TransferOK;
    }
  }

  lemma DropKeeps(w: World, x: string)
    requires Inv(w)
    ensures Kept(w, DropStep(w, x))
  {
    hide Tagged, AllocationsLogged, Total;
  }

  lemma KernelShaped(w: World, a: Name, cmd: Command, ok: bool)
    requires Shaped(w)
    ensures Shaped(KernelStep(w, a, cmd, ok)) && "" !in w.history
  {
    hide Call, Post, Net;
  }

  lemma KernelKeeps(w: World, a: Name, cmd: Command, ok: bool)
    requires Inv(w)
    ensures Kept(w, KernelStep(w, a, cmd, ok))
  {
    hide Call, Post, Tagged, AllocationsLogged, Total, Net;
    KernelShaped(w, a, cmd, ok);
    if a in w.accts && (cmd.TopUp? || cmd.Withdraw? ==> cmd.xfer == "") {
      PostKeepsTags(w.accts, w.history, a, cmd, ok, "");
      WorthAfterPost(w, a, cmd, ok);
      hide Shaped, TransferOK;
    }
  }

  lemma RestartKeeps(acct: Account)
    requires acct.s.bk.b0 == acct.init.bk.b0 + Net(acct.log) && Replay(acct.init, acct.log).Recovered?
    ensures Restart(acct).s.bk.b0 == acct.s.bk.b0
    ensures Restart(acct).init == acct.init && Restart(acct).log == acct.log
  {
    ReplayAllocation(acct.init, acct.log);
  }

  lemma CrashShaped(w: World)
    requires Shaped(w)
    ensures Shaped(CrashStep(w))
  {
    hide Restart, Restartable, Replay;
  }

  lemma SameLogs(accts: map<Name, Account>, accts': map<Name, Account>, history: map<string, History>)
    requires Tagged(accts, history) && accts'.Keys == accts.Keys
    requires forall a :: a in accts ==> accts'[a].log == accts[a].log
    ensures Tagged(accts', history)
  {
    hide CountOut, CountIn;
    forall x | x in history
      ensures TagsOK(accts', x, history[x])
    {
      assert TagsOK(accts, x, history[x]);
    }
    forall x | x !in history && x != ""
      ensures Untagged(accts', x)
    {
      assert Untagged(accts, x);
    }
  }

  lemma CrashKeeps(w: World)
    requires Inv(w)
    ensures Kept(w, CrashStep(w))
  {
    hide Restart, Replay, Net, CountOut, CountIn, Total, TransferOK;
    CrashShaped(w);
    if Restartable(w) {
      var w' := CrashStep(w);
      forall a | a in w.accts
        ensures w'.accts[a].s.bk.b0 == w.accts[a].s.bk.b0
        ensures w'.accts[a].init == w.accts[a].init && w'.accts[a].log == w.accts[a].log
      {
        RestartKeeps(w.accts[a]);
      }
      SameTotal(w.accts, w'.accts, B0Of);
      SameLogs(w.accts, w'.accts, w.history);
      hide Shaped, Tagged;
    }
  }

  /** The oracle reads exactly the history. */
  lemma OracleIsRight(w: World, x: string)
    requires Inv(w) && x in w.journal
    ensures x in w.history && w.journal[x] == w.history[x].entry
    ensures SawOut(w, w.journal[x], x) == w.history[x].out
    ensures SawIn(w, w.journal[x], x) == w.history[x].landed
    ensures w.history[x].landed ==> w.history[x].out
  {
    hide CountOut, CountIn, Net;
    assert TransferOK(w, x, w.history[x]);
    assert TagsOK(w.accts, x, w.history[x]);
  }

  lemma CompleteShaped(w: World, x: string, ok: bool)
    requires Shaped(w) && x in w.history && x in w.journal && w.history[x].out && w.mode == Recovering
    ensures w.history[x].entry.target in w.accts && w.journal[x] == w.history[x].entry
    ensures Shaped(Deposit(w, x, w.history[x].entry, ok))
  {
    hide Call, Post;
    assert TransferOK(w, x, w.history[x]);
  }

  lemma CompleteKeeps(w: World, x: string, ok: bool)
    requires Inv(w)
    ensures Kept(w, CompleteStep(w, x, ok))
  {
    hide Call, Post, Tagged, AllocationsLogged, Total, Deposit, SawOut, SawIn;
    if x in w.journal && w.mode == Recovering {
      OracleIsRight(w, x);
      if w.history[x].out && !w.history[x].landed {
        CompleteShaped(w, x, ok);
        DepositKeeps(w, x, ok);
        hide Shaped;
      }
    }
  }

  lemma ClearKeeps(w: World, x: string)
    requires Inv(w)
    ensures Kept(w, ClearStep(w, x))
  {
    hide Tagged, AllocationsLogged, Total, SawOut, SawIn;
    if x in w.journal {
      OracleIsRight(w, x);
    }
  }

  lemma ServeKeeps(w: World)
    requires Inv(w)
    ensures Kept(w, Step(w, Serve))
  {
    hide AllocationsLogged, Tagged, Total;
  }

  lemma StepKeeps(w: World, act: Action)
    requires Inv(w)
    ensures Kept(w, Step(w, act))
  {
    hide BeginStep, WithdrawStep, DepositStep, DropStep, KernelStep, CrashStep, CompleteStep, ClearStep,
      Tagged, AllocationsLogged, Total, TransferOK;
    match act {
      case Begin(x, e) => BeginKeeps(w, x, e);
      case WithdrawLeg(x, ok) => WithdrawKeeps(w, x, ok);
      case DepositLeg(x, ok) => DepositStepKeeps(w, x, ok);
      case Drop(x) => DropKeeps(w, x);
      case Kernel(a, cmd, ok) => KernelKeeps(w, a, cmd, ok);
      case Crash => CrashKeeps(w);
      case CompleteLeg(x, ok) => CompleteKeeps(w, x, ok);
      case ClearEntry(x) => ClearKeeps(w, x);
      case Serve => ServeKeeps(w);
    }
  }

  lemma {:induction false} RunKeeps(w: World, acts: seq<Action>)
    requires Inv(w)
    ensures Kept(w, Run(w, acts))
    decreases |acts|
  {
    if acts != [] {
      StepKeeps(w, acts[0]);
      hide Step, Inv;
      RunKeeps(Step(w, acts[0]), acts[1..]);
    }
  }

  // ---- from creation ----

  /** Freshly created accounts, nothing journaled. */
  ghost predicate Fresh(w: World) {
    && (forall a :: a in w.accts ==> w.accts[a].log == [] && w.accts[a].s == w.accts[a].init)
    && w.journal == map[] && w.history == map[] && w.threads == map[] && w.mode == Serving && w.external == 0
  }

  lemma FreshInv(w: World)
    requires Fresh(w)
    ensures Inv(w)
  {
  }

  lemma {:induction false} NothingInFlight(m: map<string, History>)
    requires forall x :: x in m ==> InFlightOf(m[x]) == 0
    ensures Total(m, InFlightOf) == 0
    decreases |m|
  {
    if m != map[] {
      NothingInFlight(m - {Pick(m)});
    }
  }

  /** Over any interleaving of transfers, kernel calls, crashes at any step and repeated
      recoveries: allocations plus what is in flight equal the initial allocations plus
      admin movements; each leg is in the log of the one account that owes it, exactly once if
      it was applied, and in no other log; a deposit implies its withdrawal; and with an empty
      journal nothing is in flight. */
  lemma TransfersConserve(w: World, acts: seq<Action>)
    requires Fresh(w)
    ensures
      var e := Run(w, acts);
      && Total(e.accts, B0Of) + Total(e.history, InFlightOf) == Total(w.accts, B0Of) + e.external
      && (forall x :: x in e.history ==> TagsOK(e.accts, x, e.history[x]))
      && (forall x :: x !in e.history && x != "" ==> Untagged(e.accts, x))
      && (forall x :: x in e.history && e.history[x].landed ==> e.history[x].out)
      && (e.journal == map[] ==> Total(e.history, InFlightOf) == 0)
  {
    hide Run, CountOut, CountIn, Total;
    FreshInv(w);
    RunKeeps(w, acts);
    NothingInFlight(w.history);
    var e := Run(w, acts);
    if e.journal == map[] {
      NothingInFlight(e.history);
    }
  }

  /** While serving, any call without a transfer's tag runs on its account, and touches nothing
      else but the net of the admin movements. */
  lemma KernelRuns(w: World, a: Name, cmd: Command, ok: bool)
    requires w.mode == Serving && a in w.accts && (cmd.TopUp? || cmd.Withdraw? ==> cmd.xfer == "")
    ensures
      var acct, w' := w.accts[a], Step(w, Kernel(a, cmd, ok));
      var o := Call(acct.s, cmd, ok);
      && w' == w.(accts := w.accts[a := Account(acct.init, o.s, acct.log + o.log)], external := w'.external)
      && w'.external - w.external == o.s.bk.b0 - acct.s.bk.b0
  {
    hide Call, Net;
    CallLogsAllocation(w.accts[a].s, cmd, ok);
  }

  // ---- what a crash does to an account ----

  /** A crash keeps the journal, the logs and the history, and ends every thread. An account
      that came to its state by a safe run, none of whose settlements was refused after it was
      logged, comes back matching the live one: nothing is lost but accrual that any later call
      makes up for. */
  lemma CrashRebuilds(w: World, a: Name, ops: seq<Op>)
    requires Restartable(w) && a in w.accts
    requires
      var acct := w.accts[a];
      && Kernel.Run(acct.init, ops) == Trace(acct.s, acct.log)
      && Safe(acct.init, acct.init.bk.lastTouch, ops)
    ensures
      var w' := Step(w, Crash);
      && w'.mode == Recovering && w'.threads == map[] && w'.journal == w.journal && w'.history == w.history
      && w'.accts.Keys == w.accts.Keys && w'.accts[a] == w.accts[a].(s := w'.accts[a].s)
      && Matches(w.accts[a].s, w'.accts[a].s)
  {
    hide Safe, Replay, Matches, Kernel.Run;
    RecoveryMatchesLive(w.accts[a].init, ops);
  }
}
