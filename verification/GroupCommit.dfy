/** Group commit in internal/budget/wal.go as an interleaving of its threads: appenders,
    the background committer, and callers of Flush and Close.

    Each action is one section between lock operations, or one edge of an fsync. An
    action that its thread cannot take is a no-op, so every sequence of actions is an
    interleaving and every interleaving is a sequence of actions. */
module GroupCommit {
  import opened Arith

  /** A thread inside flushOnce: it read `target` and unlocked, its fsync is in flight
      having started when the file was `size` long, or the fsync has returned. */
  datatype Pass = Checked(target: int) | Syncing(target: int, size: int) | Synced(target: int, ok: bool)

  datatype Committer = Idle | Took | Committing(pass: Pass) | Stopped

  /** A caller of Flush or Close. `want` is what had been written when it called. */
  datatype Caller =
    | Entered(want: int)
    | Joining(want: int)
    | Pending(want: int, target: int)
    | Flushing(want: int, target: int, pass: Pass)
    | Waiting(want: int, target: int)
    | Returned(want: int, ok: bool)

  /** `durable` is what completed fsyncs have covered; `failed` is the sticky error;
      `nudge` the one-slot channel; `nudging` the appenders about to use it. */
  datatype Wal = Wal(
    writeOff: int, syncedOff: int, durable: int, failed: bool,
    nudge: bool, nudging: nat, closing: bool,
    committer: Committer, callers: map<nat, Caller>)

  datatype Action =
    | Append(bytes: nat) | Nudge
    | Take | Check | SyncStart | SyncEnd(ok: bool) | Commit | Stop
    | CallFlush(id: nat) | CallClose(id: nat) | ReadTarget(id: nat) | Join(id: nat)
    | CallerCheck(id: nat) | CallerSyncStart(id: nat) | CallerSyncEnd(id: nat, ok: bool)
    | CallerCommit(id: nat) | Return(id: nat)

  /** An existing file is already durable. */
  function Open(size: nat): Wal {
    Wal(size, size, size, false, false, 0, false, Idle, map[])
  }

  /** The second locked section of flushOnce: a failure sticks, a success advances syncedOff. */
  function Finish(s: Wal, p: Pass): Wal
    requires p.Synced?
  {
    if !p.ok then s.(failed := true) else s.(syncedOff := Max(s.syncedOff, p.target))
  }

  function CommitterStep(s: Wal, a: Action): Wal {
    match (a, s.committer)
    case (Take, Idle) => if s.nudge then s.(nudge := false, committer := Took) else s
    case (Check, Took) =>
      if s.failed || s.syncedOff >= s.writeOff then s.(committer := Idle)
      else s.(committer := Committing(Checked(s.writeOff)))
    case (SyncStart, Committing(Checked(t))) => s.(committer := Committing(Syncing(t, s.writeOff)))
    case (SyncEnd(ok), Committing(Syncing(t, size))) =>
      s.(durable := if ok then Max(s.durable, size) else s.durable, committer := Committing(Synced(t, ok)))
    case (Commit, Committing(Synced(t, ok))) => Finish(s, Synced(t, ok)).(committer := Idle)
    case (Stop, Idle) => if s.closing then s.(committer := Stopped) else s
    case _ => s
  }

  function CallerStep(s: Wal, a: Action, id: nat): Wal
    requires id in s.callers
  {
    match (a, s.callers[id])
    case (ReadTarget(_), Entered(want)) => s.(callers := s.callers[id := Pending(want, s.writeOff)])
    case (Join(_), Joining(want)) =>
      if s.committer.Stopped? then s.(callers := s.callers[id := Pending(want, s.writeOff)]) else s
    case (CallerCheck(_), Pending(want, target)) =>
      if s.failed || s.syncedOff >= s.writeOff then s.(callers := s.callers[id := Waiting(want, target)])
      else s.(callers := s.callers[id := Flushing(want, target, Checked(s.writeOff))])
    case (CallerSyncStart(_), Flushing(want, target, Checked(t))) =>
      s.(callers := s.callers[id := Flushing(want, target, Syncing(t, s.writeOff))])
    case (CallerSyncEnd(_, ok), Flushing(want, target, Syncing(t, size))) =>
      s.(durable := if ok then Max(s.durable, size) else s.durable,
         callers := s.callers[id := Flushing(want, target, Synced(t, ok))])
    case (CallerCommit(_), Flushing(want, target, Synced(t, ok))) =>
      Finish(s, Synced(t, ok)).(callers := s.callers[id := Waiting(want, target)])
    case (Return(_), Waiting(want, target)) =>
      if s.failed || s.syncedOff >= target then s.(callers := s.callers[id := Returned(want, !s.failed)]) else s
    case _ => s
  }

  function Step(s: Wal, a: Action): Wal {
    match a
    case Append(bytes) =>
      if s.failed then s else s.(writeOff := s.writeOff + bytes, nudging := s.nudging + 1)
    case Nudge => if s.nudging == 0 then s else s.(nudge := true, nudging := s.nudging - 1)
    case CallFlush(id) => if id in s.callers then s else s.(callers := s.callers[id := Entered(s.writeOff)])
    case CallClose(id) =>
      if id in s.callers then s else s.(closing := true, callers := s.callers[id := Joining(s.writeOff)])
    case Take => CommitterStep(s, a)
    case Check => CommitterStep(s, a)
    case SyncStart => CommitterStep(s, a)
    case SyncEnd(_) => CommitterStep(s, a)
    case Commit => CommitterStep(s, a)
    case Stop => CommitterStep(s, a)
    case _ => if a.id in s.callers then CallerStep(s, a, a.id) else s
  }

  function Run(s: Wal, acts: seq<Action>): Wal
    decreases |acts|
  {
    if acts == [] then s else Run(Step(s, acts[0]), acts[1..])
  }

  predicate PassOK(s: Wal, p: Pass) {
    match p
    case Checked(t) => t <= s.writeOff
    case Syncing(t, size) => t <= size <= s.writeOff
    case Synced(t, ok) => t <= s.writeOff && (ok ==> t <= s.durable)
  }

  predicate CallerOK(s: Wal, c: Caller) {
    match c
    case Entered(want) => want <= s.writeOff
    case Joining(want) => want <= s.writeOff
    case Pending(want, target) => want <= target <= s.writeOff
    case Flushing(want, target, p) => want <= target <= p.target && PassOK(s, p)
    case Waiting(want, target) => want <= target && (s.failed || target <= s.syncedOff)
    case Returned(want, ok) => ok ==> want <= s.syncedOff
  }

  /** Someone will still sync what has been written, unless the committer has stopped. */
  predicate Covered(s: Wal) {
    || s.failed || s.writeOff <= s.syncedOff || s.committer.Stopped?
    || s.nudge || 0 < s.nudging || s.committer.Took?
    || (s.committer.Committing? && s.committer.pass.target == s.writeOff)
  }

  predicate Inv(s: Wal) {
    && s.syncedOff <= s.durable <= s.writeOff
    && (s.committer.Committing? ==> PassOK(s, s.committer.pass))
    && (forall id :: id in s.callers ==> CallerOK(s, s.callers[id]))
    && Covered(s)
  }

  /** syncedOff and what is durable never go back; an error sticks, and nothing is
      written after it. */
  ghost predicate Forward(s: Wal, t: Wal) {
    && s.syncedOff <= t.syncedOff && s.durable <= t.durable && s.writeOff <= t.writeOff
    && (s.failed ==> t.failed && t.writeOff == s.writeOff)
  }

  lemma CallerSurvives(s: Wal, t: Wal, c: Caller)
    requires CallerOK(s, c) && Forward(s, t)
    ensures CallerOK(t, c)
  {
  }

  lemma OthersSurvive(s: Wal, t: Wal)
    requires Inv(s) && Forward(s, t)
    ensures forall id :: id in s.callers ==> CallerOK(t, s.callers[id])
  {
    forall id | id in s.callers
      ensures CallerOK(t, s.callers[id])
    {
      CallerSurvives(s, t, s.callers[id]);
    }
  }

  lemma CommitterStepOK(s: Wal, a: Action)
    requires Inv(s)
    ensures Inv(CommitterStep(s, a)) && Forward(s, CommitterStep(s, a))
  {
    OthersSurvive(s, CommitterStep(s, a));
    hide CallerOK;
  }

  /** One caller moves; the rest of the log is as it was, or further on. */
  ghost predicate OneMoves(s: Wal, t: Wal, id: nat) {
    && Forward(s, t) && t.syncedOff <= t.durable <= t.writeOff == s.writeOff
    && id in t.callers && t.callers == s.callers[id := t.callers[id]] && CallerOK(t, t.callers[id])
    && t.committer == s.committer && t.nudge == s.nudge && t.nudging == s.nudging
  }

  lemma NoMove(s: Wal, id: nat)
    requires s.syncedOff <= s.durable <= s.writeOff && id in s.callers && CallerOK(s, s.callers[id])
    ensures OneMoves(s, s, id)
  {
    hide CallerOK;
  }

  lemma ReadTargetMoves(s: Wal, a: Action, id: nat)
    requires s.syncedOff <= s.durable <= s.writeOff && id in s.callers && CallerOK(s, s.callers[id])
    requires a.ReadTarget?
    ensures OneMoves(s, CallerStep(s, a, id), id)
  {
    if CallerStep(s, a, id) == s {
      NoMove(s, id);
    }
  }

  lemma JoinMoves(s: Wal, a: Action, id: nat)
    requires s.syncedOff <= s.durable <= s.writeOff && id in s.callers && CallerOK(s, s.callers[id])
    requires a.Join?
    ensures OneMoves(s, CallerStep(s, a, id), id)
  {
    if CallerStep(s, a, id) == s {
      NoMove(s, id);
    }
  }

  lemma CallerCheckMoves(s: Wal, a: Action, id: nat)
    requires s.syncedOff <= s.durable <= s.writeOff && id in s.callers && CallerOK(s, s.callers[id])
    requires a.CallerCheck?
    ensures OneMoves(s, CallerStep(s, a, id), id)
  {
    if CallerStep(s, a, id) == s {
      NoMove(s, id);
    }
  }

  lemma CallerSyncStartMoves(s: Wal, a: Action, id: nat)
    requires s.syncedOff <= s.durable <= s.writeOff && id in s.callers && CallerOK(s, s.callers[id])
    requires a.CallerSyncStart?
    ensures OneMoves(s, CallerStep(s, a, id), id)
  {
    if CallerStep(s, a, id) == s {
      NoMove(s, id);
    }
  }

  lemma CallerSyncEndMoves(s: Wal, a: Action, id: nat)
    requires s.syncedOff <= s.durable <= s.writeOff && id in s.callers && CallerOK(s, s.callers[id])
    requires a.CallerSyncEnd?
    ensures OneMoves(s, CallerStep(s, a, id), id)
  {
    if CallerStep(s, a, id) == s {
      NoMove(s, id);
    }
  }

  lemma CallerCommitMoves(s: Wal, a: Action, id: nat)
    requires s.syncedOff <= s.durable <= s.writeOff && id in s.callers && CallerOK(s, s.callers[id])
    requires a.CallerCommit?
    ensures OneMoves(s, CallerStep(s, a, id), id)
  {
    if CallerStep(s, a, id) == s {
      NoMove(s, id);
    }
  }

  lemma ReturnMoves(s: Wal, a: Action, id: nat)
    requires s.syncedOff <= s.durable <= s.writeOff && id in s.callers && CallerOK(s, s.callers[id])
    requires a.Return?
    ensures OneMoves(s, CallerStep(s, a, id), id)
  {
    if CallerStep(s, a, id) == s {
      NoMove(s, id);
    }
  }

  lemma CallerMoves(s: Wal, a: Action, id: nat)
    requires s.syncedOff <= s.durable <= s.writeOff && id in s.callers && CallerOK(s, s.callers[id])
    ensures OneMoves(s, CallerStep(s, a, id), id)
  {
    match a {
      case ReadTarget(_) => ReadTargetMoves(s, a, id);
      case Join(_) => JoinMoves(s, a, id);
      case CallerCheck(_) => CallerCheckMoves(s, a, id);
      case CallerSyncStart(_) => CallerSyncStartMoves(s, a, id);
      case CallerSyncEnd(_, _) => CallerSyncEndMoves(s, a, id);
      case CallerCommit(_) => CallerCommitMoves(s, a, id);
      case Return(_) => ReturnMoves(s, a, id);
      case _ => NoMove(s, id);
    }
    hide OneMoves, CallerOK;
  }

  lemma CallerStepOK(s: Wal, a: Action, id: nat)
    requires Inv(s) && id in s.callers
    ensures Inv(CallerStep(s, a, id)) && Forward(s, CallerStep(s, a, id))
  {
    hide CallerOK, CallerStep;
    CallerMoves(s, a, id);
    OthersSurvive(s, CallerStep(s, a, id));
  }

  lemma StepOK(s: Wal, a: Action)
    requires Inv(s)
    ensures Inv(Step(s, a)) && Forward(s, Step(s, a))
  {
    match a {
      case Append(_) => OthersSurvive(s, Step(s, a));
      case Nudge => OthersSurvive(s, Step(s, a));
      case CallFlush(_) => OthersSurvive(s, Step(s, a));
      case CallClose(_) => OthersSurvive(s, Step(s, a));
      case Take => CommitterStepOK(s, a);
      case Check => CommitterStepOK(s, a);
      case SyncStart => CommitterStepOK(s, a);
      case SyncEnd(_) => CommitterStepOK(s, a);
      case Commit => CommitterStepOK(s, a);
      case Stop => CommitterStepOK(s, a);
      case _ => if a.id in s.callers { CallerStepOK(s, a, a.id); }
    }
    hide CommitterStep, CallerStep;
  }

  lemma {:induction false} RunOK(s: Wal, acts: seq<Action>)
    requires Inv(s)
    ensures Inv(Run(s, acts)) && Forward(s, Run(s, acts))
    decreases |acts|
  {
    if acts != [] {
      StepOK(s, acts[0]);
      hide Step, Inv;
      RunOK(Step(s, acts[0]), acts[1..]);
    }
  }

  lemma WaitingReturns(s: Wal, id: nat)
    requires id in s.callers && s.callers[id].Waiting? && CallerOK(s, s.callers[id])
    ensures id in Step(s, Return(id)).callers
    ensures Step(s, Return(id)).callers[id] == Returned(s.callers[id].want, !s.failed)
  {
  }

  /** In every interleaving from any opened log: syncedOff is covered by completed fsyncs;
      while the committer has not stopped, unsynced bytes without a sticky error have someone
      on the way to sync them; a call
      that returned success had everything written before it made durable; and no caller
      is ever left waiting. */
  lemma GroupCommitIsSafe(size: nat, acts: seq<Action>)
    ensures
      var s := Run(Open(size), acts);
      && s.syncedOff <= s.durable <= s.writeOff
      && Covered(s)
      && (forall id :: id in s.callers && s.callers[id].Returned? && s.callers[id].ok
                       ==> s.callers[id].want <= s.syncedOff)
      && (forall id :: id in s.callers && s.callers[id].Waiting?
                       ==> id in Step(s, Return(id)).callers
                           && Step(s, Return(id)).callers[id] == Returned(s.callers[id].want, !s.failed))
  {
    RunOK(Open(size), acts);
    var s := Run(Open(size), acts);
    hide Run, Step, Covered;
    forall id | id in s.callers && s.callers[id].Waiting?
      ensures id in Step(s, Return(id)).callers
      ensures Step(s, Return(id)).callers[id] == Returned(s.callers[id].want, !s.failed)
    {
      WaitingReturns(s, id);
    }
  }

  // ---- nothing written is ever stranded ----

  function FinishPass(s: Wal): Wal {
    Step(Step(Step(s, SyncStart), SyncEnd(true)), Commit)
  }

  lemma FinishPassOK(s: Wal)
    requires Inv(s) && !s.failed && s.committer.Committing?
    ensures
      var t := FinishPass(s);
      && Inv(t) && t.writeOff == s.writeOff && t.committer == Idle
      && t.nudging == s.nudging && t.nudge == s.nudge && s.syncedOff <= t.syncedOff
      && (t.failed || s.committer.pass.target <= t.syncedOff)
  {
    var s1 := Step(s, SyncStart);
    var s2 := Step(s1, SyncEnd(true));
    StepOK(s, SyncStart);
    StepOK(s1, SyncEnd(true));
    StepOK(s2, Commit);
    hide Covered, CallerOK;
  }

  lemma CheckAndFinish(s: Wal)
    requires Inv(s) && !s.failed && s.committer.Took?
    ensures
      var t := FinishPass(Step(s, Check));
      t.failed || s.writeOff <= t.syncedOff
  {
    StepOK(s, Check);
    var s1 := Step(s, Check);
    if s1.committer.Committing? {
      FinishPassOK(s1);
    }
    hide Inv, Covered, CallerOK;
  }

  /** The committer's own steps, plus the nudge of an appender already past its write. */
  function DrainSchedule(): seq<Action> {
    [Nudge, Check, SyncStart, SyncEnd(true), Commit, Take, Check, SyncStart, SyncEnd(true), Commit]
  }

  lemma NudgeSettles(s: Wal)
    requires Inv(s)
    ensures
      var t := Step(s, Nudge);
      && t.failed == s.failed && t.writeOff == s.writeOff && t.syncedOff == s.syncedOff && t.committer == s.committer
      && (s.failed || s.writeOff <= s.syncedOff || s.committer.Stopped? || t.nudge || s.committer.Took?
          || (s.committer.Committing? && s.committer.pass.target == s.writeOff))
  {
    hide CallerOK;
  }

  lemma IdlePass(s: Wal)
    ensures s.committer.Committing? ==> Step(s, Check) == s
    ensures s.committer == Idle ==> FinishPass(Step(s, Check)) == s
  {
  }

  lemma RunPrefix(s: Wal, acts: seq<Action>, rest: seq<Action>)
    requires |acts| >= 2 && rest == acts[2..]
    ensures Run(s, acts) == Run(Step(Step(s, acts[0]), acts[1]), rest)
  {
    hide Step;
    assert acts[1..][0] == acts[1] && acts[1..][1..] == rest;
  }

  lemma RunThree(s: Wal, a: Action, b: Action, c: Action, rest: seq<Action>)
    ensures Run(s, [a, b, c] + rest) == Run(Step(Step(Step(s, a), b), c), rest)
  {
    hide Step;
    RunPrefix(s, [a, b, c] + rest, [c] + rest);
    assert ([c] + rest)[1..] == rest;
  }

  lemma RunFive(s: Wal, a: Action, b: Action, c: Action, d: Action, e: Action, rest: seq<Action>)
    ensures Run(s, [a, b, c, d, e] + rest) == Run(Step(Step(Step(Step(Step(s, a), b), c), d), e), rest)
  {
    hide Step;
    assert [a, b, c, d, e] + rest == [a, b, c] + ([d, e] + rest);
    RunThree(s, a, b, c, [d, e] + rest);
    RunPrefix(Step(Step(Step(s, a), b), c), [d, e] + rest, rest);
  }

  lemma DrainUnrolls(s: Wal)
    ensures Run(s, DrainSchedule())
            == FinishPass(Step(Step(FinishPass(Step(Step(s, Nudge), Check)), Take), Check))
  {
    hide Step;
    var acts := DrainSchedule();
    RunPrefix(s, acts, [SyncStart, SyncEnd(true), Commit, Take, Check, SyncStart, SyncEnd(true), Commit]);
    var a := Step(Step(s, Nudge), Check);
    RunFive(a, SyncStart, SyncEnd(true), Commit, Take, Check, [SyncStart, SyncEnd(true), Commit]);
    var b := Step(Step(FinishPass(a), Take), Check);
    RunThree(b, SyncStart, SyncEnd(true), Commit, []);
  }

  lemma StepKeeps(s: Wal, a: Action, goal: int)
    requires s.failed || goal <= s.syncedOff
    ensures Step(s, a).failed || goal <= Step(s, a).syncedOff
  {
  }

  lemma StillDrained(s: Wal, goal: int)
    requires s.failed || goal <= s.syncedOff
    ensures
      var t := FinishPass(Step(Step(s, Take), Check));
      t.failed || goal <= t.syncedOff
  {
    hide Step;
    var s2 := Step(Step(s, Take), Check);
    StepKeeps(s, Take, goal);
    StepKeeps(Step(s, Take), Check, goal);
    StepKeeps(s2, SyncStart, goal);
    StepKeeps(Step(s2, SyncStart), SyncEnd(true), goal);
    StepKeeps(Step(Step(s2, SyncStart), SyncEnd(true)), Commit, goal);
  }

  lemma AfterIdle(s: Wal, goal: int)
    requires Inv(s) && s.committer == Idle && s.writeOff == goal
    requires s.failed || goal <= s.syncedOff || s.nudge
    ensures
      var t := FinishPass(Step(Step(s, Take), Check));
      t.failed || goal <= t.syncedOff
  {
    if s.failed || goal <= s.syncedOff {
      StillDrained(s, goal);
    } else {
      StepOK(s, Take);
      CheckAndFinish(Step(s, Take));
    }
    hide Inv, Covered, CallerOK, FinishPass;
  }

  /** From every reachable state with a running committer, the threads already at work
      bring syncedOff to everything written, unless an fsync failed: no wake-up is lost. */
  lemma NothingStranded(s: Wal)
    requires Inv(s) && !s.failed && !s.committer.Stopped?
    ensures
      var t := Run(s, DrainSchedule());
      t.failed || s.writeOff <= t.syncedOff
  {
    hide Inv, CallerOK, Step, FinishPass;
    NudgeSettles(s);
    var s1 := Step(s, Nudge);
    StepOK(s, Nudge);
    IdlePass(s1);
    var s2 := FinishPass(Step(s1, Check));
    var s3 := Step(s2, Take);
    var s4 := FinishPass(Step(s3, Check));
    DrainUnrolls(s);
    if s1.committer.Took? {
      CheckAndFinish(s1);
      StillDrained(s2, s.writeOff);
    } else if s1.committer.Committing? {
      FinishPassOK(s1);
      AfterIdle(s2, s.writeOff);
    } else {
      AfterIdle(s2, s.writeOff);
    }
  }

  // ---- a call that is not disturbed succeeds ----

  predicate FsyncFails(a: Action) {
    (a.SyncEnd? && !a.ok) || (a.CallerSyncEnd? && !a.ok)
  }

  /** Nothing has failed: no error sticks, and none is on its way to. */
  predicate Clean(s: Wal) {
    && !s.failed && !(s.committer.Committing? && s.committer.pass.Synced? && !s.committer.pass.ok)
    && forall id :: id in s.callers ==>
         !(s.callers[id].Flushing? && s.callers[id].pass.Synced? && !s.callers[id].pass.ok)
  }

  lemma CommitterStaysClean(s: Wal, a: Action)
    requires Clean(s) && !FsyncFails(a)
    ensures Clean(CommitterStep(s, a))
  {
  }

  lemma CallerStaysClean(s: Wal, a: Action, id: nat)
    requires Clean(s) && !FsyncFails(a) && id in s.callers
    ensures Clean(CallerStep(s, a, id))
  {
    assert !(s.callers[id].Flushing? && s.callers[id].pass.Synced? && !s.callers[id].pass.ok);
  }

  lemma StepStaysClean(s: Wal, a: Action)
    requires Clean(s) && !FsyncFails(a)
    ensures Clean(Step(s, a))
  {
    CommitterStaysClean(s, a);
    match a {
      case Append(_) =>
      case Nudge =>
      case CallFlush(_) =>
      case CallClose(_) =>
      case Take =>
      case Check =>
      case SyncStart =>
      case SyncEnd(_) =>
      case Commit =>
      case Stop =>
      case _ => if a.id in s.callers { CallerStaysClean(s, a, a.id); }
    }
    hide CommitterStep, CallerStep;
  }

  /** The bytes that a sequence of actions appends. */
  function Written(acts: seq<Action>): nat {
    if acts == [] then 0 else (if acts[0].Append? then acts[0].bytes else 0) + Written(acts[1..])
  }

  lemma StepWrites(s: Wal, a: Action)
    requires !s.failed
    ensures Step(s, a).writeOff == s.writeOff + if a.Append? then a.bytes else 0
  {
  }

  /** The log fails only if an fsync does: with none failing, every append writes its bytes, no
      error ever sticks, and so nothing written is lost. */
  lemma {:induction false} OnlyFsyncsFail(s: Wal, acts: seq<Action>)
    requires Clean(s) && forall i :: 0 <= i < |acts| ==> !FsyncFails(acts[i])
    ensures Clean(Run(s, acts)) && Run(s, acts).writeOff == s.writeOff + Written(acts)
    decreases |acts|
  {
    if acts != [] {
      StepStaysClean(s, acts[0]);
      StepWrites(s, acts[0]);
      hide Step, Clean, FsyncFails;
      OnlyFsyncsFail(Step(s, acts[0]), acts[1..]);
    }
  }

  /** The steps of one undisturbed caller of Flush. */
  function FlushSchedule(id: nat): seq<Action> {
    [ReadTarget(id), CallerCheck(id), CallerSyncStart(id), CallerSyncEnd(id, true), CallerCommit(id), Return(id)]
  }

  lemma FlushBegins(s: Wal, id: nat)
    requires id !in s.callers && Inv(s) && Clean(s)
    ensures
      var t := Step(Step(s, CallFlush(id)), ReadTarget(id));
      && t == s.(callers := t.callers) && id in t.callers
      && t.callers[id] == Pending(s.writeOff, s.writeOff)
  {
    hide Inv;
  }

  lemma FlushSyncs(s: Wal, id: nat)
    requires id in s.callers && s.callers[id] == Pending(s.writeOff, s.writeOff) && !s.failed
    requires s.syncedOff <= s.writeOff
    ensures
      var t := Step(Step(Step(Step(s, CallerCheck(id)), CallerSyncStart(id)), CallerSyncEnd(id, true)), CallerCommit(id));
      && id in t.callers && t.callers[id] == Waiting(s.writeOff, s.writeOff) && !t.failed && t.committer == s.committer
      && t.syncedOff == s.writeOff && t.writeOff == s.writeOff
  {
    var s1 := Step(s, CallerCheck(id));
    if s.syncedOff < s.writeOff {
      var s2 := Step(s1, CallerSyncStart(id));
      assert s2.callers[id] == Flushing(s.writeOff, s.writeOff, Syncing(s.writeOff, s.writeOff));
      var s3 := Step(s2, CallerSyncEnd(id, true));
      assert s3.callers[id] == Flushing(s.writeOff, s.writeOff, Synced(s.writeOff, true));
    }
  }

  lemma InvBounds(s: Wal)
    requires Inv(s)
    ensures s.syncedOff <= s.durable <= s.writeOff
    ensures Clean(s) ==> !s.failed
  {
  }

  lemma ReturnOnly(s: Wal, id: nat)
    requires id in s.callers && s.callers[id] == Waiting(s.writeOff, s.writeOff) && !s.failed && s.syncedOff == s.writeOff
    ensures Step(s, Return(id)) == s.(callers := s.callers[id := Returned(s.writeOff, true)])
    ensures Run(Step(s, Return(id)), []) == Step(s, Return(id))
  {
  }

  /** From every reachable state, whatever the committer is doing: a caller of Flush whose own
      fsync succeeds returns success, and all that was written by then is durable. */
  lemma FlushCompletes(s: Wal, id: nat)
    requires Inv(s) && Clean(s) && id !in s.callers
    ensures
      var t := Run(s, [CallFlush(id)] + FlushSchedule(id));
      && id in t.callers && t.callers[id] == Returned(s.writeOff, true)
      && t.syncedOff == s.writeOff <= t.durable && !t.failed
  {
    hide Step, Inv, Clean;
    var acts := [CallFlush(id)] + FlushSchedule(id);
    var tail := [CallerCheck(id), CallerSyncStart(id), CallerSyncEnd(id, true), CallerCommit(id), Return(id)];
    RunPrefix(s, acts, tail);
    FlushBegins(s, id);
    var a := Step(Step(s, CallFlush(id)), ReadTarget(id));
    RunFive(a, CallerCheck(id), CallerSyncStart(id), CallerSyncEnd(id, true), CallerCommit(id), Return(id), []);
    assert tail + [] == tail;
    InvBounds(s);
    FlushSyncs(a, id);
    var b := Step(Step(Step(Step(a, CallerCheck(id)), CallerSyncStart(id)), CallerSyncEnd(id, true)), CallerCommit(id));
    ReturnOnly(b, id);
    RunOK(s, acts);
    InvBounds(Run(s, acts));
  }

  lemma CloseBegins(s: Wal, id: nat)
    requires id !in s.callers && Inv(s) && s.committer == Idle
    ensures
      var t := Step(Step(Step(s, CallClose(id)), Stop), Join(id));
      && t == s.(callers := t.callers, closing := true, committer := Stopped) && id in t.callers
      && t.callers[id] == Pending(s.writeOff, s.writeOff)
  {
    hide Inv;
  }

  /** The same for Close, once the committer it stops is between passes. */
  lemma CloseCompletes(s: Wal, id: nat)
    requires Inv(s) && Clean(s) && id !in s.callers && s.committer == Idle
    ensures
      var t := Run(s, [CallClose(id), Stop, Join(id)]
                      + [CallerCheck(id), CallerSyncStart(id), CallerSyncEnd(id, true), CallerCommit(id), Return(id)]);
      && id in t.callers && t.callers[id] == Returned(s.writeOff, true) && t.committer.Stopped?
      && t.syncedOff == s.writeOff <= t.durable && !t.failed
  {
    hide Step, Inv, Clean;
    var tail := [CallerCheck(id), CallerSyncStart(id), CallerSyncEnd(id, true), CallerCommit(id), Return(id)];
    RunThree(s, CallClose(id), Stop, Join(id), tail);
    CloseBegins(s, id);
    var a := Step(Step(Step(s, CallClose(id)), Stop), Join(id));
    RunFive(a, CallerCheck(id), CallerSyncStart(id), CallerSyncEnd(id, true), CallerCommit(id), Return(id), []);
    assert tail + [] == tail;
    InvBounds(s);
    FlushSyncs(a, id);
    var b := Step(Step(Step(Step(a, CallerCheck(id)), CallerSyncStart(id)), CallerSyncEnd(id, true)), CallerCommit(id));
    ReturnOnly(b, id);
    RunOK(s, [CallClose(id), Stop, Join(id)] + tail);
    InvBounds(Run(s, [CallClose(id), Stop, Join(id)] + tail));
  }
}
