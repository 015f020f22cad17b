/** A handler's fan-out over the legs of one token, seen from each budget it touches
    (the leg loops of internal/daemon/server.go). */
module FanOut {
  import opened Kernel
  import opened MultiSource

  /** The calls that a fan-out over the first n legs makes on account a, in leg order. */
  function OwnOps(legs: seq<Leg>, cmds: seq<Command>, ok: nat -> bool, a: Name, n: nat): seq<Op>
    requires n <= |legs| == |cmds|
  {
    if n == 0 then []
    else OwnOps(legs, cmds, ok, a, n - 1) + if legs[n - 1].acct == a then [Do(cmds[n - 1], ok(n - 1))] else []
  }

  /** Each account has run the calls on its own legs among the first n, in order, and nothing else. */
  ghost predicate FannedOut(before: map<Name, State>, after: map<Name, State>, legs: seq<Leg>, cmds: seq<Command>,
                            ok: nat -> bool, n: nat)
    requires n <= |legs| == |cmds|
  {
    after.Keys == before.Keys && forall a :: a in before ==> after[a] == Run(before[a], OwnOps(legs, cmds, ok, a, n)).s
  }

  lemma NothingFannedOut(before: map<Name, State>, legs: seq<Leg>, cmds: seq<Command>, ok: nat -> bool)
    requires |legs| == |cmds|
    ensures FannedOut(before, before, legs, cmds, ok, 0)
  {
  }

  lemma RunOneMore(s: State, ops: seq<Op>, cmd: Command, ok: bool)
    ensures Run(s, ops + [Do(cmd, ok)]).s == Call(Run(s, ops).s, cmd, ok).s
  {
    hide Call;
    RunConcat(s, ops, [Do(cmd, ok)]);
    RunOne(Run(s, ops).s, Do(cmd, ok));
    hide Run;
  }

  lemma FanOutOneMore(before: map<Name, State>, after: map<Name, State>, legs: seq<Leg>, cmds: seq<Command>,
                      ok: nat -> bool, n: nat)
    requires n < |legs| == |cmds| && FannedOut(before, after, legs, cmds, ok, n) && legs[n].acct in after
    ensures FannedOut(before, after[legs[n].acct := Call(after[legs[n].acct], cmds[n], ok(n)).s], legs, cmds, ok, n + 1)
  {
    hide Call, Run;
    forall a | a in before
      ensures after[legs[n].acct := Call(after[legs[n].acct], cmds[n], ok(n)).s][a]
              == Run(before[a], OwnOps(legs, cmds, ok, a, n + 1)).s
    {
      RunOneMore(before[a], OwnOps(legs, cmds, ok, a, n), cmds[n], ok(n));
      if a != legs[n].acct {
        assert OwnOps(legs, cmds, ok, a, n + 1) == OwnOps(legs, cmds, ok, a, n);
      }
    }
  }
}
