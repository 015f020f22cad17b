/** Sums over the ledger's maps and counts over an array escrow's tasks. */
module Sums {
  ghost function Pick<K, V>(m: map<K, V>): (k: K)
    requires m != map[]
    ensures k in m
  {
    var k :| k in m; k
  }

  /** The sum of `f` over the values of `m`. */
  ghost function Total<K, V>(m: map<K, V>, f: V -> int): int
    decreases |m|
  {
    if m == map[] then 0
    else
      var k := Pick(m);
      f(m[k]) + Total(m - {k}, f)
  }

  lemma {:induction false} TotalRemove<K, V>(m: map<K, V>, f: V -> int, k: K)
    requires k in m
    ensures Total(m, f) == f(m[k]) + Total(m - {k}, f)
    decreases |m|
  {
    var k0 := Pick(m);
    if k0 != k {
      TotalRemove(m - {k0}, f, k);
      TotalRemove(m - {k}, f, k0);
      assert m - {k0} - {k} == m - {k} - {k0};
    }
  }

  lemma TotalInsert<K, V>(m: map<K, V>, f: V -> int, k: K, v: V)
    ensures Total(m[k := v], f) == f(v) + Total(m - {k}, f)
    ensures k !in m ==> Total(m[k := v], f) == f(v) + Total(m, f)
    ensures k in m ==> Total(m[k := v], f) == Total(m, f) - f(m[k]) + f(v)
  {
    TotalRemove(m[k := v], f, k);
    assert m[k := v] - {k} == m - {k};
    if k in m {
      TotalRemove(m, f, k);
    } else {
      assert m - {k} == m;
    }
  }

  lemma {:induction false} SameTotal<K, V>(m: map<K, V>, m': map<K, V>, f: V -> int)
    requires m.Keys == m'.Keys && forall k :: k in m ==> f(m'[k]) == f(m[k])
    ensures Total(m', f) == Total(m, f)
    decreases |m|
  {
    if m != map[] {
      var k := Pick(m);
      TotalRemove(m', f, k);
      assert (m - {k}).Keys == (m' - {k}).Keys;
      SameTotal(m - {k}, m' - {k}, f);
    } else {
      assert m' == map[];
    }
  }

  lemma {:induction false} TotalLe<K, V>(m: map<K, V>, f: V -> int, g: V -> int)
    requires forall k :: k in m ==> f(m[k]) <= g(m[k])
    ensures Total(m, f) <= Total(m, g)
    decreases |m|
  {
    if m != map[] {
      TotalLe(m - {Pick(m)}, f, g);
    }
  }

  lemma {:induction false} TotalNonNeg<K, V>(m: map<K, V>, f: V -> int)
    requires forall k :: k in m ==> 0 <= f(m[k])
    ensures 0 <= Total(m, f)
    decreases |m|
  {
    if m != map[] {
      TotalNonNeg(m - {Pick(m)}, f);
    }
  }

  /** How many elements of `ts` satisfy `p`. */
  function Count<T>(ts: seq<T>, p: T -> bool): (n: nat)
    ensures n <= |ts|
  {
    if ts == [] then 0 else (if p(ts[0]) then 1 else 0) + Count(ts[1..], p)
  }

  lemma {:induction false} CountUpdate<T>(ts: seq<T>, p: T -> bool, i: nat, t: T)
    requires i < |ts|
    ensures Count(ts[i := t], p)
            == Count(ts, p) - (if p(ts[i]) then 1 else 0) + (if p(t) then 1 else 0)
  {
    if i == 0 {
      assert ts[i := t][1..] == ts[1..];
    } else {
      CountUpdate(ts[1..], p, i - 1, t);
      assert ts[i := t][1..] == ts[1..][i - 1 := t];
    }
  }

  lemma {:induction false} CountAll<T>(ts: seq<T>, p: T -> bool)
    requires forall i :: 0 <= i < |ts| ==> p(ts[i])
    ensures Count(ts, p) == |ts|
  {
    if ts != [] {
      CountAll(ts[1..], p);
    }
  }

  lemma {:induction false} CountPositive<T>(ts: seq<T>, p: T -> bool, i: nat)
    requires i < |ts| && p(ts[i])
    ensures 0 < Count(ts, p)
  {
    if i > 0 {
      CountPositive(ts[1..], p, i - 1);
    }
  }

  lemma {:induction false} CountNone<T>(ts: seq<T>, p: T -> bool)
    requires forall i :: 0 <= i < |ts| ==> !p(ts[i])
    ensures Count(ts, p) == 0
  {
    if ts != [] {
      CountNone(ts[1..], p);
    }
  }

  lemma {:induction false} CountLe<T>(ts: seq<T>, p: T -> bool, q: T -> bool)
    requires forall i :: 0 <= i < |ts| && p(ts[i]) ==> q(ts[i])
    ensures Count(ts, p) <= Count(ts, q)
  {
    if ts != [] {
      assert forall i :: 0 <= i < |ts[1..]| ==> ts[1..][i] == ts[i + 1];
      CountLe(ts[1..], p, q);
    }
  }
}
