/** Integer arithmetic shared by the model: Go's truncating division, clamping,
    and the few non-linear facts the ledger proofs lean on. */
module Arith {
  /** Go's `/` on int64: truncates toward zero. */
  function Quo(a: int, b: int): int
    requires 0 < b
  {
    if 0 <= a then a / b else -((-a) / b)
  }

  function Min(a: int, b: int): int {
    if a < b then a else b
  }

  function Max(a: int, b: int): int {
    if a < b then b else a
  }

  /** The two sequential tests every settlement applies to a runtime. */
  function Clamp(runtime: int, w: int): int {
    var r := if runtime < 0 then 0 else runtime;
    if r > w then w else r
  }

  lemma MulMono(a: int, b: int, c: int)
    requires 0 <= c && a <= b
    ensures c * a <= c * b
  {
    assert 0 <= c * (b - a);
  }

  lemma DivModUnique(a: int, d: int, q: int, r: int)
    requires 0 < d && 0 <= r < d
    requires a == q * d + r
    ensures a / d == q && a % d == r
  {
    var q', r' := a / d, a % d;
    assert a == q' * d + r';
    assert (q - q') * d == r' - r;
    if q < q' {
      MulMono(1, q' - q, d);
      assert false;
    } else if q' < q {
      MulMono(1, q - q', d);
      assert false;
    }
  }

  lemma DivMonotone(a: int, b: int, d: int)
    requires 0 < d && a <= b
    ensures a / d <= b / d
  {
    assert a == (a / d) * d + a % d && b == (b / d) * d + b % d;
    if b / d < a / d {
      MulMono(b / d + 1, a / d, d);
      assert false;
    }
  }

  /** Splitting a dividend and carrying the remainder loses nothing. */
  lemma DivCarry(a: int, b: int, d: int)
    requires 0 < d
    ensures (a + b) / d == a / d + (a % d + b) / d
    ensures (a + b) % d == (a % d + b) % d
  {
    var q := (a % d + b) / d;
    var r := (a % d + b) % d;
    assert a == (a / d) * d + a % d;
    assert a % d + b == q * d + r;
    assert (a / d + q) * d == (a / d) * d + q * d;
    DivModUnique(a + b, d, a / d + q, r);
  }
}
