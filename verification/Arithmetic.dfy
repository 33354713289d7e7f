/** The little arithmetic the money path needs. */
module Arithmetic {

  function Max(a: nat, b: nat): nat {
    if a < b then b else a
  }

  function Min(a: nat, b: nat): nat {
    if a < b then a else b
  }

  function CeilDiv(a: nat, b: nat): nat
    requires b > 0
  {
    if a % b > 0 then a / b + 1 else a / b
  }

  lemma TimesMonotone(a: nat, b: nat, k: nat)
    requires a <= b
    ensures a * k <= b * k
    ensures a < b ==> a * k + k <= b * k
  {
    var d := b - a;
    assert b * k == (a + d) * k == a * k + d * k;
    if d > 0 {
      assert d * k == (d - 1) * k + k;
    }
  }

  lemma Distribute(n: nat, v: nat)
    ensures (n + 1) * v == n * v + v
  {
  }

  lemma CeilDivExact(n: nat, v: nat)
    requires n > 0
    ensures CeilDiv(n * v, n) == v
  {
    var a := n * v;
    var q := a / n;
    DivMod(a, n);
    if q < v {
      TimesMonotone(q, v, n);
    } else {
      TimesMonotone(v, q, n);
    }
  }

  lemma DivMod(a: nat, n: nat)
    requires n > 0
    ensures a == (a / n) * n + a % n && 0 <= a % n < n
  {
  }

  lemma FloorTimes(a: nat, b: nat)
    requires b > 0
    ensures (a / b) * b <= a
  {
  }
}
