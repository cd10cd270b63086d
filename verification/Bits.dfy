/** Bitwise operators on unsigned words, bit by bit, and the arithmetic they amount to. */
module Bits {

  function Pow2(k: nat): (r: nat)
    ensures 0 < r
  {
    if k == 0 then 1 else 2 * Pow2(k - 1)
  }

  function BitOr(a: nat, b: nat): nat {
    if a == 0 && b == 0 then 0
    else 2 * BitOr(a / 2, b / 2) + if a % 2 == 1 || b % 2 == 1 then 1 else 0
  }

  function BitAnd(a: nat, b: nat): nat {
    if a == 0 || b == 0 then 0
    else 2 * BitAnd(a / 2, b / 2) + if a % 2 == 1 && b % 2 == 1 then 1 else 0
  }

  lemma {:induction false} OrZero(a: nat)
    ensures BitOr(a, 0) == a
  {
    if a > 0 { OrZero(a / 2); }
  }

  /** Or-ing below a shifted word adds. */
  lemma {:induction false} OrDisjoint(a: nat, b: nat, k: nat)
    requires b < Pow2(k)
    ensures BitOr(a * Pow2(k), b) == a * Pow2(k) + b
  {
    if k == 0 {
      OrZero(a);
    } else {
      var p := Pow2(k - 1);
      var m := a * p;
      assert a * Pow2(k) == 2 * m;
      OrDisjoint(a, b / 2, k - 1);
      if a * Pow2(k) == 0 && b == 0 {} else {
        assert (2 * m) / 2 == m && (2 * m) % 2 == 0;
      }
    }
  }

  /** And-ing with `k` ones keeps the remainder. */
  lemma {:induction false} AndOnes(a: nat, k: nat)
    ensures BitAnd(a, Pow2(k) - 1) == a % Pow2(k)
  {
    if k > 0 {
      AndOnes(a / 2, k - 1);
      var p := Pow2(k - 1);
      var ones := Pow2(k) - 1;
      assert ones == 2 * (p - 1) + 1;
      assert ones / 2 == p - 1 && ones % 2 == 1;
      ModDouble(a, p);
      if a > 0 && ones > 0 {} else { assert a == 0; }
    }
  }

  lemma ModDouble(a: nat, p: nat)
    requires 0 < p
    ensures a % (2 * p) == 2 * ((a / 2) % p) + a % 2
  {
    var q, r := (a / 2) / p, (a / 2) % p;
    assert a / 2 == q * p + r;
    var rest := 2 * r + a % 2;
    assert a == 2 * (q * p + r) + a % 2;
    assert 2 * (q * p) == q * (2 * p);
    assert a == q * (2 * p) + rest && 0 <= rest < 2 * p;
    RemainderUnique(a, 2 * p, q, rest);
  }

  lemma RemainderUnique(a: nat, d: nat, q: nat, r: nat)
    requires 0 < d && a == q * d + r && r < d
    ensures a / d == q && a % d == r
  {
    var q', r' := a / d, a % d;
    assert a == d * q' + r';
    assert (q - q') * d == r' - r;
    SmallMultiple(q - q', d);
  }

  lemma MultipleGrows(k: nat, d: nat)
    requires 0 < k
    ensures d <= k * d
  {
    assert k * d == (k - 1) * d + d;
  }

  lemma NegativeMultiple(k: int, d: nat)
    requires k < 0
    ensures k * d <= 0 - d
  {
    MultipleGrows(-k, d);
    assert (-k) * d == -(k * d);
  }

  lemma SmallMultiple(k: int, d: nat)
    requires 0 - d < k * d && k * d < d
    ensures k == 0
  {
    if 0 < k { MultipleGrows(k, d); }
    if k < 0 { NegativeMultiple(k, d); }
  }
}
