// Machine words as natural numbers: powers of two and the bitwise "and" that the
// ring buffer and the hash table use to bring a counter or a hash into range.
module Words {

  function Pow2(k: nat): (p: nat)
    ensures p > 0
  {
    if k == 0 then 1 else 2 * Pow2(k - 1)
  }

  // Bitwise "and", one bit at a time from the least significant end.
  function And(a: nat, b: nat): nat
    decreases a
  {
    if a == 0 || b == 0 then 0
    else (if a % 2 == 1 && b % 2 == 1 then 1 else 0) + 2 * And(a / 2, b / 2)
  }

  lemma SplitMod(x: nat, half: nat)
    requires half > 0
    ensures x % (2 * half) == x % 2 + 2 * ((x / 2) % half)
  {
    var q, r := x / 2 / half, (x / 2) % half;
    assert x / 2 == q * half + r;
    assert x == q * (2 * half) + (2 * r + x % 2) by {
      assert q * (2 * half) == 2 * (q * half);
    }
    ModOf(x, 2 * half, q, 2 * r + x % 2);
  }

  // A multiple of m other than zero is at least m away from zero.
  lemma MultipleFar(d: int, m: int)
    requires m > 0
    ensures d > 0 ==> d * m >= m
    ensures d < 0 ==> d * m <= -m
  {
  }

  lemma SameQuotient(m: int, q1: int, r1: int, q2: int, r2: int)
    requires m > 0 && 0 <= r1 < m && 0 <= r2 < m
    requires q1 * m + r1 == q2 * m + r2
    ensures q1 == q2 && r1 == r2
  {
    MultipleFar(q1 - q2, m);
    assert (q1 - q2) * m == q1 * m - q2 * m;
  }

  // The remainder of q * m + r is r when r is small enough.
  lemma ModOf(x: int, m: int, q: int, r: int)
    requires m > 0 && 0 <= r < m && x == q * m + r
    ensures x % m == r && x / m == q
  {
    SameQuotient(m, x / m, x % m, q, r);
  }

  // One bit of "and" against an odd mask.
  lemma AndOdd(x: nat, m: nat)
    ensures And(x, 2 * m + 1) == x % 2 + 2 * And(x / 2, m)
  {
    assert (2 * m + 1) / 2 == m && (2 * m + 1) % 2 == 1;
  }

  lemma AndHalf(x: nat, half: nat)
    requires half > 0 && And(x / 2, half - 1) == (x / 2) % half
    ensures And(x, 2 * half - 1) == x % (2 * half)
  {
    hide And;
    assert 2 * half - 1 == 2 * (half - 1) + 1;
    AndOdd(x, half - 1);
    SplitMod(x, half);
  }

  // Masking with a power of two less one is reduction modulo that power.
  lemma {:induction false} AndMask(x: nat, k: nat)
    ensures And(x, Pow2(k) - 1) == x % Pow2(k)
    decreases k
  {
    if k == 0 {
      assert Pow2(k) - 1 == 0;
    } else {
      AndMask(x / 2, k - 1);
      AndHalf(x, Pow2(k - 1));
    }
  }

  lemma Divided(x: int, m: int)
    requires m > 0
    ensures x == (x / m) * m + x % m
  {
  }

  lemma Regrouped(q: int, m: int, times: int, r: int)
    ensures q * (m * times) + r * m == (q * times + r) * m
  {
    assert q * (m * times) == (q * times) * m;
  }

  // Reducing modulo a multiple of m does not change the remainder modulo m.
  lemma ModMod(x: int, m: int, times: int)
    requires m > 0 && times > 0
    ensures m * times > 0 && (x % (m * times)) % m == x % m
  {
    var w := m * times;
    assert w > 0 by { assert m * times >= m; }
    var q, y := x / w, x % w;
    Divided(x, w);
    Divided(y, m);
    Regrouped(q, m, times, y / m);
    ModOf(x, m, q * times + y / m, y % m);
  }

  lemma {:induction false} Pow2Divides(k: nat, n: nat)
    requires k <= n
    ensures Pow2(n) == Pow2(k) * Pow2(n - k)
    decreases n
  {
    if k < n {
      Pow2Divides(k, n - 1);
      assert Pow2(k) * (2 * Pow2(n - 1 - k)) == 2 * (Pow2(k) * Pow2(n - 1 - k));
    }
  }

  // Two numbers that differ by less than m and agree modulo m are equal.
  lemma ModUnique(a: int, b: int, m: int)
    requires m > 0 && a % m == b % m && -m < a - b < m
    ensures a == b
  {
    MultipleFar(a / m - b / m, m);
    assert (a / m) * m - (b / m) * m == (a / m - b / m) * m;
  }

  // Stepping both sides keeps a congruence.
  lemma ModSucc(a: int, b: int, m: int)
    requires m > 0 && a % m == b % m
    ensures (a + 1) % m == (b + 1) % m
  {
    var r := b % m;
    assert a == (a / m) * m + r && b == (b / m) * m + r;
    if r + 1 < m {
      ModOf(a + 1, m, a / m, r + 1);
      ModOf(b + 1, m, b / m, r + 1);
    } else {
      assert a + 1 == (a / m + 1) * m && b + 1 == (b / m + 1) * m;
      ModOf(a + 1, m, a / m + 1, 0);
      ModOf(b + 1, m, b / m + 1, 0);
    }
  }
}
