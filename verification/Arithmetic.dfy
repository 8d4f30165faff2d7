/** The minimum of two counts, and facts about remainders and halves. */
module Arithmetic {

  function Min(a: nat, b: nat): nat {
    if a < b then a else b
  }

  lemma {:induction false} MultipleGrows(n: int, d: int)
    requires n > 0
    ensures d >= 1 ==> n * d >= n
    ensures d <= -1 ==> n * d <= -n
  {
    if d >= 1 {
      assert n * (d - 1) >= 0;
    } else if d <= -1 {
      assert n * (-1 - d) >= 0;
    }
  }

  lemma {:induction false} ModUnique(a: nat, n: nat, b: nat, r: nat)
    requires n > 0 && r < n && a == n * b + r
    ensures a % n == r
  {
    var q, t := a / n, a % n;
    assert a == n * q + t;
    assert n * (q - b) == n * q - n * b;
    MultipleGrows(n, q - b);
  }

  lemma {:induction false} ModWrap(x: nat, n: nat)
    requires n > 0 && x < n + n
    ensures x % n == (if x < n then x else x - n)
  {
    if x < n {
      ModUnique(x, n, 0, x);
    } else {
      ModUnique(x, n, 1, x - n);
    }
  }

  lemma {:induction false} Halves(m: nat)
    ensures (2 * m) / 2 == m && (2 * m) % 2 == 0
    ensures (2 * m + 1) / 2 == m && (2 * m + 1) % 2 == 1
  {
  }

  /** r is what remains of x after taking away as many m as possible. */
  ghost predicate Remains(x: nat, m: nat, r: nat) {
    r < m && exists k: nat :: x == k * m + r
  }

  lemma {:induction false} Commute(a: int, b: int)
    ensures a * b == b * a
  {
  }

  lemma {:induction false} ModRemains(x: nat, m: nat)
    requires m > 0
    ensures Remains(x, m, x % m)
  {
    Commute(x / m, m);
    assert x == (x / m) * m + x % m;
  }
}
