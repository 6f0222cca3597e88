/** Products, quotients and remainders by a variable. */
module Arith {

  lemma MulMono(a: int, b: int, n: nat)
    requires a <= b
    ensures a * n <= b * n
  {
  }

  lemma QuotientAtLeast(a: nat, s: nat, k: nat)
    requires s > 0 && k * s <= a
    ensures a / s >= k
  {
    var q := a / s;
    assert a < q * s + s;
    if q + 1 <= k {
      MulMono(q + 1, k, s);
    }
  }

  lemma QuotientBelow(a: int, n: nat, r: int)
    requires n > 0
    ensures a / n < r <==> a < r * n
  {
    var q := a / n;
    assert q * n <= a < q * n + n;
    if q + 1 <= r {
      MulMono(q + 1, r, n);
    } else {
      MulMono(r, q, n);
    }
  }

  /** The index, in a ring of n, of byte number o of a stream. It is the remainder of o by n, as
      PosIsRemainder says. */
  function Pos(n: int, o: nat): (r: int)
    requires n > 0
    ensures 0 <= r < n
    decreases o
  {
    if o < n then o else Pos(n, o - n)
  }

  lemma {:induction false} PosIsRemainder(n: int, o: nat)
    requires n > 0
    ensures Pos(n, o) == o % n
    decreases o
  {
    if o >= n {
      PosIsRemainder(n, o - n);
      ModIs(o, n, (o - n) / n + 1, (o - n) % n);
    }
  }

  lemma ModIs(a: nat, n: nat, q: int, r: int)
    requires n > 0 && a == q * n + r && 0 <= r < n
    ensures a % n == r
  {
    var p := a / n;
    assert p * n <= a < p * n + n;
    if p + 1 <= q {
      MulMono(p + 1, q, n);
    } else if q + 1 <= p {
      MulMono(q + 1, p, n);
    }
  }
}
