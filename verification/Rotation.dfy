// Round-robin positions: which relay of a list of n a rotating cursor meets.
module Rotation {

  // The i-th position after a cursor that stands at `start`.
  function Slot(start: nat, i: nat, n: nat): (slot: nat)
    requires n > 0
    ensures slot < n
  {
    (start + i) % n
  }

  lemma Multiple(n: int, d: int)
    requires n > 0
    ensures d >= 1 ==> n * d >= n
    ensures d <= -1 ==> n * d <= -n
  {
    if d >= 1 {
      assert n * d == n + n * (d - 1);
      assert n * (d - 1) >= 0;
    } else if d <= -1 {
      assert n * d == -n + n * (d + 1);
      assert n * (-(d + 1)) >= 0;
    }
  }

  // The remainder of a division is unique.
  lemma Remainder(x: nat, n: nat, q: int, r: nat)
    requires n > 0 && x == n * q + r && r < n
    ensures x % n == r
  {
    var d := q - x / n;
    assert x == n * (x / n) + x % n;
    assert n * d == n * q - n * (x / n);
    Multiple(n, d);
  }

  // One step of the cursor moves to the next position.
  lemma SlotNext(start: nat, i: nat, n: nat)
    requires n > 0
    ensures Slot(start, i + 1, n) == if Slot(start, i, n) + 1 == n then 0 else Slot(start, i, n) + 1
  {
    var x := start + i;
    var q, r := x / n, x % n;
    assert x == n * q + r;
    if r + 1 == n {
      assert n * (q + 1) == n * q + n;
      Remainder(x + 1, n, q + 1, 0);
    } else {
      Remainder(x + 1, n, q, r + 1);
    }
  }

  lemma SlotWithin(start: nat, i: nat, n: nat)
    requires start + i < n
    ensures Slot(start, i, n) == start + i
  {
    Remainder(start + i, n, 0, start + i);
  }

  // n consecutive positions meet every relay.
  lemma {:induction false} SlotReached(start: nat, j: nat, n: nat) returns (i: nat)
    requires j < n
    ensures i < n && Slot(start, i, n) == j
  {
    var r := start % n;
    var q := start / n;
    assert start == n * q + r;
    if j >= r {
      i := j - r;
      Remainder(start + i, n, q, j);
    } else {
      i := j + n - r;
      assert n * (q + 1) == n * q + n;
      Remainder(start + i, n, q + 1, j);
    }
  }

  // How often m consecutive positions meet relay x.
  function Hits(start: nat, m: nat, n: nat, x: nat): nat
    requires n > 0
  {
    if m == 0 then 0 else Hits(start, m - 1, n, x) + if Slot(start, m - 1, n) == x then 1 else 0
  }

  // Distance from the next position to relay x, going round.
  function Ahead(slot: nat, n: nat, x: nat): nat
    requires slot < n && x < n
  {
    if x >= slot then x - slot else x + n - slot
  }

  // Going on to the next position: the distances shrink, and the relay just
  // met goes to the back.
  lemma AheadNext(start: nat, m: nat, n: nat, x: nat)
    requires x < n
    ensures var here, next := Slot(start, m, n), Slot(start, m + 1, n);
            Ahead(next, n, x) == if here == x then n - 1 else Ahead(here, n, x) - 1
  {
    SlotNext(start, m, n);
  }

  // Rounds completed on x: hits times n is the way gone, up to where x lies
  // ahead now and lay at the start.
  lemma {:induction false} HitsExact(start: nat, m: nat, n: nat, x: nat)
    requires x < n
    ensures Hits(start, m, n, x) * n + Ahead(Slot(start, 0, n), n, x) == m + Ahead(Slot(start, m, n), n, x)
  {
    if m > 0 {
      HitsExact(start, m - 1, n, x);
      AheadNext(start, m - 1, n, x);
      assert (Hits(start, m - 1, n, x) + 1) * n == Hits(start, m - 1, n, x) * n + n;
    }
  }

  // Fairness: m consecutive picks out of n choose each relay floor(m/n) or
  // ceil(m/n) times.
  lemma Fair(start: nat, m: nat, n: nat, x: nat)
    requires x < n
    ensures m / n <= Hits(start, m, n, x) <= (m + n - 1) / n
  {
    var h, a, b := Hits(start, m, n, x), Ahead(Slot(start, 0, n), n, x), Ahead(Slot(start, m, n), n, x);
    HitsExact(start, m, n, x);
    // h * n lies strictly within n of m
    Quotient(m, n, h);
  }

  lemma Quotient(m: nat, n: nat, h: nat)
    requires n > 0 && m - n < h * n < m + n
    ensures m / n <= h <= (m + n - 1) / n
  {
    var q := m / n;
    assert m == n * q + m % n;
    Multiple(n, h - q);
    assert n * (h - q) == h * n - n * q;
    var c := (m + n - 1) / n;
    assert m + n - 1 == n * c + (m + n - 1) % n;
    Multiple(n, c - h);
    assert n * (c - h) == n * c - h * n;
  }
}
