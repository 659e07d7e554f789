/** Cursors that count modulo 2^64 and index a power-of-two ring. */
module Wrapping {
  import opened Words

  /** A 64-bit counter that has been advanced `x` times from 0. */
  function Wrap(x: nat): (w: nat)
    ensures w <= MAX64
  {
    x % (MAX64 + 1)
  }

  /** Unsigned 64-bit subtraction. */
  function Minus(a: nat, b: nat): nat
    requires a <= MAX64 && b <= MAX64
  {
    if a >= b then a - b else a + (MAX64 + 1) - b
  }

  lemma ModUnique(a: nat, m: nat, q: nat, r: nat)
    requires m > 0 && a == q * m + r && r < m
    ensures a % m == r && a / m == q
  {
    var q2, r2 := a / m, a % m;
    assert a == q2 * m + r2;
    NextMultiple(q2, q, m);
    NextMultiple(q, q2, m);
  }

  lemma NextMultiple(a: nat, b: nat, m: nat)
    ensures a < b ==> a * m + m <= b * m
  {
    if a < b {
      assert (a + 1) * m == a * m + m;
      assert b * m == (a + 1) * m + (b - a - 1) * m;
    }
  }

  lemma MinusMod(a: nat, b: nat, m: nat)
    requires m > 0 && b <= a < b + m
    ensures var x, y := a % m, b % m; a - b == if x >= y then x - y else x + m - y
    ensures (a % m == b % m) <==> a == b
  {
    var x := ShiftedMod(a, b, b / m, b % m, m);
  }

  /** The remainder of a number less than a lap above `b`. */
  lemma ShiftedMod(a: nat, b: nat, q: nat, y: nat, m: nat) returns (x: nat)
    requires m > 0 && b <= a < b + m && b == q * m + y && y < m
    ensures x == a % m && x == if a - b + y < m then a - b + y else a - b + y - m
  {
    if a - b + y < m {
      x := a - b + y;
      ModUnique(a, m, q, x);
    } else {
      x := a - b + y - m;
      assert (q + 1) * m == q * m + m;
      ModUnique(a, m, q + 1, x);
    }
  }

  /** Within one lap the distance of two cursors survives the wrap, and so does their equality. */
  lemma WrapDistance(a: nat, b: nat)
    requires b <= a <= b + MAX64
    ensures Minus(Wrap(a), Wrap(b)) == a - b
    ensures Wrap(a) == Wrap(b) <==> a == b
  {
    MinusMod(a, b, MAX64 + 1);
  }

  lemma FactorOut(q: nat, k: nat, s: nat, c: nat)
    ensures q * (k * c) + s * c == (q * k + s) * c
  {
    assert q * (k * c) == (q * k) * c;
  }

  lemma ModOfMod(a: nat, m: nat, c: nat, k: nat)
    requires c > 0 && m == k * c && m > 0
    ensures (a % m) % c == a % c
  {
    var q, r := a / m, a % m;
    assert a == q * m + r;
    var s, t := r / c, r % c;
    assert r == s * c + t;
    FactorOut(q, k, s, c);
    ModUnique(a, c, q * k + s, t);
  }

  /** A power of two up to 2^63 divides 2^64. */
  lemma {:induction false} Divides(c: nat, n: nat, m: nat) returns (k: nat)
    requires PowerOfTwo(c) && c <= Power(n) == m
    ensures m == k * c
    decreases n
  {
    if c == 1 {
      k := m;
    } else {
      var half := Divides(c / 2, n - 1, Power(n - 1));
      k := half;
      assert m == 2 * (half * (c / 2)) == half * c;
    }
  }

  function Power(n: nat): nat { if n == 0 then 1 else 2 * Power(n - 1) }

  lemma Power64()
    ensures Power(64) == MAX64 + 1
  {
    assert Power(8) == 256;
    assert Power(16) == 65536;
    assert Power(24) == 0x100_0000;
    assert Power(32) == 0x1_0000_0000;
    assert Power(40) == 0x100_0000_0000;
    assert Power(48) == 0x1_0000_0000_0000;
    assert Power(56) == 0x100_0000_0000_0000;
  }

  /** Masking a wrapped cursor gives the slot of the unbounded one. */
  lemma WrapIndex(x: nat, capacity: nat)
    requires PowerOfTwo(capacity) && 0 < capacity <= MAX64
    ensures Wrap(x) % capacity == x % capacity
  {
    Power64();
    var k := Divides(capacity, 64, MAX64 + 1);
    ModOfMod(x, MAX64 + 1, capacity, k);
  }

  /** Two cursors less than a lap apart never share a slot. */
  lemma SlotsApart(a: nat, b: nat, capacity: nat)
    requires capacity > 0 && b < a < b + capacity
    ensures a % capacity != b % capacity
  {
    MinusMod(a, b, capacity);
  }

  lemma WrapNext(x: nat)
    ensures Wrap(Wrap(x) + 1) == Wrap(x + 1)
  {
    var m := MAX64 + 1;
    NextMod(x, m, x / m, x % m);
  }

  lemma NextMod(x: nat, m: nat, q: nat, y: nat)
    requires m > 1 && x == q * m + y && y < m
    ensures (y + 1) % m == (x + 1) % m
  {
    if y + 1 < m {
      ModUnique(x + 1, m, q, y + 1);
      ModUnique(y + 1, m, 0, y + 1);
    } else {
      assert (q + 1) * m == q * m + m;
      ModUnique(x + 1, m, q + 1, 0);
      ModUnique(y + 1, m, 1, 0);
    }
  }
}
