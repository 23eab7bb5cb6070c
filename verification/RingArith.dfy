/** Positions in a ring buffer: unbounded positions and the slots they fall on. */
module RingArith {

  lemma MulAtLeast(a: int, d: int)
    requires d > 0
    ensures a >= 1 ==> a * d >= d
  {
  }

  lemma DivModUnique(x: int, d: int, q: int, r: int)
    requires d > 0 && 0 <= r < d && x == q * d + r
    ensures x / d == q && x % d == r
  {
    var gap := x / d - q;
    assert x == (x / d) * d + x % d;
    assert gap * d == (x / d) * d - q * d;
    MulAtLeast(gap, d);
    MulAtLeast(-gap, d);
  }

  /** Adding after wrapping is adding before wrapping. */
  lemma AddWrapped(a: int, b: int, m: int)
    requires m > 0
    ensures (a % m + b) % m == (a + b) % m
  {
    var x, y := a / m, (a % m + b) / m;
    assert a == x * m + a % m;
    assert a % m + b == y * m + (a % m + b) % m;
    assert a + b == (x + y) * m + (a % m + b) % m;
    DivModUnique(a + b, m, x + y, (a % m + b) % m);
  }

  /** Positions less than a whole turn apart fall on different slots. */
  lemma SlotsDiffer(a: int, b: int, m: int)
    requires m > 0 && a < b < a + m
    ensures a % m != b % m
  {
    var x, y := a / m, b / m;
    assert a == x * m + a % m && b == y * m + b % m;
    if a % m == b % m {
      assert b - a == (y - x) * m;
      MulAtLeast(y - x, m);
      MulAtLeast(x - y, m);
      assert false;
    }
  }

  lemma SmallMod(a: int, m: int)
    requires m > 0
    ensures 0 <= a < m ==> a % m == a
    ensures m <= a < 2 * m ==> a % m == a - m
    ensures -m <= a < 0 ==> a % m == a + m
  {
    if 0 <= a < m {
      DivModUnique(a, m, 0, a);
    } else if m <= a < 2 * m {
      DivModUnique(a, m, 1, a - m);
    } else if -m <= a < 0 {
      DivModUnique(a, m, -1, a + m);
    }
  }

  lemma SlotOffset(a: int, p: int, pos: int, m: int)
    requires m > 0 && p % m == pos % m
    ensures (a % m - p) % m == (a - pos) % m
  {
    var x, y, z := a / m, p / m, pos / m;
    assert a == x * m + a % m && p == y * m + p % m && pos == z * m + pos % m;
    var d := a - pos;
    assert a % m - p == d + (z - x - y) * m;
    DivModUnique(a % m - p, m, d / m + (z - x - y), d % m);
  }

  /** The distance between two positions can be read off their slots. */
  lemma SlotDistance(a: int, b: int, m: int)
    requires m > 0 && a <= b < a + m
    ensures b % m - a % m == if a % m <= b % m then b - a else b - a - m
  {
    var d := b - a;
    AddWrapped(a, d, m);
    var s := a % m + d;
    SmallMod(s, m);
  }

  /** Half, rounded up. */
  function HalfUp(n: nat): (h: nat)
    ensures n <= 2 * h <= n + 1
  {
    n / 2 + n % 2
  }

  /** C's remainder, whose sign is the dividend's. */
  function CRem(a: int, m: int): int
    requires m > 0
  {
    if a >= 0 then a % m else -((-a) % m)
  }
}
