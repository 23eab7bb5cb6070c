/** The steal-half series: how the tasks published in one steal word are cut into blocks.

    Successive thieves take half of what is left (rounded down), the last one takes the
    single remaining task.  Every party replays the same series from the task count alone,
    so the series is what makes a bare attempt counter enough to name a block. */
module StealSeries {
  import opened RingArith

  /** Number of tasks a thief takes when `left` tasks are unclaimed. */
  function Volume(left: nat): (v: nat)
    ensures v <= left
    ensures left > 0 ==> v > 0
  {
    if left != 1 then left / 2 else 1
  }

  /** Tasks left of `n` after `k` steals. */
  function Left(n: nat, k: nat): (l: nat)
    ensures l <= n
  {
    if k == 0 then n else Left(n, k - 1) - Volume(Left(n, k - 1))
  }

  /** Tasks taken by the first `k` steals, that is, the offset of the block of steal `k`. */
  function Offset(n: nat, k: nat): (o: nat)
    ensures o <= n
  {
    n - Left(n, k)
  }

  /** Number of tasks in the block of steal `k`. */
  function BlockSize(n: nat, k: nat): nat {
    Volume(Left(n, k))
  }

  /** Number of steals that exhaust `n` tasks. */
  function MaxSteals(n: nat): nat
    decreases n
  {
    if n == 0 then 0 else 1 + MaxSteals(n - Volume(n))
  }

  function Pow2(k: nat): (p: nat)
    ensures p > 0
  {
    if k == 0 then 1 else 2 * Pow2(k - 1)
  }

  function CeilDiv(n: nat, d: nat): nat
    requires d > 0
  {
    (n + d - 1) / d
  }

  // ---------------------------------------------------------------- shape of the series

  /** Unrolling the series at its front instead of its back. */
  lemma {:induction false} LeftFront(n: nat, k: nat)
    ensures Left(n, k + 1) == Left(n - Volume(n), k)
  {
    if k > 0 {
      LeftFront(n, k - 1);
    }
  }

  /** The series runs out at `MaxSteals(n)`, and not before. */
  lemma {:induction false} LeftPositive(n: nat, k: nat)
    ensures Left(n, k) > 0 <==> k < MaxSteals(n)
    ensures k == MaxSteals(n) ==> Left(n, k) == 0
    decreases n, k
  {
    if n == 0 {
      if k > 0 {
        LeftPositive(0, k - 1);
      }
    } else if k > 0 {
      LeftFront(n, k - 1);
      LeftPositive(n - Volume(n), k - 1);
    }
  }

  lemma {:induction false} LeftMonotone(n: nat, j: nat, k: nat)
    requires j <= k
    ensures Left(n, k) <= Left(n, j)
    decreases k
  {
    if j < k {
      LeftMonotone(n, j, k - 1);
    }
  }

  /** One step of the offsets: block `k` starts where block `k - 1` ended. */
  lemma OffsetStep(n: nat, k: nat)
    ensures Offset(n, k + 1) == Offset(n, k) + BlockSize(n, k)
  {
  }

  lemma OffsetMonotone(n: nat, j: nat, k: nat)
    requires j <= k
    ensures Offset(n, j) <= Offset(n, k)
  {
    LeftMonotone(n, j, k);
  }

  /** Every claimable block is nonempty and lies inside the published tasks. */
  lemma BlockInside(n: nat, k: nat)
    requires k < MaxSteals(n)
    ensures BlockSize(n, k) > 0
    ensures Offset(n, k) + BlockSize(n, k) <= n
  {
    LeftPositive(n, k);
  }

  lemma OffsetZero(n: nat)
    ensures Offset(n, 0) == 0
  {
  }

  lemma NoSteals()
    ensures MaxSteals(0) == 0
  {
  }

  /** Two different steals of the same word take disjoint blocks. */
  lemma BlocksDisjoint(n: nat, j: nat, k: nat)
    requires j < k
    ensures Offset(n, j) + BlockSize(n, j) <= Offset(n, k)
  {
    OffsetMonotone(n, j + 1, k);
  }

  /** The steal that takes task `i` of `n`. */
  function TakerOf(n: nat, i: nat, k: nat): (t: nat)
    requires Offset(n, k) <= i < n
    decreases MaxSteals(n) - k
  {
    LeftPositive(n, k);
    if i < Offset(n, k) + BlockSize(n, k) then k else TakerOf(n, i, k + 1)
  }

  lemma {:induction false} TakerOfOwns(n: nat, i: nat, k: nat)
    requires Offset(n, k) <= i < n
    ensures var t := TakerOf(n, i, k);
            t < MaxSteals(n) && Offset(n, t) <= i < Offset(n, t) + BlockSize(n, t)
    decreases MaxSteals(n) - k
  {
    LeftPositive(n, k);
    if i >= Offset(n, k) + BlockSize(n, k) {
      TakerOfOwns(n, i, k + 1);
    }
  }

  /** Task `i` of the `n` published ones belongs to the block of steal `k`. */
  predicate Takes(n: nat, k: nat, i: nat) {
    Offset(n, k) <= i < Offset(n, k) + BlockSize(n, k)
  }

  /** The blocks partition the published tasks: each task has exactly one taker. */
  lemma SeriesPartitions(n: nat, i: nat)
    requires i < n
    ensures exists k: nat :: k < MaxSteals(n) && Takes(n, k, i) && (forall j: nat | Takes(n, j, i) :: j == k)
  {
    TakerOfOwns(n, i, 0);
    var k := TakerOf(n, i, 0);
    assert Takes(n, k, i);
    forall j: nat | Takes(n, j, i)
      ensures j == k
    {
      if j < k {
        BlocksDisjoint(n, j, k);
      } else if k < j {
        BlocksDisjoint(n, k, j);
      }
    }
  }

  // ---------------------------------------------------------------- closed forms

  lemma CeilDivBounds(n: nat, d: nat)
    requires d > 0
    ensures 0 <= CeilDiv(n, d) * d - n < d
  {
    var m := n + d - 1;
    assert m == d * (m / d) + m % d;
  }

  lemma CeilDivUnique(n: nat, d: nat, q: nat)
    requires d > 0 && 0 <= q * d - n < d
    ensures CeilDiv(n, d) == q
  {
    DivModUnique(n + d - 1, d, q, n + d - 1 - q * d);
  }

  lemma HalveCeil(n: nat, p: nat)
    requires p > 0
    ensures CeilDiv(CeilDiv(n, p), 2) == CeilDiv(n, 2 * p)
  {
    hide CeilDiv;
    var q := CeilDiv(n, p);
    var h := CeilDiv(q, 2);
    CeilDivBounds(n, p);
    CeilDivBounds(q, 2);
    assert h * (2 * p) == (2 * h) * p;
    if 2 * h == q + 1 {
      assert (q + 1) * p == q * p + p;
    }
    CeilDivUnique(n, 2 * p, h);
  }

  /** After `k` steals, `ceil(n / 2^k)` tasks are left, as long as any are. */
  lemma {:induction false} LeftIsCeil(n: nat, k: nat)
    requires k < MaxSteals(n)
    ensures Left(n, k) == CeilDiv(n, Pow2(k))
  {
    if k > 0 {
      LeftPositive(n, k);
      LeftPositive(n, k - 1);
      LeftIsCeil(n, k - 1);
      var l := Left(n, k - 1);
      assert l >= 2;
      assert Left(n, k) == l - l / 2 == CeilDiv(l, 2);
      HalveCeil(n, Pow2(k - 1));
    }
  }

  /** The number of steals is `ceil(log2 n) + 1`: the least power of two reaching `n`
      is `Pow2(MaxSteals(n) - 1)`. */
  lemma {:induction false} MaxStealsIsLog(n: nat)
    requires n >= 1
    ensures MaxSteals(n) >= 1
    ensures n <= Pow2(MaxSteals(n) - 1)
    ensures n >= 2 ==> MaxSteals(n) >= 2 && Pow2(MaxSteals(n) - 2) < n
  {
    if n > 1 {
      MaxStealsIsLog(n - n / 2);
    }
  }

  /** The bound is exact: `MaxSteals(n)` is the only count with that logarithm. */
  lemma {:induction false} MaxStealsUnique(n: nat, m: nat)
    requires n >= 2 && m >= 2
    requires Pow2(m - 2) < n <= Pow2(m - 1)
    ensures MaxSteals(n) == m
  {
    MaxStealsIsLog(n);
    if m < MaxSteals(n) {
      Pow2Monotone(m - 1, MaxSteals(n) - 2);
    } else if MaxSteals(n) < m {
      Pow2Monotone(MaxSteals(n) - 1, m - 2);
    }
  }

  lemma {:induction false} Pow2Monotone(j: nat, k: nat)
    requires j <= k
    ensures Pow2(j) <= Pow2(k)
    decreases k
  {
    if j < k {
      Pow2Monotone(j, k - 1);
    }
  }

  const STATUS_SLOTS: nat := 22

  lemma {:induction false} MaxStealsBelow(n: nat, b: nat)
    requires n <= Pow2(b)
    ensures MaxSteals(n) <= b + 1
    decreases b
  {
    if b > 0 && n > 1 {
      MaxStealsBelow(n - n / 2, b - 1);
    } else if n == 1 {
      assert MaxSteals(1) == 1 + MaxSteals(0);
    }
  }

  /** A 19-bit task count needs at most 20 steals, so every index fits the status array. */
  lemma MaxStealsFits(n: nat)
    requires n < 0x8_0000
    ensures MaxSteals(n) <= 20 < STATUS_SLOTS
  {
    assert Pow2(19) == 0x8_0000 by {
      assert Pow2(10) == 1024;
      assert Pow2(15) == 32768;
    }
    MaxStealsBelow(n, 19);
  }

  // ---------------------------------------------------------------- how large blocks get

  /** The largest block a ring of `max` slots ever hands out: the first of a release of half of them. */
  function LargestBlock(max: nat): nat {
    Volume(HalfUp(max))
  }

  lemma BlockBelow(n: nat, k: nat, max: nat)
    requires n <= HalfUp(max)
    ensures BlockSize(n, k) <= LargestBlock(max)
  {
    hide Left;
  }

  /** It always fits half the ring. */
  lemma LargestBlockFitsHalf(max: nat)
    requires max >= 2
    ensures 0 < LargestBlock(max) <= max / 2
  {
  }

  // ---------------------------------------------------------------- the loops of the code

  /** The counting loop run when a word is published and when it is read by a thief. */
  method CountSteals(itasks: nat) returns (cnt: nat)
    ensures cnt == MaxSteals(itasks)
  {
    cnt := 0;
    var curr, total := itasks, 0;
    while total != itasks
      invariant curr == itasks - total == Left(itasks, cnt)
      invariant cnt + MaxSteals(curr) == MaxSteals(itasks)
      decreases itasks - total
    {
      curr := if curr != 1 then curr / 2 else 1;
      total := total + curr;
      curr := itasks - total;
      cnt := cnt + 1;
    }
  }

  /** The replay loop of a thief and of the reacquiring owner: what `asteals` attempts took. */
  method ReplaySteals(itasks: nat, asteals: nat) returns (stolen: nat, tasksLeft: nat)
    ensures tasksLeft == Left(itasks, asteals)
    ensures stolen == Offset(itasks, asteals)
  {
    stolen, tasksLeft := 0, itasks;
    var a := asteals;
    while a > 0
      invariant 0 <= a <= asteals
      invariant tasksLeft == Left(itasks, asteals - a)
      invariant stolen == itasks - tasksLeft
    {
      tasksLeft := if tasksLeft != 1 then tasksLeft / 2 else 1;
      stolen := stolen + tasksLeft;
      tasksLeft := itasks - stolen;
      a := a - 1;
    }
  }
}
