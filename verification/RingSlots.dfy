/** The slots of a ring buffer: what a run of positions holds, and what writing to it changes. */
module RingSlots {
  import opened RingArith
  import opened TaskQueue

  /** The `n` tasks from unwrapped position `from` on. */
  function Slots(q: seq<Task>, from: nat, n: nat): (r: seq<Task>)
    requires |q| > 0
    ensures |r| == n
  {
    seq(n, i requires 0 <= i < n => q[(from + i) % |q|])
  }

  /** The ring after `es` is written at unwrapped position `pos`. */
  function Written(q: seq<Task>, pos: nat, es: seq<Task>): (r: seq<Task>)
    requires |q| > 0
    ensures |r| == |q|
  {
    seq(|q|, j requires 0 <= j < |q| => var d := (j - pos) % |q|; if d < |es| then es[d] else q[j])
  }

  /** The split point moved back by `amount` slots. */
  function Retreat(split: nat, amount: nat, max: nat): nat {
    if amount <= split then split - amount
    else if amount <= split + max then split + max - amount
    else 0
  }

  /** Slot of the `i`-th task of a block of `ntasks` that starts `start` slots after slot 0: the
      three cases of the thief's copy. */
  function CopySlot(max: nat, start: nat, ntasks: nat, i: nat): (r: nat)
    requires i < ntasks <= max && start + ntasks <= 2 * max
    ensures r < max
  {
    if start + ntasks < max then start + i
    else
      var part := max - start;
      if part > 0 then (if i < part then start + i else i - part)
      else -part + i
  }

  /** What position `a` holds after `es` is written from position `pos` on. */
  lemma WrittenAt(q: seq<Task>, p: nat, pos: nat, es: seq<Task>, a: nat)
    requires |q| > 0 && p % |q| == pos % |q| && |es| <= |q|
    requires pos + |es| <= a + |q| && a < pos + |es|
    ensures Written(q, p, es)[a % |q|] == if a < pos then q[a % |q|] else es[a - pos]
  {
    var m := |q|;
    var j, d := a % m, a - pos;
    SlotOffset(a, p, pos, m);
    SmallMod(d, m);
    assert (j - p) % m == if a < pos then d + m else d;
  }

  /** Writing `es` at position `pos` leaves what lies before it, less than a turn back. */
  lemma WrittenKeeps(q: seq<Task>, p: nat, pos: nat, es: seq<Task>, from: nat, n: nat)
    requires |q| > 0 && p % |q| == pos % |q| && |es| <= |q|
    requires from + n <= pos && pos + |es| <= from + |q|
    ensures Slots(Written(q, p, es), from, n) == Slots(q, from, n)
  {
    var w := Slots(Written(q, p, es), from, n);
    forall i | 0 <= i < n
      ensures w[i] == Slots(q, from, n)[i]
    {
      WrittenAt(q, p, pos, es, from + i);
    }
    hide Written;
  }

  lemma WrittenHolds(q: seq<Task>, p: nat, pos: nat, es: seq<Task>)
    requires |q| > 0 && p % |q| == pos % |q| && |es| <= |q|
    ensures Slots(Written(q, p, es), pos, |es|) == es
  {
    var w := Slots(Written(q, p, es), pos, |es|);
    forall i | 0 <= i < |es|
      ensures w[i] == es[i]
    {
      WrittenAt(q, p, pos, es, pos + i);
    }
    hide Written;
  }

  lemma CopySlotIsWrapped(max: nat, start: nat, n: nat, i: nat)
    requires 0 < max && i < n <= max && start + n <= 2 * max
    ensures CopySlot(max, start, n, i) == (start + i) % max
  {
    SmallMod(start + i, max);
  }

  lemma SlotsSplit(q: seq<Task>, from: nat, m: nat, n: nat)
    requires |q| > 0
    ensures Slots(q, from, m + n) == Slots(q, from, m) + Slots(q, from + m, n)
  {
    var a, b := Slots(q, from, m + n), Slots(q, from, m) + Slots(q, from + m, n);
    forall i | 0 <= i < m + n
      ensures a[i] == b[i]
    {
      if i >= m {
        assert b[i] == q[(from + m + (i - m)) % |q|];
      }
    }
  }

  lemma PushSlots(q: seq<Task>, p: nat, f: nat, t: nat, es: seq<Task>)
    requires |q| > 0 && f <= t && p % |q| == t % |q| && |es| <= |q| && t + |es| <= f + |q|
    ensures Slots(Written(q, p, es), f, t + |es| - f) == Slots(q, f, t - f) + es
  {
    WrittenKeeps(q, p, t, es, f, t - f);
    WrittenHolds(q, p, t, es);
    SlotsSplit(Written(q, p, es), f, t - f, |es|);
    hide Written, Slots;
  }
}
