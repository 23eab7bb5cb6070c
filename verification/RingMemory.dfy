/** Writing to and reading from the buffer of a ring, in place, in at most two pieces. */
module RingMemory {
  import opened RingArith
  import opened RingSlots
  import opened TaskQueue

  /** `memcpy` of all of `es` to the slots from `at` on. */
  method CopyIn(q: array<Task>, at: nat, es: seq<Task>)
    requires at + |es| <= q.Length
    modifies q
    ensures q[..] == old(q[..at]) + es + old(q[at + |es|..])
  {
    var i := 0;
    while i < |es|
      invariant 0 <= i <= |es|
      invariant q[..at] == old(q[..at]) && q[at..at + i] == es[..i] && q[at + i..] == old(q[at + i..])
    {
      q[at + i] := es[i];
      i := i + 1;
    }
  }

  /** The two cases of `push_n_head`: `oldHead` and `head` are the slots of the last local task
      before and after `es` is added. */
  method CopyAtHead(q: array<Task>, oldHead: int, head: int, es: seq<Task>)
    requires 0 < |es| <= q.Length && -1 <= oldHead < q.Length
    requires head == CRem(oldHead + |es|, q.Length)
    modifies q
    ensures q[..] == Written(old(q[..]), oldHead + 1, es)
  {
    var max := q.Length;
    ghost var was := q[..];
    HeadMoves(oldHead, |es|, max);
    if head > oldHead || oldHead == max - 1 {
      CopyIn(q, (oldHead + 1) % max, es);
      OnePiece(was, (oldHead + 1) % max, es);
      SmallMod((oldHead + 1) % max, max);
      SamePosition(was, (oldHead + 1) % max, oldHead + 1, es);
    } else {
      var part := max - 1 - oldHead;
      CopyIn(q, oldHead + 1, es[..part]);
      CopyIn(q, 0, es[part..]);
      TwoPieces(was, oldHead + 1, es, part);
      hide Written;
    }
  }

  /** Writing `es` behind the `nlocal` tasks from slot `split` on. */
  method PushBlock(q: array<Task>, split: nat, nlocal: nat, es: seq<Task>)
    requires 0 < |es| <= q.Length
    modifies q
    ensures q[..] == Written(old(q[..]), split + nlocal, es)
  {
    ghost var was := q[..];
    HeadBefore(split + nlocal, |es|, q.Length);
    var oldHead := CRem(split + nlocal - 1, q.Length);
    var head := CRem(split + (nlocal + |es|) - 1, q.Length);
    hide CRem, Written;
    CopyAtHead(q, oldHead, head, es);
    SamePosition(was, oldHead + 1, split + nlocal, es);
  }

  lemma HeadMoves(oldHead: int, n: nat, max: nat)
    requires 0 < n <= max && -1 <= oldHead < max
    ensures var head := CRem(oldHead + n, max);
            && (oldHead + 1) % max == (if oldHead == max - 1 then 0 else oldHead + 1)
            && (head > oldHead || oldHead == max - 1 ==> (oldHead + 1) % max + n <= max)
            && (!(head > oldHead || oldHead == max - 1) ==>
              0 <= max - 1 - oldHead <= n && n - (max - 1 - oldHead) <= oldHead + 1)
  {
    SmallMod(oldHead + n, max);
    SmallMod(oldHead + 1, max);
  }

  /** The head of a ring whose local part ends before position `p`, in C's arithmetic. */
  lemma HeadBefore(p: nat, n: nat, max: nat)
    requires 0 < n <= max
    ensures var h := CRem(p - 1, max);
            && -1 <= h < max && CRem(p + n - 1, max) == CRem(h + n, max) && (h + 1) % max == p % max
  {
    if p == 0 {
      SmallMod(1, max);
      SmallMod(0, max);
      if max == 1 {
        assert 1 % 1 == 0;
      }
    } else {
      AddWrapped(p - 1, n, max);
      AddWrapped(p - 1, 1, max);
    }
  }

  lemma OnePiece(q: seq<Task>, at: nat, es: seq<Task>)
    requires 0 < |q| && at + |es| <= |q|
    ensures Written(q, at, es) == q[..at] + es + q[at + |es|..]
  {
    var w := q[..at] + es + q[at + |es|..];
    forall j | 0 <= j < |q|
      ensures Written(q, at, es)[j] == w[j]
    {
      SmallMod(j - at, |q|);
    }
  }

  /** Only the slot a write starts at matters, not the position. */
  lemma SamePosition(q: seq<Task>, p: nat, p': nat, es: seq<Task>)
    requires 0 < |q| && p % |q| == p' % |q|
    ensures Written(q, p, es) == Written(q, p', es)
  {
    forall j: int | 0 <= j < |q|
      ensures Written(q, p, es)[j] == Written(q, p', es)[j]
    {
      SlotOffset(j, p, p', |q|);
      SmallMod(j, |q|);
    }
  }

  lemma TwoPieces(q: seq<Task>, at: nat, es: seq<Task>, part: nat)
    requires 0 < |q| && at + part == |q| && part <= |es| && |es| - part <= at
    ensures Written(q, at, es) == es[part..] + q[|es| - part..at] + es[..part]
  {
    var w := es[part..] + q[|es| - part..at] + es[..part];
    forall j | 0 <= j < |q|
      ensures Written(q, at, es)[j] == w[j]
    {
      SmallMod(j - at, |q|);
    }
  }
}
