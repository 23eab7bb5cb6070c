/** The invariant of the whole runtime: tasks are conserved, counters tell how many are alive, and
    whoever was inside a task at an evaluation of the root will not repeat its sample. */
module RuntimeInvariant {
  import opened TaskQueue
  import opened TerminationModel
  import opened TerminationInvariant
  import opened TerminationSteps
  import opened TerminationSafety
  import opened RuntimeModel

  predicate Steals(pes: seq<Mode>, t: nat, v: nat) {
    t < |pes| && pes[t] == Stealing(v)
  }

  ghost predicate FlightOk(q: Queue, pes: seq<Mode>, v: nat) {
    && (forall t: nat :: t in q.flight <==> Steals(pes, t, v))
    && (forall t: nat :: t in q.flight ==> q.flight[t] != [])
  }

  /** A thief is in the flight of a queue, with a block that is not empty, exactly while it is
      stealing from it. */
  ghost predicate Flights(s: System) {
    && (forall v: nat :: v < |s.queues| ==> FlightOk(s.queues[v], s.pes, v))
    && (forall i :: 0 <= i < |s.pes| ==> ModeOk(s.pes[i], |s.queues|))
  }

  /** Victims exist, and nobody holds an empty block. */
  predicate ModeOk(m: Mode, n: nat) {
    && (m.Stealing? ==> m.v < n)
    && (m.Holding? ==> m.es != [])
  }

  /** Elements leave the loop exactly when their vote has returned 1. */
  ghost predicate Leavers(s: System)
    requires SameSize(s)
  {
    forall i :: 0 <= i < |s.pes| ==> (s.pes[i].Done? <==> Detected(s.net, i))
  }

  /** What was added is executed or alive, and the counters, but for the tasks pushed and not yet
      counted, say how many are alive or dropped. */
  ghost predicate Conserved(s: System)
    requires SameSize(s)
  {
    && s.added == s.executed + Live(s)
    && Total(s.net.counters).spawned + Uncounted(s.pes) == Total(s.net.counters).completed + |Live(s)| + |s.dropped|
  }

  /** Element `j` was inside a task at evaluation `w`: it still is, or has completed it since. */
  ghost predicate Busy(s: System, j: nat, w: nat)
    requires SameSize(s) && j < |s.pes| && w < |s.net.evals| && |s.net.evals[w]| == |s.pes|
  {
    s.net.evals[w][j].completed < s.net.counters[j].completed + if InTask(s.pes[j]) then 1 else 0
  }

  /** ... and its next sample shows it. */
  ghost predicate BusyShows(s: System, j: nat, w: nat)
    requires SameSize(s) && j < |s.pes| && w < |s.net.evals| && |s.net.evals[w]| == |s.pes|
  {
    w + 1 < |s.net.samples[j]| ==> s.net.evals[w][j].completed < s.net.samples[j][w + 1].completed
  }

  /** An evaluation is described truthfully, and once nothing was alive nothing ever is again and
      nothing more is dropped. */
  ghost predicate MomentOk(s: System, w: nat)
    requires SameSize(s) && w < |s.net.evals| == |s.moments|
  {
    var c, m := s.net.evals[w], s.moments[w];
    && |c| == |s.pes|
    && (forall j :: j in m.busy ==> j < |s.pes| && Busy(s, j, w) && BusyShows(s, j, w))
    && (m.busy == {} ==> m.adding == 0)
    && Total(c).spawned + m.adding == Total(c).completed + m.live + m.dropped
    && (m.live == 0 ==> Live(s) == multiset{} && |s.dropped| == m.dropped)
  }

  ghost predicate Moments(s: System)
    requires SameSize(s)
  {
    && |s.moments| == |s.net.evals|
    && (forall w :: 0 <= w < |s.moments| ==> MomentOk(s, w))
    && Total(s.net.start).spawned == Total(s.net.start).completed + s.first.live + s.first.dropped
    && (s.first.live == 0 ==> Live(s) == multiset{} && |s.dropped| == s.first.dropped)
  }

  ghost predicate RInv(s: System) {
    && SameSize(s)
    && Inv(s.net)
    && Flights(s)
    && Leavers(s)
    && Conserved(s)
    && Moments(s)
  }

  lemma RInvParts(s: System)
    requires RInv(s)
    ensures SameSize(s) && Inv(s.net) && Flights(s) && Leavers(s) && Conserved(s) && Moments(s)
  {
    hide Inv, Flights, Leavers, Conserved, Moments;
  }

  lemma RInvWhole(s: System)
    requires SameSize(s) && Inv(s.net) && Flights(s) && Leavers(s) && Conserved(s) && Moments(s)
    ensures RInv(s)
  {
    hide Inv, Flights, Leavers, Conserved, Moments;
  }

  // ---------------------------------------------------------------- sums

  lemma Regroup(a: multiset<Task>, b: multiset<Task>, c: multiset<Task>, d: multiset<Task>, x: multiset<Task>)
    requires a + b == c + d
    ensures (a + x) + b == (c + x) + d
  {
    assert (a + x) + b == (a + b) + x;
  }

  lemma {:induction false} CarriedUpdate(pes: seq<Mode>, i: nat, m: Mode)
    requires i < |pes|
    ensures CarriedBy(pes[i := m]) + Carried(pes[i]) == CarriedBy(pes) + Carried(m)
    decreases |pes|
  {
    var z := |pes| - 1;
    hide Carried;
    if i == z {
      assert pes[i := m][..z] == pes[..z];
    } else {
      CarriedUpdate(pes[..z], i, m);
      assert pes[i := m][..z] == pes[..z][i := m];
      Regroup(CarriedBy(pes[..z][i := m]), Carried(pes[i]), CarriedBy(pes[..z]), Carried(m), Carried(pes[z]));
    }
  }

  lemma {:induction false} UncountedUpdate(pes: seq<Mode>, i: nat, m: Mode)
    requires i < |pes|
    ensures Uncounted(pes[i := m]) + (if pes[i].Adding? then 1 else 0) == Uncounted(pes) + (if m.Adding? then 1 else 0)
    decreases |pes|
  {
    var z := |pes| - 1;
    if i == z {
      assert pes[i := m][..z] == pes[..z];
    } else {
      UncountedUpdate(pes[..z], i, m);
      assert pes[i := m][..z] == pes[..z][i := m];
    }
  }

  lemma {:induction false} HeldUpdate(queues: seq<Queue>, n: nat, v: nat, q: Queue)
    requires v < |queues|
    ensures HeldIn(queues[v := q], n) + Held(queues[v], n) == HeldIn(queues, n) + Held(q, n)
    decreases |queues|
  {
    var z := |queues| - 1;
    hide Held;
    if v == z {
      assert queues[v := q][..z] == queues[..z];
    } else {
      HeldUpdate(queues[..z], n, v, q);
      assert queues[v := q][..z] == queues[..z][v := q];
      Regroup(HeldIn(queues[..z][v := q], n), Held(queues[v], n), HeldIn(queues[..z], n), Held(q, n),
        Held(queues[z], n));
    }
  }

  lemma {:induction false} TotalUpdate(cs: seq<Counters>, i: nat, spawned: nat, completed: nat)
    requires i < |cs|
    ensures Total(cs[i := Bump(cs[i], spawned, completed)])
         == Counters(Total(cs).spawned + spawned, Total(cs).completed + completed)
    decreases |cs|
  {
    var c, z := Bump(cs[i], spawned, completed), |cs| - 1;
    if i == z {
      assert cs[i := c][..z] == cs[..z];
    } else {
      TotalUpdate(cs[..z], i, spawned, completed);
      assert cs[i := c][..z] == cs[..z][i := c];
    }
  }

  lemma {:induction false} NobodyUncounted(pes: seq<Mode>)
    requires forall i :: 0 <= i < |pes| ==> !pes[i].Adding?
    ensures Uncounted(pes) == 0
    decreases |pes|
  {
    if pes != [] {
      NobodyUncounted(pes[..|pes| - 1]);
    }
  }

  lemma {:induction false} NothingCarried(pes: seq<Mode>)
    requires CarriedBy(pes) == multiset{}
    ensures forall i :: 0 <= i < |pes| ==> Carried(pes[i]) == multiset{}
    decreases |pes|
  {
    hide Carried;
    if pes != [] {
      NothingCarried(pes[..|pes| - 1]);
    }
  }

  lemma {:induction false} NothingHeld(queues: seq<Queue>, n: nat)
    requires HeldIn(queues, n) == multiset{}
    ensures forall v :: 0 <= v < |queues| ==> Held(queues[v], n) == multiset{}
    decreases |queues|
  {
    hide Held;
    if queues != [] {
      NothingHeld(queues[..|queues| - 1], n);
    }
  }
}
