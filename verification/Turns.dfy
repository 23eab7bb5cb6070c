/** What the other participants do in the gaps of an operation: a list of steps for each gap. */
module Turns {

  /** The steps taken in gap `k`; none once the lists run out. */
  function Turn<A>(turns: seq<seq<A>>, k: nat): (turn: seq<A>)
    ensures k < |turns| ==> turn == turns[k]
  {
    if k < |turns| then turns[k] else []
  }
}
