/** The invariant of the SAWS ring: how the word, both epoch records, `tail`, `split` and the
    outstanding claims hang together at every step. */
module SawsInvariant {
  import opened StealSeries
  import opened RingArith
  import opened TaskQueue
  import opened RingSlots
  import opened SawsModel

  /** Some thief still owes the completion of block `j` of record `e`. */
  ghost predicate Outstanding(claims: map<nat, Claim>, e: nat, j: nat) {
    exists t :: t in claims && claims[t].epoch == e && claims[t].index == j
  }

  ghost predicate Switched(s: State) {
    s.pc.Scanning? || s.pc.Republishing?
  }

  ghost predicate InReacquire(s: State) {
    s.pc.Waiting? || s.pc.Deciding? || Switched(s)
  }

  // ---------------------------------------------------------------- positions

  /** `[aTail, Top)` is the occupied part of the ring, and the current epoch ends at `split`. */
  ghost predicate Geometry(s: State)
    requires Shape(s)
  {
    && s.tail == s.aTail % s.max
    && s.split == s.aSplit % s.max
    && s.aTail <= First(s) <= s.aSplit
    && s.inst[s.cur].start + s.inst[s.cur].published == s.aSplit
    && s.aSplit - s.aTail < s.max
    && Top(s) <= s.aTail + s.max
  }

  /** `tail` accounts for whole completed blocks only. */
  ghost predicate TailPosition(s: State)
    requires Shape(s)
  {
    var c, l := s.inst[s.cur], s.inst[s.last];
    if Switched(s) then
      && !s.rec[s.last].done
      && s.counted <= l.claims
      && s.aTail <= l.start + Offset(l.published, s.counted)
      && l.start + Offset(l.published, l.claims) == c.start
      && (forall j :: 0 <= j < s.counted && j < STATUS_SLOTS ==> s.rec[s.last].status[j] != 0)
    else if s.rec[s.last].done then
      && s.counted <= c.claims
      && s.aTail == c.start + Offset(c.published, s.counted)
      && (forall j :: 0 <= j < s.counted && j < STATUS_SLOTS ==> s.rec[s.cur].status[j] != 0)
    else
      && s.counted == 0
      && s.aTail <= c.start
      && l.start + Offset(l.published, l.claims) == c.start
  }

  // ---------------------------------------------------------------- epoch records

  ghost predicate Statuses(s: State, e: nat)
    requires Shape(s) && e < MAX_EPOCHS
  {
    var n, k := s.inst[e].published, s.inst[e].claims;
    && k <= MaxSteals(n)
    && n <= s.max / 2 + s.max % 2
    && (forall j :: 0 <= j < STATUS_SLOTS && s.rec[e].status[j] != 0 ==> j < k && s.rec[e].status[j] == BlockSize(n, j))
    && (forall j :: 0 <= j < k && j < STATUS_SLOTS ==> (s.rec[e].status[j] == 0 <==> Outstanding(s.claims, e, j)))
  }

  /** The record of the current epoch describes its published tasks, the one of the previous
      epoch its stolen tasks. */
  ghost predicate RecordFields(s: State)
    requires Shape(s)
  {
    var c, l := s.inst[s.cur], s.inst[s.last];
    var rc, rl := s.rec[s.cur], s.rec[s.last];
    && rl.vtail == l.start % s.max
    && (if Switched(s) then
          && rc == NoRecord() && c.claims == 0
          && rl.itasks == l.published && rl.maxsteals == MaxSteals(l.published)
        else
          && rc.vtail == c.start % s.max
          && rc.itasks == c.published && rc.maxsteals == MaxSteals(c.published)
          && rl.itasks == Offset(l.published, l.claims) && rl.maxsteals == l.claims)
  }

  ghost predicate DoneFlags(s: State)
    requires Shape(s)
  {
    && (s.rec[s.cur].done ==> s.inst[s.cur].claims == MaxSteals(s.inst[s.cur].published) && AllComplete(s, s.cur))
    && (s.rec[s.last].done ==> AllComplete(s, s.last))
  }

  /** Every block claimed from record `e` has been reported. */
  ghost predicate AllComplete(s: State, e: nat)
    requires Shape(s) && e < MAX_EPOCHS
  {
    forall j :: 0 <= j < s.inst[e].claims && j < STATUS_SLOTS ==> s.rec[e].status[j] != 0
  }

  // ---------------------------------------------------------------- claims

  ghost predicate ClaimOk(s: State, c: Claim)
    requires Shape(s)
  {
    && c.epoch < MAX_EPOCHS
    && c.index < s.inst[c.epoch].claims
    && c.itasks == s.inst[c.epoch].published
    && c.rtail == s.inst[c.epoch].start % s.max
    && c.base == s.inst[c.epoch].start + Offset(c.itasks, c.index)
    && |c.tasks| == ClaimSize(c)
    && s.aTail <= c.base && c.base + |c.tasks| <= First(s)
    && c.tasks == Slots(s.q, c.base, |c.tasks|)
    && (forall i :: i in c.got ==> i < |c.tasks| && c.got[i] == c.tasks[i])
  }

  ghost predicate Claims(s: State)
    requires Shape(s)
  {
    && (forall t :: t in s.claims ==> ClaimOk(s, s.claims[t]))
    && (forall t, u :: t in s.claims && u in s.claims && t != u ==>
          s.claims[t].epoch != s.claims[u].epoch || s.claims[t].index != s.claims[u].index)
  }

  // ---------------------------------------------------------------- the word

  /** Each thief fails at most once on an enabled word, so the attempts stay countable. */
  ghost predicate Attempts(s: State)
    requires Shape(s)
  {
    && (forall t :: t in s.failed ==> t < s.npes && !s.full[t])
    && (s.word.valid < MAX_EPOCHS ==>
          && s.word.attempts <= MaxSteals(s.word.itasks) + |s.failed|
          && (s.failed != {} ==> s.word.attempts >= MaxSteals(s.word.itasks)))
  }

  /** An enabled word is replayed by thieves and owner alike: it names the blocks already claimed. */
  ghost predicate WordMatches(s: State)
    requires Shape(s)
  {
    var c := s.inst[s.cur];
    if s.word.valid >= MAX_EPOCHS then c.published == 0 && c.claims == 0 && s.word.itasks == 0
    else
      && s.word.valid == s.cur
      && (if s.word.itasks == 0 then c.claims == MaxSteals(c.published)
          else
            && s.word.itasks == c.published
            && s.word.tail == c.start % s.max
            && c.claims == Min(s.word.attempts, MaxSteals(c.published)))
  }

  function Min(a: nat, b: nat): nat {
    if a <= b then a else b
  }

  ghost predicate WordOk(s: State)
    requires Shape(s)
  {
    && s.word.valid <= 3
    && s.word.itasks <= s.max / 2 + s.max % 2
    && Attempts(s)
    && (match s.pc
        case Idle => WordMatches(s)
        case ReclaimLast(_, _) => WordMatches(s)
        case ReclaimCur(_, _) => WordMatches(s)
        case Publishing =>
          && s.inst[s.cur].claims == 0
          && s.claims == map[]
          && s.aTail == s.inst[s.cur].start
          && (s.word.valid < MAX_EPOCHS ==> s.word.attempts >= MaxSteals(s.word.itasks))
        case Waiting(att, _, _) => Frozen(s, s.cur, att)
        case Deciding(att) => Frozen(s, s.cur, att)
        case Scanning(att, left, _, _) => Frozen(s, s.last, att) && TakenBack(s, att, left)
        case Republishing(att, left, _, _) => Frozen(s, s.last, att) && TakenBack(s, att, left))
  }

  /** While steals are disabled the claims are those of the attempts read by the fetch-or. */
  ghost predicate Frozen(s: State, e: nat, att: nat)
    requires Shape(s) && e < MAX_EPOCHS
  {
    && s.word.valid >= MAX_EPOCHS
    && (if s.word.itasks == 0 then s.inst[e].claims == MaxSteals(s.inst[e].published)
        else
          && s.word.itasks == s.inst[e].published
          && s.inst[e].claims == Min(att, MaxSteals(s.inst[e].published)))
  }

  ghost predicate TakenBack(s: State, att: nat, left: nat)
    requires Shape(s)
  {
    && s.word.itasks == s.inst[s.last].published
    && att < MaxSteals(s.word.itasks)
    && s.inst[s.cur].published == left
  }

  // ---------------------------------------------------------------- the owner's loops

  ghost predicate Scanned(s: State, e: nat, i: nat)
    requires Shape(s) && e < MAX_EPOCHS
  {
    && i <= s.rec[e].maxsteals
    && (forall j :: 0 <= j < i ==> s.rec[e].status[j] != 0)
  }

  ghost predicate PcOk(s: State)
    requires Shape(s)
  {
    match s.pc
    case Idle => true
    case Publishing => true
    case ReclaimLast(i, sum) =>
      && !s.rec[s.last].done
      && Scanned(s, s.last, i) && sum == Offset(s.inst[s.last].published, i)
    case ReclaimCur(i, sum) =>
      && s.rec[s.last].done
      && Scanned(s, s.cur, i) && sum == Offset(s.inst[s.cur].published, i)
    case Waiting(att, i, sum) =>
      && s.nlocal == 0 && !s.rec[s.last].done
      && i <= s.rec[s.last].maxsteals
      && sum <= Offset(s.inst[s.last].published, i)
      && (sum == Offset(s.inst[s.last].published, i) ==> forall j :: 0 <= j < i ==> s.rec[s.last].status[j] != 0)
    case Deciding(att) =>
      && s.nlocal == 0 && AllComplete(s, s.last)
    case Scanning(att, left, i, index) =>
      && Scanned(s, s.last, i) && index == s.rec[s.last].vtail + Offset(s.inst[s.last].published, i)
    case Republishing(att, left, i, index) =>
      && Scanned(s, s.last, i) && index == s.rec[s.last].vtail + Offset(s.inst[s.last].published, i)
      && s.counted <= i
  }

  /** Everything but the word. */
  ghost predicate Core(s: State)
    requires Shape(s)
  {
    && Geometry(s)
    && TailPosition(s)
    && Statuses(s, 0) && Statuses(s, 1)
    && RecordFields(s)
    && DoneFlags(s)
    && Claims(s)
    && PcOk(s)
  }

  ghost predicate Inv(s: State) {
    Shape(s) && Core(s) && WordOk(s)
  }

  lemma InvAll(s: State)
    requires Inv(s)
    ensures Geometry(s) && TailPosition(s)
    ensures Statuses(s, 0) && Statuses(s, 1) && Statuses(s, s.cur) && Statuses(s, s.last)
    ensures RecordFields(s) && DoneFlags(s) && Claims(s) && PcOk(s) && WordOk(s)
  {
    hide Geometry, TailPosition, Statuses, Claims, RecordFields, DoneFlags, WordOk, PcOk;
  }
}
