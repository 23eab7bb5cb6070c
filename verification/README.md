# Scioto work stealing: verified models

Scioto is a runtime for task parallelism over one-sided communication. Every processing element
owns a queue of tasks in a ring buffer, others steal from it without its help, and a tree of
counters finds out when all work is done. This project models its three protocols and the runtime
that combines them, and proves what they are for: every task runs exactly once and nobody stops
early.

* **SAWS ring** (`Saws*.dfy`, `StealSeries.dfy`, `StealWord.dfy`). The owner publishes one word with
  attempts, epoch, task count and tail; a thief claims a block with one fetch-add and finds out which
  one by replaying the steal-half series. `SawsModel` is the state machine with one step for every
  access to shared memory, `SawsInvariant` what holds in between, `SawsOwner` and `SawsThief` show
  that each step keeps it, `SawsTheorems` what follows. `SawsRing` and `SawsSteal` are the operations
  as they are written, on a class with the fields of the C structure and an array for the buffer;
  what each of them leaves is stated as steps of the machine, one after the other, on the ring it was
  called on, and as what it means for the queue; `SawsCalls` shows that such steps lead there, and
  that a gap can hold whatever the others can do. `SawsWaiting` is about the
  end of the owner's wait, `SawsRoom` about what a reclaim frees, `SawsQuiet` about operations nobody
  interferes with, `SawsBuffer` about the size of steal buffers.
* **SDC ring** (`Sdc*.dfy`). The same for the split deferred-copy ring: reservations under a lock,
  copies outside it, a lock-free reclaim. `SdcOverfill` says exactly when a release breaks the ring,
  `SdcAnyRun` what holds even then, `SdcGaps` when the lock is obtained and the wait for space ends, `SdcBuffer` which steal buffers are large enough; `SdcFailures`
  holds two concrete runs.
* **Abstract queue** (`TaskQueue.dfy`). Both rings implement it, on every run.
* **Termination detection** (`Termination*.dfy`). Counter waves on a heap-shaped tree: safety over
  runs in which counters are sampled at different times, no deadlock, detection by the third
  evaluation. `TerminationDetector` is `td_attempt_vote` in place.
* **Runtime** (`Runtime*.dfy`). Search, steal, execute, add and vote on any number of elements, over
  abstract queues and then over SAWS rings. `RuntimeEnding` and `RuntimeEndingOverSaws` are about how
  a run ends, and when it cannot. `RuntimeWorker` is the loop of one element as written, and
  `RuntimeCalls` shows that steps of the runtime lead to what it leaves.
* **Tree search and its generator** (`Uts*.dfy`, `Sha1*.dfy`). Schedule independence of the two task
  functions against the sequential traversal; SHA-1 against FIPS 180-4.

## Assumptions

Steps are sequentially consistent. A token is visible no later than its vote counter, and a
thief's copy is complete before its completion is added. A SAWS ring has between 2 and 2^19 slots,
the same number everywhere, and checks for space on every push (`reclaimfreq` 1, the default; the
tree search driver sets `GTC_RECLAIM_FREQ` to 20 at
examples/uts/SciotoRecursiveLoadBalancer.cc:86, and then free space is the caller's business).
Counters are unbounded except where the packed word or the byte count of SHA-1 is the subject.

In the in-place classes, what other participants do between two accesses to shared memory is a
parameter: a list of steps for each gap of the operation (`Turns`), in which impossible steps are
passed over. Every contract holds for all such lists, and says what the operation leaves as a function
of what it found and of them (`StealCall`, `Drive`, `LockLoop`, `EnsureCall`, `LoopCall` and the like).
A loop that waits for others goes on as long as there are lists for them, and gives up only then.

## Findings

* **SDC release into a ring whose other slots are reserved.** `sdc_shrb_release` releases a single
  local task even when all other slots of the ring are reserved by thieves. The public part then
  fills the ring, `vtail` equals `split`, and libtc/sdc_shr_ring.c:183 reads that as empty (the
  assertion in the next line would stop a build that keeps assertions). Pushes are let through and
  write over what is there. For every ring and every state, `SdcOverfill.ReleaseIsSafeIff`: after a
  release every push appends to the queue and leaves every reserved slot alone, if and only if that
  was not the release (`Overfills`, which the owner can test before the call).
  `SdcOverfill.OverfillLosesATask` and `SdcOverfill.OverfillReachesThief` say what is lost, and
  `SdcFailures.FullReleaseLosesATask` is a run that starts with an empty ring.
  `gtc_progress_sdc` (libtc/collection-sdc.c:136-140) calls release unconditionally and then reclaims;
  `SdcOverfill.ProgressIsSafeIff`: that reclaim makes up for it exactly if no steal is pending and the
  ring has more than one slot. `gtc_progress_saws` (libtc/collection-saws.c:131) calls its counterpart
  only with more than one task. The theorems about the SDC ring carry the guard `!Overfills`.
* **Steal buffers.** A thief's buffer has `shrb_size / 2` tasks, or `chunk_size` for chunk steals
  (libtc/common.c:115-119). The SAWS steal ignores the size it is asked for and takes the block the
  word names (libtc/saws_shrb.c:623-674). `SawsBuffer.SufficesIff`: a buffer is large enough on every
  run if and only if it holds a quarter of the ring, with the roundings of `LargestBlock`; so
  `shrb_size / 2` always is, and `chunk_size` only if it is no less than that. For the SDC ring
  `SdcBuffer.HalfRingSufficesIff`: `shrb_size / 2` is always enough for stealing half, and for stealing
  all (500000 tasks asked for, libtc/common.c:432-439) exactly if the ring has an even number of slots,
  or one, or no more than half of it is asked for.
* **Order of reads.** The lock-free reclaim is safe because `itail` is read before `tail`;
  `SdcFailures.ReversedReadsDeceive` shows that the other order is not.
* **Tail fix-up of a reacquire.** libtc/saws_shrb.c:472-473 compares an index that is not wrapped with
  the tail, which is. `SawsTheorems.RepublishFreesIff`: the reported prefix is freed if and only if the
  end of the ring does not lie between the tail and the start of that epoch. Otherwise nothing is freed
  until a later reclaim.
* **Number of steals.** A disabled test expects `floor(log2 n) + 1` steals
  (tests/test_saws_shrb.c:46-52, tests/test_saws_shrb.c:187). The loop gives `ceil(log2 n) + 1`, and
  `StealSeries.MaxStealsIsLog` states that.
* **Remote adds.** `gtc_add_saws` with a target other than the caller counts the task as spawned
  without storing it anywhere (libtc/collection-saws.c:314-328), and `gtc_add_sdc` does the same. The
  model has that as a step. `RuntimeEnding.RemoteAddNeverEnds`: from the first such call on, no
  evaluation of the root is ever true and nobody ever returns from `gtc_process`.
  `RuntimeEnding.RunCanEndIff`: a run that has come to where nothing is alive can be brought to its end
  if and only if none of its adds had `proc != rank`, which the caller can see before the call.
  `RuntimeEnding.RemoteAddRun` is a run of two elements that cannot end.

## Model

| member | source | states |
|---|---|---|
| `StealSeries.LeftPositive` | libtc/saws_shrb.c:213-222 | the series runs out after exactly `MaxSteals(n)` steals and not before |
| `StealSeries.SeriesPartitions` | libtc/saws_shrb.c:664-673 | the blocks partition the published tasks: every task belongs to exactly one claimable steal |
| `StealSeries.LeftIsCeil` | libtc/saws_shrb.c:439-443 | after `k` claimable steals `ceil(n / 2^k)` tasks are left |
| `StealSeries.MaxStealsIsLog` | libtc/saws_shrb.c:213-222 | the number of steals is `ceil(log2 n) + 1`: `2^(M-1)` is the least power of two that reaches `n` |
| `StealSeries.MaxStealsUnique` | libtc/saws_shrb.c:213-222 | no other number has that property, so the closed form is exact |
| `StealSeries.MaxStealsFits` | libtc/saws_shrb.h:11 | a 19-bit task count allows at most 20 steals, so every index stays inside the 22 status slots |
| `StealSeries.LargestBlockFitsHalf` | libtc/common.c:115-119 | the first block of the largest release is no more than half of the ring |
| `StealSeries.CountSteals` | libtc/saws_shrb.c:213-222 | the counting loop, which halves and adds up with shifts, computes `MaxSteals` |
| `StealSeries.ReplaySteals` | libtc/saws_shrb.c:435-443 | the replay loop computes offset and remainder of the series, so owner and thief agree on every block |
| `StealWord.SetGet` | libtc/saws_shrb.c:189-205 | reading a freshly set word gives back validity, task count and tail, and no attempts |
| `StealWord.FieldsDetermine` | libtc/saws_shrb.c:198-205 | the four fields determine all 64 bits |
| `StealWord.AddGet` | libtc/saws_shrb.c:628-640 | a fetch-add of `1 << 40` adds one to the attempts modulo 2^24 and leaves the other fields alone, even on overflow |
| `StealWord.DisableGet` | libtc/saws_shrb.c:208-211 | the fetch-or sets the high validity bit, touches nothing else, and is idempotent |
| `StealWord.WordRefines` | libtc/saws_shrb.c:189-211 | under any sequence of set, fetch-add and fetch-or the packed word behaves as four separate fields |
| `StealWord.DisabledUntilSet` | libtc/saws_shrb.c:208-211 | a disabled word is read as disabled after any number of attempts and further fetch-ors, until the next set |
| `StealWord.AddIsAttempt` | libtc/saws_shrb.c:628-640 | the 64-bit addition, as a number, is the step of the state machine on the attempts, wrap-around included |
| `StealWord.SetIsSum` | libtc/saws_shrb.c:189-196 | a set word is, in 64-bit arithmetic, epoch times 2^38 plus task count times 2^19 plus tail |
| `StealWord.WordIsSum` | libtc/saws_shrb.c:198-205 | every word is the sum of its fields times their places |
| `StealWord.ValueIsSum` | libtc/saws_shrb.c:189-205 | and the number of the state machine's word is the same sum |
| `TaskQueue.QueueConserves` | libtc/saws_shrb.c:358-600 | exactly once: over any run of the abstract queue what was pushed is what was popped, delivered or is still held, as multisets |
| `TaskQueue.StepConserves` | libtc/saws_shrb.c:358-600 | the same for one step |
| `SawsTheorems.InitInv` | libtc/saws_shrb.c:107-134 | a reset ring satisfies the invariant and stands for an empty queue |
| `SawsOwner.ReleaseKeeps` | libtc/saws_shrb.c:358-386 | release keeps the invariant: the record it re-initialises has no open claim and the new word names exactly the released tasks |
| `SawsOwner.PublishKeeps` | libtc/saws_shrb.c:379-380 | so does the set of the word that makes the release visible, whatever thieves tried on the old word |
| `SawsOwner.ReclaimLastKeeps` | libtc/saws_shrb.c:302-312 | each status read of the previous epoch, the early exit and the jump of the tail keep the invariant |
| `SawsOwner.ReclaimCurKeeps` | libtc/saws_shrb.c:313-327 | so do those of the current epoch, with the done flag and the tail moved over the completed prefix |
| `SawsOwner.DisableKeeps` | libtc/saws_shrb.c:415-419 | the fetch-or keeps it and freezes the claims at the attempts it read |
| `SawsOwner.WaitKeeps` | libtc/saws_shrb.c:422-433 | a round of status reads adds up to the stolen total only if every status it read was in |
| `SawsOwner.DecideKeeps` | libtc/saws_shrb.c:435-461 | taking back the unclaimed suffix and switching the two records keeps it: the record that is cleared has no open claim |
| `SawsOwner.RepublishKeeps` | libtc/saws_shrb.c:464-496 | the tail fix-up, the corrected old record, the new record and the new word keep it, although `completedindex > tail` compares an unwrapped with a wrapped index |
| `SawsThief.ClaimKeeps` | libtc/saws_shrb.c:638-659 | a fetch-add on an enabled word with blocks left is a claim of the next block and keeps it |
| `SawsThief.CopyReads` | libtc/saws_shrb.c:686-714 | every task is copied from the slot it was published in, wrapped or not |
| `SawsThief.CompleteKeeps` | libtc/saws_shrb.c:716-718 | the completion add keeps it, whichever owner step it falls between |
| `SawsTheorems.StepKeeps` | libtc/saws_shrb.c:295-725 | every atomic step of the owner and of every thief keeps the invariant that links the word, both records, `tail`, `split` and the open claims |
| `SawsTheorems.StepRefines` | libtc/saws_shrb.c:358-725 | every step is a step of the abstract queue: push appends, pop takes the last task, a claim removes a prefix, a completion delivers exactly that prefix, all others are invisible |
| `SawsTheorems.RunRefines` | libtc/saws_shrb.c:358-725 | every run, in any interleaving of any number of thieves, is a run of the abstract queue |
| `SawsTheorems.TasksConserved` | libtc/saws_shrb.c:403-725 | on every run each pushed task was popped once or received once or is still there once |
| `SawsTheorems.CompletionLands` | libtc/saws_shrb.c:716-718 | a completion meets a zero status in the record of the very epoch instance its claim came from and writes the size of the block |
| `SawsTheorems.OpenClaimsKeepTheirRecord` | libtc/saws_shrb.c:372-377 | no step of anybody re-uses a record while a claim on it is open, although there are only two |
| `SawsTheorems.ClaimedSlotsStay` | libtc/saws_shrb.c:337-354 | no step, and in particular no push, writes to a slot of a block that is claimed and not yet reported |
| `SawsTheorems.ReleaseIsClosed` | libtc/saws_shrb.c:365-380 | a release is possible only when no claim of either epoch is open |
| `SawsTheorems.AttemptsBounded` | libtc/saws_shrb.c:638-659 | attempts on an enabled word stay at or below max steals plus number of PEs and never wrap 24 bits, because each thief fails at most once per word |
| `SawsTheorems.DisabledStaysDisabled` | libtc/saws_shrb.c:647-650 | nobody but the three sets of the owner enables a disabled word, and no claim is made on it |
| `SawsTheorems.ReacquireFreezes` | libtc/saws_shrb.c:415-433 | from the fetch-or on, nobody takes anything while the owner waits |
| `SawsTheorems.ReacquireTakesHalf` | libtc/saws_shrb.c:435-456 | a reacquire takes the newer half, rounded up, of what is unclaimed, and comes back empty exactly when nothing is |
| `SawsTheorems.NothingToReacquire` | libtc/saws_shrb.c:410-411 | the guard that skips a reacquire is met only when nothing is unclaimed |
| `SawsTheorems.TailAdvances` | libtc/saws_shrb.c:302-327 | no step moves the tail backwards or past a block whose completion is not recorded |
| `SawsTheorems.QuietReclaimIsExact` | libtc/saws_shrb.c:313-327 | with all claims complete, a reclaim run to its end makes the size the code computes equal to the number of unclaimed tasks |
| `SawsTheorems.ReclaimStopsAtOpen` | libtc/saws_shrb.c:302-327 | a reclaim stops early only at an open steal of the previous epoch, and at its end the tail is at the first block of the current epoch that is not reported, or at the first unclaimed task |
| `SawsTheorems.ScanStopsAtOpen` | libtc/saws_shrb.c:465-471 | the scan of a reacquire goes on to the first block that is not reported, or to the last that was claimed |
| `SawsTheorems.RepublishFreesIff` | libtc/saws_shrb.c:472-473 | the tail fix-up frees the reported prefix if and only if the end of the ring does not lie between the tail and the start of that epoch, and nothing otherwise |
| `SawsRing.Ring.constructor` | libtc/saws_shrb.c:107-134 | a created and reset ring is an initial state of the machine |
| `SawsRing.Ring.Wait` | libtc/saws_shrb.c:295-499 | what the owner may rely on between two shared accesses: statuses and attempts move, nothing else does |
| `SawsRing.Ring.Release` | libtc/saws_shrb.c:358-386 | with local tasks and nothing shared the owner keeps half of them, rounded down, and the word, not yet tried by anybody, names the older rest of what is unclaimed from the first such task on, whatever thieves did before it was set; otherwise nothing happens |
| `SawsRing.Ring.ReclaimSpace` | libtc/saws_shrb.c:295-333 | the two scanning loops are a sequence of machine steps, one per status read |
| `SawsRing.Ring.AwaitPrevious` | libtc/saws_shrb.c:422-433 | the retry loop is left only when every steal of the previous epoch is reported, or when no turn is left |
| `SawsWaiting.WaitEnds` | libtc/saws_shrb.c:422-433 | a round of the retry loop that begins when every steal of the previous epoch is reported is the last, whatever thieves do in its gaps |
| `SawsWaiting.OpenStealCanMove` | libtc/saws_shrb.c:422-433 | until then some thief owes a report and can go on, copying a task it has not copied or completing |
| `SawsRoom.QuietReclaim` | libtc/saws_shrb.c:295-333 | with no steal open a reclaim by itself comes to its end, changes nothing about the queue and makes the size the code computes exact |
| `SawsRoom.RoomAfterReclaimIff` | libtc/saws_shrb.c:337-354 | so a push that reclaims first finds room if and only if the unclaimed tasks and the new ones fit the ring |
| `SawsQuiet.Settles` | libtc/saws_shrb.c:295-499 | with no steal open whatever the owner is in the middle of comes to its end by itself and changes nothing about the queue |
| `SawsBuffer.SufficesIff` | libtc/saws_shrb.c:623-673 | a steal buffer holds every block claimed on any run if and only if it holds the first block of the largest release |
| `SawsBuffer.HalfRingSuffices` | libtc/common.c:115-119 | a buffer of half the ring always does |
| `SawsRing.Ring.TakeHalf` | libtc/saws_shrb.c:446-461 | the local size becomes half of what is unclaimed, rounded up |
| `SawsRing.Ring.Republish` | libtc/saws_shrb.c:464-496 | the assignments that follow the scan are the machine's step |
| `SawsRing.Ring.Reacquire` | libtc/saws_shrb.c:403-499 | the whole operation is a sequence of machine steps and ends with half of what was unclaimed at the fetch-or |
| `SawsRing.Ring.PopHead` | libtc/saws_shrb.c:579-600 | returns nothing exactly when nothing was unclaimed on entry, and the newest unclaimed task otherwise, whatever thieves do meanwhile; the ring is the one on entry, or that driven through a reacquire, less the task |
| `SawsRing.Ring.EnsureSpace` | libtc/saws_shrb.c:337-354 | succeeds exactly when there is room, after a reclaim if need be; otherwise the error exit |
| `SawsRing.Ring.PushNHead` | libtc/saws_shrb.c:505-552 | appends to the unclaimed tasks, in one piece or two, of the ring on entry, or of that driven through a reclaim if there was no room; without room then it writes nothing |
| `SawsRing.DriveFreezes` | libtc/saws_shrb.c:403-499 | through all of a reacquire and its interference the unclaimed tasks stay those of the fetch-or |
| `SawsSteal.TestWord` | libtc/saws_shrb.c:638-659 | the probe: the ring becomes the machine's after a counted attempt or a plain look; a claim exactly when the thief counts an attempt on a word that has a block, and that block is the prefix of the unclaimed tasks |
| `SawsSteal.WordNames` | libtc/saws_shrb.c:638-674 | an enabled word has a block for one more claim exactly if something shared is unclaimed, and it is half of that, rounded down, but at least one |
| `SawsSteal.ClaimBlock` | libtc/saws_shrb.c:628-659 | a victim believed empty is looked at first and probed only if it has a block; what decides is the word at that fetch |
| `SawsSteal.CopyBlock` | libtc/saws_shrb.c:686-714 | the three cases of the copy bring home the block as it was when claimed, whatever everyone else does between any two tasks, and leave the ring the machine's copy steps leave |
| `SawsSteal.FetchBlock` | libtc/saws_shrb.c:661-718 | with a claim in hand: replay, copy and report bring home exactly the claimed block |
| `SawsSteal.ReportCompletion` | libtc/saws_shrb.c:716-718 | the add is the machine's completion |
| `SawsSteal.PopNTail` | libtc/saws_shrb.c:623-725 | for any buffer that holds the largest block: the whole steal is its steps of the machine on the ring on entry; it brings home half, rounded down, but at least one, of the unclaimed tasks that are not local, from the front of the ring on entry or, if the victim was believed empty and is not, of the ring after the gap; nothing while steals are disabled; the rest of the buffer is untouched and the claim is closed |
| `SawsCalls.StealLeads` | libtc/saws_shrb.c:623-725 | steps of the machine lead from the ring a steal finds to the ring it leaves, with anything in its gaps |
| `SawsCalls.CallLeads` | libtc/saws_shrb.c:295-499 | the same for release, reclaim and reacquire |
| `SawsCalls.LeadsToReachable` | libtc/saws_shrb.c:295-725 | where steps lead from the end of a run is the end of a run, so what holds of runs holds there |
| `SawsCalls.AnyGap` | libtc/saws_shrb.c:295-725 | whatever steps others can take, in any order, a gap can hold |
| `RingMemory.PushBlock` | libtc/saws_shrb.c:515-530 | the two cases of the write, with C's remainder for an empty ring, put the block behind the local tasks and touch no other slot |
| `SdcInvariant.SizesExact` | libtc/sdc_shr_ring.c:172-191 | shared and public size are the exact distances of the unwrapped indices |
| `SdcGaps.LockLoopEnds` | libtc/mutex.c:55-117 | the swap loop ends with the lock at the first try that finds it free, and without it, and with no turn left, exactly if there is no such try, whatever happens between the tries |
| `SdcGaps.WaitLoopEnds` | libtc/sdc_shr_ring.c:250-265 | the busy-wait ends with room if and only if some round begins with no steal pending |
| `SdcGaps.EnsureCallEnds` | libtc/sdc_shr_ring.c:245-269 | making space: at once with room on entry; never, without the lock; the error exit exactly if the ring found under the lock is too full; room or not by the rounds of the wait |
| `SdcGaps.StealTakes` | libtc/sdc_shr_ring.c:472-486 | a steal takes what is asked for or half, rounded up, or all of the shared part of the queue, whichever is less |
| `SdcGaps.ReacquireTakes` | libtc/sdc_shr_ring.c:300-327 | a reacquire takes back half, rounded up, of what is shared beyond the local tasks |
| `SdcGaps.ReclaimFreesIff` | libtc/sdc_shr_ring.c:221-241 | with nobody in between a reclaim frees all that has been stolen if and only if no steal is pending, and nothing otherwise |
| `SdcSteps.StepKeeps` | libtc/sdc_shr_ring.c:221-548 | every step but an overfilling release keeps the invariant |
| `SdcSteps.ReleaseKeepsIff` | libtc/sdc_shr_ring.c:273-287 | release keeps the invariant if and only if it is not the release of the only local task into a ring whose other slots are all reserved |
| `SdcOverfill.ReleaseIsSafeIff` | libtc/sdc_shr_ring.c:182-191 | in every ring and every state: after a release all pushes append to the queue and leave every reserved slot alone, if and only if it was not that release |
| `SdcOverfill.OverfillLosesATask` | libtc/sdc_shr_ring.c:273-287 | after that release a push of a ring's worth of tasks is let through and replaces the one unclaimed task |
| `SdcOverfill.OverfillReachesThief` | libtc/sdc_shr_ring.c:182-191 | and a push that is long enough to get there writes into the first slot of the block of any thief that is still copying |
| `SdcOverfill.ProgressIsSafeIff` | libtc/collection-sdc.c:136-140 | release and reclaim together leave a safe ring if and only if the release did not overfill it, or the ring has several slots and no steal is pending |
| `SdcSteps.EqualMeansQuiet` | libtc/sdc_shr_ring.c:224-228 | because `itail` is read before `tail`, equal values mean that every reservation made so far is complete, whatever happened between the two reads |
| `SdcFailures.FullReleaseLosesATask` | libtc/sdc_shr_ring.c:182-191 | a concrete run of a two-slot ring with that release: a thief receives another task than it reserved, one task twice, one never |
| `SdcFailures.ReversedReadsDeceive` | libtc/sdc_shr_ring.c:224-228 | a concrete run that shows the order of the two reads is needed: read the other way round they agree while a block is still being copied |
| `SdcTheorems.StepRefines` | libtc/sdc_shr_ring.c:273-548 | every step is a step of the same abstract queue |
| `SdcTheorems.RunRefines` | libtc/sdc_shr_ring.c:273-548 | every guarded run is a run of the abstract queue |
| `SdcTheorems.TasksConserved` | libtc/sdc_shr_ring.c:273-548 | on every guarded run each pushed task was popped once or received once or is still there once |
| `SdcTheorems.MutualExclusion` | libtc/mutex.c:55-139 | at most one participant is between a successful swap and its unlock, and the word says so |
| `SdcTheorems.ItailMeetsTail` | libtc/sdc_shr_ring.c:521-536 | `tail - itail` is the sum of the pending increments as an integer, and the two are equal exactly when no steal is pending, whatever wraps and in whatever order steals finish |
| `SdcTheorems.ReclaimIsSafe` | libtc/sdc_shr_ring.c:221-241 | the lock-free reclaim moves the virtual tail only when no steal is pending, and then exactly to the tail |
| `SdcTheorems.EmptyPublicIsQuiet` | libtc/sdc_shr_ring.c:182-186 | the assertion in `public_size` holds in every state of the invariant |
| `SdcTheorems.ReservedSlotsStay` | libtc/sdc_shr_ring.c:504-519 | no step writes to a reserved slot until its thief has finished |
| `SdcTheorems.PopGivesUpOnlyWhenEmpty` | libtc/sdc_shr_ring.c:300-327 | a reacquire takes half of what is unclaimed under the lock, and nothing exactly when nothing is |
| `SdcTheorems.WaitHasSomethingToReclaim` | libtc/sdc_shr_ring.c:250-261 | when the busy-wait is entered, `vtail` differs from `tail` |
| `SdcTheorems.WaitingCountsDown` | libtc/sdc_shr_ring.c:251-265 | while the owner waits with the lock, pending steals only decrease, by one with each finish |
| `SdcTheorems.PendingThiefCanMove` | libtc/sdc_shr_ring.c:502-536 | a pending thief always has a step to take that does not need the lock |
| `SdcTheorems.QuietReadEndsWait` | libtc/sdc_shr_ring.c:261 | once nothing is pending the next round ends the wait |
| `SdcTheorems.WaitMakesRoom` | libtc/sdc_shr_ring.c:245-269 | when the wait ends, at least `n` slots are free |
| `SdcBuffer.SufficesIff` | libtc/sdc_shr_ring.c:472-486 | a steal buffer holds what any thief decides to take on any run, overfilling releases included, if and only if it holds the most the volume rule can give for a ring of this size |
| `SdcBuffer.HalfRingSufficesIff` | libtc/common.c:115-119 | half the ring is always enough for stealing half; for stealing all exactly if the ring is even, or of one slot, or no more than half is asked for; on any run |
| `SdcBuffer.ChunkSuffices` | libtc/common.c:432-439 | a buffer of `chunk_size` tasks is always enough for a chunk, on any run |
| `SdcAnyRun.AnyRunBounded` | libtc/sdc_shr_ring.c:273-327 | on any run, overfilling releases included, no more than half of the ring is shared and whoever has looked under the lock knows the tail |
| `SdcRing.Ring.constructor` | libtc/sdc_shr_ring.c:97-115 | a reset ring is an initial state of the machine |
| `SdcRing.Ring.Release` | libtc/sdc_shr_ring.c:273-287 | the owner keeps half of the local tasks, rounded down, if nothing is shared, and nothing happens otherwise; the code is the machine's release, and the ring is valid afterwards exactly if it was not the overfilling one |
| `SdcRing.Ring.ReclaimSpace` | libtc/sdc_shr_ring.c:221-241 | the code is the two reads of the machine with the thieves' turn between, and it returns how far the virtual tail moved |
| `SdcRing.Ring.AcquireLock` | libtc/mutex.c:55-90 | a free lock is obtained at the first try with all turns left, and in general it is obtained if and only if it is free in the ring after some of the turns; nothing of the owner's has changed |
| `SdcRing.Ring.Reacquire` | libtc/sdc_shr_ring.c:300-327 | it succeeds if and only if the lock is free at some try; then, of what is shared beyond the local tasks in the ring found under the lock, half is taken back |
| `SdcRing.Ring.PopHead` | libtc/sdc_shr_ring.c:405-432 | it gives up exactly if there are no local tasks and the lock is free at no try; it returns nothing exactly when nothing unclaimed was left on entry or, without local tasks, under the lock, and the newest unclaimed task otherwise; the ring is the one found, reacquired if need be, less the task |
| `SdcRing.Ring.EnsureSpace` | libtc/sdc_shr_ring.c:245-269 | with room on entry nothing happens; otherwise, without the lock at any try it is still waiting; with it, the error exit is taken exactly if even a full reclaim would not make room, room is made exactly if some round of the wait begins with no steal pending, and it is still waiting otherwise |
| `SdcRing.Ring.PushNHead` | libtc/sdc_shr_ring.c:333-382 | on success, which is as for making space, exactly `es` is behind the queue of the ring that making space left |
| `SdcRing.Ring.AcquireAs` | libtc/mutex.c:100-117 | the thief's side of the lock, with a single turn the trylock: a free lock is obtained at the first try, and in general if and only if it is free after some of the turns |
| `SdcRing.Ring.CopyBlock` | libtc/sdc_shr_ring.c:504-519 | the block as it was when reserved, in one piece or two, whatever everyone else does between any two tasks; the ring is what the machine's copy steps leave |
| `SdcRing.Ring.AddToItail` | libtc/sdc_shr_ring.c:521-536 | the increment, less a turn if the block wrapped, is the machine's finish |
| `SdcRing.Ring.TakeBlock` | libtc/sdc_shr_ring.c:488-540 | reserve, unlock, copy and report: the buffer holds the front of the queue as it is on entry, and the ring is what those steps of the machine leave |
| `SdcRing.Ring.PopNTail` | libtc/sdc_shr_ring.c:456-548 | for any buffer that holds the most such a steal can take: -1 exactly if the lock is free at no try; otherwise, of the shared part of the queue found under the lock, as much as was asked for or half, rounded up, or all, whichever is less; the buffer holds that prefix of the queue, the rest of it is untouched, and the whole steal is its steps of the machine on the ring on entry |
| `SdcCalls.StealLeads` | libtc/sdc_shr_ring.c:456-548 | guarded steps of the machine lead from the ring a steal finds to the ring it leaves, with anything guarded in its gaps |
| `SdcCalls.ReacquireLeads` | libtc/sdc_shr_ring.c:300-327 | the same for a reacquire |
| `SdcCalls.EnsureLeads` | libtc/sdc_shr_ring.c:245-269 | the same for making space, however it ends |
| `SdcCalls.AnyGap` | libtc/sdc_shr_ring.c:221-548 | whatever guarded steps others can take, in any order, a gap can hold |
| `TerminationSteps.StepKeeps` | libtc/termination.c:196-323 | every vote, every half of a broadcast and every move of the counters keeps the invariant of the waves, for any number of elements |
| `TerminationSafety.RootSumCoversAll` | libtc/termination.c:275-277 | the root's sum counts each element's sample of the wave exactly once |
| `TerminationSafety.VotesAlternate` | libtc/termination.c:51-108 | on every edge, votes up minus verdicts down is 0 or 1 |
| `TerminationSafety.NoTokenOverwritten` | libtc/termination.c:59-105 | a token is sent only to a mailbox whose previous token has been used |
| `TerminationSafety.WavesSeparate` | libtc/termination.c:228-316 | whoever samples for a wave does so after everyone sampled for the wave before, and nobody is two waves ahead |
| `TerminationSafety.DecisionIsTrue` | libtc/termination.c:284-289 | a decision means: at the evaluation before, all counters at once were exactly what both of the last two waves sampled, and spawned equalled completed |
| `TerminationSafety.DetectedIsDecided` | libtc/termination.c:231-253 | whoever returns 1 repeats a decision of the root |
| `TerminationSafety.RecordsOccur` | libtc/termination.c:284-289 | the vector of counters noted at each evaluation is that of a real instant of the run |
| `TerminationSafety.DetectionIsSafe` | libtc/termination.c:196-323 | if any vote returned 1, at a real instant of the run the counters were all at once those of the deciding wave, and spawned equalled completed |
| `TerminationProgress.NeverStuck` | libtc/termination.c:228-316 | as long as somebody has not detected termination, some vote or broadcast makes progress |
| `TerminationProgress.EffectiveRises` | libtc/termination.c:228-316 | every step that is not a fruitless poll raises the rank of the tree |
| `TerminationProgress.RankBounded` | libtc/termination.c:228-316 | the rank is bounded by the number of the root's evaluations |
| `TerminationProgress.VerdictIff` | libtc/termination.c:201-211 | an evaluation, alone or at the root of a tree, decides exactly if its wave is balanced and repeats the one before |
| `TerminationProgress.VotingSettles` | libtc/termination.c:228-316 | once counters are final and balanced, every further evaluation finds them, the third has decided, and the rank has risen by at least the number of effective steps |
| `TerminationProgress.VotingDetects` | libtc/termination.c:228-316 | after work is exhausted the root decides by its third evaluation, boundedly many effective steps remain, and until all have detected one of them can be taken |
| `TerminationDetector.Detector.constructor` | libtc/termination.c:116-175 | fresh contexts are those of the initial state |
| `TerminationDetector.Detector.PassTokenUp` | libtc/termination.c:85-108 | writes the parent's left or right mailbox and its vote counter, nothing else |
| `TerminationDetector.Detector.PassTokenLeft` | libtc/termination.c:57-64 | writes the left child's mailbox and vote counter, nothing else |
| `TerminationDetector.Detector.PassTokenRight` | libtc/termination.c:66-73 | the second send is the machine's, on whatever the tree has become meanwhile |
| `TerminationDetector.Detector.VoteDown` | libtc/termination.c:228-256 | the downward case is that of the state machine |
| `TerminationDetector.Detector.Judge` | libtc/termination.c:275-300 | the root's evaluation is that of the state machine |
| `TerminationDetector.Detector.Climb` | libtc/termination.c:301-316 | an upward vote elsewhere is that of the state machine |
| `TerminationDetector.Detector.FirstHalf` | libtc/termination.c:196-323 | a call up to the first send of a broadcast is the machine's vote |
| `TerminationDetector.Detector.AttemptVote` | libtc/termination.c:196-323 | a whole call, updating contexts in place and with anything happening elsewhere between its two sends, is the machine's vote and broadcast, and returns 1 exactly if it detects |
| `TerminationDetector.AnyGap` | libtc/termination.c:196-323 | whatever others can do between the two sends, a gap can hold |
| `RuntimeSteps.BarrierInv` | libtc/common.c:607-609 | the state at the barrier satisfies the runtime's invariant |
| `RuntimeSteps.EventKeeps` | libtc/common.c:425-460 | pushes, pops, claims and deliveries keep it: live tasks are neither lost nor doubled |
| `RuntimeSteps.FinishKeeps` | libtc/task.c:175-178 | counting a task completed only after its callback keeps the counters the number of live tasks |
| `RuntimeSteps.RemoteAddKeeps` | libtc/collection-saws.c:314-328 | a remote add keeps it: counted and not completed are the live tasks and those dropped |
| `RuntimeSteps.NobodyAhead` | libtc/termination.c:280-299 | when the root evaluates, no element has sampled for a later wave |
| `RuntimeSteps.NextKeeps` | libtc/common.c:578-629 | every step of every element keeps it |
| `RuntimeTheorems.DoneMeansDone` | libtc/common.c:611-627 | nobody stops early: when one element has left its loop, nothing is queued, in flight, held or running anywhere, every task added has been executed exactly once and none was dropped |
| `RuntimeTheorems.EndToEnd` | libtc/common.c:578-629 | over any run, what is spawned and not completed is what is live or was dropped by a remote add, and on return everything added has been executed exactly once and nothing was dropped |
| `RuntimeTheorems.LiveWorkProceeds` | libtc/collection-saws.c:218-260 | while a task is alive, some element that is still in the loop can take a step that works on one |
| `RuntimeTheorems.QuietVoteProceeds` | libtc/collection-saws.c:249-255 | when nothing is alive and somebody is still in the loop, an effective vote or broadcast is possible |
| `RuntimeEnding.QuietEnds` | libtc/collection-saws.c:218-260 | once nothing is alive and nothing was dropped, on every schedule boundedly many steps that move the voting are left, and until everybody has left the loop one can be taken |
| `RuntimeEnding.RemoteAddNeverEnds` | libtc/collection-saws.c:304-331 | on any run, once a task was added to another element, the root decides nothing and nobody leaves the loop, ever |
| `RuntimeEnding.CanEndIff` | libtc/collection-saws.c:304-331 | with nothing alive everybody can still leave the loop if and only if nothing was dropped |
| `RuntimeEnding.RunCanEndIff` | libtc/collection-saws.c:314-328 | a run that has come to where nothing is alive can be brought to its end if and only if no task was added to another element |
| `RuntimeEnding.RemoteAddRun` | libtc/collection-saws.c:314-328 | a concrete run of two elements and one remote add after which nobody can ever leave the loop |
| `RuntimeOverSaws.MachineRefines` | libtc/collection-saws.c:183-285 | with SAWS rings for queues, and votes guarded by the ring's own size fields, every step is a step of the runtime |
| `RuntimeOverSaws.MachineRunRefines` | libtc/collection-saws.c:183-285 | and every run a run |
| `RuntimeOverSaws.EndToEndOverRings` | libtc/common.c:611-627 | when one element has left its loop, every ring of every element is without unclaimed tasks and open claims, everything added has been executed exactly once, and nothing was dropped |
| `RuntimeOverSaws.MachineWorkProceeds` | libtc/collection-saws.c:218-260 | over rings, while a task is alive some element in the loop can take a step that works on one, with a single exception: the push of a stolen block for which the ring's size fields leave no room |
| `RuntimeEndingOverSaws.ComesToRest` | libtc/collection-saws.c:218-260 | with nothing alive an element can always get to where its ring's size fields say that no task is available: it finishes its operation and reclaims |
| `RuntimeEndingOverSaws.QuietVoteOverRings` | libtc/collection-saws.c:249-255 | so over rings, too, an effective vote or broadcast can be reached while nothing is alive and somebody is in the loop |
| `RuntimeEndingOverSaws.QuietEndsOverRings` | libtc/collection-saws.c:218-260 | on every schedule over rings boundedly many steps that move the voting are left once nothing is alive and nothing was dropped, and until everybody has left the loop another one can be reached |
| `RuntimeEndingOverSaws.CanEndOverRingsIff` | libtc/collection-saws.c:304-331 | over rings, with nothing alive, everybody can still leave the loop if and only if nothing was dropped |
| `RuntimeEndingOverSaws.MachineRunCanEndIff` | libtc/collection-saws.c:314-328 | a run over rings that has come to where nothing is alive can be brought to its end if and only if no task was added to another element |
| `RuntimeWorker.Worker.GetLocal` | libtc/common.c:411-416 | takes the newest task of the own queue, or finds it empty |
| `RuntimeWorker.Worker.StealTail` | libtc/common.c:425-460 | it steals exactly if the victim has something to take when its turn comes; then the front of the victim's queue is the end of the thief's and, with nobody in the gaps, the victim keeps the rest; nothing added, executed or dropped is forgotten |
| `RuntimeWorker.Worker.AttemptVote` | libtc/collection-saws.c:252-254 | the tree moves on by the machine's vote and broadcast, and the loop ends exactly if that vote detects termination |
| `RuntimeWorker.Worker.GetBuf` | libtc/collection-saws.c:183-285 | own tasks first, the newest; otherwise rounds, one after the other, until a task is running, or termination, or no round is left; if the first round's victim has something to take and nobody interferes, that round brings the newest of what is taken |
| `RuntimeWorker.Worker.OneRound` | libtc/collection-saws.c:218-260 | a round steals if the victim has something to take when its turn comes, and then votes if the own queue is empty, or else takes the newest task there; undisturbed and with an empty own queue it comes back with the last task of the victim's prefix, the rest of the prefix is the own queue and the victim keeps what was behind it |
| `RuntimeWorker.Worker.Execute` | libtc/task.c:168-179 | the own counters grow by one spawned per child and one completed, the task is among the executed, each child was added or dropped as its target says, and undisturbed the own children are at the end of the own queue in the order they were added |
| `RuntimeWorker.Worker.AddTask` | libtc/collection-saws.c:304-331 | a task for the own element is added and then counted as spawned; one for another element is counted and dropped |
| `RuntimeWorker.AddsSplit` | libtc/collection-saws.c:314-328 | every task a callback adds is kept or dropped |
| `RuntimeWorker.Worker.Process` | libtc/common.c:578-629 | the own counters grow by what the callbacks of the tasks this element ran spawn and by the number of those tasks, which are executed and whose children are added or dropped; nothing added or executed is forgotten; when it returns, every task ever added anywhere has been executed exactly once, nothing is left and nothing was dropped |
| `RuntimeCalls.LoopLeads` | libtc/common.c:578-629 | steps of the runtime lead from the system the loop finds to the system it leaves, with anything in its gaps |
| `RuntimeCalls.AnyGap` | libtc/common.c:578-629 | whatever steps of the runtime others can take, in any order, a gap can hold |
| `UtsModel.TreeVisits` | examples/uts/SequentialRecursiveLoadBalancer.cc:3-8 | the reference tally counts each node of the tree exactly once and nothing else |
| `UtsModel.TreeLeaves` | examples/uts/UTSIterator.cc:76-82 | its leaves are the paths of the tree that end in a node without children, each once |
| `UtsModel.DepthCovers` | examples/uts/UTSIterator.cc:76-82 | no path of the tree is longer than its depth |
| `UtsModel.DepthReached` | examples/uts/UTSIterator.cc:76-82 | and some path is that long |
| `UtsModel.RestUnfolds` | examples/uts/UTSIterator.cc:58-73 | what is left of an iterator is its next child's subtree and what is left after `next` |
| `UtsSchedule.DoKeeps` | examples/uts/SciotoRecursiveLoadBalancer.cc:24-75 | taking any pending task or doing one step of any running callback changes nothing about what has been and will be counted |
| `UtsSchedule.DoCounts` | examples/uts/SciotoRecursiveLoadBalancer.cc:24-75 | each of them is one step fewer to go |
| `UtsSchedule.NeverStuck` | examples/uts/SciotoRecursiveLoadBalancer.cc:24-75 | until the search is finished some step is possible |
| `UtsSchedule.AnySchedule` | examples/uts/SciotoRecursiveLoadBalancer.cc:24-75 | with either task function, any number of elements and any order, the search takes the same number of steps and ends with the sequential counts of nodes, leaves and depth |
| `UtsIterator.UTSIterator.Next` | examples/uts/UTSIterator.cc:39-73 | advances the iterator and makes the child's, in place |
| `UtsIterator.UTSIterator.Process` | examples/uts/UTSIterator.cc:76-82 | adds the node to the three counters |
| `UtsIterator.LdbalSequential` | examples/uts/SequentialRecursiveLoadBalancer.cc:3-8 | counts everything that is left to count from the iterator on |
| `UtsIterator.Sequential` | examples/uts/SequentialRecursiveLoadBalancer.cc:3-8 | from the root, the reference tally |
| `UtsIterator.EffectsAreSteps` | examples/uts/SciotoRecursiveLoadBalancer.cc:24-75 | a callback run on its own is the sequence of its steps in the schedule |
| `UtsIterator.TaskFcn` | examples/uts/SciotoRecursiveLoadBalancer.cc:50-75 | the loop processes its node and adds all its children, as the schedule assumes |
| `UtsIterator.StrictDfsTaskFcn` | examples/uts/SciotoRecursiveLoadBalancer.cc:24-47 | re-adds the parent before the child, or processes it after its last child, as the schedule assumes |
| `Sha1Compile.ShortForms` | examples/uts/rng/brg_sha1.c:164-166 | the reduced ch and maj are the functions of section 4.1.1 of FIPS 180-4 |
| `Sha1Compile.SameConstants` | examples/uts/rng/brg_sha1.c:210-238 | the constants of the cycles are those of section 4.2.1 |
| `Sha1Spec.ConstantsAreRoots` | examples/uts/rng/brg_sha1.c:210-238 | and each of them is the integer part of 2^30 times the square root of 2, 3, 5 or 10 |
| `Sha1Spec.RotlRotates` | examples/uts/rng/brg_sha1.c:133-134 | the rotations by shifts are those of the 32-bit word |
| `Sha1Compile.NextWord` | examples/uts/rng/brg_sha1.c:216-218 | the word computed into slot `t mod 16` is word `t` of the schedule of section 6.1.2, step 1, as section 6.1.3 has it |
| `Sha1Compile.OneCycle` | examples/uts/rng/brg_sha1.c:183-186 | one cycle, which writes two registers, is one round of section 6.1.2 with the roles moved on |
| `Sha1Compile.Cycles` | examples/uts/rng/brg_sha1.c:210-238 | the eighty cycles are the eighty rounds |
| `Sha1Compile.Compile` | examples/uts/rng/brg_sha1.c:195-249 | the chaining value after a block is that of section 6.1.2, steps 1 to 4 |
| `Sha1Bytes.MaskedIs` | examples/uts/rng/brg_sha1.c:297-298 | the padding byte follows the data and nothing stale is left behind it in its word |
| `Sha1Context.LengthWords` | examples/uts/rng/brg_sha1.c:319-320 | the two length words are the 64-bit length in bits |
| `Sha1Context.CountsAdd` | examples/uts/rng/brg_sha1.c:269-270 | the count of bytes in two words, with the carry found by comparison, is exact modulo 2^64 |
| `Sha1Context.Sha1Ctx.constructor` | examples/uts/rng/brg_sha1.c:251-259 | a begun context has been fed the empty message |
| `Sha1Context.Sha1Ctx.Hash` | examples/uts/rng/brg_sha1.c:264-281 | a context fed `m` is, after any further piece, fed `m` and that piece |
| `Sha1Context.Sha1Ctx.End` | examples/uts/rng/brg_sha1.c:285-327 | the digest is that of section 6.1.2 of the message padded as in section 5.1.1 |
| `Sha1Context.DigestOfPieces` | examples/uts/rng/brg_sha1.c:251-327 | for every split of a message into calls, and on either byte order, the digest is that of the standard |
| `Sha1Context.Digest1` | examples/uts/rng/brg_sha1.c:329-333 | the one-call form too |
| `Sha1Context.RngInit` | examples/uts/rng/brg_sha1.c:49-65 | the root state is the digest of sixteen zero bytes and the seed |
| `Sha1Context.RngSpawn` | examples/uts/rng/brg_sha1.c:67-81 | a child's state is the digest of its parent's state and its number |

## Left out

- SdcTheorems.RunRefines: holds for runs without the overfilling release; `SdcOverfill.ReleaseIsSafeIff` shows that the guard is the exact condition for pushes to be safe after a release.
- SdcTheorems.TasksConserved: the same guard.
- SdcSteps.StepKeeps: the same guard, as a precondition of that one step.
- SdcTheorems.ReservedSlotsStay: the same guard.
- SdcRing.Ring.PopNTail: as in all in-place operations on that ring, overfilling releases are passed over among what the others do; and so in `SdcCalls`.
- SawsRing.Ring.Reacquire: the retry loop is followed for as many gaps as there are lists of turns; `SawsWaiting` shows which round is the last. That thieves are scheduled is not stated.
- SawsRing.Ring.AwaitPrevious: the same.
- SdcRing.Ring.EnsureSpace: likewise for the busy-wait, for which `SdcTheorems.QuietReadEndsWait`, `SdcTheorems.WaitingCountsDown` and `SdcTheorems.PendingThiefCanMove` say the same, and for the lock, whose fairness is not stated.
- RuntimeWorker.Worker.GetBuf: votes when the abstract queue is empty; that the test of the ring's size fields implies this is in `RuntimeOverSaws`, that it can be met in `RuntimeEndingOverSaws`. It follows the loop for as many rounds as it is given.
- RuntimeWorker.Worker.Process: partial correctness, since the callbacks of a program may add tasks for ever; `RuntimeEnding.QuietEnds` is about what happens once they do not.
- RuntimeOverSaws.MachineWorkProceeds: the exception is about the sizes before the reclaim that the code tries next; what that reclaim is worth is in `SawsRoom`, for a ring nobody is stealing from.
- TerminationDetector.Detector.AttemptVote: an element's own direction and remembered counters, which nobody else reads, are written before the second send of a broadcast; the code writes them after it.
- RuntimeTheorems.EndToEnd: stealing enabled and no external work, as the loop exit assumes; a program that disables stealing or announces external work is not modelled.
- Composition of the runtime with SDC rings: they implement the same abstract queue, but the step-by-step composition is done for SAWS only.
- The word as 64 bits inside the ring: the ring keeps the four fields apart; `StealWord` shows that the packed form behaves the same, in 64-bit arithmetic and as a number; that the two kinds of arithmetic agree is not stated.
- Updates of fields only their owner reads are folded into the neighbouring step of the state machine; in the classes they are separate assignments.
- The three vote counters an element reads at the start of a vote are read in one step; they only grow, and only the ones that are used matter.
- OpenSHMEM, its network and allocation: each get, put, atomic, quiet and barrier is one step under the assumptions above.
- Timers, statistics, printing, debug levels, signal handling, initialisation and shutdown.
- `saws_shrb_release_all` and `sdc_shrb_release_all`, which only tests call, the disabled inbox code, the `SDC_NODC` variant, in-place create-and-add, and the process-group interface.
- Byte layout of tasks: a task is one element of the ring; callbacks are functions from a task to the tasks it adds.
- Choice of victims, backoff and retry tuning: the victim and what the others do are parameters.
- Lookup tables for handles and common local objects, which would add only easy members.
- The shape and branching distributions of the tree search, which are floating point: a tree is any finite tree; and its breadth-first seeding, whose iterators are not initialised.
- The eighty unrolled cycles of SHA-1 are a loop over the same cycle; the other entry points of the generator (`rng_rand`, `rng_nextrand`, display) are not modelled.
- The MADNESS application, benchmarks and tests.
