# Verification of the review server and its worker

These Dafny modules model the parts of the code review server and its queue worker whose correctness cannot be read
off one branch, and prove what they keep. Every module follows one source file or one group of them.

**Diff engine.** A patch is a sequence of lines, each a header, a malformed header, context, an addition, a deletion or
anything else (`Patch.dfy`); files are lists of lines. `ExtendPatch.dfy`, `ExtendTheorems.dfy` and `ExtendCases.dfy` add surrounding
context to hunks, `HunkNumbers.dfy`, `HunkTheorems.dfy`, `HunkNumbering.dfy` and `HunkSections.dfy` print hunks with line numbers,
`Packing.dfy` and `FileBudget.dfy` choose what fits into a model call, `UnifiedDiff.dfy` makes the diff of one
suggestion, `LongestChain.dfy` measures a diagram.

**Review queues.** `ReviewQueue.dfy` is the in-memory queue; `QueueRows.dfy` the database rows and the statements on
them; `DbReviewQueue.dfy` the process that pumps the rows, `DbOutcomes.dfy` what becomes of a row and `DbDrain.dfy` the
drain, where every `await` is a point at which any other step may happen, crashes and reboots included.

**Upstream sync.** `SyncSweep.dfy` is a tick of the sync worker, `SyncTheorems.dfy` what ticks keep,
`SyncTurns.dfy` what one tick leaves of one fork, `SyncFairness.dfy` that no fork starves, `SyncMerge.dfy` the git side of one attempt, with an agent that may leave
anything behind.

**Pull request pipeline.** `FixState.dfy` is the worker's record of a pull request, `PrPipeline.dfy` one turn of the
pipeline as a trace of effects, with GitHub's answers arbitrary.

**The rest.** `Workdirs.dfy` names and sweeps clones, `Fallback.dfy` asks one model after another. `Text.dfy`,
`Lists.dfy` and `Basics.dfy` hold what these share.

Loops and classes of the source are methods and classes here, proved against functions; the theorems are lemmas about
those functions, over every input and every run. `dafny verify dfyconfig.toml` checks the project.

## Where the code and its comments part

The model follows the code. These are the places where the code does something else than its comments or its readers
expect, each with the member that shows it.

- In memory, one live job a key is not kept: the re-run is pushed without its key (`ReviewQueueSpec.TwoReviewsOfOnePullRequest`, exact condition in `OneLivePerKeyIff`), and repeated pushes can give every slot to one pull request (`AllSlotsForOnePullRequest`).
- In the database a request for a done row is dropped (`QueueRows.EnqueueIsTakenIff`); a failed row that kept its re-run flag is re-armed but reported as deduped, so nobody pumps for it (`QueueRows.VerdictIff`); an empty error text counts as success (`QueueRows.IsError`); a second process that boots breaks the exclusion (`DbQueueSpec.SecondBootBreaksExclusion`).
- After a reset, an extended header is short by the trailing lines (`ExtendTheorems.SizesAreHonestIff`), and trailing context is the base's, so it can be wrong for the head (`ExtendedPatchDescribesIff`).
- The headings of a compressed diff name no file: their lists are never filled, so they only cost room (`FileBudget.GetPrDiff`).
- Draining the database queue can return just before a review starts, and does not wait for a request kept by a failed row (`DbDrain.RequestSlipsPastDrain`, `DrainLeavesNothing`); and its poll loop, parked at the cap, leaves a free slot empty until nothing runs (`DbQueueSpec.ParkedLoopLeavesASlotEmpty`).
- Lines that merely contain the words of git's marker for a missing newline are dropped, which shifts the numbers after them (`HunkNumbering.ShownNumber`, `NumbersAreInPlaceIff`) and, in a header, hides the hunk (`HunkTheorems.PhraseInHeaderHidesTheHunk`).
- The diff of a suggestion names the line after an empty side, where the unified format names the line before (`UnifiedDiffs.HeaderIsConventionalIff`).
- A diagram node called `constructor`, `toString` or like any other inherited property makes the chain search throw (`LongestChains.LongestChain`).
- A complaint that is an empty string accepts the response (`Fallback.Accepted`).
- A reverted upstream tip is not tried again (`SyncTheorems.RevertDoesNotReopenTip`); the tip guard of the watch does not act on an empty read (`SyncTheorems.TickRevertsIff`); a watch without a commit never ends by itself (`SyncTheorems.NamelessWatchStays`); a revert that fails ends the watch all the same and leaves the red merge in place (`SyncTheorems.FailedRevertLeavesTheMerge`, `FailedRevertIsFinal`); as many forks whose attempts throw as the budget allows starve the rest (`SyncFairness.ThrowingForksStarve`), fewer do not (`NoForkStarves`).
- An agent that commits its merge, as its prompt tells it to, loses it if it leaves anything else behind, because the commit that follows has no message outside a merge (`SyncForks.CommittedMergeIsKeptIff`); one that aborts the merge is recorded as having synced (`SyncForks.AbortedMergeIsReportedSynced`).
- The marker search sees tracked files only while the staging takes new ones too (`SyncForks.MarkerReachesHeadIff`), and it does not match labelled markers (`SyncForks.LabelledMarkersReachHead`); a refused commit of the quality pass is reported as made (`SyncForks.ReportedCommitIsRealIff`).
- A second skipped head is not announced (`FixState.SkipIsAnnouncedIff`); the conflict resolver does not look at the budget ceiling (`PrPipelines.ConflictRunsPastTheCeiling`); a tick's prune can lose the record of an open pull request, and its tallies with it (`FixState.OpenRecordIsLostIff`, `SixAroundOnePrune`); `AI_FIX_RETRY_CEILING` is not read anywhere, so no bound on re-offers is claimed.
- The clone of a repository whose name ends like an infix is not recognised as its own (`Workdirs.LiveCloneTakenForAnother`), so it can be swept while its pull request is open (`OpenCloneIsSweptIff`).

## Model

| member | source | states |
|---|---|---|
| `ExtendPatches.ExtendPatch` | apps/api/src/legacy/diff/extend.ts:32-168 | one pass over the lines emits exactly the hunk-by-hunk extension, for every list of lines, well-formed or not |
| `ExtendPatches.ExtendHeader` | apps/api/src/legacy/diff/extend.ts:79-145 | the limits, section text and leading lines of one header: dynamic search, mini-match, reset, section removal |
| `ExtendPatches.FindSection` | apps/api/src/legacy/diff/extend.ts:86-100 | the first leading line that holds the section text |
| `ExtendPatches.MiniMatch` | apps/api/src/legacy/diff/extend.ts:114-125 | the first offset at which the two leads agree to the end |
| `ExtendPatches.OpenHunk` | apps/api/src/legacy/diff/extend.ts:63-154 | the header branch: a hunk whose first line does not match its file gets its own header, written out in full, and no context; which hunks those are, in `ExtendCases.ContradictingHunkIsLeftAlone` |
| `ExtendTheorems.SizesAreHonestIff` | apps/api/src/legacy/diff/extend.ts:66-77 | the new header counts the lines under it on both sides, exactly unless the lead was reset in front of trailing lines; then both counts are short by those lines |
| `ExtendTheorems.ResetIff` | apps/api/src/legacy/diff/extend.ts:102-134 | when the reset happens, in terms of the two files: no enclosing declaration found, and the lines before the hunk differ in number or in the last one |
| `ExtendTheorems.LeadIsShared` | apps/api/src/legacy/diff/extend.ts:105-136 | the leading context is in both files, directly before the hunk, from the lines the new header names |
| `ExtendTheorems.OldSideStaysTrue` | apps/api/src/legacy/diff/extend.ts:50-56 | an extended hunk that described the base file still does, at the line its header names |
| `ExtendTheorems.NewSideStaysTrueIff` | apps/api/src/legacy/diff/extend.ts:160-166 | on the head file it does if and only if the lines after the hunk are the same in both files |
| `ExtendTheorems.ExtendedPatchDescribesIff` | apps/api/src/legacy/diff/extend.ts:44-168 | a whole patch that applies still describes the base, hunk by hunk at the lines its headers name, and it describes the head if and only if the lines put behind each hunk stand there too |
| `ExtendTheorems.ExtendedPatchCountsIff` | apps/api/src/legacy/diff/extend.ts:44-168 | for every hunk of a whole patch, the new header counts its lines if and only if its lead was not reset in front of trailing lines |
| `ExtendTheorems.MiniMatchIsLongestCommonTail` | apps/api/src/legacy/diff/extend.ts:112-125 | between leads of equal length the mini-match keeps their longest common tail |
| `ExtendTheorems.ExtendKeepsChanges` | apps/api/src/legacy/diff/extend.ts:10-169 | only context is added: on every patch the added and deleted lines are the same ones in the same order |
| `ExtendTheorems.HunksCorrespond` | apps/api/src/legacy/diff/extend.ts:44-168 | the output has the input's hunks, each with its own body between added context lines |
| `ExtendTheorems.ResetHeaderIsShort` | apps/api/src/legacy/diff/extend.ts:126-134 | a concrete patch whose header comes out one line short |
| `ExtendCases.ExtendedHunkInFull` | apps/api/src/legacy/diff/extend.ts:44-168 | every hunk of a patch that fits the files and does not contradict the base, told from the two files alone: how many lines it gets in front (from the farthest line that holds the section text, if the files agree from there on; else the longest stretch they share), how many behind, and all of its header, characters included |
| `ExtendCases.ContradictingHunkIsLeftAlone` | apps/api/src/legacy/diff/extend.ts:63-154 | a hunk whose first line is context and is not the base line it names, white space around them apart, comes out with its own lines and its own numbers |
| `ExtendCases.SharedContextIsAdded` | apps/api/src/legacy/diff/extend.ts:102-166 | without the dynamic search, a hunk that describes the base, with the same lines in front in both files, grows by exactly the lines asked for on both ends, as far as the base has them |
| `ExtendCases.PatchIsLeftAlone` | apps/api/src/legacy/diff/extend.ts:19-26 | no context asked for, an empty base or a file to skip: the patch is returned as it is |
| `Text.TrimMeans` | apps/api/src/legacy/diff/extend.ts:177-193 | what is compared: trimming takes the white space off both ends and nothing else |
| `Text.IncludesIff` | apps/api/src/legacy/diff/extend.ts:86-145 | and searched: a text is in another if and only if something before and something behind it make up the other |
| `Patches.NumeralsAreApart` | apps/api/src/legacy/diff/extend.ts:147-154 | two headers with the same characters have the same four numbers |
| `Patches.FlattenHunks` | apps/api/src/legacy/diff/hunk.ts:33-43 | splitting a patch at its headers loses nothing: writing the hunks out again gives the patch |
| `Patches.HunksOfFlatten` | apps/api/src/legacy/diff/hunk.ts:33-43 | and splitting what was written out gives the same hunks |
| `HunkNumbers.Convert` | apps/api/src/legacy/diff/hunk.ts:88-159 | the loop with its closure prints exactly what the line-by-line specification says, for every list of lines |
| `HunkNumbers.FlushHunk` | apps/api/src/legacy/diff/hunk.ts:108-126 | the sections one flush prints, and that it clears what waited |
| `HunkNumbers.OmitDeletionHunks` | apps/api/src/legacy/diff/hunk.ts:45-72 | hunks that add nothing and malformed headers go; what precedes the first header stays with the first hunk |
| `HunkTheorems.EveryChangeOnce` | apps/api/src/legacy/diff/hunk.ts:128-158 | every change the conversion looks at is printed once, in order and under its own characters, or still waits at the end for a header that never came |
| `HunkTheorems.EveryAdditionShownOnce` | apps/api/src/legacy/diff/hunk.ts:45-159 | the two passes together, on every patch: each added line exactly once and in order, but for lines with the phrase, and none at all when no header without it is left |
| `HunkTheorems.OmittedKeepsAdditions` | apps/api/src/legacy/diff/hunk.ts:45-72 | leaving out hunks loses no added line, unless the patch has no header |
| `HunkTheorems.PhraseInHeaderHidesTheHunk` | apps/api/src/legacy/diff/hunk.ts:130 | a patch that adds a line and shows none, because its only header's section text holds the phrase |
| `HunkSections.SectionsAre` | apps/api/src/legacy/diff/hunk.ts:88-159 | the whole output for every patch that begins with a header and holds no malformed one: the title, and for each hunk its heading, its numbered section and its quoted one, with which lines and when |
| `HunkSections.KeptIs` | apps/api/src/legacy/diff/hunk.ts:128-152 | which lines are left out, by their places: those with the words, and an empty line that is not the first and ends a hunk or the patch |
| `HunkSections.PhraseIff` | apps/api/src/legacy/diff/hunk.ts:130 | what it is to hold the words: they stand somewhere in the line, in small letters or capitals |
| `HunkSections.DeletedIs` | apps/api/src/legacy/diff/hunk.ts:92-97 | a deleted file shows that it was, and nothing else |
| `HunkSections.TrimTailMeans` | apps/api/src/legacy/diff/hunk.ts:114-158 | what the trimming leaves: the printed lines up to the last that is not blank |
| `HunkNumbering.NumbersAreCounted` | apps/api/src/legacy/diff/hunk.ts:114-154 | for every patch: the numbers shown are, hunk by hunk, the header's start and up, over the lines that are not deletions; a hunk that holds a malformed header, and lines before the first header, are counted under the next header |
| `HunkNumbering.ShownNumber` | apps/api/src/legacy/diff/hunk.ts:115-117 | a line's number is its own place less the lines before it in the hunk that hold the phrase, so it is right if and only if there are none |
| `HunkNumbering.NumbersAreInPlaceIff` | apps/api/src/legacy/diff/hunk.ts:114-130 | for every patch as diff writes it, each shown line has the number of its own place if and only if, in each hunk that shows any, no line with the phrase stands on the new side before a shown one |
| `HunkNumbering.NumbersAreRight` | apps/api/src/legacy/diff/hunk.ts:88-159 | then, where the hunks are true of the head file, every number shown is that line's place in the head file |
| `HunkNumbering.NumberedPatchIsRight` | apps/api/src/legacy/diff/hunk.ts:45-159 | both passes together: every added line once and in order, and the numbers right under exactly that condition on the hunks that add something |
| `Packing.Pack` | apps/api/src/legacy/diff/multi.ts:69-107 | the chunk loop yields the first maxCalls of the full chunks |
| `Packing.GetPrMultiDiffs` | apps/api/src/legacy/diff/multi.ts:26-111 | the single diff when everything fits or nothing is packed, otherwise the packed files, largest first |
| `Packing.PacksLargestFirst` | apps/api/src/legacy/diff/multi.ts:26-111 | told without the chunk loop: nothing is packed exactly if the whole diff fits, nothing is shown or there is no call; otherwise the same files, largest first and stable, packed within the limit, and all of them exactly if some packing in that order takes all |
| `Packing.FileByFile` | apps/api/src/legacy/diff/multi.ts:30-66 | what is counted and what is shown of a list of files, file by file |
| `Packing.PackedIsPrefix` | apps/api/src/legacy/diff/multi.ts:85-107 | chunks are a prefix of the files in order, at most maxCalls of them, each within the limit or a single file; all files exactly when the full chunks are few enough |
| `Packing.LeftOutIff` | apps/api/src/legacy/diff/multi.ts:85-107 | a file is left out if and only if no packing in this order fits all files into the allowed calls |
| `Packing.LeftOutOnlyWhenLarge` | apps/api/src/legacy/diff/multi.ts:85-107 | and then the files weigh more than the limit times half the calls, rounded up |
| `Packing.FewestFrom` | apps/api/src/legacy/diff/multi.ts:85-107 | no packing of the files in order uses fewer chunks, from any point it is not ahead of |
| `FileBudget.GenerateFullPatch` | apps/api/src/legacy/diff/budget.ts:29-67 | the loop with its three continues, against the turn-by-turn specification |
| `FileBudget.EachTurn` | apps/api/src/legacy/diff/budget.ts:29-67 | each file, whatever was offered before it: left over exactly if it has no room at its turn, in the numbers of the configuration, and otherwise framed or as it stands |
| `FileBudget.FullPatchKeepsTheBudget` | apps/api/src/legacy/diff/budget.ts:29-67 | the total stays within the prompt or the soft threshold plus one frame; files in the diff and left over interleave to the input; nothing left over would still fit |
| `FileBudget.TotalIsBoundedWithoutSoft` | apps/api/src/legacy/diff/budget.ts:45-53 | with an unlimited soft threshold the total passes the hard one by at most one file |
| `FileBudget.GetPrDiff` | apps/api/src/legacy/diff/budget.ts:70-170 | both passes over the sorted files, the choice between them, and the headings added while there is room |
| `FileBudget.WholeIff` | apps/api/src/legacy/diff/budget.ts:99-105 | the whole extended diff is given exactly if it leaves the soft threshold free |
| `FileBudget.HeadingsTurn` | apps/api/src/legacy/diff/budget.ts:137-167 | each heading: added exactly if there is room, whole or cut to it |
| `FileBudget.FileByFile` | apps/api/src/legacy/diff/budget.ts:85-128 | what is counted and what is shown of a list of files, file by file |
| `FileBudget.PrDiffFits` | apps/api/src/legacy/diff/budget.ts:99-170 | a whole diff stays under the soft threshold; a compressed one passes it by one frame or the hard limit by one clipped heading at most |
| `FileBudget.PrDiffKeepsAll` | apps/api/src/legacy/diff/budget.ts:106-135 | each file with something to show is in a compressed diff or left over, in order, and nothing left over would still fit |
| `FileBudget.HeadingsAreBounded` | apps/api/src/legacy/diff/budget.ts:137-167 | no heading without room, and at most one passes the limit |
| `FileBudget.SortFilesByMainLanguages` | apps/api/src/legacy/diff/multi.ts:119-163 | the bucket loop against its specification |
| `FileBudget.OrderedIsStable` | apps/api/src/legacy/diff/multi.ts:156-163 | for every language, the files of that language are the same ones in the same order |
| `FileBudget.OrderedIsGrouped` | apps/api/src/legacy/diff/multi.ts:119-163 | files of a larger language come before those of a smaller one, and all others last |
| `Lists.SortIsStable` | apps/api/src/legacy/diff/multi.ts:67 | the descending sort orders, and keeps the elements of each key and their order |
| `UnifiedDiffs.UnifiedDiff` | apps/api/src/legacy/tools/improve.ts:256-290 | the two loops stop at the longest common start and then the longest common end, and the output is the hunk between |
| `UnifiedDiffs.TrimmedMeans` | apps/api/src/legacy/tools/improve.ts:256-262 | an empty last line goes, and nothing else |
| `UnifiedDiffs.FencedIs` | apps/api/src/legacy/tools/improve.ts:281-290 | the output line by line: fence, header with its characters, what goes, what comes, fence |
| `UnifiedDiffs.AppliesAndUndoes` | apps/api/src/legacy/tools/improve.ts:281-289 | applying the hunk read back from the output turns the old lines into the new ones, undoing it the new into the old |
| `UnifiedDiffs.NoSmallerHunk` | apps/api/src/legacy/tools/improve.ts:265-279 | no other common start and end keep more lines |
| `UnifiedDiffs.EmptyIffSame` | apps/api/src/legacy/tools/improve.ts:281-288 | both middles are empty if and only if the snippets are the same |
| `UnifiedDiffs.HeaderIsConventionalIff` | apps/api/src/legacy/tools/improve.ts:282-284 | the header's numbers are the unified format's own if and only if neither middle is empty |
| `LongestChains.LongestChain` | apps/api/src/legacy/tools/describe.ts:293-311 | the result is the number of nodes on a longest simple path, or a TypeError exactly when some end of an edge has the name of an inherited property |
| `LongestChains.Search.Dfs` | apps/api/src/legacy/tools/describe.ts:301-308 | the recursion covers every simple path through its node, restores the visited set, and terminates |
| `LongestChains.Search.Build` | apps/api/src/legacy/tools/describe.ts:294-298 | the adjacency record, or the TypeError of the first source with an inherited name |
| `LongestChains.SimpleMeans` | apps/api/src/legacy/tools/describe.ts:301-308 | what a simple path is, without recursion: distinct nodes linked by edges |
| `Fallback.CallWithFallback` | apps/api/src/infrastructure/llm/llm.ts:125-181 | the winner is an attempt that was due and was accepted, or every model gave up; the calls made are exactly the attempts due, in order |
| `Fallback.AsksAgainIff` | apps/api/src/infrastructure/llm/llm.ts:125-171 | told by the answers: a model is asked again exactly after a failure in passing or a complaint and with retries left, the next one exactly when none before would do, and the result is the one answer that did |
| `Fallback.OneWinner` | apps/api/src/infrastructure/llm/llm.ts:125-171 | at most one attempt can be due and accepted, so the result is determined |
| `Fallback.FailsIff` | apps/api/src/infrastructure/llm/llm.ts:125-181 | the call fails only when no model, asked alone, would have been accepted |
| `Fallback.CallsAreBounded` | apps/api/src/infrastructure/llm/llm.ts:123-127 | at most retries + 1 calls a model |
| `ReviewQueues.ReviewQueue.constructor` | apps/api/src/application/queue/review-queue.ts:36-40 | an empty queue with at least one slot |
| `ReviewQueues.ReviewQueue.Enqueue` | apps/api/src/application/queue/review-queue.ts:47-57 | the new state and the verdict |
| `ReviewQueues.ReviewQueue.Pump` | apps/api/src/application/queue/review-queue.ts:73-80 | free slots are filled from the head |
| `ReviewQueues.ReviewQueue.Settle` | apps/api/src/application/queue/review-queue.ts:82-112 | the whole finally block: key released, coalesced re-run appended, slots filled, waiters answered when idle |
| `ReviewQueues.ReviewQueue.Drain` | apps/api/src/application/queue/review-queue.ts:65-70 | answered at once when idle, parked otherwise |
| `ReviewQueueSpec.EveryRunKeepsTheInvariant` | apps/api/src/application/queue/review-queue.ts:47-112 | every reachable state: at most concurrency runs, a waiting job only when all slots are taken, rerun inside inFlight inside the live keys |
| `ReviewQueueSpec.EveryRequestGetsALaterRun` | apps/api/src/application/queue/review-queue.ts:42-112 | once nothing more arrives, after exactly live + rerun settlements the queue is idle and every request ever made had a run that started after it |
| `ReviewQueueSpec.RequestsStayHonoured` | apps/api/src/application/queue/review-queue.ts:42-57 | no request, queued or deduped, is forgotten at any later point of any run |
| `ReviewQueueSpec.FirstComeFirstServed` | apps/api/src/application/queue/review-queue.ts:47-104 | over every run: what has started is the beginning of what came to wait, in its order, and what waits is the rest, so nothing runs that was not asked for |
| `ReviewQueueSpec.WhoJoins` | apps/api/src/application/queue/review-queue.ts:47-101 | what each event adds to the line and to the known and flagged keys: a known key is only flagged, and a flagged run that ends joins again |
| `Jobs.KeysAreApart` | apps/api/src/application/queue/review-queue.ts:21 | different pull requests have different keys |
| `ReviewQueueSpec.SettlementsLeft` | apps/api/src/application/queue/review-queue.ts:94-104 | each settlement uses up exactly one unit of the work left |
| `ReviewQueueSpec.DrainResolvesOnlyWhenIdle` | apps/api/src/application/queue/review-queue.ts:64-70 | drain is answered by an idle queue only, and no waiter is lost |
| `ReviewQueueSpec.OneLivePerKeyIff` | apps/api/src/application/queue/review-queue.ts:95-101 | one live job a key survives a step if and only if the step is not an enqueue of a key whose coalesced re-run is live |
| `ReviewQueueSpec.TwoReviewsOfOnePullRequest` | apps/api/src/application/queue/review-queue.ts:95-101 | a run of four events that puts one pull request into both slots |
| `ReviewQueueSpec.AllSlotsForOnePullRequest` | apps/api/src/application/queue/review-queue.ts:95-101 | for every number of slots there is a run that gives them all to one pull request |
| `QueueRows.QueueRepository.Enqueue` | apps/api/src/infrastructure/db/repositories/queue-repository.ts:67-149 | the row after the conflict clause, and the verdict |
| `QueueRows.QueueRepository.ClaimDue` | apps/api/src/infrastructure/db/repositories/queue-repository.ts:152-178 | the rows claimed are the oldest due ones, as many as there are slots, and become running |
| `QueueRows.QueueRepository.Complete` | apps/api/src/infrastructure/db/repositories/queue-repository.ts:201-244 | the row after the run, and whether it runs again; what that row is, in `DbOutcomes.SettlementWrites` |
| `QueueRows.QueueRepository.RequeueInterrupted` | apps/api/src/infrastructure/db/repositories/queue-repository.ts:247-254 | every running row becomes pending, counted |
| `QueueRows.QueueRepository.Stats` | apps/api/src/infrastructure/db/repositories/queue-repository.ts:256-265 | the number of rows in each state, zero included, from grouped rows that leave out the states that do not occur |
| `QueueRows.EnqueueIsTakenIff` | apps/api/src/infrastructure/db/repositories/queue-repository.ts:108-125 | a request waits to be run if and only if its row was not done; on a done row it leaves no trace |
| `QueueRows.VerdictIff` | apps/api/src/infrastructure/db/repositories/queue-repository.ts:147-149 | when the verdict is not deduped, and the one case in which a row is re-armed and still reported as deduped |
| `DbReviewQueues.DbReviewQueue.Enqueue` | apps/api/src/infrastructure/queue/db-review-queue.ts:106-110 | one request, as a step of the model |
| `DbReviewQueues.DbReviewQueue.BeginPump` | apps/api/src/infrastructure/queue/db-review-queue.ts:75-79 | the synchronous start of a pump |
| `DbReviewQueues.DbReviewQueue.Claim` | apps/api/src/infrastructure/queue/db-review-queue.ts:81 | the claim's commit |
| `DbReviewQueues.DbReviewQueue.StartDue` | apps/api/src/infrastructure/queue/db-review-queue.ts:82-89 | the claimed jobs start, and the pump ends |
| `DbReviewQueues.DbReviewQueue.ClaimFailed` | apps/api/src/infrastructure/queue/db-review-queue.ts:85-89 | a claim that throws ends the pump |
| `DbReviewQueues.DbReviewQueue.Settle` | apps/api/src/infrastructure/queue/db-review-queue.ts:52-62 | a run's end is written to its row |
| `DbReviewQueues.DbReviewQueue.Finish` | apps/api/src/infrastructure/queue/db-review-queue.ts:63-72 | the finally block: a slot freed, another pump or the waiters answered |
| `DbReviewQueues.DbReviewQueue.SettleIfIdle` | apps/api/src/infrastructure/queue/db-review-queue.ts:42-46 | parked loops are released when nothing runs |
| `DbReviewQueues.DbReviewQueue.DrainDecides` | apps/api/src/infrastructure/queue/db-review-queue.ts:134-135 | drain returns if and only if the rows it read were quiet and no run is in flight now; whatever happened in between, the queue is then idle unless a request was taken meanwhile |
| `DbReviewQueues.DbReviewQueue.DrainTurn` | apps/api/src/infrastructure/queue/db-review-queue.ts:133-135 | one turn of drain that nobody interrupts, as steps of the model: it returns only from an idle queue |
| `DbQueueSpec.EveryRunKeepsTheInvariant` | apps/api/src/infrastructure/queue/db-review-queue.ts:37-102 | over all interleavings at every await: counters, phases and the running rows agree |
| `DbQueueSpec.CapHolds` | apps/api/src/infrastructure/queue/db-review-queue.ts:75-84 | runs in flight plus claimed jobs never exceed the cap, and the running rows they account for neither |
| `DbQueueSpec.OneExecutionPerKey` | apps/api/src/infrastructure/db/repositories/queue-repository.ts:152-178 | no key has two runs at once, in one process |
| `DbQueueSpec.ParkedLoopIsWoken` | apps/api/src/infrastructure/queue/db-review-queue.ts:92-102 | a parked loop always has somebody left to wake it |
| `DbQueueSpec.ParkedUntilNothingRuns` | apps/api/src/infrastructure/queue/db-review-queue.ts:42-46 | but a parked loop is let go only when nothing is in flight any more, or by a crash |
| `DbQueueSpec.ParkedLoopLeavesASlotEmpty` | apps/api/src/infrastructure/queue/db-review-queue.ts:92-102 | so with two slots, a run in which one is empty while a row is due and nobody is left to pump for it |
| `DbQueueSpec.RequestIsOwedUntilClaimed` | apps/api/src/infrastructure/db/repositories/queue-repository.ts:108-125 | over every run with crashes and reboots, a request taken on a row that was not done stays pending or flagged until a later claim of its key |
| `DbOutcomes.SettlementWrites` | apps/api/src/infrastructure/db/repositories/queue-repository.ts:201-244 | the row a settled run leaves, field by field: failed exactly with an error text that is not empty, pending and due now exactly when flagged and without one, done otherwise; all other rows stay |
| `DbOutcomes.SuccessIsFinal` | apps/api/src/infrastructure/db/repositories/queue-repository.ts:201-244 | over every run: a run that succeeds with no request while it ran leaves its row done for good, and its key is never claimed again, whatever requests, crashes and boots follow |
| `DbOutcomes.DoneIsFinal` | apps/api/src/infrastructure/db/repositories/queue-repository.ts:89-125 | over every run, a done row never changes |
| `DbOutcomes.FailureWaitsForARequest` | apps/api/src/infrastructure/db/repositories/queue-repository.ts:108-125 | over every run: a failed row stays failed and unclaimed until the next request for its key, which makes it pending, due at once and without its error |
| `DbOutcomes.RequestDuringARunIsRunAgain` | apps/api/src/infrastructure/db/repositories/queue-repository.ts:201-244 | over every run: a request that finds its key running makes the row pending and due when that run succeeds, and the process that settles it goes on to pump |
| `DbOutcomes.AttemptsAreClaims` | apps/api/src/infrastructure/db/repositories/queue-repository.ts:167-175 | over every run, the attempts of a row count its claims and its id stays |
| `DbOutcomes.RequestWrites` | apps/api/src/infrastructure/db/repositories/queue-repository.ts:67-125 | the row a request leaves, by the state it was in |
| `DbOutcomes.ClaimWrites` | apps/api/src/infrastructure/db/repositories/queue-repository.ts:152-178 | only rows that were due, waiting and not locked are claimed, and only they change |
| `DbOutcomes.FinishWrites` | apps/api/src/infrastructure/queue/db-review-queue.ts:63-72 | the end of a run to be repeated asks for every free slot; that of any other wakes the parked loops once nothing is in flight |
| `DbQueueSpec.OwedIsPendingOrFlagged` | apps/api/src/infrastructure/db/repositories/queue-repository.ts:201-254 | what being owed means for the row at every moment |
| `DbQueueSpec.DueRowIsPassedOverBoundedly` | apps/api/src/infrastructure/db/repositories/queue-repository.ts:155-161 | a due row is passed over by at most as many claims as rows were waiting ahead of it |
| `DbQueueSpec.SecondBootBreaksExclusion` | apps/api/src/infrastructure/db/repositories/queue-repository.ts:247-254 | a second process that boots against the same rows makes a running row claimable |
| `DbDrain.DrainLeavesNothing` | apps/api/src/infrastructure/queue/db-review-queue.ts:118-138 | over every interleaving, a drain that returns leaves nothing pending, claimed or running, if no request was taken between its read and its return |
| `DbDrain.RequestSlipsPastDrain` | apps/api/src/infrastructure/queue/db-review-queue.ts:134-135 | and with such a request it can return while a review is about to start |
| `SyncWorkers.SyncWorker.RunUpstreamSync` | apps/worker/src/sync/run.ts:81-157 | a tick is verification, then the order of staleness, then the sweep |
| `SyncWorkers.SyncWorker.SweepForks` | apps/worker/src/sync/sweep.ts:87-180 | the gates in order, the budget, and what each attempt leaves in the state |
| `SyncWorkers.SyncWorker.SyncOne` | apps/worker/src/sync/fork.ts:278-383 | the entry after each outcome, and the skip report's flag |
| `SyncWorkers.SyncWorker.VerifyPendingSyncs` | apps/worker/src/sync/verify.ts:103-223 | the exits of the watch, and for a revert that was started whether it moved the branch; when the watch stands, in `SyncTurns.WatchStandsIff` |
| `SyncWorkers.SyncWorker.RevertMerge` | apps/worker/src/sync/merge.ts:243-291 | the branch is forced back if and only if the clone works, the pre-merge commit has a name and is in it, and the push is accepted |
| `SyncTheorems.BudgetHolds` | apps/worker/src/sync/sweep.ts:95-101 | no tick makes more attempts than the budget, unless a fork was asked for by hand |
| `SyncTurns.TickTurn` | apps/worker/src/sync/sweep.ts:95-177 | one tick for any fork: attempted only with every gate open, and then unless the whole budget goes to others; what the attempt leaves in each field of its entry; and that otherwise the entry stays, but for the note of an old skip |
| `SyncTurns.ShutGateIsRespected` | apps/worker/src/sync/sweep.ts:95-145 | told from the state before the tick: a tip already handled, an interval not over, an open pull request, a fork switched off or not asked for is not attempted, and every other listed fork is unless the budget is spent |
| `SyncTheorems.OneAttemptATip` | apps/worker/src/sync/sweep.ts:131-132 | over every run, no attempt is made at a tip already recorded for its fork |
| `SyncTheorems.BetweenTwoAttempts` | apps/worker/src/sync/sweep.ts:131-132 | two attempts at one tip, the first recorded, have another recorded tip between them |
| `SyncTheorems.RevertDoesNotReopenTip` | apps/worker/src/sync/verify.ts:192-196 | clearing the merged sha does not make the next tick try the reverted tip again |
| `SyncTheorems.WatchesAreConserved` | apps/worker/src/sync/verify.ts:111-220 | over every run, from whatever watches the state file holds: armed, those included, = finished + overwritten + pending; for each at most one revert is started, to its own pre-merge commit |
| `SyncTheorems.EveryRevertIsJustified` | apps/worker/src/sync/verify.ts:115-198 | over every run, each revert that was started was of a named watch that was on, in time and failing, and followed a read of the tip that was the watched merge or nothing at all |
| `SyncTheorems.TickRevertsIff` | apps/worker/src/sync/verify.ts:111-198 | in a tick, exactly when a revert of a watched fork is started, and exactly when its branch is forced back: then the clone, the pre-merge commit and the push must be there besides |
| `SyncTurns.WatchStandsIff` | apps/worker/src/sync/verify.ts:111-220 | with nothing synced for the fork in the tick, its watch stands afterwards if and only if it has no commit or there is no token, or it is on, in time, its tip fits or was not read, no check failed, and either some check has not completed or there is none and the grace is not over |
| `SyncTurns.UndecidedWatchStands` | apps/worker/src/sync/verify.ts:198-211 | over every run, a watch stands through any number of ticks that read it as undecided, unless its fork is synced anew |
| `SyncTurns.FirstFailureStartsTheRevert` | apps/worker/src/sync/verify.ts:166-196 | and the first tick that reads a failure starts its revert |
| `SyncTurns.VerificationLeaves` | apps/worker/src/sync/verify.ts:111-220 | what a verification leaves of every entry: the watch goes or stands, the merged sha is cleared by a failure only |
| `SyncTheorems.FailedRevertLeavesTheMerge` | apps/worker/src/sync/verify.ts:175-198 | a revert that fails leaves the branch where it is, while its watch is finished, counted and forgotten |
| `SyncTheorems.RevertIsNeverStartedAgain` | apps/worker/src/sync/verify.ts:175-198 | from anywhere in any run, a revert once started, moved or not, is the only one of its watch that ever is, and the watch never comes back |
| `SyncTheorems.FailedRevertIsFinal` | apps/worker/src/sync/verify.ts:175-198 | so no run that follows a failed revert tries it again |
| `SyncTheorems.NamelessWatchStays` | apps/worker/src/sync/verify.ts:114-115 | over every run, a watch recorded without a commit stands as it is until a later attempt ends synced and overwrites it |
| `SyncFairness.NoForkStarves` | apps/worker/src/sync/run.ts:131-147 | with fewer than b attempts a tick that leave their clocks alone, say k, a fork that is due until its turn is attempted within n / (b - k) ticks, rounded up, whatever the others do |
| `SyncFairness.ThrowingForksStarve` | apps/worker/src/sync/fork.ts:350-355 | and that bound on k is exact: b forks that are staler, ready and throw in every tick keep a fork from ever being attempted |
| `SyncFairness.TwoThrowingForksStarve` | apps/worker/src/sync/config.ts:72-81 | with the budget of two that the worker always has, two forks that throw from the start starve every fork that was ever synced |
| `SyncFairness.TickMakesWay` | apps/worker/src/sync/sweep.ts:98-177 | a tick attempts the fork, or moves a whole budget of others out of its way, less those that cannot be moved |
| `SyncForks.Workdir.FinishMerge` | apps/worker/src/sync/merge.ts:133-163 | the two guards, the staging and the commit without a message of its own |
| `SyncForks.Workdir.ResolveMerge` | apps/worker/src/sync/resolve.ts:53-158 | agent, salvage, abort and quality pass, with the effects they leave |
| `SyncForks.Workdir.SyncForkRepo` | apps/worker/src/sync/fork.ts:142-359 | what was done, in order: the branch is pushed once and last, but for the branch of a pull request; it is HEAD with nothing unmerged, never after an abort; when it is pushed, with and without a conflict, and how the attempt ends when it is not |
| `SyncForks.CleanMergeIsPushedIff` | apps/worker/src/sync/fork.ts:142-359 | a merge without conflicts is pushed if and only if clone, fetch and merge worked, a quality pass that was due did not throw and no unmerged path is listed afterwards; what is pushed in terms of the merge and of what the agent left; and how it ends in every other case |
| `SyncForks.ConflictIsPushedIff` | apps/worker/src/sync/resolve.ts:74-123 | a conflicted one if and only if clone and fetch worked, conflicts may be resolved, the agent did not throw and its finish is accepted; and how it ends in every other case |
| `SyncForks.FinishIff` | apps/worker/src/sync/merge.ts:133-163 | when a merge is finished: nothing unmerged, no marker found, and either a merge in progress that the hooks let through, or one already committed with nothing at all left over; HEAD is then the whole staged worktree; a finish the guards refuse changes nothing |
| `SyncForks.MarksAre` | apps/worker/src/sync/merge.ts:53-112 | the marker guard line by line: a tracked file with a line that is one of the three marks and nothing else |
| `SyncForks.StagingTakes` | apps/worker/src/sync/merge.ts:148 | what the staging takes |
| `SyncForks.AbortLeaves` | apps/worker/src/sync/resolve.ts:110-122 | what an abort leaves of a merge in progress |
| `SyncForks.CommittedMergeIsKeptIff` | apps/worker/src/sync/merge.ts:125-153 | a merge the agent committed itself is kept if and only if nothing was left behind; otherwise the abort finds no merge to abort |
| `SyncForks.CommittedMergeIsPushedIff` | apps/worker/src/sync/resolve.ts:114-123 | so it is pushed exactly then, and otherwise ends as conflict-failed, which closes the tip |
| `SyncForks.OneLeftoverLosesTheMerge` | apps/worker/src/sync/merge.ts:148-161 | one stray file is enough, and the same files would have been finished had the agent not committed as it is told to |
| `SyncForks.AbortedMergeIsReportedSynced` | apps/worker/src/sync/merge.ts:125-152 | an agent that aborts the merge passes every guard: the old commit is pushed and the fork recorded as synced |
| `SyncForks.MarkerReachesHeadIff` | apps/worker/src/sync/merge.ts:109-148 | a marker line reaches HEAD if and only if an untracked, unignored file brought it |
| `SyncForks.PushOnConflict` | apps/worker/src/sync/fork.ts:190-276 | the conflicted path end to end, whatever the agent did and whether its call failed |
| `SyncForks.FailedSearchHidesMarkers` | apps/worker/src/sync/merge.ts:109-112 | a search that errors lets a tracked marker through: when the finish is then accepted, and that the marker is in HEAD |
| `SyncForks.LabelledMarkersReachHead` | apps/worker/src/sync/merge.ts:53 | a conflict joined by taking out only the line between its sides is committed with both labelled lines in it |
| `SyncForks.ReportedCommitIsRealIff` | apps/worker/src/sync/merge.ts:177-183 | the quality pass is reported as committed; when that is so |
| `PrPipelines.PrTurn.ProcessPr` | apps/worker/src/pr/pipeline.ts:98-183 | when a turn merges, exactly, for dependabot on green CI and for a reviewed pull request that is fixed, has no code to review, or whose first fix turns CI green; every merge guarded; at most four agent runs; every exhausted run of the fix loop within the ceiling; the record is exactly the writes made |
| `PrPipelines.PrTurn.StepAiFix` | apps/worker/src/pr/steps.ts:260-411 | at most three agent runs, none when already fixed, dry, without code to review or past the ceiling, and otherwise one exactly if the pull request is still valid |
| `PrPipelines.PrTurn.FixLoop` | apps/worker/src/pr/steps.ts:305-409 | the agent runs exactly if the pull request is still valid, and one run that turns CI green at once is the only one |
| `PrPipelines.PrTurn.CheckFix` | apps/worker/src/pr/steps.ts:343-409 | another pass follows exactly after commits whose last read of CI is red, below the bound |
| `PrPipelines.PrTurn.StepLockPrefix` | apps/worker/src/pr/steps.ts:161-200 | how many lockfile repairs are tried and the head they leave: none on green CI or in a dry run, else up to the first that works |
| `PrPipelines.PrTurn.FixOnce` | apps/worker/src/pr/steps.ts:305-409 | one pass: the agent runs exactly when the pull request is still valid, what it leaves in the record, and when another pass follows |
| `PrPipelines.PrTurn.WaitForCiSettled` | apps/worker/src/pr/fix-loop.ts:90-118 | it polls on exactly while CI is running and time is left, thirty times at most, and times out only on a running gate |
| `PrPipelines.PrTurn.ReadCiOfSuite` | apps/worker/src/pr/ci.ts:158-185 | green if and only if the first read is green and the second, where it could be made, shows the real suite |
| `PrPipelines.PrTurn.ReportAiFixFailure` | apps/worker/src/pr/steps.ts:419-460 | the record after each kind of failure |
| `PrPipelines.PrTurn.ResolveConflict` | apps/worker/src/pr/gates.ts:54-130 | one agent run at most, exactly when asked for and still valid, with exactly its effects and its record |
| `PrPipelines.PrTurn.StepSafetyAndCi` | apps/worker/src/pr/gates.ts:135-231 | goes on if and only if the verdict is safe and CI is green, and then the head is cleared |
| `PrPipelines.PrTurn.AfterFix` | apps/worker/src/pr/pipeline.ts:163-183 | behind the fix loop a turn merges if and only if it is not dry, the verdict is safe, CI green, the pull request mergeable then and just before the merge, and the merge goes through |
| `PrPipelines.PrTurn.WaitOrClose` | apps/worker/src/pr/gates.ts:160-231 | red or running CI: a stale pull request that is not dependabot's is closed, and every other one, or one that could not be closed, is counted |
| `PrPipelines.PrTurn.MergeableGate` | apps/worker/src/pr/gates.ts:268-301 | opens if and only if the re-read says mergeable; what a conflict or an unknown leaves |
| `PrPipelines.PrTurn.StepMerge` | apps/worker/src/pr/gates.ts:304-420 | true if and only if the run is not dry, the re-read says mergeable and the merge comes back with 200, by the owner or by the App after his 401 or 403; the trace and the record it leaves in every case |
| `PrPipelines.PrTurn.MergeRefused` | apps/worker/src/pr/gates.ts:344-420 | the record after each refusal: a 405 is read again and counted, a 409 goes to the conflict resolver, any other refusal is counted, and an outage leaves nothing |
| `PrPipelines.PrTurn.ResolveOrMerge` | apps/worker/src/pr/pipeline.ts:169-183 | a known conflict goes to the resolver; anything else merges exactly when the re-read and the merge say so |
| `PrPipelines.PrTurn.MergePr` | apps/worker/src/pr/merge.ts:67-123 | the owner's token first, the App only after 401 or 403: exactly those requests, and the status that counts |
| `PrPipelines.PrTurn.StepReview` | apps/worker/src/pr/steps.ts:90-131 | when the turn goes on with a review, and when without code to review |
| `PrPipelines.PrTurn.StepBumpGuard` | apps/worker/src/pr/steps.ts:221-250 | an unshippable bump ends the turn and changes no answer about fixes or skips |
| `PrPipelines.PrTurn.DependabotGates` | apps/worker/src/pr/pipeline.ts:126-141 | dependabot: a bad bump ends the turn, green CI merges without a review exactly when the re-read and the merge say so, and anything else goes on to the review |
| `PrSpec.EveryMergeIsGuarded` | apps/worker/src/pr/gates.ts:268-336 | behind each merge of a head, in the same turn and in this order: a green CI read of that head with nothing touching the branch since, a mergeable re-read, the approval, and for anyone but dependabot a safe verdict before |
| `FixState.FailuresChangeNoAnswer` | apps/worker/src/state.ts:134-195 | recording failures, however many and at whatever heads, changes no answer about being fixed, skipped or announced |
| `FixState.AnswersAreTheLastSettled` | apps/worker/src/state.ts:340-473 | after any writes and prunes, fixed and skipped are answered by the last fix, skip or prune alone |
| `FixState.TalliesCount` | apps/worker/src/state.ts:134-235 | after any writes the two tallies count the failures and the exhausted budgets since they were last cleared, at every head, and the verdict on a bump and the commits are the last ones |
| `FixState.ThreeExhaustionsOverTicks` | apps/worker/src/pr/steps.ts:280-286 | over any number of turns at one head without a fix, and any prunes between them, the fix loop exhausts its budget at most three times, and three times more for each loss of the record |
| `FixState.SixAroundOnePrune` | apps/worker/src/pr/pipeline.ts:291-300 | and it can: six turns exhaust one budget each at one head, around one prune |
| `FixState.AtMostThreeExhaustions` | apps/worker/src/pr/steps.ts:280-286 | the same for one list of writes: at most three since the record was last lost, with the tally that proves it |
| `PrPipelines.ConflictRunsPastTheCeiling` | apps/worker/src/pr/gates.ts:106-113 | turns of a pull request in conflict and past the ceiling: each runs the agent once more and records one more exhausted budget, any number of times |
| `FixState.SkipIsAnnouncedIff` | apps/worker/src/state.ts:455-473 | a skip just recorded is announced if and only if nothing was announced since the last fix or prune |
| `FixState.SecondHeadIsNotAnnounced` | apps/worker/src/pr/context.ts:388-403 | two heads skipped one after the other: only the first is announced |
| `FixState.LegacyShaStaysFixed` | apps/worker/src/state.ts:335-354 | a bare sha of the old format reads as fixed at that head alone, also after any failures recorded on it |
| `FixState.FixStore.PruneClosed` | apps/worker/src/state.ts:294-315 | the file afterwards, and the number of records that went |
| `FixState.PruneHitsIff` | apps/worker/src/state.ts:294-315 | a record goes if and only if the list is longer than the threshold and does not hold its pull request; all others stay as they are |
| `FixState.OpenRecordIsLostIff` | apps/worker/src/pr/scan.ts:84-91 | exactly when an open pull request loses its record: enough others were found, and it was behind the first page or its repository gave no list |
| `Workdirs.AgentDirRoundTripsIff` | apps/worker/src/pr/lockfix.ts:217-224 | the parser inverts the agent's printer if and only if the owner has no underscore and the repository does not end the way an infix does |
| `Workdirs.RepairDirRoundTripsIff` | apps/worker/src/pr/relock.ts:141 | it inverts the repair's printer if and only if the owner has no underscore |
| `Workdirs.ShapeIsRead` | apps/worker/src/pr/lockfix.ts:217-224 | every name of the shape is read: something on one line, an underscore and digits |
| `Workdirs.OnlyTheShapeIsRead` | apps/worker/src/pr/lockfix.ts:217-224 | and no other name is |
| `Workdirs.InfixGoes` | apps/worker/src/pr/lockfix.ts:220 | an ending of an underscore, letters or digits and "fix" goes |
| `Workdirs.OnlyAnInfixGoes` | apps/worker/src/pr/lockfix.ts:220 | and nothing else does |
| `Workdirs.TakenForAnother` | apps/worker/src/pr/lockfix.ts:220 | what a clone of a repository with such an ending is taken for |
| `Workdirs.LiveCloneTakenForAnother` | apps/worker/src/pr/lockfix.ts:217-224 | a concrete open pull request whose clone the sweep takes for another's |
| `Workdirs.AgentDirIsTakenFor` | apps/worker/src/pr/lockfix.ts:217-224 | which pull request any agent's clone is taken for, if any |
| `Workdirs.CloneIsSweptIff` | apps/worker/src/pr/lockfix.ts:334-349 | exactly when an agent's clone is swept, for every owner: listed, old enough, removable, and taken for what is not open |
| `Workdirs.OpenCloneIsSweptIff` | apps/worker/src/pr/lockfix.ts:334-349 | so for an owner without an underscore, an open pull request's clone is swept exactly when, besides, the name ends like an infix and the shorter repository, if there is one, has no open pull request of that number |
| `Workdirs.OpenRepairIsSweptIff` | apps/worker/src/pr/lockfix.ts:334-349 | the same for a repair's clone: only for an owner with an underscore |
| `Workdirs.OpenCloneSurvives` | apps/worker/src/pr/lockfix.ts:334-349 | so no clone of an open pull request is swept, at any age, where its name reads back |
| `Workdirs.AgentDirsAreInjective` | apps/worker/src/pr/autofix.ts:332 | two pull requests whose names read back never share an agent's directory |
| `Workdirs.RepairDirsAreApart` | apps/worker/src/pr/relock.ts:167 | nor do repairs of two package managers, or a repair and an agent |
| `Workdirs.SweepAged` | apps/worker/src/pr/lockfix.ts:280-316 | exactly the listed, selected, old enough and removable entries go, and are counted |
| `Workdirs.SweepStaleWorkdirs` | apps/worker/src/pr/lockfix.ts:334-349 | the same for recognised names that are not open |

## Left out

- Reading a header's numbers off its characters: the two are separate parts of a line here, so the results hold for any reading.
- ExtendPatches.ExtendPatch: whether a file is skipped is a parameter; the file name filter is not modelled.
- ExtendCases.ExtendedHunkInFull: hunks with an empty side, or that do not lie inside both files; for those only what holds of every patch is stated.
- HunkSections.SectionsAre: patches with lines before the first header or with malformed ones; for those the numbers and the changes are stated, not the whole text.
- Packing.GetPrMultiDiffs: whether a file is deleted, empty or generated is part of its input, and token counts are arbitrary natural numbers; the two lists of chunks hold the same files in the same groups, so one list of files stands for both.
- FileBudget.GenerateFullPatch: the framed text is represented by its token count.
- FileBudget.SortFilesByMainLanguages: the table from file extensions to languages is part of the input.
- LongestChains.Search.Longest: sources are searched in any order, which covers the order of the record's keys.
- SyncForks.Workdir.SyncForkRepo: dry runs are not modelled, and a commit hook whose own message contains "nothing to commit" is not told apart from a commit with nothing to add.
- SyncWorkers.SyncWorker.SyncOne: an attempt that throws is taken to do so before it writes its entry; the save that follows the write swallows its own errors.
- SyncWorkers.SyncWorker.RunUpstreamSync: dry runs and the report lines are not modelled; a tick is taken to reach its end, as the clients it calls do not throw.
- PrPipelines.PrTurn.ProcessPr: the scoring of a review text is one arbitrary verdict, and a failure summary one of five kinds; report lines and Discord posts are not modelled.
- DbQueueSpec.RequestIsOwedUntilClaimed: a store call that throws is taken to have left the rows as they were; one that commits and then throws could lose a request.
- ReviewQueues.ReviewQueue.Settle: the log call inside the catch is not modelled.
- ReviewQueues.ReviewQueue.constructor: a concurrency that is not a number is outside the model; the server passes two.
- Two live processes on one queue database, beyond the lemma that shows what breaks, and a crash between a remote effect and its state save.
- The poll interval of the database queue.
- HTTP, GitHub, Discord, tokenizers, templates and the YAML parser: their answers are parameters.
- Report strings, prompts, truncation widths and rendered HTML, except where a later step reads them.
- The worker's file lock: it is read and then removed, which is not atomic, so mutual exclusion is not claimed.
- FileBudget.GetPrDiff: how a heading is cut is an arbitrary function of the room there is, and the patch texts are represented by their token counts.
- The toolchain pins: one branch each.
- The web application, the command line, configuration loading, analytics and authentication.
