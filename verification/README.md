# Verification of the agent loop's core protocols

The repository runs coding agents in role turns. It lets several streams of work own disjoint
parts of a tree, keeps a memory file, cuts contexts down to a token budget, streams the output of
child processes and answers JSON-RPC calls. This project models those parts in Dafny and proves what
they are for. State that the program changes in place is a class whose methods are proved equal to
functions on values; the theorems are about those functions, over all inputs and all runs.

| file | part of the system |
|---|---|
| Paths.dfy | path tokens as sets of files, plan validation, the owned-paths gate |
| Leases.dfy | the lease registry shared by processes that may die |
| Parallel.dfy | the driver that claims, runs, gates, merges and releases |
| Handoffs.dfy, Supervisor.dfy | the rules for a DONE handoff, and the role loop with retries, limits and restart |
| Schema.dfy, Bullets.dfy, RoundTrip.dfy | the printed memory file, its parser, and what survives printing and parsing |
| Normalisation.dfy, Store.dfy, Keeping.dfy | the counting store on top: kinds, counts, what updates keep and queries return |
| Sink.dfy | log file, tail window and progress notifications of a child process |
| LineSplit.dfy, Framing.dfy | lines out of arbitrary chunks, for child output and for JSON-RPC |
| Server.dfy | reader thread, worker threads and the one-call gate |
| AgentLock.dfy | the PID lock file as interleaved steps with crashes |
| Compressor.dfy | truncation and dropping under a token budget |
| Text.dfy, Sorting.dfy, Sequences.dfy, Wrappers.dfy | Python's text methods and sort as far as they are needed, and shared helpers |

`dafny verify dfyconfig.toml` checks all of it.

## What turned out not to hold as promised

Each of these is stated with its exact condition, or with the run that breaks the promise and the
proof that nothing else does.

- The overlap test misses shared files for exactly the tokens that end in two slashes and do not start
  with "./" (`Paths.SafeIff`); for each of these some accepted plans share a file
  (`Paths.UnsafePlansShareAFile`). A token that starts with "./" owns at most "." itself, so it is safe
  but useless; `Paths.SoundIffFaithful` says for which tokens the test agrees with inclusion.
- A lease table stays free of overlaps exactly when no claim sees a dead record revive between its
  two looks (`Leases.StepKeepsDisjointIff`), which does happen (`Leases.RevivalBreaksDisjointness`).
- A release that raises is only logged, and its lease stays: the parallel driver leaves behind exactly
  the leases whose release failed. A state write or a renewal that raises aborts a run whose PR is
  already open (`Parallel.Hub.RunParallel`).
- Creating the lock file and writing the PID are two system calls, and so are the stale test and the
  unlink. Each pair alone lets two processes in (`AgentLock.EmptyLookBreaksExclusion`,
  `AgentLock.LateUnlinkBreaksExclusion`); outside these two windows the lock is exclusive. A dead
  holder whose PID is in use again blocks everybody (`AgentLock.CanEnterIff`, `AgentLock.ReusedPidBlocks`).
- The child reader depends on how the pipe cuts its output exactly when some complete line has
  `LINE_MAX` bytes or more and is not one byte short of a multiple of it (`LineSplit.ChunksDoNotMatterIff`,
  with such a line in `LineSplit.SomeOutputDependsOnChunks`).
- The tail of the kept lines differs from the tail of the whole output exactly when lines were
  discarded and the remaining ones, two or more, fill the window to the character (`Sink.TailIsExactIff`).
- When a worker thread cannot be started, the gate stays taken for good (`Server.GateIsFreeIff`,
  `Server.FailedStartLeavesGateTaken`).
- A budget of one to three tokens can be exceeded, larger ones cannot (`Compressor.SmallBudgetsOverflow`).
- A category keeps exact counts up to 30 kinds of pattern, and never beyond (`Store.CountsAreExactIff`).
- A run that starts at Reviewer can reach PR_READY without a test (`Supervisor.ReviewerStartSkipsTests`).
  A run stopped before its first turn shows the next run a handoff that it had set aside itself, in
  exactly one kind of workspace (`Supervisor.ForgottenHandoffReturns`).
- A category with an empty name, or a name that begins like the heading of the distillations, loses its
  patterns (`RoundTrip.CategorySurvivesIff`). A date with an em dash between spaces, or after a space
  at its end, breaks its distillation (`RoundTrip.DistillationSurvivesIff`).

## Model

| member | source | states |
|---|---|---|
| Paths.NormOwned | memory/streams.py:22-26 | what is stored is not empty and has no backslash |
| Paths.OnlyBlanksAreRefused | memory/streams.py:22-26 | a token is refused exactly when it consists of white space |
| Paths.NormOwnedIdempotent | memory/streams.py:22-26 | normalising a stored token again changes nothing |
| Paths.NormRel | memory/streams.py:29-34 | the loop strips exactly the leading "./" steps after turning the backslashes |
| Paths.RelOfStrips | memory/streams.py:29-34 | back slashes become slashes, a changed path loses exactly its leading "./" steps, and nothing else of it changes |
| Paths.CoversIffIncludes | memory/streams.py:98-113 | for sound tokens `a` covers `b` exactly when every path owned by `b` is owned by `a` |
| Paths.ClashIffSharePath | memory/streams.py:119-134 | two sound tokens cover one another in some direction exactly when some path belongs to both |
| Paths.SoundIffFaithful | memory/streams.py:37-59 | the syntactic condition on tokens is exact: the overlap test agrees with ownership for a token exactly under it |
| Paths.SafeSharedPathClashes | memory/streams.py:37-113 | a path shared by two safe tokens makes the overlap test report them |
| Paths.SafeIff | memory/streams.py:37-113 | the test misses a file shared with some safe token exactly for the tokens that are not safe |
| Paths.UnsafePlansShareAFile | memory/streams.py:119-134 | every other token is part of plans that are accepted and share a file |
| Paths.DoubleSlashMissesOverlap | memory/streams.py:98-113 | the tokens "src//" and "src/a" pass the overlap test and share a file |
| Paths.PathIsOwned | memory/streams.py:37-59 | the loop over the tokens answers as the ownership function does, with the error of the first blank token |
| Paths.OwnedByMeaning | memory/streams.py:37-59 | a path is owned exactly when some token of the list owns it |
| Paths.FilesOutsideOwned | memory/streams.py:62-70 | the gate's loop computes the list of changed paths that no token owns |
| Paths.GateMeaning | memory/streams.py:62-70 | a path is reported exactly when it is among the changed ones, is neither empty nor ".", and no token owns it |
| Paths.GatePassesIff | memory/streams.py:62-70 | the gate passes exactly when every changed path but the empty one and "." is owned |
| Paths.CompareMeaning | memory/stream_lease.py:127-134 | the search comes through exactly on lists that are apart; otherwise it names a clash or met a blank token |
| Paths.OverlapPair | memory/stream_lease.py:127-134 | the double loop stops at the first clash or blank token, and comes through exactly when the lists are apart |
| Paths.ValidateStreamPlans | memory/streams.py:119-134 | plans are accepted exactly when there are some, names differ and all path lists are pairwise apart; each error names its culprit |
| Paths.ApartListsShareNoPath | memory/streams.py:119-134 | lists of safe tokens that the test keeps apart have no path in common |
| Paths.AcceptedPlansAreDisjoint | memory/streams.py:119-134 | accepted plans of safe tokens own pairwise disjoint sets of files |
| Paths.GatedChangesAreDisjoint | memory/streams.py:223-230 | two streams that both pass the gate have changed no file in common |
| Leases.Registry.FindConflict | memory/stream_lease.py:250-257 | the loop finds a live overlapping lease of another stream, or there is none |
| Leases.Registry.DropDeadOverlapping | memory/stream_lease.py:187-200 | exactly the dead overlapping and the malformed entries of other streams go, or it raises on exactly the tables with a blank token in the way |
| Leases.Registry.Claim | memory/stream_lease.py:227-283 | the new table and the reply of a claim, for every table, blank stored tokens included, and every look at the processes |
| Leases.Registry.Renew | memory/stream_lease.py:286-309 | the new table and the reply of a renewal |
| Leases.Registry.Release | memory/stream_lease.py:312-327 | the new table and the reply of a release |
| Leases.DeadIff | memory/stream_lease.py:107-124 | an entry may be taken over exactly when it is no record or its owner is gone: no PID, one that is not positive or not alive, or a recorded start time and a readable one that differ |
| Leases.OwnerIsHereIff | memory/stream_lease.py:107-124 | the owner is there exactly when its PID is alive and no start time is recorded, none can be read, or the two are equal |
| Leases.ClaimIsGrantedIff | memory/stream_lease.py:227-283 | a claim is granted exactly when name and paths are usable, no overlapping foreign record has its owner there, and no other owner holds the name; it removes exactly the overlapping records whose owner is gone |
| Leases.ClaimRefusals | memory/stream_lease.py:245-263 | which of the four errors a refused claim raises |
| Leases.GrantedRecord | memory/stream_lease.py:203-283 | every field of the granted record: a claim by the holder keeps the first claim time, and worktree and branch unless new ones are given |
| Leases.RenewGoesThroughIff | memory/stream_lease.py:286-309 | a renewal goes through exactly for an owner that is there and moves the expiry only; which error it raises otherwise |
| Leases.ReleaseGoesThroughIff | memory/stream_lease.py:312-327 | a release removes the entry exactly when no other owner is there |
| Leases.StepKeepsNormalised | memory/stream_lease.py:47-56 | after every operation all stored tokens are in the form that the overlap test compares |
| Leases.StepKeepsDisjointIff | memory/stream_lease.py:227-283 | an operation keeps all records, dead or alive, pairwise apart exactly when it revives none |
| Leases.RevivalBreaksDisjointness | memory/stream_lease.py:250-261 | two claims from the empty table after which one token is in two records, because the first owner looked dead and then alive |
| Leases.RunKeepsDisjoint | memory/stream_lease.py:187-327 | over any interleaving of claims, renewals, releases, deaths and reused PIDs all records stay pairwise apart |
| Leases.NoPathInTwoLeases | memory/stream_lease.py:187-327 | from the empty table on, no path is ever in two leases |
| Leases.LiveForeignLeaseIsKept | memory/stream_lease.py:107-124 | no operation removes or changes the lease of another live process with the same start time |
| Leases.LiveForeignLeaseIsKeptOverRuns | memory/stream_lease.py:227-327 | the same over any run of other processes |
| Leases.RefusalChangesNothing | memory/stream_lease.py:227-327 | a refused claim, renewal or release leaves the table as it was |
| Leases.DeadOwnersAreRecovered | memory/stream_lease.py:187-200 | the paths of a dead owner can be claimed at once under a fresh name, and its record goes |
| Leases.TimesDecideNothing | memory/stream_lease.py:107-124 | claim and expiry times influence neither any later table nor any reply |
| Leases.TimesDecideNothingOverRuns | memory/stream_lease.py:227-327 | whole runs with different clocks get the same replies step by step and leave the same table |
| Parallel.StreamIsReadyIff | memory/supervisor_parallel.py:95-177 | a stream is ready exactly when it has a worktree, its loop ended ready and the gate, if on, finds every changed path owned; it raises exactly when its loop does |
| Parallel.ReadyChangesAreDisjoint | memory/supervisor_parallel.py:136-151 | with the gate on, no file is changed by two streams that are both ready |
| Parallel.OwnStays | memory/stream_lease.py:227-327 | the leases of the driver survive all steps of other processes and its own work on other streams |
| Parallel.MineGrowsByClaims | memory/stream_lease.py:227-327 | a PID gets into the table by its own claims only, and a release takes it out |
| Parallel.OthersLeaveIt | memory/stream_lease.py:227-327 | no field of the driver's leases changes by a step of another process |
| Parallel.OwnIsRenewed | memory/stream_lease.py:286-309 | the driver's renewal of a lease it holds goes through and moves its expiry |
| Parallel.Perform | memory/stream_lease.py:227-327 | one step of any process on the shared registry, when its lock and file can be had |
| Parallel.Hub.ClaimAll | memory/supervisor_parallel.py:257-269 | streams are claimed in order until one is refused or raises, and which of the two is told apart; in calm times all claimed leases are in the table |
| Parallel.Hub.Tick | memory/supervisor_parallel.py:231-238 | a tick loses no lease, in calm times every lease whose renewal works expires `ttl` after it, and it raises exactly when the state cannot be written or a renewal raises something else than a refusal |
| Parallel.Hub.FailBlocked | memory/supervisor_parallel.py:240-254 | a blocked run ends as blocked exactly when its last tick goes through |
| Parallel.Hub.ProvisionAll | memory/supervisor_parallel.py:271-278 | provisioning changes neither names nor paths, so the leases still fit |
| Parallel.Hub.RunOne | memory/supervisor_parallel.py:95-177 | how one stream ends, from its loop and its gate, and the status it is left with |
| Parallel.Hub.RunSerial | memory/supervisor_parallel.py:342-354 | the serial run goes on exactly when every stream is ready and every tick goes through |
| Parallel.Hub.RunConcurrent | memory/supervisor_parallel.py:298-340 | the same for the concurrent run, whatever the order in which the streams end |
| Parallel.Hub.PushAll | memory/supervisor_parallel.py:356-366 | the pushes succeed exactly when each one does, and then each branch with a worktree is in the log |
| Parallel.Hub.MergeAll | memory/supervisor_parallel.py:378-394 | merges come only with every stream ready, every lease held and, where asked for, every branch pushed; they stop at the first conflict, and after all of them the streams with a branch are `Merged` |
| Parallel.Hub.ReleaseOne | memory/supervisor_parallel.py:450-455 | one lease is given back, or its release raises and the lease stays |
| Parallel.Hub.ReleaseAll | memory/supervisor_parallel.py:450-455 | all claimed leases go through the release while other processes go on |
| Parallel.Hub.Prepare | memory/supervisor_parallel.py:256-354 | the run gets to the integration exactly when all claims, worktrees, streams and ticks succeed |
| Parallel.Hub.Conclude | memory/supervisor_parallel.py:396-449 | the PR comes last, only after a merge of every branch and, where asked for, directly after a push of the integration branch; a failing push, PR, tick or save ends the run otherwise |
| Parallel.Hub.Integrate | memory/supervisor_parallel.py:356-449 | success exactly when each push, merge and the conclusion succeed |
| Parallel.Hub.RunParallel | memory/supervisor_parallel.py:180-455 | no merge unless all streams are ready and pushed where asked for, PR after all merges, the exact condition of success and the statuses it leaves, and on every way out no new lease is left but those whose release failed, which in calm times are all left |
| Handoffs.DoneExtras | memory/validate_handoff.py:128-149 | each of the four errors is added exactly when its rule for DONE is broken, and earlier errors are kept |
| Handoffs.ValidateHandoff | memory/validate_handoff.py:152-174 | a handoff is valid exactly when structure and DONE rules hold, and each error is reported exactly when its check fails |
| Supervisor.Attempt | memory/supervisor.py:665-745 | an accepted handoff has validated under the strictness its own status asks for; the calls of a turn are bounded by the retries |
| Supervisor.AttemptsStopAtFirst | memory/supervisor.py:665-745 | a turn takes exactly the attempts up to the first that does not fail, or as many as the retries allow |
| Supervisor.AttemptsShowLast | memory/supervisor.py:684-712 | one adapter call an attempt, each shown the last handoff returned before it, valid or not |
| Supervisor.Workspace.TakeTurn | memory/supervisor.py:665-745 | the retry loop is the recursive meaning of the attempts at a turn |
| Supervisor.Workspace.FinishTurn | memory/supervisor.py:747-826 | counters, role, next incoming handoff and disk after an accepted handoff |
| Supervisor.Workspace.RunLoop | memory/supervisor.py:630-834 | the nested loops compute the run function: outcome, disk, turns and log |
| Supervisor.TurnIsDecided | memory/supervisor.py:747-826 | outcome, next role, counters and disk after one turn, by status, target, failed tests and tags |
| Supervisor.TurnIsTaken | memory/supervisor.py:656-745 | each turn of a run comes before the limit and without STOP, and meets the answers that follow those of the turns before |
| Supervisor.HandoffsDecideTheRun | memory/supervisor.py:83-104 | exactly which accepted handoffs end a run and with which terminal: BLOCKED, a DONE outside Reviewer, a target off the table and a blocked tag as blocked, the last of the cycles as PR; after all others the run goes on with one determined role, up to limit and STOP |
| Supervisor.RunLeaves | memory/supervisor.py:630-834 | the disk after a run: the handoff accepted last, the role it stands at, the cycles completed |
| Supervisor.NextRunBegins | memory/supervisor.py:631-644 | where the next run starts after every outcome: at a new cycle after a pull request, the limit or a DONE, otherwise with the role and handoff of the end |
| Supervisor.RunStartsAt | memory/supervisor.py:465-475 | the start from any workspace, whoever wrote it |
| Supervisor.AdapterCallsAreBounded | memory/supervisor.py:576-587 | a run makes at most `maxTurns * (maxRetries + 1)` adapter calls |
| Supervisor.ReturnedTerminalIsSaved | memory/supervisor.py:656-834 | the terminal returned is the status saved; STOPPED_LIMIT comes after exactly the allowed turns |
| Supervisor.LogChains | memory/supervisor.py:83-103 | every accepted handoff validated, and every Reviewer turn but a first one directly follows a green Tester turn |
| Supervisor.TurnsFollowEdges | memory/supervisor.py:58-103 | in every run turn follows turn along the six edges of the role table, and Reviewer follows Tester exactly when its test was green |
| Supervisor.PrReadyIsEarned | memory/supervisor.py:725-826 | every PR_READY is a Reviewer DONE under the strict rules directly after a green Tester turn, in every run not started at Reviewer |
| Supervisor.RunIsTested | memory/supervisor.py:630-834 | a run keeps on disk that a stored role Reviewer has a green test behind it |
| Supervisor.EveryPrIsTested | memory/supervisor.py:630-834 | over any chain of runs on a workspace, however each ends, every PR_READY is a Reviewer DONE that meets every strict rule, with only Reviewer turns since the last green test |
| Supervisor.ReviewerStartSkipsTests | memory/supervisor.py:631-644 | that start is rightly excluded: from any such workspace some answers give PR_READY untested |
| Supervisor.PrOutcomeHasEntry | memory/supervisor.py:781-804 | a run returns PR_READY only after such a turn, and counts exactly these turns |
| Supervisor.StopSplits | memory/supervisor.py:656-663 | a STOP cuts the run without STOP in two at a state the disk can restore |
| Supervisor.StartIsResumable | memory/supervisor.py:465-475 | a restart before any turn finds the incoming handoff again exactly when the workspace is not of the one forgetful kind |
| Supervisor.LooserLimits | memory/supervisor.py:656-834 | with counters further from the limits the same run goes on at least as long, turn by turn |
| Supervisor.RestartContinuesTheRun | memory/supervisor.py:631-663 | halting by STOP and restarting takes the same role turns as not halting, with the same incoming handoffs once a turn was completed, up to the limits |
| Supervisor.ForgottenHandoffReturns | memory/supervisor.py:636-644 | in the forgetful kind of workspace the first incoming handoff does differ |
| Schema.PrintCategory | memory/schema.py:100-111 | the lines appended for one category, in the order by count and text |
| Schema.RenderMarkdown | memory/schema.py:96-121 | the loops print the rendered text of the state |
| Schema.ParseMarkdown | memory/schema.py:54-93 | the loop over the lines computes the parse of the text |
| Schema.NatTextRoundTrip | memory/schema.py:88-88 | a printed count reads back as the same number |
| Schema.SplitUnlines | memory/schema.py:60-60 | splitting joined single lines gives the lines back |
| Schema.SplitAtBreak | memory/schema.py:60-60 | every line break ends one line, and a carriage return with a newline does not end two |
| Schema.PatternRoundTrip | memory/schema.py:84-91 | every one-line description, even one that ends in "(seen k times)" itself, reads back with its count |
| Bullets.MatchSeenIff | memory/schema.py:84-88 | the matcher for the count accepts exactly the texts of its shape, with any white space, and reads their number |
| Bullets.BulletMeaning | memory/schema.py:83-91 | a bullet line written by anybody: its text before the first end that says a count, with that count, and the whole text with count 1 if none does |
| Normalisation.SameKindIff | memory/schema.py:47-51 | two descriptions count as one exactly when, trimmed and in lower case, they have the same words in the same order |
| RoundTrip.PatternsRoundTrip | memory/schema.py:54-121 | the patterns survive print and parse in printed order, whatever the distillations contain |
| RoundTrip.CategorySurvivesIff | memory/schema.py:66-82 | a pattern of a one-line category survives exactly when the name is not empty and does not begin like the distillations heading |
| RoundTrip.DistillationSurvivesIff | memory/schema.py:71-77 | a distillation reads back exactly when its date contains no spaced em dash |
| RoundTrip.StateRoundTrip | memory/schema.py:54-121 | the whole state reads back, patterns in printed order and the last 20 distillations |
| Sorting.InsertSorts | memory/schema.py:100-105 | insertion behind the elements that are not greater keeps a list sorted |
| Sorting.SortBySorts | memory/schema.py:100-105 | the sort used for printing, compaction and queries sorts |
| Sorting.PrefixComesFirst | memory/store.py:104-113 | what a prefix of a sorted list leaves out comes after all of it |
| Sorting.LexLeMeaning | memory/schema.py:100-105 | the order of texts: one begins the other or is smaller where they first differ |
| Store.MemoryStore.ReadMemory | memory/store.py:65-75 | reading gives the parse of the file, or the empty state |
| Store.MemoryStore.BumpBucket | memory/store.py:90-100 | the inner loop counts up the first pattern of the same kind or appends a new one |
| Store.MemoryStore.MergePatterns | memory/store.py:78-101 | the loop merges all items and counts those with a description |
| Store.MemoryStore.CompactState | memory/store.py:104-117 | each category and the distillations are cut, and what was dropped is counted exactly |
| Store.MemoryStore.UpdateMemory | memory/store.py:120-146 | the file after an update is the printed, compacted, merged parse of the file before |
| Store.MemoryStore.QueryMemory | memory/store.py:171-193 | the loops and the sort compute the top matches |
| Store.QueryReturnsTheTop | memory/store.py:171-193 | a query returns matches in falling order, as many as asked for, and leaves out none with a higher count |
| Keeping.QueryAnswersExactly | memory/store.py:171-193 | an answer holds only entries of the category that contain the text asked for, none more often than on file; what it leaves out comes after all of it by count, then lower-cased text, and is left out only for the size |
| Store.CountAfterUpdate | memory/store.py:120-146 | one update adds to every count what was submitted, unless the category is cut |
| Keeping.UpdateKeepsTheMostFrequent | memory/store.py:104-146 | one update of any good file keeps of each category all patterns, or exactly 30 that come before all dropped ones by higher count, then lower-cased text, and leaves them in that order |
| Keeping.UpdateKeepsCategories | memory/store.py:78-146 | the categories on file are those there were and those submitted to, in code-point order |
| Keeping.MergeOnlyAdds | memory/store.py:78-101 | a merge changes no description and lowers no count; what it adds was submitted under that category |
| Keeping.DistillationIsReadBack | memory/store.py:120-146 | after one update the file holds the last 20 of the distillations before and the submitted one |
| Keeping.LastTwentyAreKept | memory/store.py:120-146 | over any run of updates the file holds the last 20 submitted distillations |
| Store.CountsNeverExceed | memory/store.py:78-151 | over any run of updates no count on file exceeds the number of submissions |
| Store.CountsAreExact | memory/store.py:78-151 | while a category has at most 30 kinds, its counts on file are the numbers of submissions, although every update goes through print and parse |
| Store.SomeKindIsForgotten | memory/store.py:104-113 | with more kinds than that some submitted kind has no count left |
| Store.CountsAreExactIff | memory/store.py:78-151 | all counts of a category are right if and only if it has at most 30 kinds |
| Store.EveryPatternCarriesItsTally | memory/store.py:78-151 | the same read off pattern by pattern |
| Sink.FirstNewline | memory/local_mcp/stream.py:46-46 | the index found is that of the first newline |
| Sink.TailIsSuffix | memory/local_mcp/stream.py:109-136 | whatever is added, the tail is the end of it and fits in 8192 characters |
| Sink.TailIsExactIff | memory/local_mcp/stream.py:128-136 | for lines, the tail of the kept parts is the tail of the whole text except in exactly one situation |
| Sink.TailCanDiffer | memory/local_mcp/stream.py:41-49 | lines that bring that situation about |
| Sink.TailOfRun | memory/local_mcp/stream.py:109-136 | both statements for the sink's state after any run |
| Sink.TailStartsAtALine | memory/local_mcp/stream.py:41-49 | the tail of a long text is its last 8192 characters from behind their first newline, if there is one before the last character |
| Sink.KeptTexts | memory/local_mcp/stream.py:131-136 | kept are the last texts, at most 16384 characters or one text, and one more would not fit |
| Sink.RateIsBounded | memory/local_mcp/stream.py:138-197 | under any mix of refused, failed and coalesced sends no stretch shorter than a second holds more than twenty successes |
| Sink.CallsAreExact | memory/local_mcp/stream.py:138-197 | the callback is called, with the log size or the pending note, exactly unless twenty successes lie within the last second |
| Sink.PendingIff | memory/local_mcp/stream.py:157-197 | a note is pending exactly while nothing went out since the last line, and it is that line's |
| Sink.LinesAreAccounted | memory/local_mcp/stream.py:157-197 | lines added are the lines announced when they came, those a flush announced, and `lines_dropped` |
| Sink.AmountsRise | memory/local_mcp/stream.py:157-197 | announced byte counts never fall, and the last one announced is the log size unless that size is pending |
| Sink.LogIsThePrefix | memory/local_mcp/stream.py:109-126 | the file holds the first `LOG_CAP` bytes of all lines and is marked truncated exactly when there were more |
| Sink.PartsAreRetained | memory/local_mcp/stream.py:131-136 | what is kept for the tail depends on the lines alone |
| Sink.ChildSink.Write | memory/local_mcp/stream.py:114-124 | file and truncation mark after one line |
| Sink.ChildSink.Remember | memory/local_mcp/stream.py:131-136 | the kept parts after one line |
| Sink.ChildSink.Allow | memory/local_mcp/stream.py:138-146 | a slot is taken exactly when fewer than twenty sends are younger than a second |
| Sink.ChildSink.Notify | memory/local_mcp/stream.py:157-170 | the state after a line was announced, refused or kept back |
| Sink.ChildSink.Add | memory/local_mcp/stream.py:109-126 | the whole state after a line |
| Sink.ChildSink.FlushProgress | memory/local_mcp/stream.py:172-197 | the flush ends, calls the callback at most once, and without a call has waited out its deadline |
| LineSplit.Reader | memory/local_mcp/stream.py:250-266 | the three loops compute the pieces of the chunks |
| LineSplit.ReaderLosesNothing | memory/local_mcp/stream.py:250-266 | for any chunks the pieces hold all bytes but the newlines, in order |
| LineSplit.ChunksDoNotMatterIff | memory/local_mcp/stream.py:254-264 | the pieces are those of a byte-by-byte reader for every way of cutting exactly when no complete line has a bad length |
| LineSplit.SomeOutputDependsOnChunks | memory/local_mcp/stream.py:258-264 | an output of one line of `LINE_MAX` bytes whose pieces do depend on the chunks |
| LineSplit.BadLineMatters | memory/local_mcp/stream.py:258-264 | a line of bad length can come out in one piece fewer |
| LineSplit.ShortLinesComeWhole | memory/local_mcp/stream.py:250-266 | when all lines are short each comes through whole, whatever the chunks |
| Framing.LinesAreTheStream | memory/local_mcp/framing.py:93-111 | the lines put together are the stream |
| Framing.LineBuffer.TakeLine | memory/local_mcp/framing.py:93-111 | each line is the first of the remaining stream, however it was cut, and a wake takes nothing from it |
| Framing.LineBuffer.Drain | memory/local_mcp/framing.py:93-111 | taking lines to the end gives the lines of the stream, independent of chunks and wakes |
| Framing.LineBuffer.ReadMessage | memory/local_mcp/framing.py:63-77 | each frame is the next nonblank line without its end; at the end or a wake none is lost |
| Framing.FramesRoundTrip | memory/local_mcp/framing.py:318-330 | frames written one after the other are read back unchanged |
| Framing.FramesOfLines | memory/local_mcp/framing.py:63-111 | lines of other writers come out as frames without newline and carriage return, blank ones are passed over, an unfinished last line counts |
| Server.Gate.Begin | memory/local_mcp/server.py:282-288 | a flight begins exactly when there is none |
| Server.Gate.Finish | memory/local_mcp/server.py:290-294 | only the flight in the gate is taken out |
| Server.Gate.Cancel | memory/local_mcp/server.py:296-300 | only the flight with the given id is cancelled |
| Server.RunKeepsInv | memory/local_mcp/server.py:432-557 | every step of reader and workers keeps one flight, the frames it answers and the account of answers |
| Server.AtMostOneCall | memory/local_mcp/server.py:514-557 | in every interleaving at most one tool call is under way, the one in the gate |
| Server.AnsweredExactlyOnce | memory/local_mcp/server.py:432-557 | never two answers to a frame; once all is quiet exactly one to each request or malformed frame, none to a notification, with the right id and a fitting kind |
| Server.AnswersAreExact | memory/local_mcp/server.py:432-557 | which answer every frame gets in every interleaving: in flight exactly when a flight was in the gate as the reader checked it; a call that began a result exactly when its executor returned, an internal error exactly when it raised or its worker could not start |
| Server.NoCallNoRefusal | memory/local_mcp/server.py:453-462 | in a run without a tool call nothing is refused as in flight |
| Server.GateIsFreeIff | memory/local_mcp/server.py:514-531 | with nothing under way the gate is free exactly when every worker thread could be started |
| Server.FailedStartLeavesGateTaken | memory/local_mcp/server.py:514-531 | a run of one call after which everything is idle and the gate is taken |
| Server.StuckRefuses | memory/local_mcp/server.py:453-455 | a gate left taken refuses every request but ping |
| Server.CancelHitsItsTarget | memory/local_mcp/server.py:296-307 | over whole runs a call is cancelled exactly when a notification with its id, or a shutdown, came while it was in the gate |
| AgentLock.BenignRunsExclude | memory/agent_lock.py:91-143 | with crashes and reused PIDs anywhere, at most one thread is inside unless a step falls into one of two windows |
| AgentLock.AtomicRunsAreBenign | memory/agent_lock.py:118-133 | with create and write, and test and unlink, as single steps no run falls into a window |
| AgentLock.AtomicRunsExclude | memory/agent_lock.py:118-133 | hence such runs exclude |
| AgentLock.LockIsGivenBack | memory/agent_lock.py:135-143 | from every state of a benign run a thread inside can leave by itself; then the file is gone, its guard free, and whoever waits can get in |
| AgentLock.OwnerRemovesItsFile | memory/agent_lock.py:76-88 | in every benign interleaving the check on the way out finds the own file and the unlink removes it |
| AgentLock.ForeignFileIsLeft | memory/agent_lock.py:76-88 | in every state, after the windows too, a thread on its way out leaves a file without its PID alone, and a waiting thread can give up |
| AgentLock.LockComesFree | memory/agent_lock.py:91-143 | without a crash nobody holding means no file; with crashes, while no new process gets the PID in the file, nobody holding means that whoever waits can get in; a process with no thread in the lock has its guard free |
| AgentLock.EmptyLookBreaksExclusion | memory/agent_lock.py:120-121 | a run with two threads inside that uses only the window between create and write |
| AgentLock.LateUnlinkBreaksExclusion | memory/agent_lock.py:125-128 | a run with two threads inside that uses only the window between test and unlink |
| AgentLock.CanEnterIff | memory/agent_lock.py:60-73 | a waiting thread can get in by its own steps exactly when there is no lock file or its PID is not alive |
| AgentLock.ReusedPidBlocks | memory/agent_lock.py:40-57 | a run in which nobody holds the lock and a reused PID keeps everybody out |
| Compressor.TruncateToBudget | memory/compressor.py:103-138 | the loops compute the truncation function |
| Compressor.TruncatedFits | memory/compressor.py:103-138 | the result has at most the budget or four tokens, and a text that fits is left alone |
| Compressor.TruncatedIsCutFrom | memory/compressor.py:124-138 | the result is a beginning of the text, or a beginning, the mark and an end of it |
| Compressor.TruncatedIsFirstFit | memory/compressor.py:116-138 | a text over the budget becomes the first of thirteen shrinking cuts around the mark, then of shrinking beginnings, that fits, or the last of them |
| Compressor.FirstCutSpendsTheRest | memory/compressor.py:110-122 | the first of these spends on a long text what the mark leaves of the budget |
| Compressor.SmallBudgetsOverflow | memory/compressor.py:132-138 | a budget is kept for all texts exactly when it is four tokens or more |
| Compressor.MarkTokens | memory/compressor.py:110-111 | the mark costs six tokens by the estimate |
| Compressor.TokensOfTwoKinds | memory/context_budget.py:77-85 | a text of Latin and then other characters costs a quarter and a half of a token each, at least one |
| Compressor.CompressText | memory/compressor.py:141-158 | tokens, action and verdict for one text |
| Compressor.DropsExactly | memory/compressor.py:208-220 | the second pass drops exactly the shortest run of the order, by priority and falling size, that makes the rest fit, or everything below the working set |
| Compressor.CutOrderAscends | memory/compressor.py:224-225 | the third pass takes every file that is left, lowest priority first |
| Compressor.CutsExactly | memory/compressor.py:222-239 | the third pass cuts the shortest run of the remaining files that makes the whole fit, each to the room the others leave at that moment, and leaves the others alone |
| Compressor.CompressedFits | memory/compressor.py:195-241 | the set ends within the budget or eight tokens for each file of the working set, and the last pass never drops |
| Compressor.TotalOut | memory/compressor.py:205-206 | the total counts every file that was not dropped |
| Compressor.DropCheapest | memory/compressor.py:208-220 | the loop over the order computes the second pass in place |
| Compressor.CutRest | memory/compressor.py:222-239 | the loop computes the third pass in place |
| Compressor.CompressFiles | memory/compressor.py:168-264 | the three passes together, with the bound on what they return |

## Left out

- Paths.SoundIffFaithful: takes the test for a file extension as any predicate on tokens that is false on ".", because `Path.suffix` is library code; the same predicate serves both functions.
- Leases.Registry.Claim: a registry file that cannot be read, or a lock that cannot be had, is a failing action of the driver and not part of the table's own operations.
- Parallel.Hub.RunParallel: takes git, the role loops, the PR and the registry's lock and file as arbitrary answers that may refuse or raise, and the changed files as those seen by the gate; commits made between gate and merge are not modelled.
- Handoffs.ValidateHandoff: the JSON schema is not part of this model; one flag stands for its checks on fields the loop does not branch on.
- Supervisor.RestartContinuesTheRun: says nothing about the cycle number, which a restart can count up once more.
- Supervisor.EveryPrIsTested: a crash is an exception in a turn; a process killed between the two writes after an accepted handoff is not modelled.
- Supervisor.Workspace.RunLoop: the stack check and the proxy check before the loop, heartbeats, prompts, metrics and harvesting are not modelled.
- Schema.ParseMarkdown: digits are the ASCII ones, and the newline translation of text files is not modelled.
- Store.MemoryStore.UpdateMemory: one update is one step; the file lock of the store proceeds without the lock after a timeout.
- Store.CountsAreExact: lower-casing is any function on strings; categories and descriptions are single lines once trimmed.
- Sink.LogIsThePrefix: a line is its masked and redacted text, with its bytes given; redaction and the masking of key blocks are not modelled.
- LineSplit.Reader: pieces are bytes before decoding; a failing read, which drops the pending bytes, is not modelled, nor is the byte cap of the line queue.
- Framing.LineBuffer.ReadMessage: gives the bytes of a frame; decoding and JSON parsing are library code, and so is how a chunk is read from a pipe or a Windows relay.
- Server.AnsweredExactlyOnce: an answer counts when it is handed to the output; a broken pipe loses it. Arguments, tool lists and the negotiated protocol are reduced to the verdict of their checks.
- AgentLock.BenignRunsExclude: timeouts are a step that may come at any time, and a failing write of the PID is not modelled.
- Compressor.TruncateToBudget: the products with 0.7 and 0.78 are any functions of which the first shrinks numbers above 8, and only the integer estimate of tokens is used; an encoder could break the bounds.
- Compressor.CompressFiles: distilling a text is any function on strings, and the priority of a file is given.
- The delta list, the size cap and the markdown projection of the state file would only add easy members.
- The knowledge store and the response cache live in SQL.
- Dashboards, gateways, notifications to other systems, command lines and playbook scoring are input, output or heuristics.
