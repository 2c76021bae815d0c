# Verified models of the agent platform's stateful cores

Dafny models of the parts of the repository whose correctness depends on more than one function:
the resilient walk over CLI platforms, the refresh-token protocol, the per-tenant home pruner, the
stream emitter and the heartbeat subprocess runner, secret redaction, the stream-json parser, the
skills-layout migration, cached preflight verdicts, the device-flow polling loop and the TOML
printer. `dafny verify dfyconfig.toml` checks everything.

| files | subject |
|---|---|
| `Policy`, `Executor`, `ExecutorProperties`, `ExecutorAnswers`, `ExecutorTrace` | retry, fallback and stop decisions; the two nested loops; what every run guarantees; what it returns and reports, told from the adapters' answers |
| `RefreshProtocol`, `RefreshHistory`, `ApiClient` | concurrent 401s against a server that rotates refresh tokens; when a replaced one is presented; the client's code for one refresh |
| `FileTree`, `HomePruner`, `HomeQuota`, `QuotaWalk`, `QuotaProperties`, `QuotaFixpoint`, `QuotaBounds` | file trees, the recursive delete, the four tiers, the loops, conservation and protection, the fixed point, what is kept, may go and must go |
| `Batching`, `EmitterProtocol` | the packing loop; producers, flusher and closer interleaved |
| `HeartbeatRunner` | child, two drains and polling loop interleaved |
| `Redaction`, `RedactionRules`, `RedactionHides` | nine substitutions; what each rule matches and puts in its place; credentials make no difference |
| `StreamParser`, `StreamTranscript`, `Toml` | fragments to events, what the transcript says; inline tables |
| `Migration`, `MigrationRepeat`, `MigrationArrival` | the layout migration; what a second inventory and a second run do; where everything ends up |
| `Preflight`, `DeviceFlow` | verdicts with a time to live, polling with a deadline |

How things are modelled:

- Adapters, servers, clocks, I/O faults, child processes, decoders and character tables are
  parameters, so every theorem holds for all of them.
- Loops over local state are methods with invariants, proved equal to recursive functions, and the
  properties are lemmas about those functions. Objects that update fields are classes.
- Threads and concurrent requests are state machines. One action is one access to shared state, a
  run is any sequence of actions, and an action that is not enabled changes nothing.

Where the code and its documentation differ, the code is modelled:

- The emitter's 16 KB batch limit counts characters plus 64 per chunk, not encoded bytes.
- The client's lock and race check are there to keep a rotated refresh token from being presented
  again. It still is, exactly when a rotated pair was lost, or when the request captured its token
  before another pair was adopted and, after a denial, finds memory cleared
  (`RefreshHistory.PresentsCurrentExactly`, `WithoutDenialsExactly`, `DenialRepresentsReplaced`).
- Never-touch paths are documented as never deleted, but tier 2 of the pruner enters a directory
  `.local/lib/python*.lock` without asking (`QuotaProperties.LockedPythonIsEntered`). Only stale
  children of its `site-packages` can go (`LockedPythonKeptOutside`, `LockedPythonKeptByRun`);
  everything else that is never-touch is kept (`NeverTouchIsKept`).
- The size after a run can be reported larger than the one before, when the first scan misses part
  of the tree (`QuotaProperties.AfterIsNotMoreExactly`, `HiddenFileGrowsTheReport`).
- A run should end with one terminal event. A preflight that refuses with the success status ends
  it without any (`ExecutorProperties.SuccessfulRefusalIsSilent`); if none does, there is exactly
  one (`OneTerminalEvent`).
- A bearer token is to be hidden wherever its header stands. A header that is itself taken for the
  token of an earlier one keeps its own from the bearer rule (`RedactionHides.NestedHeaderIsMissed`);
  the rule hides exactly the tokens of the headers its scan comes to (`BearerIsHidden`,
  `BearerIsMissed`), the first header of a text always among them (`FirstIsReached`).
- The runner's comment says both streams reach their end only after the child exits. A child may
  close them early, or write a line that ends a drain (`HeartbeatRunner.EventBeforeExit`); the
  comment is right exactly for children one of whose streams lasts (`EventImpliesExitExactly`).
- The migration calls itself idempotent. A second run can still move a directory whose place in the
  archive was taken and whose twin has moved (`MigrationRepeat.LunaMovesTwice`). For trees whose
  destinations do not clash and whose new layout holds no file in the way, it changes nothing exactly
  when there is no such directory (`SecondRunChangesNothingExactly`). A file in the way stops the
  first run with an error, and the second can then move what the first could not
  (`StalledMovesAgain`).

## Model

| member | source | states |
|---|---|---|
| `Policy.DecisionTable` | packages/cli_orchestrator/policy.py:126-252 | exactly when the policy retries, falls back and gives a hint, and for which reason; a second attempt never retries |
| `Policy.HintKeyIdentifies` | packages/cli_orchestrator/policy.py:100-110 | equal hint keys name the same status and the same platform |
| `Executor.RunPlatform` | packages/cli_orchestrator/executor.py:380-461 | the inner retry loop computes the recursive visit of one platform, with the same log |
| `Executor.Execute` | packages/cli_orchestrator/executor.py:244-513 | the nested loops return the result and the log of a recursive walk over the chain suffix, for every oracle and chain |
| `Executor.Refuse` | packages/cli_orchestrator/executor.py:333-379 | a refused preflight is one failed attempt without a run, followed by the policy's fallback or stop |
| `ExecutorProperties.GateRefusesExactly` | packages/cli_orchestrator/executor.py:517-557 | the recursion gate refuses exactly on excessive depth or a repeated workflow, and then nothing is run or attempted |
| `ExecutorProperties.RunCallsBounded` | packages/cli_orchestrator/executor.py:292-461 | at most two runs per position, in chain order, the second only after a retry ruling, none after a success or stop |
| `ExecutorProperties.AttemptedIsPrefix` | packages/cli_orchestrator/executor.py:292-513 | on a duplicate-free chain the attempted platforms are a prefix of it, all of it on exhaustion |
| `ExecutorProperties.TraceAccounting` | packages/cli_orchestrator/executor.py:258-267 | trace shape and counts of failures, fallbacks and retries; exactly one terminal event unless, and only unless, a preflight refused with the success status |
| `ExecutorProperties.OneTerminalEvent` | packages/cli_orchestrator/executor.py:594-650 | if no preflight refuses with the success status, every run reports exactly one terminal event |
| `ExecutorProperties.SuccessfulRefusalIsSilent` | packages/cli_orchestrator/executor.py:712-730 | a one-platform run whose preflight refuses with that status reports none |
| `ExecutorProperties.FallsThroughOnlyToOpencode` | packages/cli_orchestrator/policy.py:170-182 | a run moves past an outcome that needs the user only onto `opencode`, recording that platform's hint |
| `ExecutorProperties.FallsThroughOnce` | packages/cli_orchestrator/policy.py:170-182 | in a duplicate-free chain this happens at most once |
| `ExecutorProperties.SuccessIsTheAdaptersAnswer` | packages/cli_orchestrator/executor.py:561-610 | a success is the last adapter's answer, changed only in bookkeeping fields and a hint it did not set itself |
| `ExecutorProperties.CarriedHintNamesThePlatform` | packages/cli_orchestrator/executor.py:374-376 | on a duplicate-free chain the hint carried after falling through at a platform is that platform's, at every later position |
| `ExecutorProperties.SuccessCarriesTheHint` | packages/cli_orchestrator/executor.py:574-578 | a success after such a fall-through has exactly that platform's key as its hint, unless the adapter set its own |
| `ExecutorProperties.ExtensionKeepsSuccess` | packages/cli_orchestrator/executor.py:292-461 | a run that succeeds returns the same result on every longer chain |
| `ExecutorAnswers.VisitIsTheAnswer` | packages/cli_orchestrator/executor.py:292-461 | each position has the answer, the number of calls and the ending that follow from adapter, preflight and statuses |
| `ExecutorAnswers.StoppedRunReturns` | packages/cli_orchestrator/executor.py:612-650 | a run that stops returns that position's own result, changed in the platforms attempted, the run id, a hint it did not set itself and a missing message |
| `ExecutorAnswers.SucceededRunReturns` | packages/cli_orchestrator/executor.py:561-610 | a success is the adapter's answer with at least one attempt counted, its own hint or that of the last platform left although it needed the user |
| `ExecutorAnswers.ExhaustedRunReturns` | packages/cli_orchestrator/executor.py:463-494 | an exhausted run returns the last status without text, the platforms attempted and their number, and the carried hint or the last result's |
| `ExecutorAnswers.RefusedLineageReturns` | packages/cli_orchestrator/executor.py:517-557 | what a lineage too deep or with a repetition gets back, word for word |
| `ExecutorTrace.TraceIsTold` | packages/cli_orchestrator/executor.py:258-461 | events, retries and fallbacks of a run that ends at a position, one position after the other, each told from the answers alone |
| `ExecutorTrace.ExhaustedTraceIsTold` | packages/cli_orchestrator/executor.py:463-513 | the same for a run that ends nowhere, which reports one failure |
| `RefreshProtocol.PresentsOnlyTheCurrentSecret` | apps/agentprovision-core/src/client.rs:331-400 | until a rotated pair is lost or the server denies, every exchange presents the server's current refresh token, and a rotated one is never presented again |
| `RefreshProtocol.StoreMatchesMemory` | apps/agentprovision-core/src/client.rs:374-390 | until then, whenever the lock is free, the stored pair is the in-memory pair (saves succeeding) and is current |
| `RefreshProtocol.RetriesCarryTheFreshToken` | apps/agentprovision-core/src/client.rs:343-363 | in every run: mutual exclusion, the empty-token branch is unreachable, retries carry the token in memory |
| `RefreshProtocol.LostReplyRepresentsReplaced` | apps/api/app/api/v1/auth.py:203-336 | a concrete run: once a rotation's reply is lost, the replaced token is presented again |
| `RefreshHistory.PresentsCurrentExactly` | apps/agentprovision-core/src/client.rs:331-400 | in every run, failures included, a presentation shows the current token iff no rotated pair was lost before and none was adopted since its request captured the token; otherwise it shows one rotated earlier in the run |
| `RefreshHistory.WithoutDenialsExactly` | apps/agentprovision-core/src/client.rs:331-400 | as long as the server has denied nobody, a presentation shows the current token iff no rotated pair was lost before it |
| `RefreshHistory.NothingMendsALoss` | apps/api/app/api/v1/auth.py:239-308 | after a lost pair the server never rotates again, and every presentation shows a token it has replaced |
| `RefreshHistory.DenialRepresentsReplaced` | apps/agentprovision-core/src/client.rs:353-379 | a run without any loss: a request that captured its token before a rotation presents it again after a denial cleared memory |
| `RefreshHistory.KeptAlways` | apps/agentprovision-core/src/client.rs:319-412 | the inductive invariant behind these holds after every sequence of actions |
| `RefreshProtocol.InvHolds` | apps/agentprovision-core/src/client.rs:319-412 | the inductive invariant holds after every sequence of actions of any number of requests |
| `ApiClient.Client.Capture` | apps/agentprovision-core/src/client.rs:319-336 | before the lock a request does what the protocol's first step does, and captures the secret then in memory |
| `ApiClient.Client.RefreshLocked` | apps/agentprovision-core/src/client.rs:338-411 | from entry state and server answer: the result, the tokens left in memory and the stored pair, in every case; exactly protocol steps are taken, other requests are left alone and the lock is freed |
| `FileTree.ScanSize` | apps/code-worker/tenant_home_quota.py:147-170 | the explicit-stack scan returns the recursive size of what it can see, whatever listings break off and whatever entries cannot be examined |
| `FileTree.ScanEntries` | apps/code-worker/tenant_home_quota.py:155-169 | one listing, up to where it breaks off, adds its readable files to the total and its readable directories to the stack |
| `FileTree.SeenIsSize` | apps/code-worker/tenant_home_quota.py:147-170 | what is seen is at most the size of the tree, and all of it when nothing is in the way |
| `HomePruner.NeverTouchSurvives` | apps/code-worker/tenant_home_quota.py:205-261 | under every fault pattern a never-touch subtree survives unchanged, and so do the directories above it |
| `HomePruner.LeavesSkeleton` | apps/code-worker/tenant_home_quota.py:205-261 | without faults what is left consists of never-touch subtrees and directories leading to them, and something is left iff there is one |
| `HomePruner.LeavesExactly` | apps/code-worker/tenant_home_quota.py:205-261 | without faults a path is left iff it lies in a never-touch subtree or leads to one |
| `HomePruner.HeldExactly` | apps/code-worker/tenant_home_quota.py:205-261 | under every fault pattern a deletion leaves a node as it is iff everything in it is never-touch or meets a fault of its own |
| `HomePruner.SkeletonIsStable` | apps/code-worker/tenant_home_quota.py:205-261 | deleting such a remainder again changes and reports nothing, whatever fails |
| `HomePruner.PrunedExactly` | apps/code-worker/tenant_home_quota.py:180-202 | the report lists exactly the non-empty files that are gone |
| `HomePruner.PrunedOnce` | apps/code-worker/tenant_home_quota.py:205-261 | the report lists no path twice |
| `HomePruner.SizeConserved` | apps/code-worker/tenant_home_quota.py:180-202 | without links and size faults, size before is size left plus bytes freed |
| `HomePruner.FreedAddsUp` | apps/code-worker/tenant_home_quota.py:180-202 | bytes freed are the sizes, before deletion, of the reported files |
| `HomeQuota.SitePackagesShrinks` | apps/code-worker/tenant_home_quota.py:284-312 | tier 2 only removes, reports exactly the non-empty files gone, once each, and frees their sizes |
| `HomeQuota.StaleLocalShrinks` | apps/code-worker/tenant_home_quota.py:341-390 | the same for tier 4 with its descent into recent directories |
| `HomeQuota.CacheShrinks` | apps/code-worker/tenant_home_quota.py:264-281 | the same for tier 1 |
| `HomeQuota.OtherLibShrinks` | apps/code-worker/tenant_home_quota.py:315-338 | the same for tier 3 |
| `QuotaWalk.SafeRmTree` | apps/code-worker/tenant_home_quota.py:205-261 | the recursive delete with its loop is the function the lemmas are about |
| `QuotaWalk.PendingStep` | apps/code-worker/tenant_home_quota.py:350-389 | one turn of the stack walk leaves the outcome of the remaining work unchanged and shrinks that work |
| `QuotaWalk.PruneLevel` | apps/code-worker/tenant_home_quota.py:357-389 | one listing of tier 4: what is deleted and which recent directories are pushed |
| `QuotaWalk.TenantHome.PruneCacheDir` | apps/code-worker/tenant_home_quota.py:264-281 | tier 1 on the home in place |
| `QuotaWalk.TenantHome.PruneSitePackagesDirs` | apps/code-worker/tenant_home_quota.py:284-312 | tier 2 on the home in place, one python directory after the other |
| `QuotaWalk.TenantHome.PruneOtherLocalLib` | apps/code-worker/tenant_home_quota.py:315-338 | tier 3 on the home in place |
| `QuotaWalk.TenantHome.PruneStaleLocalDirs` | apps/code-worker/tenant_home_quota.py:341-390 | the explicit-stack walk of tier 4 equals the recursive descent, in tree, report and bytes |
| `QuotaWalk.TenantHome.EnforceQuota` | apps/code-worker/tenant_home_quota.py:393-517 | lock, scan and the tiers until the budget fits: the new tree and the report |
| `QuotaProperties.EnforceConserves` | apps/code-worker/tenant_home_quota.py:453-506 | before minus after is the size of the reported files; each non-empty file gone is reported once, nothing else; what is left is unchanged |
| `QuotaProperties.AfterIsNotMore` | apps/code-worker/tenant_home_quota.py:453-506 | whatever fails, the size reported after a run is at most the real size before it, and at most the one reported if the first scan found all of it |
| `QuotaProperties.AfterIsNotMoreExactly` | apps/code-worker/tenant_home_quota.py:453-506 | a first scan makes it certain that after is at most before iff it found the whole size or nothing |
| `QuotaProperties.HiddenFileGrowsTheReport` | apps/code-worker/tenant_home_quota.py:453-506 | a home of two files for which the report can grow |
| `QuotaProperties.NeverTouchIsKept` | apps/code-worker/tenant_home_quota.py:127-144 | a whole run keeps every never-touch node with all below it, whatever fails, except that of a directory `.local/lib/python*` more is said in the next rows |
| `QuotaProperties.LockedPythonKeptOutside` | apps/code-worker/tenant_home_quota.py:284-312 | whatever fails, a run changes nothing in a never-touch `.local/lib/python*` directory outside its `site-packages` |
| `QuotaProperties.EnforceOnLockedPython` | apps/code-worker/tenant_home_quota.py:284-312 | what a whole run makes of such a directory, for every fault pattern |
| `QuotaProperties.LockedPythonKeptByRun` | apps/code-worker/tenant_home_quota.py:393-517 | whatever fails, a run keeps such a directory iff fewer than two tiers were needed, or the second could not list `.local/lib`, or nothing of any stale package could be deleted, which without faults in that tier means skeletons |
| `QuotaProperties.LockedPythonKeptExactly` | apps/code-worker/tenant_home_quota.py:284-312 | whatever fails, one python directory is left alone by tier 2 iff nothing of its stale packages can be deleted, whatever its name; without faults iff they consist of never-touch paths |
| `QuotaProperties.LockedPythonIsEntered` | apps/code-worker/tenant_home_quota.py:284-312 | a home in which a fault-free run deletes a file inside a never-touch directory |
| `QuotaFixpoint.PruneSettles` | apps/code-worker/tenant_home_quota.py:341-390 | tier 4 leaves every entry recent, a skeleton, never-touch or `.local/bin`, although deletions renew directory dates |
| `QuotaFixpoint.FourTiersSettle` | apps/code-worker/tenant_home_quota.py:468-506 | after all four tiers no tier finds anything to do |
| `QuotaFixpoint.OverBudgetLeavesNothingStale` | apps/code-worker/tenant_home_quota.py:453-506 | a fault-free run over budget leaves no unprotected file in `.cache` and none older than the cutoff in `.local` outside `bin` |
| `QuotaFixpoint.SecondRunRemovesNothing` | apps/code-worker/tenant_home_quota.py:393-517 | after such a run a second one with the same cutoff removes nothing, whatever its budget, lock and faults |
| `QuotaBounds.LocalBinIsKept` | apps/code-worker/tenant_home_quota.py:341-390 | whatever fails, a directory `.local/bin` and all in it stay exactly as they are |
| `QuotaBounds.CredentialsAndProjectsAreKept` | apps/code-worker/tenant_home_quota.py:60-78 | whatever fails, the credential files by name, everything in `projects`, `.git` and `.config`, and lock files stay exactly as they are |
| `QuotaBounds.OnlyTheseMayGo` | apps/code-worker/tenant_home_quota.py:393-517 | what is gone after so many tiers lay below `.cache`, or was old, or below something old, in the part of `.local` those tiers are for; everything else is as it was |
| `QuotaBounds.TheseMustGo` | apps/code-worker/tenant_home_quota.py:453-506 | without faults no overdue file of the tiers that ran is left, the protected ones excepted |
| `QuotaBounds.StopsAtTheFirstFit` | apps/code-worker/tenant_home_quota.py:453-506 | the tiers run until a scan fits the budget and no further; which scans are reported; nothing happens below the budget or beside another walker |
| `Batching.GreedyKeepsOrder` | apps/code-worker/session_event_emitter.py:260-281 | the batches concatenate to the queue in order |
| `Batching.GreedyFits` | apps/code-worker/session_event_emitter.py:54-55 | each batch is within both caps or a singleton |
| `Batching.GreedyFills` | apps/code-worker/session_event_emitter.py:260-281 | each batch has at most 32 chunks and 16384 characters with 64 for every chunk, or is a singleton, and could not have taken the chunk after it |
| `Batching.BytesAreTextAndOverhead` | apps/code-worker/session_event_emitter.py:269 | the size reckoned with is the length of all the text plus 64 per chunk |
| `Batching.DroppableKinds` | apps/code-worker/session_event_emitter.py:62-65 | reasoning, stdout and text can be dropped, and nothing else |
| `Batching.GreedyIsOptimal` | apps/code-worker/session_event_emitter.py:260-281 | no order-preserving split under the caps uses fewer batches |
| `Batching.SessionEventEmitter.EmitChunk` | apps/code-worker/session_event_emitter.py:135-180 | a chunk is ignored, dropped and counted by kind, or queued last |
| `Batching.SessionEventEmitter.FlushOnce` | apps/code-worker/session_event_emitter.py:260-284 | the queue is emptied into the greedy batches, posted in order, and the counters agree with the answers |
| `Batching.SessionEventEmitter.PostBatch` | apps/code-worker/session_event_emitter.py:286-323 | one POST per batch while the client is open; delivered chunks, batches and errors counted |
| `Batching.PostedAt` | apps/code-worker/session_event_emitter.py:274-281 | the k-th POST is the k-th batch, with the k-th answer |
| `EmitterProtocol.EveryChunkIsAccountedFor` | apps/code-worker/session_event_emitter.py:170-325 | over every interleaving each chunk is in one place, in order; batches fit; only droppable kinds are dropped, and none while at most 1000 chunks have been put; at most 1000 plus the number of producers droppable chunks are queued |
| `EmitterProtocol.CleanCloseOffersEverything` | apps/code-worker/session_event_emitter.py:196-258 | once close has joined the thread, every chunk put before the stop signal was offered to exactly one POST, in order |
| `EmitterProtocol.FatesFollowReplies` | apps/code-worker/session_event_emitter.py:303-325 | without refusals no batch is lost, without acceptances none arrives |
| `EmitterProtocol.NothingSentAfterClose` | apps/code-worker/session_event_emitter.py:286-288 | once the client is closed and no POST is under way, what is still drained is discarded |
| `EmitterProtocol.FlusherExits` | apps/code-worker/session_event_emitter.py:241-258 | after the stop signal the flusher reaches its exit by its own steps from wherever it is, whatever the API answers |
| `HeartbeatRunner.DoneMeansBothClosed` | apps/code-worker/cli_runtime.py:479-509 | the event is set iff both drains are through, each having closed its stream; if neither gave up, nobody can write any more |
| `HeartbeatRunner.ReturnCarriesEveryLine` | apps/code-worker/cli_runtime.py:524-536 | a normal return carries a joined stream in full and in order iff no line is undecodable and none with output behind it kills the callback; otherwise a prefix ending no later than the first such line |
| `HeartbeatRunner.ChunksAreTheLines` | apps/code-worker/cli_runtime.py:486-499 | `on_chunk` is called with the lines read, once each and in order, with all of them iff the same condition holds |
| `HeartbeatRunner.RaisingNeverLeavesTheChild` | apps/code-worker/cli_runtime.py:524-579 | an exceptional exit from the polling loop has seen the child exit or issued a kill |
| `HeartbeatRunner.LateIsKilled` | apps/code-worker/cli_runtime.py:537-544 | a timeout noticed by the loop kills the child at once, and the call can then only raise |
| `HeartbeatRunner.InterruptIsRaised` | apps/code-worker/cli_runtime.py:561-579 | an exception in the polling loop is never swallowed |
| `HeartbeatRunner.LeavingEnds` | apps/code-worker/cli_runtime.py:561-579 | from a timeout or an exception the main thread reaches its end on its own |
| `HeartbeatRunner.ExitIsReturned` | apps/code-worker/cli_runtime.py:527-536 | polling after the exit returns the exit status and what was read, even if the joins time out |
| `HeartbeatRunner.UndecodableLineIsLost` | apps/code-worker/cli_runtime.py:483-509 | a run in which an undecodable line is lost although all joins complete and the exit status is 0 |
| `HeartbeatRunner.EventBeforeExit` | apps/code-worker/cli_runtime.py:552-560 | a run in which the event is set while the child is alive |
| `HeartbeatRunner.EventImpliesExitExactly` | apps/code-worker/cli_runtime.py:552-560 | for a child's script the event implies the exit under every schedule iff one stream, until the exit, is neither hung up nor given a line that ends its drain |
| `Redaction.SecretIsFound` | packages/cli_orchestrator/redaction.py:115-149 | the three secret rules match wherever a secret of their shape begins |
| `Redaction.SubClears` | packages/cli_orchestrator/redaction.py:115-170 | one leftmost substitution removes its own shape and creates none of the three |
| `Redaction.GuardedIsCalm` | packages/cli_orchestrator/redaction.py:115-170 | no replacement of the later rules, line-joining and header rules included, can complete a secret |
| `Redaction.ClearedAfter` | packages/cli_orchestrator/redaction.py:200-205 | a shape is gone after its own rule and stays gone |
| `Redaction.Redact` | packages/cli_orchestrator/redaction.py:185-205 | the result is that of the nine rules, and no substring of it is a GitHub token, an `sk-` key or a JSON web token, for every text |
| `Redaction.ProseSurvives` | packages/cli_orchestrator/redaction.py:185-205 | text no rule matches survives all of them verbatim |
| `RedactionRules.BearerMatches` | packages/cli_orchestrator/redaction.py:100-104 | a header of the written-out form, with its token, is matched and only the token replaced |
| `RedactionRules.BearerHasForm` | packages/cli_orchestrator/redaction.py:100-104 | whatever the bearer rule matches is of that form |
| `RedactionRules.KeyHeaderMatches` | packages/cli_orchestrator/redaction.py:105-109 | the same for the three key headers |
| `RedactionRules.KeyHeaderHasForm` | packages/cli_orchestrator/redaction.py:105-109 | the converse |
| `RedactionRules.GitUrlMatches` | packages/cli_orchestrator/redaction.py:110-114 | the same for a credential of twenty or more characters in a GitHub address |
| `RedactionRules.GitUrlHasForm` | packages/cli_orchestrator/redaction.py:110-114 | the converse |
| `RedactionRules.CookieMatches` | packages/cli_orchestrator/redaction.py:133-137 | a cookie header is replaced to the end of its line |
| `RedactionRules.BlankCookieMatches` | packages/cli_orchestrator/redaction.py:133-137 | so is one with nothing but blanks up to the end of the text, up to the last that breaks no line |
| `RedactionRules.CookieHasForm` | packages/cli_orchestrator/redaction.py:133-137 | the cookie rule matches nothing else |
| `RedactionRules.ConfigMatches` | packages/cli_orchestrator/redaction.py:148-160 | a line that begins with a secret name, a separator and a value keeps the name only |
| `RedactionRules.ConfigHasForm` | packages/cli_orchestrator/redaction.py:148-160 | the converse |
| `RedactionRules.HeaderMatches` | packages/cli_orchestrator/redaction.py:161-170 | an authorization-style header that begins a word keeps the name only |
| `RedactionRules.HeaderHasForm` | packages/cli_orchestrator/redaction.py:161-170 | the converse |
| `RedactionRules.SecretNamesSpelledOut` | packages/cli_orchestrator/redaction.py:155-156 | the fourteen names, each stem with a hyphen, an underscore or nothing in between |
| `RedactionRules.ShapeMatchesExactly` | packages/cli_orchestrator/redaction.py:115-147 | the three shape rules replace, by their own markers, exactly the longest secret that begins at a place |
| `RedactionRules.SubSame` | packages/cli_orchestrator/redaction.py:203-204 | what a substitution makes of a text from a place on depends on the text from there on and on one character before it |
| `RedactionHides.BearerHides` | packages/cli_orchestrator/redaction.py:100-104 | from a header on, two texts that differ only in the token come out alike, with the header kept |
| `RedactionHides.KeyHeaderHides` | packages/cli_orchestrator/redaction.py:105-109 | the same for the key headers |
| `RedactionHides.GitUrlHides` | packages/cli_orchestrator/redaction.py:110-114 | the same for the credential in a GitHub address |
| `RedactionHides.CookieHides` | packages/cli_orchestrator/redaction.py:133-137 | the same for a cookie's line |
| `RedactionHides.ConfigHides` | packages/cli_orchestrator/redaction.py:148-160 | the same for the value of a configuration line |
| `RedactionHides.HeaderHides` | packages/cli_orchestrator/redaction.py:161-170 | the same for the value of a header |
| `RedactionHides.NineRules` | packages/cli_orchestrator/redaction.py:203-204 | the result is that of the nine rules in this order, each applied to what the one before has made |
| `RedactionHides.BearerIsHidden` | packages/cli_orchestrator/redaction.py:203-204 | if the scan comes to the header, two texts that differ only in its token have the same result, after every rule from the first to the ninth |
| `RedactionHides.BearerIsMissed` | packages/cli_orchestrator/redaction.py:100-104 | if it does not, the token stands in what the bearer rule leaves |
| `RedactionHides.FirstIsReached` | packages/cli_orchestrator/redaction.py:100-104 | the scan comes to the first header of a text |
| `RedactionHides.NestedHeaderIsMissed` | packages/cli_orchestrator/redaction.py:100-104 | for every token: a text whose second header is taken for the token of the first, and keeps it |
| `StreamParser.AssembledExactly` | apps/code-worker/cli_executors/claude_stream_parser.py:244-259 | the buffered lines are the complete lines of the joined output iff no fragment has a line feed before its end |
| `StreamParser.FragmentationIsInvisible` | apps/code-worker/cli_executors/claude_stream_parser.py:214-260 | then what is emitted depends on the joined text only |
| `StreamParser.UnterminatedTailIsSilent` | apps/code-worker/cli_executors/claude_stream_parser.py:252-254 | text after the last line feed emits nothing |
| `StreamParser.LatestIsLast` | apps/code-worker/cli_executors/claude_stream_parser.py:133-173 | the latest use of an id in a history is the last one with that id |
| `StreamTranscript.ResultIsNamed` | apps/code-worker/cli_executors/claude_stream_parser.py:150-173 | the chunk of a result whose id was used under a name on an earlier line, and not again since, says that name, at its place in the transcript |
| `StreamTranscript.UnknownResultIsItsId` | apps/code-worker/cli_executors/claude_stream_parser.py:167-170 | with no such line it says the id, or "tool" without an id |
| `StreamTranscript.AssistantReads` | apps/code-worker/cli_executors/claude_stream_parser.py:114-148 | what each part of an assistant message adds to the transcript, in its place |
| `StreamTranscript.OtherLinesRead` | apps/code-worker/cli_executors/claude_stream_parser.py:221-233 | a line that is no JSON object is shown as it is, a blank one not at all |
| `StreamTranscript.ErrorLinesRead` | apps/code-worker/cli_executors/claude_stream_parser.py:242-248 | every line of the error stream that is not blank is forwarded as it is, in its place |
| `StreamTranscript.BareIsTheText` | apps/code-worker/cli_executors/claude_stream_parser.py:222 | the decoder gets the line without its line feeds, then without its carriage returns |
| `StreamParser.Parser.ParseAssistant` | apps/code-worker/cli_executors/claude_stream_parser.py:114-148 | the chunks of an assistant message, and an id map that keeps representing the history of uses |
| `StreamParser.Parser.ShowPart` | apps/code-worker/cli_executors/claude_stream_parser.py:121-148 | the chunks of one part of an assistant message |
| `StreamParser.Parser.ParseUser` | apps/code-worker/cli_executors/claude_stream_parser.py:150-173 | results labelled by the latest use, else the id, else "tool" |
| `StreamParser.Parser.OnChunk` | apps/code-worker/cli_executors/claude_stream_parser.py:241-260 | for every interleaving of both streams, the output emitted is the transcript of the lines assembled, and error lines pass through |
| `Migration.PlanIsDecided` | scripts/migrate_skills_layout.py:60-133 | the inventory's loops find exactly the directories that have a destination, each with that one |
| `Migration.DestinationsSpelledOut` | scripts/migrate_skills_layout.py:60-133 | the destination of every directory, as a path, from its own path, its `skill.md` and its twin in `native` |
| `MigrationArrival.PlanOrder` | scripts/migrate_skills_layout.py:147-169 | agents are moved first, then skills, then archives |
| `Migration.NestedExactly` | scripts/migrate_skills_layout.py:60-133 | a destination lies at or in another iff they are the same, or one is a skill of the nameless tenant called like the other's tenant |
| `Migration.NamelessTenantClashes` | scripts/migrate_skills_layout.py:97-118 | two directories whose destinations do nest |
| `Migration.NamedTenantsDoNotClash` | scripts/migrate_skills_layout.py:97-118 | without a directory called just `tenant_` none do |
| `Migration.MigrationLosesNothing` | scripts/migrate_skills_layout.py:136-171 | whatever exists already and whatever raises, no object is lost, changed or overwritten, and no file appears from nowhere |
| `MigrationArrival.DirectoriesArrive` | scripts/migrate_skills_layout.py:136-171 | whatever exists and whatever raises, a directory is where it was or, with all that is in it, at its destination; with free destinations that do not clash, the latter |
| `MigrationArrival.TheRestStays` | scripts/migrate_skills_layout.py:147-171 | whatever lies in no directory with a destination stays as it is |
| `Migration.SecondRunIsEmpty` | scripts/migrate_skills_layout.py:147-176 | with free, unobstructed destinations that do not clash every move is made and a second inventory is empty |
| `MigrationRepeat.SecondPlanIsEmptyExactly` | scripts/migrate_skills_layout.py:60-176 | without clashes a second inventory is empty iff every destination was free and unobstructed; what was not moved is planned again |
| `MigrationRepeat.RunChangesNothingExactly` | scripts/migrate_skills_layout.py:147-176 | a run with no file in its way changes nothing iff every planned destination exists |
| `MigrationRepeat.SecondRunChangesNothingExactly` | scripts/migrate_skills_layout.py:147-176 | for trees without clashing destinations and without files in the way of the new layout, a second run changes nothing iff no top-level directory had its archive place taken while its twin moved to the other side |
| `MigrationRepeat.LunaMovesTwice` | scripts/migrate_skills_layout.py:120-131 | a tree on which the second run moves a directory the first one left |
| `MigrationRepeat.StalledMovesAgain` | scripts/migrate_skills_layout.py:136-176 | a tree on which a file in the way stops the first run, and the second run moves a directory |
| `Migration.PlanLists.Inventory` | scripts/migrate_skills_layout.py:60-133 | the nested loops fill the three lists of the plan |
| `Migration.Layout.Move` | scripts/migrate_skills_layout.py:136-144 | status and effect of one move, none in a dry run |
| `Migration.Layout.Migrate` | scripts/migrate_skills_layout.py:147-176 | the run applies the plan's moves in order, stopping where one raises; a dry run changes nothing |
| `Preflight.Checks.CheckTemporalQueueReachable` | packages/cli_orchestrator/preflight.py:253-335 | the verdict is that of a look at this queue within the ttl, OK meaning a heartbeat at most 60 s plus the ttl old; Redis errors only cause a probe; exactly when one is made, what is kept of it, under which key and until when |
| `Preflight.Checks.CheckCloudApiEnabled` | packages/cli_orchestrator/preflight.py:167-246 | the verdict is that of a probe of the same tenant and platform within the ttl; Redis errors only cause a probe; exactly when one is made, what is kept of it, under which key and until when |
| `Preflight.CloudKeysClashExactly` | packages/cli_orchestrator/preflight.py:198 | two keys are equal iff tenant and platform are, or one tenant id continues the other after a colon and the platform names make up for it |
| `Preflight.PlatformKeysAreDistinct` | packages/cli_orchestrator/preflight.py:198 | for platform names, which hold no colon, keys are equal iff tenant and platform are, whatever the tenant ids |
| `Preflight.CloudKeysAreDistinct` | packages/cli_orchestrator/preflight.py:198 | for tenants without colons keys are equal iff tenant and platform are, whatever the platform names |
| `Preflight.ColonsClash` | packages/cli_orchestrator/preflight.py:198 | the clash there would be with a colon in both |
| `Preflight.KeysApart` | packages/cli_orchestrator/preflight.py:285 | the two kinds of verdict never share a key |
| `DeviceFlow.CompleteDeviceFlow` | apps/agentprovision-core/src/auth.rs:387-415 | terminates within the rounded-up quotient of lifetime and interval polls, spaced by the interval and 5 s per slow-down, none waited for after the deadline; each turn begins when the one before is over and sleeps exactly that long; the result is what the last reply says |
| `DeviceFlow.OutcomesSpelledOut` | apps/agentprovision-core/src/auth.rs:342-380 | what each reply means, by error code |
| `Toml.EscapeIsOnePass` | apps/code-worker/workflows.py:1663-1664 | the two successive replacements escape every character exactly once |
| `Toml.PrintedForm` | apps/code-worker/workflows.py:1658-1664 | the text of a table with no pair and with one |
| `Toml.PairsAreJoined` | apps/code-worker/workflows.py:1658-1664 | pairs are separated by a comma and a blank |
| `Toml.ReadEscaped` | apps/code-worker/workflows.py:1663-1664 | a basic-string reader gives an escaped text back iff it holds no control character but the tab |
| `Toml.ReadsBackExactly` | apps/code-worker/workflows.py:1658-1664 | an inline-table reader gives the printed pairs back, in order, iff none holds such a character, and otherwise rejects the text |

## Left out

- Executor: run ids, metrics, the RL mirror, metadata payloads and webhook delivery; adapter answers are records without sharing; the wording of messages and reasons is not modelled.
- Executor: `Executor.Skip` and `Executor.Refuse` are parts of the loop body as methods of their own; so are `Enter`, `UseFresh`, `ExchangeAndSettle` and the methods after them parts of one function in `ApiClient`.
- `RefreshProtocol`: the protocol is on values, as interleaved steps, with `ApiClient` as the code of one request; cancellation is modelled at await points outside the exchange; proxies, headers and the retried request's own outcome are not.
- `RefreshProtocol`: the server is its current, replaced and burned tokens, with the grace window as one possible answer; expiry and the database are not.
- Pruner: anchor directories that are symbolic links, hard links, sockets and concurrent writers are assumed away; the tree is updated once per listing, not once per file.
- Pruner: the walk watermark (`should_walk`, `maybe_enforce_quota`) and the lock itself, which is a parameter.
- `QuotaFixpoint.OverBudgetLeavesNothingStale`: assumes a clock past the cutoff and no fault in the first run, its scans included, which the promise needs.
- Emitter: timestamps, the `raw` payload, log throttling and the flush interval; a POST is one step with any outcome; that the flusher is scheduled at all is not.
- `HeartbeatRunner`: for which lines `on_chunk` raises something its drain does not catch depends on stream and line, not on earlier calls; the first heartbeat, before the `try` block, and exceptions inside the except block other than from `poll` and `kill`; join timeouts are arbitrary.
- Redaction: `redact_json_structural` and `cleanup_codex_home`. The pattern engine is one matcher per rule, with the character tables as parameters; that no character equals two letters up to case is assumed for the names of configuration and header lines.
- `StreamParser`: the rendering of inputs, results and of system and result events is part of the decoder; events whose fields have unexpected types are not modelled.
- `MigrationRepeat.SecondRunChangesNothingExactly`: says nothing of runs a file in the way stops, whose second run depends on the order of the moves, nor of trees with clashing destinations; `StalledMovesAgain` is an instance of the first.
- `Migration`: reading `skill.md` is a predicate on its text, and a listing's order is a parameter; symbolic links and failing moves other than a file in the way are not modelled.
- `Preflight`: the memoised binary and trust-file checks and the credential fetch; one clock for workers and Redis.
- `DeviceFlow`: overflow of the 64-bit durations.
- `Toml`: the reader knows the one-letter escapes, not `\u` and `\U`, which the printer never writes; bare keys and other value types are not read; the other config lines are left out.
- Session manager, feature flags, classifier, workflows, prompts, command-line parsing, front ends and deployment: branches and foreign calls without state of their own to keep.
