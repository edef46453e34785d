# Verified model of Invoker's repair automation

This Dafny project models the parts of Invoker where a wrong step is expensive, and proves
what they promise for every input and every run. `dafny verify dfyconfig.toml` checks it.

**The admin-bypass requeue controller.** A cron tick reads an append-only ledger, settles
finished repairs, plans at most one action per stack of pull requests, carries it out and
appends what happened. Every cap, in-flight test, escalation and merge decision is derived
by scanning that ledger.

| file | what it holds |
|---|---|
| `Ledger.dfy` | rows, the row filters, the `Ledger` class |
| `RetryBudget.dfy` | START/settle pairing, the attempt count, how each appended row moves it |
| `RetryGate.dfy` | the retry decision, the in-flight test, infra-repair ownership: the gate |
| `StackFacts.dfy` | blockers of a PR, topology, the facts a plan starts from |
| `BlockerFacts.dfy` | what those facts say, field by field |
| `Planner.dfy` | the planner, branch by branch |
| `FilingClaims.dfy` | the shared claim table under any interleaving |
| `PlannerSafety.dfy`, `LandingSafety.dfy` | what every plan promises |
| `PlannedRepairs.dfy` | which repair a plan files, and when it waits |
| `ProgressRules.dfy` | what a plan does where nothing is left to repair |
| `SettlePasses.dfy` | the two settle passes and their convergence |
| `Dispatch.dfy` | the rows one carried-out action appends |
| `DispatchOutcomes.dfy`, `TickOutcomes.dfy` | what an action, a stack and a tick come to, under which answers |
| `LedgerInvariant.dfy` | the invariant of one repair unit, and which row keeps it when |
| `Controller.dfy`, `ActionRows.dfy`, `RunSafety.dfy` | ticks, runs, whose rows an action appends, and safety over whole runs |
| `LoadedTicks.dfy` | why the stacks of a tick hold one snapshot per PR |
| `RunCycle.dfy` | executor, repairer and cycle as objects over one ledger, proved equal to `Controller.Cycle` |
| `PlannerRules.dfy` | whose threads the planner touches, when it comments, unholds, retargets and releases |
| `RowCaps.dfy` | the caps counted on rows, over whole runs: requeues, escalations, comments, labels, refreshes, merges |
| `SharedSubmission.dfy` | what the shared workflow of several failing checks spends |
| `ShortLedgers.dfy`, `FailingTicks.dfy`, `FailingRuns.dfy` | runs on which the code breaks a promise |
| `RunExample.dfy` | runs that meet every assumption |

**Around it.** `DeltaCache.dfy` is the versioned task cache with quarantine and the renderer
that folds its output; `SafePush.dfy` the compare-and-swap push with replay;
`TokenRollup.dfy`, `TokenFigures.dfy` and `RollupObjects.dfy` the token books; `StackGroups.dfy`, `JsonScan.dfy`,
`ShellQuote.dfy`, `DuplicateClose.dfy`, `ClosingFacts.dfy` and `Scout.dfy` the grouping, scanning,
quoting and policy algorithms. `Text.dfy` and `Wrappers.dfy` hold string order and `Option`.

Code that changes state step by step is a class or a method with loops, proved equal to a
function; the theorems are about that function. Where the outside world answers (GitHub,
git, the workflow owner, clocks), the answer is a parameter, so a theorem holds for every
answer, also for one that fails in the middle.

## What a run is assumed to be

The theorems on budgets and attempts speak about one repair unit at a time and ask for
`Controller.GoodRun` of that unit alone; whatever happens to any other PR is free:

- other processes append, between ticks, no START and no request of the unit;
- no clock runs backwards;
- the unit's PR has one snapshot per tick. The loader guarantees it
  (`LoadedTicks.LoadedTickHasOneSnapshot`);
- where the unit is a check, it is not among several failing queue checks of its head, and where
  it is a review thread, no check of its PR is named like it.

The code does not enforce the last line; the next section names the runs that break a cap without it.
The caps on requeues, comments, labels, refreshes and merges need less (`RowCaps.CapIsOurs`): one
snapshot of the PR, and no rows of that cap by other processes. `RunExample.LandableIsRequeued`
gives runs that meet all of it.

## Where the code and its promises part

- **One live attempt.** The settle of an attempt is recognised by its epoch alone. A START filed in
  the second of an earlier settle is taken for settled: no pass ever settles it and the next tick
  may file it again, as after a tick that settles an attempt and files the next one
  (`FailingRuns.MaskedStartIsRefiledAtOnce`). A START holds off the next one exactly when no settle
  of its unit stands in its own second, or the latest keeps the gate shut anyway
  (`RetryGate.StartHoldsOffExactlyWhen`), and then it is over before the next is filed
  (`RunSafety.OneLiveAttemptOverRuns`). The settle passes skip exactly the STARTs of
  `SettlePasses.LeftToSettleExactlyWhen`.
- **One START, one attempt.** `starts.index(start)` in `_settle_for_submit` finds the first equal
  row, so a START repeated word for word empties its window, and a START may be excused by a settle
  of its own second before it ran. It spends exactly one under the condition of
  `RetryBudget.StartSpendsOneExactlyWhen`; on a ledger the gate passes it can spend nothing and then
  two (`RetryGate.IdenticalStartSpendsTwo`).
- **The repair cap.** For that reason a unit can get one attempt over its cap
  (`FailingRuns.RepeatedStartBreaksCap`), never more, and it keeps the cap exactly when no START
  overspends (`RunSafety.RetryBudgetOverRuns`).
- **The shared workflow** files a START for every failing check without asking their caps
  (`FailingRuns.SharedFilingBreaksCap`). The caps hold afterwards exactly when every check had an
  attempt left (`SharedSubmission.SharedFilingKeepsCapsExactlyWhen`).
- **Misread names.** A check whose name begins with `bot_review_thread:` is gated on one unit, filed
  on another, and keeps a claim no failed dispatch releases (`FailingRuns.MisreadCheckBreaksCap`,
  `PlannerSafety.PlanKeepsItsPromise`).
- **Holds.** A merge-hold label on a draft or closed upper PR does not stop a requeue
  (`LandingSafety.HoldIsSeenExactlyOnReadyPrs`, `RunExample.ReadyIsRequeued`).
- The excuse for a missing queue-only check in `effective_blockers` can never apply, because
  `classify_pr` never reports one missing (`StackFactsModel.MissingIsNeverQueueOnly`).
- **The task cache.** Recovery files the task it was given under the id it asked for, the renderer
  under the task's own id; they agree exactly under the condition of
  `DeltaCache.ReloadKeepsMirrorExactlyWhen`. An update of a task created anew under its old id and
  version can be merged into the old task (`DeltaCache.RecreatedTaskIsMixed`); it gives the owner's
  task exactly under the condition of `DeltaCache.UpdateAgreesExactlyWhen`.
- **Safe push** does not look at the local work where the remote has not moved: unrelated work
  replaces the captured head (`SafePush.UnbuiltPushDropsHistory`). A step keeps the branch's history
  exactly when what it lands directly is built on the head it replaces
  (`SafePush.StepKeepsHistoryExactlyWhen`).
- **Token reports.** A Claude report without ids is keyed by the word `row` and its uuid, one with ids by
  those, so ids that spell such a pair hide the other report; two rows are one report exactly under the
  condition of `TokenFigures.OneReportExactlyWhen`.
- A Codex counter field that drops inside a segment is billed more than its final reading;
  the bill is exact exactly when it never drops (`TokenRollup.DifferencingExactlyWhenNoDrop`).

## Model

| member | source | states |
|---|---|---|
| LedgerModel.LatestIsTheNewestHit | scripts/mergify_admin_requeue_model.py:199-245 | the newest matching row is returned, the last of equal epochs, and none exactly when nothing matches |
| LedgerModel.LatestByFields | scripts/mergify_admin_requeue_model.py:179-245 | by the fields themselves: the newest row of one kind, PR, head and key; of one kind and head whatever the key; of one unit whatever the head |
| LedgerModel.Ledger.CountRows | scripts/mergify_admin_requeue_model.py:179-197 | the loop counts exactly the matching rows |
| LedgerModel.Ledger.CountForHead | scripts/mergify_admin_requeue_model.py:189-197 | counts the rows of a kind on one head, whatever their key |
| LedgerModel.Ledger.LatestRow | scripts/mergify_admin_requeue_model.py:199-217 | the loop with its kept epoch ends with the newest matching row |
| LedgerModel.Ledger.HasDifferentHead | scripts/mergify_admin_requeue_model.py:247-259 | true exactly when a row of the unit names another, known head |
| LedgerModel.DifferentHeadExactlyWhen | scripts/mergify_admin_requeue_model.py:247-259 | a unit was tried on another head if and only if a row of its kind, PR and key names one |
| LedgerModel.Ledger.Record | scripts/mergify_admin_requeue_model.py:261-286 | appends one row and changes nothing before it |
| RetryBudget.SortOrders | scripts/mergify_admin_requeue_plan.py:319-328 | the unit's rows come in epoch order |
| RetryBudget.SortKeepsRows | scripts/mergify_admin_requeue_plan.py:319-328 | the sort keeps every row as often as it was there |
| RetryBudget.SettleForSubmit | scripts/mergify_admin_requeue_plan.py:338-358 | the loop returns the first settle inside the START's epoch window, or none |
| RetryBudget.CountCodeRepairAttempts | scripts/mergify_admin_requeue_plan.py:375-407 | the loop counts the STARTs after the last reset whose settle does not excuse them |
| RetryBudget.StartRaisesBudget | scripts/mergify_admin_requeue_plan.py:338-407 | a START adds exactly what `SpendOf` says: nothing behind a reset or where a settle of its own second excuses it, two where it repeats a START whose last twin had been excused, else one |
| RetryBudget.StartSpendsOneExactlyWhen | scripts/mergify_admin_requeue_plan.py:338-407 | a START adds exactly one if and only if it is behind no reset, is not excused by a settle of its own second and does not spend two; exactly when it adds two |
| RetryBudget.SettleGivesBackExactlyWhen | scripts/mergify_admin_requeue_plan.py:338-407 | a settle takes one attempt back if and only if it says superseded or capacity-deferred and the last START of its unit, new, behind no reset and older than no settle, awaits it; with any other outcome, or none, the count stays |
| RetryBudget.ResetClearsBudget | scripts/mergify_admin_requeue_plan.py:331-335 | a reset brings the unit's count to zero |
| RetryBudget.OtherRowKeepsBudget | scripts/mergify_admin_requeue_plan.py:319-407 | rows of other kinds, heads, keys or PRs leave the count alone |
| RetryBudget.AppendedRowAndBudget | scripts/mergify_admin_requeue_plan.py:375-407 | over any appended row the count rises only by a START of the unit, by two only for one that spends two, else by at most one |
| RetryBudget.RepeatedStartSpends | scripts/mergify_admin_requeue_plan.py:338-358 | a START equal to an earlier one spends one attempt, and two exactly when its twin had been excused |
| RetryGate.GatePass | scripts/mergify_admin_requeue_plan.py:486-551 | a passed gate means budget left and, where the last START had shut the gate, that attempt over: by its own settle behind it in the file, by time, or by a confirmed infra crash |
| RetryGate.StartHoldsOffExactlyWhen | scripts/mergify_admin_requeue_plan.py:530-551 | a new START holds off every later filing for its in-flight time, a confirmed crash aside, if and only if no settle of the unit stands in its own second or the latest one keeps the gate shut by itself |
| RetryGate.IdenticalStartSpendsTwo | scripts/mergify_admin_requeue_plan.py:338-358 | for every unit, a ledger on which the gate passes, a START adds nothing, the gate passes again, and the same START once more brings the count to two, over a cap of one |
| RetryGate.GatePassesExactlyWhen | scripts/mergify_admin_requeue_plan.py:434-551 | the gate passes if and only if budget is left, no attempt is alive, the last settle is not superseded and infra-repair does not own the unit |
| RetryGate.GateDecides | scripts/mergify_admin_requeue_plan.py:434-551 | the answer on any ledger, future rows included: capped exactly where attempts are used up and the last settle is not superseded, passed exactly where none of the questions holds it, after a crash or not |
| RetryGate.BackoffDoubles | scripts/retry-ledger.mjs:13-35 | the shared retry decision: out of attempts, else waiting from the last attempt on, twice as long with every attempt, else filing |
| RetryGate.InfraSettledIsRefiledExactlyWhen | scripts/mergify_admin_requeue_plan.py:434-551 | an attempt that ended in an infra settle is filed again if and only if budget is left, the workflow of the settle is not live, and its time is over unless that workflow is known and did not fail |
| StackFactsModel.ClassifyPr | scripts/mergify_admin_requeue_plan.py:238-281 | the loops collect the blockers in the order the specification lists them |
| BlockerFacts.ClassifiedExactlyWhen | scripts/mergify_admin_requeue_plan.py:238-281 | which blockers a PR has, field by field: closed, draft, held, unresolved threads by who wrote in them, conflicting, checks failing, unfinished, or missing where required on trunk |
| BlockerFacts.ClassifiedInOrder | scripts/mergify_admin_requeue_plan.py:238-281 | holds come before threads, the conflict after them, and the checks last, by name |
| BlockerFacts.EffectiveExactlyWhen | scripts/mergify_admin_requeue_plan.py:558-586 | what still blocks: the same less failing checks the ledger suppresses and missing ones that Mergify reports passed for this head |
| StackFactsModel.ResolvedExactlyWhen | scripts/mergify_admin_requeue_plan.py:794-836 | a blocker becomes a human's decision if and only if a row declares its repair invalid or, for a failed check, a comment not older than it asks for a manual split; what that comment says is shown |
| BlockerFacts.DisputedExactlyWhen | scripts/mergify_admin_requeue_plan.py:839-948 | a human has to decide about a PR if and only if a blocker of it cannot be repaired, or a check only the queue names cannot |
| BlockerFacts.InvalidSaysWhy | scripts/mergify_admin_requeue_plan.py:794-818 | a human is told the error lines of the newest row that declares the repair invalid, a conflict's older key winning a tie, or where it has none, what blocked the PR |
| BlockerFacts.SuppressedExactlyWhen | scripts/mergify_admin_requeue_plan.py:917-930 | a failing check is suppressed if and only if it is on the bottom and its prerequisite's follow-up is due, it is the queue-only no-op, or it is a required "PR Body" found not to need repair |
| BlockerFacts.NoopExactlyWhen | scripts/mergify_admin_requeue_plan.py:756-791 | a queue-only no-op counts if and only if Mergify dequeued this very head for that check by the admin-bypass rule, the newest no-op names it and no requeue used it up |
| BlockerFacts.PrereqExactlyWhen | scripts/mergify_admin_requeue_plan.py:716-753 | the prerequisite is the one the newest row of the head names; open while its PR is, its follow-up due until a requeue for its check is recorded |
| BlockerFacts.TopologyExactlyWhen | scripts/mergify_admin_requeue_plan.py:659-700 | the bottom is the first PR open on trunk; without one the stack waits on exactly the open PRs outside it that own the base of its root |
| BlockerFacts.AcceptanceExactlyWhen | scripts/mergify_admin_requeue_plan.py:702-713 | uppers need acceptance if and only if an open PR besides the bottom lacks the label |
| StackFactsModel.NoBlockersIffReady | scripts/mergify_admin_requeue_plan.py:238-281 | no blocker is left if and only if the PR is open, not draft, unheld, resolved, conflict-free, every relevant check is green, suppressed or excused, and no failing queue check was declared invalid |
| StackFactsModel.MissingIsNeverQueueOnly | scripts/mergify_admin_requeue_plan.py:558-586 | a queue-only check is never reported missing, so its excuse never applies |
| StackFactsModel.BlockersNameTheirPr | scripts/mergify_admin_requeue_plan.py:839-859 | every blocker carries the number of the PR it was computed for |
| StackFactsModel.BuildStackFacts | scripts/mergify_admin_requeue_plan.py:897-963 | the loops over suppressions and blockers build the specified facts |
| StackFactsModel.FactsInvariantHolds | scripts/mergify_admin_requeue_plan.py:862-894 | everything the code asserts about its facts holds if and only if the stack's PR numbers are distinct |
| FilingClaims.GrantsNeedReleases | scripts/repair_filing_ledger.py:67-130 | over any interleaving with lost answers, the grants of a key never exceed its releases by more than the claim still held |
| FilingClaims.OneHolderPerKey | packages/data-store/src/sqlite-adapter.ts:3206-3222 | between two grants of one key stands a release of it |
| FilingClaims.HeldExactlyWhen | packages/data-store/src/sqlite-adapter.ts:3206-3222 | a key is held if and only if a claim of it was applied and no release of it since, answers lost or not |
| FilingClaims.ReleasesExactlyItsOwn | scripts/mergify_admin_requeue_exec.py:341-387 | a failed dispatch gives back exactly the keys its own repair may have been claimed under |
| PlannerSafety.RebaseStep | scripts/mergify_admin_requeue_plan.py:1310-1392 | a filed rebase passed the gate of its unit and keeps exactly one claim, also after a stale claim is released and taken again |
| PlannerSafety.QueueCheckStep | scripts/mergify_admin_requeue_plan.py:613-656 | a repair of a queue check passed the gate of that check and keeps exactly one claim; denied ones keep none |
| PlannerSafety.QueueRepairsStep | scripts/mergify_admin_requeue_plan.py:1063-1131 | the same over all PRs of the stack and both repair reasons |
| PlannerSafety.DirectRepairsStep | scripts/mergify_admin_requeue_plan.py:1134-1182 | the same for blockers repaired directly |
| PlannedRepairs.RepairsTakeFirstGrantedJob | scripts/mergify_admin_requeue_plan.py:1063-1217 | the three repair passes, whatever the claim table answers, take the first due job of one list, over blockers, gates, older conflict repairs and queue checks, whose claim is granted, and make exactly those claim calls |
| PlannedRepairs.OnlyDeniedArePassedOver | scripts/mergify_admin_requeue_plan.py:1063-1217 | a due repair is passed over only where its own claim was denied |
| PlannedRepairs.FilesFirstDueRepair | scripts/mergify_admin_requeue_plan.py:1517-1580 | claims granted, the plan files a repair or resolves a thread if and only if that is the first job due on the bottom, or none is, nothing but holds blocks the bottom, and it is the first one due in the stack; a due repair of the bottom is never left out |
| PlannedRepairs.BottomRestsExactlyWhen | scripts/mergify_admin_requeue_plan.py:1419-1514 | a bottom nobody is waited for has nothing to do if and only if the stack is held, its uppers need acceptance, Mergify has it, or it is not mergeable and green where no check is required |
| PlannedRepairs.RetakesExactlyWhen | scripts/mergify_admin_requeue_plan.py:1358-1392 | a denied rebase claim is given back and taken again if and only if a rebase of the PR was settled and none is in flight |
| PlannedRepairs.WaitsForLiveRepairs | scripts/mergify_admin_requeue_plan.py:1220-1257 | a repair counts as live if and only if it concerns something that blocks a PR of the stack and is in flight or with infra-repair; while one is, the plan only repairs, resolves or comments |
| ProgressRules.BottomDecides | scripts/mergify_admin_requeue_plan.py:1526-1550 | with no repair due on the bottom, the plan answers its first hard blocker, a human's once for the head; waits for an unfinished check, a repair in flight and any other blocker but a hold; and else does what the bottom has to do |
| ProgressRules.StackDecides | scripts/mergify_admin_requeue_plan.py:1551-1580 | where the bottom leaves the plan to the stack and no repair is due, the first hard blocker of the first PR that has one is answered, unless a repair is in flight |
| ProgressRules.LandingDecides | scripts/mergify_admin_requeue_plan.py:1419-1514 | a ready, labelled bottom without required checks is squash-merged up to the cap of its head, where GitHub calls it mergeable and all checks are green; with them it is requeued up to the cap, then escalated once, then commented on |
| ProgressRules.UnlabelledDecides | scripts/mergify_admin_requeue_plan.py:1419-1514 | a bottom without the label gets it back if and only if a queue-only no-op explains its dequeue by the admin-bypass rule, and is asked for it otherwise |
| ProgressRules.BottomlessDecides | scripts/mergify_admin_requeue_plan.py:1419-1514 | a stack off trunk with nothing else to do: it says so where an open PR outside owns its base, is put back on trunk unless GitHub rejected just that, and waits otherwise |
| ProgressRules.HeldStackIsRelieved | scripts/mergify_admin_requeue_plan.py:1296-1307 | a stack that only holds block is relieved of the first of them, once for that PR's head, and commented on after that |
| ProgressRules.AcceptanceIsAsked | scripts/mergify_admin_requeue_plan.py:1278-1293 | where an upper PR lacks the label and nothing blocks, the plan asks once for the head of the bottom, and then waits |
| PlannerSafety.BotThreadsStep | scripts/mergify_admin_requeue_plan.py:1185-1217 | a bot-thread repair passed the gate of the unit it will be filed on |
| PlannerSafety.PlanKeepsItsPromise | scripts/mergify_admin_requeue_plan.py:1517-1580 | one planning call, whatever the claim table answers: a returned repair passed the gate of its unit, on a PR without an open human decision, no rebase beside a live older conflict repair, and exactly one claim is kept if it is a claimed repair, none otherwise; the one exception, a check named like a thread key, passed its own gate and keeps one claim |
| LandingSafety.LandingIsSafe | scripts/mergify_admin_requeue_plan.py:1419-1580 | a requeue or squash merge is only returned for a ready, labelled bottom with no open held PR, accepted uppers, no queue event, no live repair, and a cap not reached |
| LandingSafety.LandsExactlyWhenSafe | scripts/mergify_admin_requeue_plan.py:1419-1580 | the plan requeues or squash-merges its bottom, dequeued or not, by the key of its event, if and only if that is safe and there is nothing to repair on it |
| LandingSafety.NothingToRepairExactlyWhen | scripts/mergify_admin_requeue_plan.py:613-656 | on a clear bottom and without a claim table there is nothing to repair if and only if every failing queue check is suppressed, not repairable or held by its gate, and no rebase of a green dequeue is due |
| LandingSafety.ClearBottomAlwaysActs | scripts/mergify_admin_requeue_plan.py:1517-1580 | a stack with a clear bottom, accepted uppers, no hold, no live repair and no queue event always gets an action; without required checks its bottom must be mergeable and green |
| LandingSafety.HoldIsSeenExactlyOnReadyPrs | scripts/mergify_admin_requeue_plan.py:238-281 | adding the hold label changes no blocker if and only if the PR is a draft or not open |
| PlannerRules.QueueOnlyChecksComeLast | scripts/mergify_admin_requeue_plan.py:613-656 | every failing queue check is tried, the queue-only ones last |
| PlannerRules.HardBlockersAnswerFirstStop | scripts/mergify_admin_requeue_plan.py:1260-1275 | the comment pass answers exactly the first stopping blocker of the first PR that has one, and comments on it once |
| PlannerRules.ResolvedThreadsAreBots | scripts/mergify_admin_requeue_plan.py:1185-1217 | only unresolved threads by bots or the owner are resolved, outdated or repaired on an earlier head |
| PlannerRules.HoldRemovalIsSafe | scripts/mergify_admin_requeue_plan.py:1296-1307 | a hold is only removed from a PR that has one, where holds are all that blocks the stack |
| PlannerRules.RetargetIsSafe | scripts/mergify_admin_requeue_plan.py:665-697 | a stack is only retargeted where none of it stands on trunk and no open PR outside owns its base, and not after a rejection |
| PlannerRules.ReleasedClaimWasDead | scripts/mergify_admin_requeue_plan.py:1358-1392 | the planner only releases a rebase claim of a PR with a settled and no live attempt, and takes it again at once |
| PlannerRules.AcceptanceAskedExactlyWhen | scripts/mergify_admin_requeue_plan.py:1278-1293 | acceptance is asked for if and only if an upper PR lacks it, no PR of the stack has a blocker, and it was not asked on this head |
| PlannerRules.QueueEventDecides | scripts/mergify_admin_requeue_plan.py:185-235 | all else in favour, the plan requeues its bottom if and only if no queue event stands for it, whatever the time, and refreshes a standing one if and only if it is old enough and the cap of refreshes is not reached |
| PlannerRules.FollowUpHappensOnce | scripts/mergify_admin_requeue_plan.py:716-753 | a prerequisite needs its follow-up requeue exactly until one is recorded |
| PlannerRules.RequeueUsesItsExcuses | scripts/mergify_admin_requeue_exec.py:466-499 | a requeue of the bottom leaves its row, the follow-up that was due and the use of its no-op, after which neither excuses a check again; one not carried out uses nothing |
| PlannerRules.RequeueLeavesRows | scripts/mergify_admin_requeue_exec.py:452-499 | what any requeue leaves: nothing on a stale head, the end of the tick where GitHub refuses it, else its row, and the bottom's also what it used |
| SettlePasses.PlanSettlesAreJustified | scripts/mergify_admin_requeue_workflow_fastpath.py:466-496 | the plan pass settles only STARTs it found whose plan's workflow is terminal, with that workflow's classification |
| SettlePasses.PlanPassWritesOnlyAnswers | scripts/mergify_admin_requeue_workflow_fastpath.py:397-496 | every row of the plan pass answers a request it found, by the first workflow of the plan it names, or settles such a START |
| SettlePasses.SettleWorkflowFastpathRows | scripts/mergify_admin_requeue_workflow_fastpath.py:300-357 | the loop appends exactly the specified settles and counts them, also when the classifier raises halfway |
| SettlePasses.SettleRepairerPlanRows | scripts/mergify_admin_requeue_workflow_fastpath.py:397-496 | both loops append exactly the specified acknowledgements and settles |
| SettlePasses.FastPassConverges | scripts/mergify_admin_requeue_workflow_fastpath.py:300-357 | the pass only appends, only settles terminal workflows with their classification and unresolvable ones as infra, leaves every tracked START settled behind it, masked by a settle of its own second, or live, and is idempotent |
| SettlePasses.LeftToSettleExactlyWhen | scripts/mergify_admin_requeue_workflow_fastpath.py:466-482 | the plan pass still has a START to settle if and only if no settle of its unit stands behind it and none before it in its own second |
| SettlePasses.PlanPassConverges | scripts/mergify_admin_requeue_workflow_fastpath.py:397-496 | after one pass every request is acknowledged or settled; after two every tracked START is settled behind it, masked or live, and nothing is left to append |
| LedgerInvariant.GatedFilingKeeps | scripts/mergify_admin_requeue_repairer.py:61-113 | a START or request of the unit written behind its gate keeps the invariant of the unit: budget before every START, room for every open request, one live attempt |
| LedgerInvariant.AcknowledgementKeeps | scripts/mergify_admin_requeue_workflow_fastpath.py:423-465 | so does a START that acknowledges an open request |
| LedgerInvariant.OtherRowKeeps | scripts/mergify_admin_requeue_model.py:261-286 | so does every row that does not file the unit |
| LedgerInvariant.BudgetIsKeptExactlyWhen | scripts/mergify_admin_requeue_plan.py:375-523 | on such a ledger the count keeps the cap at every moment if and only if no START found one attempt left and spent two |
| ActionRows.PerformAppends | scripts/mergify_admin_requeue_exec.py:289-425 | an action appends rows of its own PR, head and moment, and files no unit but its own and those of a shared workflow |
| DispatchOutcomes.OneCheckDecides | scripts/mergify_admin_requeue_repairer.py:252-364 | exactly when one failing check is filed, remembered as a no-op, given up or fails, and the rows each leaves |
| DispatchOutcomes.SharedDecides | scripts/mergify_admin_requeue_repairer.py:115-250 | several failing checks: the first that stops everything, else one request and one answer for each check with evidence, else a no-op |
| DispatchOutcomes.OwnWorkflowComesFirst | scripts/mergify_admin_requeue_exec.py:295-355 | a PR with a workflow of its own hands the repair to it, or fails; one without files it |
| DispatchOutcomes.UrlExactlyWhen | scripts/mergify_admin_requeue_repairer.py:221-235 | the job of a check is the one GitHub reports, else the first one Mergify names for it |
| DispatchOutcomes.ExecuteDecides | scripts/mergify_admin_requeue_gh_executor.py:70-203 | what each other action leaves: nothing on a stale head or where it is remembered already, its row, the rejection of a retarget, or the end of the tick |
| DispatchOutcomes.FailureIsAnnouncedOnce | scripts/mergify_admin_requeue_gh_executor.py:150-159 | a failed dispatch is announced if and only if none of its kind was on this head |
| DispatchOutcomes.ActionDecides | scripts/mergify_admin_requeue_exec.py:289-425 | which of these an action is |
| TickOutcomes.StackDecides | scripts/mergify_admin_requeue_exec.py:241-300 | one stack of a tick: skipped after an exception, ended by a malformed stack or a missing PR, passed over while its prerequisite is open, else planned and its action carried out |
| TickOutcomes.ActsOnLastSnapshot | scripts/mergify_admin_requeue_exec.py:241-300 | an action is carried out on the last snapshot of its PR the tick loaded |
| TickOutcomes.AbortEndsTick | scripts/mergify_admin_requeue_exec.py:188-510 | after an exception the tick does nothing more |
| TickOutcomes.TickDecides | scripts/mergify_admin_requeue_exec.py:228-240 | the stacks are planned, in order, on a ledger whose ended workflows are settled and whose requests are answered, by the fast pass first |
| RunCycle.GhExecutor.Carry | scripts/mergify_admin_requeue_gh_executor.py:161-203 | a stale head does nothing, a failed call records nothing, a done action records its one row |
| RunCycle.GhExecutor.OncePerHead | scripts/mergify_admin_requeue_gh_executor.py:128-134 | comments, nudges and labels are done and recorded once per head and key |
| RunCycle.GhExecutor.CommentRepairDispatchFailed | scripts/mergify_admin_requeue_gh_executor.py:150-159 | a dispatch failure is announced once per head and action kind |
| RunCycle.Repairer.SubmitRepairPlan | scripts/mergify_admin_requeue_repairer.py:61-113 | a request row first, then its START, or its infra settle and the error |
| RunCycle.Repairer.SubmitAggregatedRepairPlan | scripts/mergify_admin_requeue_repairer.py:115-150 | all requests first, then a START for each check, or a settle for each |
| RunCycle.Repairer.RepairChecks | scripts/mergify_admin_requeue_repairer.py:221-250 | checks without log evidence are left out, one without a job URL stops everything |
| RunCycle.Repairer.RepairCheck | scripts/mergify_admin_requeue_repairer.py:252-364 | every branch to a no-op, a blocked outcome or a submission |
| RunCycle.ExecuteAction | scripts/mergify_admin_requeue_exec.py:452-499 | follow-up rows of a requeue, and a rejected retarget recorded instead of raised |
| RunCycle.PerformAction | scripts/mergify_admin_requeue_exec.py:289-425 | the rows of every dispatch branch, and exactly a failed dispatch's claims released |
| RunCycle.RunTick | scripts/mergify_admin_requeue_exec.py:188-510 | one tick over the shared ledger is the specified tick, ended by the first stack that aborts |
| RunSafety.RepairKeeps | scripts/mergify_admin_requeue_exec.py:289-396 | carrying out a repair on the unit its gate let through keeps the invariant of that unit, whether or not its dispatch fails |
| RunSafety.PlannedRepairMayBeFiled | scripts/mergify_admin_requeue_plan.py:1517-1580 | a planned repair has budget left and its previous attempt over, for the unit and PR snapshot it is filed on |
| RunSafety.CycleKeeps | scripts/mergify_admin_requeue_exec.py:188-510 | one tick keeps the invariant of a unit, aborted or not, whatever the outside answers, if the tick is good for that unit and its PR |
| RunSafety.RunKeepsInvariant | scripts/mergify_admin_requeue_exec.py:188-510 | so does every run from the empty ledger |
| RunSafety.RetryBudgetOverRuns | scripts/mergify_admin_requeue_plan.py:375-523 | over any run a unit spends at most one attempt more than the cap on a head, and keeps the cap at every moment if and only if no START found one attempt left and spent two |
| RunSafety.OneLiveAttemptOverRuns | scripts/mergify_admin_requeue_plan.py:530-551 | over any run a START that shut the gate is over, by a settle behind it that is the unit's last one, by time or by a confirmed infra crash, before the next START of its unit is filed |
| RunSafety.CrashedRefilingWasConfirmed | scripts/mergify_admin_requeue_plan.py:293-309 | a filing counts as after a crash only where the last attempt of its own unit is unsettled and its workflow is known to have crashed |
| RunSafety.CrashesOverRuns | scripts/mergify_admin_requeue_plan.py:293-309 | what confirmed a crash over a whole run is an answer some stack got in the tick that wrote the filing |
| RunSafety.RecordedLandingWasSafe | scripts/mergify_admin_requeue_exec.py:452-499 | every requeue or squash row of a run belongs to a bottom PR that was safe to land in that tick |
| RunSafety.FailedDispatchGivesClaimBack | scripts/mergify_admin_requeue_exec.py:341-387 | a failed dispatch releases the very claim its planning call was granted |
| RowCaps.WhereCappedActionsComeFrom | scripts/mergify_admin_requeue_plan.py:1517-1580 | an action that is no repair and no blocker comment comes from the bottom's progress, the question for upper acceptance or the hold cleanup |
| RowCaps.ExecutionKeepsCap | scripts/mergify_admin_requeue_gh_executor.py:70-159 | carrying an action out appends a capped row only where one more is allowed |
| RowCaps.CapsOverRuns | scripts/mergify_admin_requeue_plan.py:1296-1307 | over any run, per head and key: one blocked comment, nudge, label, failure note and hold removal, and no more refreshes or squash merges than the cap; per head, whatever the keys: the cap of requeues and one escalation |
| RowCaps.RequeueCapOverRuns | scripts/mergify_admin_requeue_plan.py:1496-1514 | over any run, per head: at most the cap of requeues whatever comment ids key them, at most one escalation, and only after the last requeue |
| LoadedTicks.LoadedTickHasOneSnapshot | scripts/mergify_admin_requeue_loader.py:67-94 | the stacks of a tick hold one snapshot for each PR number, however the groups overlap |
| RunExample.ReadyIsRequeued | scripts/mergify_admin_requeue_plan.py:1419-1514 | a ready, labelled PR on trunk is requeued, also below an accepted draft that carries the hold label |
| RunExample.LandableIsRequeued | scripts/mergify_admin_requeue_plan.py:1419-1514 | it is requeued by its first tick, the ledger then holds that one row, and the run is one the theorems speak about |
| SharedSubmission.SharedFilingKeepsCapsExactlyWhen | scripts/mergify_admin_requeue_repairer.py:115-150 | a shared workflow spends one attempt of a check for each time it is listed; the caps hold afterwards if and only if each check had that many left |
| FailingRuns.SharedFilingBreaksCap | scripts/mergify_admin_requeue_repairer.py:115-150 | a run of two ticks: the plan repairs a check whose gate passes, and a second one, live and at its cap, is filed with it and gets over the cap |
| FailingRuns.MisreadCheckBreaksCap | scripts/mergify_admin_requeue_exec.py:289-296 | a run of two ticks: a check named like a thread key passes its own gate every time and brings the thread it spells over the cap |
| FailingRuns.MaskedStartIsRefiledAtOnce | scripts/mergify_admin_requeue_exec.py:228-240 | a run of three ticks: a START filed in the second of the settle before it is settled by no pass and is followed by another START one second later, nothing separating the two |
| FailingRuns.RepeatedStartBreaksCap | scripts/mergify_admin_requeue_plan.py:338-358 | a run of two ticks in one second: the same START filed twice behind an excused one brings the count to two over a cap of one |
| DeltaCache.TaskSnapshotCache.ApplyDelta | packages/app/src/delta-merge.ts:142-213 | the method's new entries, quarantined ids and answer are the specified ones |
| DeltaCache.TaskSnapshotCache.RecoverQuarantinedTask | packages/app/src/delta-merge.ts:288-321 | owner first, then the orchestrator for merge ids, deletion only on proof, and the delta to forward |
| DeltaCache.DeltaDecides | packages/app/src/delta-merge.ts:142-213 | by versions alone: exactly which delta is taken, dropped, or asks for recovery, and the entry it leaves |
| DeltaCache.RecoveryDecides | packages/app/src/delta-merge.ts:288-321 | by the answers alone: what is stored and sent, that an entry is deleted if and only if the owner, and for a merge id the orchestrator, proves it gone, and that nothing happens if and only if a deciding answer is unavailable |
| DeltaCache.LeavesExactlyOnProof | packages/app/src/delta-merge.ts:142-321 | over any steps an id leaves the cache if and only if a removal no older than its entry arrives or a recovery proves it gone; an unavailable loader changes neither cache nor renderer |
| DeltaCache.FieldsArePrinted | packages/app/src/delta-merge.ts:195-208 | a snapshot keeps every defined field, dates as their quoted text |
| DeltaCache.UpdateWritesFields | packages/app/src/delta-merge.ts:195-207 | what an update writes wins field by field in each of the three groups, the rest stays |
| DeltaCache.MergePrints | packages/app/src/delta-merge.ts:198-207 | merging into the parsed snapshot and into the live task print the same, undefined fields and dates included |
| DeltaCache.RendererMirrorsCache | packages/app/src/delta-merge.ts:142-321 | after any deliveries and recoveries the renderer's folded map, printed, is the cache's snapshots |
| DeltaCache.ReloadKeepsMirrorExactlyWhen | packages/app/src/delta-merge.ts:226-296 | recovery keeps the mirror if and only if the task has the id asked for or both ids already hold it |
| DeltaCache.UpdateAgreesExactlyWhen | packages/app/src/delta-merge.ts:198-207 | an update gives the task of its generation if and only if the task it is merged into is its base wherever it does not write |
| DeltaCache.CacheAgreesOverGenerations | packages/app/src/delta-merge.ts:169-213 | under loss, repetition and reordering, also of tasks created anew under an old id, every snapshot is the owner's task at exactly the entry's version as long as accepted updates find their base in that sense |
| DeltaCache.CacheAgreesWithHistory | packages/app/src/delta-merge.ts:169-213 | it always is where the owner gives no version of an id to two different tasks |
| DeltaCache.RecreatedTaskIsMixed | packages/app/src/delta-merge.ts:169-213 | steps after which the cache shows, unflagged, a task that never was: the first update of a task created anew, merged into the old one |
| DeltaCache.UpdateIsNeverSilentlyLost | packages/app/src/delta-merge.ts:169-213 | after an update the entry has caught up or the id is flagged, and no version goes back |
| DeltaCache.CaughtUpMeansCurrent | packages/app/src/delta-merge.ts:169-213 | an entry at the owner's current version holds the owner's current task |
| DeltaCache.EntryOnlyMovesForward | packages/app/src/delta-merge.ts:148-194 | until removed or reloaded an entry's version never goes back, and a quarantined entry does not change until its task is created anew |
| DeltaCache.LosslessRunRefinesOwner | packages/app/src/delta-merge.ts:142-213 | delivered in order, owner, cache and renderer show the same tasks after every step and nothing is quarantined |
| SafePush.Checkout.SafePush | scripts/pr_worker_safe_push.py:170-236 | the call, with other writers between any two commands, is a run of the protocol; it reports a push only of the commit checked out and standing on the branch, and does so wherever nobody moves the branch and git does not fail |
| SafePush.Checkout.ReplayOntoMovedRemoteHead | scripts/pr_worker_safe_push.py:106-140 | a replay commit on the live head, or none with the checkout restored |
| SafePush.PatchKeepsBoth | scripts/pr_worker_safe_push.py:117-131 | a patch that applies keeps the others' files where we changed nothing and ours where they changed nothing, and leaves every file it changes as its hunks say |
| SafePush.NoLostUpdate | scripts/pr_worker_safe_push.py:105-228 | over any interleaving, a push replaces exactly the captured head or a missing ref, or, from a clean checkout, lands a replay whose only parent is the head it replaces |
| SafePush.EarlyErrorsTouchNothing | scripts/pr_worker_safe_push.py:178-222 | every error raised before the push leaves the remote untouched |
| SafePush.FirstLookDecides | scripts/pr_worker_safe_push.py:178-214 | which result the first look at the branch gives, each under exactly its condition |
| SafePush.ReplayDecides | scripts/pr_worker_safe_push.py:106-140 | exactly when a replay is stale, fails, or is about to be pushed onto the head it was made for |
| SafePush.PushDecides | scripts/pr_worker_safe_push.py:215-228 | a push is reported failed if and only if git faults or the branch left the lease |
| SafePush.VerificationDecides | scripts/pr_worker_safe_push.py:229-236 | over runs: a call reports a push if and only if its verification finds the branch at the very commit it pushed, a failed verification if and only if it finds it elsewhere |
| SafePush.UndisturbedPushIsReported | scripts/pr_worker_safe_push.py:215-236 | a push that goes through, with nobody else writing before its verification, is reported, and its commit stands on the branch |
| SafePush.StepKeepsHistoryExactlyWhen | scripts/pr_worker_safe_push.py:170-236 | a step of a pusher keeps the branch's history if and only if local work it lands without a replay is built on the head it replaces |
| SafePush.HistoryOnlyGrows | scripts/pr_worker_safe_push.py:170-236 | while only such steps write the branch, every head it ever had is an ancestor of every later one |
| SafePush.UnbuiltPushDropsHistory | scripts/pr_worker_safe_push.py:178-222 | steps after which unrelated local work has replaced the captured head |
| TokenRollup.BooksBalance | scripts/session-token-rollup.py:131-217 | after any logs, sessions and days agree on every field and on turns, and each session's models add up to its total |
| TokenRollup.ClaudeBillsEachKeyOnce | scripts/session-token-rollup.py:324-373 | across all files of a session each usage key is billed once, with its first report |
| TokenRollup.CodexFileBillsReadings | scripts/session-token-rollup.py:403-448 | a Codex file adds exactly what its counter readings bill |
| TokenRollup.DifferencingExactlyWhenNoDrop | scripts/session-token-rollup.py:430-448 | each field is billed at least its segments' final readings less what was read before the window, and exactly that if and only if it never drops inside a segment |
| TokenRollup.WindowCutOfOneSegment | scripts/session-token-rollup.py:430-448 | one segment cut by the window is billed last reading less last reading before it |
| TokenRollup.OneSegmentBillsItsCounter | scripts/session-token-rollup.py:392-448 | one uncut segment that never drops bills input and cache reads together as its last input counter: nothing twice, nothing as written to the cache |
| TokenFigures.WindowByDay | scripts/session-token-rollup.py:87-202 | a row is in the window if and only if it has no timestamp or its day is not before the first one |
| TokenFigures.OneReportExactlyWhen | scripts/session-token-rollup.py:316-321 | two rows are one report if and only if their ids agree, or without ids their uuids or places do, or the ids of one spell the uuid of the other |
| TokenFigures.ReportIsBilledOnce | scripts/session-token-rollup.py:324-373 | a fresh report of the file's own session is billed to its session and to the bucket of its day, model and origin; any other row moves no tokens |
| TokenFigures.ClaudeFigures | scripts/session-token-rollup.py:336-357 | notifications and compaction boundaries count once each, compaction summaries once for each key |
| TokenFigures.ReadingIsBilledTo | scripts/session-token-rollup.py:411-448 | a reading is billed to the last model named before it, else the first one named after, else the unknown one |
| TokenFigures.ReadingIsTaken | scripts/session-token-rollup.py:447-448 | every reading is taken by its session and by the bucket of its own day, model and origin |
| TokenFigures.RestartsAreCompactions | scripts/session-token-rollup.py:430-445 | a Codex session is compacted once for each restart of its counter in the window |
| TokenFigures.WorkerRowMarksSession | scripts/session-token-rollup.py:119-121 | a Codex session is a worker's if and only if it was, or a row of it comes from a worker's directory |
| RollupObjects.Rollup.OpenSession | scripts/session-token-rollup.py:187-195 | one object per tool and session, created or marked as a worker's |
| RollupObjects.Rollup.Bill | scripts/session-token-rollup.py:215-217 | session and day bucket are both updated in place, and nothing else |
| RollupObjects.Rollup.CollectClaudeFile | scripts/session-token-rollup.py:324-373 | the row loop leaves the specified books |
| RollupObjects.Rollup.CollectCodexFile | scripts/session-token-rollup.py:403-448 | scan loop and billing loop leave the specified books |
| RollupObjects.Rollup.Collect | scripts/session-token-rollup.py:498-513 | a whole collection leaves balanced books |
| StackGroups.GroupPrs | scripts/mergify_admin_requeue_snapshot.py:366-409 | the loops, cycles in the graph included, end with the specified groups |
| StackGroups.BranchGroupsAreChains | scripts/mergify_admin_requeue_snapshot.py:389-404 | in every branch group each base is the head of the PR below |
| StackGroups.ClimbIsMaximal | scripts/mergify_admin_requeue_snapshot.py:397-404 | a walk stops only where the top PR has no unused child or several |
| StackGroups.ClimbsToOnlyChild | scripts/mergify_admin_requeue_snapshot.py:397-404 | a walk goes on if and only if exactly one free PR stands on its top, and to that one |
| StackGroups.RootsStandAlone | scripts/mergify_admin_requeue_snapshot.py:383-391 | chains start from exactly the remaining PRs that stand on trunk or on no open head, smallest number first |
| StackGroups.CommentsAreGroupedExactly | scripts/mergify_admin_requeue_snapshot.py:366-381 | every comment of a given PR that names a given PR makes a group of those it names, in its order, and no other group comes from comments |
| StackGroups.EveryPrIsGrouped | scripts/mergify_admin_requeue_snapshot.py:366-409 | every PR is in some group |
| StackGroups.RootIsNeverSingle | scripts/mergify_admin_requeue_snapshot.py:389-408 | a PR on trunk, or on no remaining open head, always starts or joins a chain |
| StackGroups.GroupsPartitionPrs | scripts/mergify_admin_requeue_snapshot.py:366-409 | with distinct numbers and clean comments each PR is in exactly one group, once, and nothing else is |
| StackGroups.GroupsHoldGivenPrs | scripts/mergify_admin_requeue_snapshot.py:366-409 | every group holds the very snapshots it was given |
| JsonScan.ExtractFirstJsonObject | scripts/mergify_admin_requeue_model.py:399-428 | the loop hands exactly the scanned slice to the parser |
| JsonScan.FirstObjectRoundTrip | scripts/mergify_admin_requeue_model.py:399-428 | any object printed by RFC 8259, after a prefix without a brace and before any suffix, is cut out exactly |
| ShellQuote.QuoteRoundTrip | scripts/mergify_admin_requeue_async_repair.py:249-251 | the shell reads a quoted value as that one word if and only if it has no NUL |
| ShellQuote.CommandRoundTrip | scripts/mergify_admin_requeue_async_repair.py:249-251 | a line of quoted values is read as exactly those words |
| DuplicateClose.PlanCloseActions | scripts/pr_duplicate_close_plan.py:127-165 | the loops return the specified actions |
| DuplicateClose.GroupDuplicatePrs | scripts/pr_duplicate_close_plan.py:77-119 | the dictionary loops return the specified groups |
| ClosingFacts.PlannedExactlyWhen | scripts/pr_duplicate_close_plan.py:53-165 | the exact plan: it holds an action if and only if that closes an open PR, no draft, at its head, for the first way git shows it landed, or in favour of the largest PR left on its branch or, where both have a branch of their own, with its patch, and was not submitted before |
| ClosingFacts.NamesTellApart | scripts/pr_duplicate_close_model.py:66-67 | two closings have one ledger key only if they are for one reason and keep one PR |
| DuplicateClose.LandedIsClosedExactlyWhen | scripts/pr_duplicate_close_plan.py:53-163 | an open PR git shows landed is closed as landed, in a way git shows, if and only if that closing was not submitted before; it is never closed as a duplicate and never the one kept |
| DuplicateClose.OnlyLandedIsClosedAsLanded | scripts/pr_duplicate_close_plan.py:53-144 | what the plan closes as landed is an open PR git shows landed in that way |
| DuplicateClose.GroupsAreDisjoint | scripts/pr_duplicate_close_plan.py:77-119 | no PR is in two groups, and whatever is closed has a larger kept number |
| DuplicateClose.GroupedExactlyWhenShared | scripts/pr_duplicate_close_plan.py:84-117 | a PR is grouped by a branch or patch if and only if another PR shares it |
| DuplicateClose.SurvivorIsSafe | scripts/pr_duplicate_close_plan.py:127-165 | the kept PR is larger, open, no draft, not landed, and closed by no action of the plan |
| DuplicateClose.BranchDuplicateIsClosed | scripts/pr_duplicate_close_plan.py:146-163 | every open, not landed PR whose branch a larger such PR shares is closed by the plan, unless that closing was submitted before |
| DuplicateClose.PatchDuplicateIsClosed | scripts/pr_duplicate_close_plan.py:146-163 | the same for PRs that share a patch and have branches of their own |
| DuplicateClose.ClosingIsAcyclic | scripts/pr_duplicate_close_plan.py:127-165 | over any runs, following kept PRs never comes back |
| Scout.Ledger.RunPass | scripts/slack-complaint-scout-discover.py:593-677 | a pass selects and appends as specified |
| Scout.PassDecides | scripts/slack-complaint-scout-discover.py:593-677 | a pass works on the first candidate without a final row, and leaves what its outcome says, a final blocker after three failed drafts |
| Scout.RunsAreBounded | scripts/slack-complaint-scout-discover.py:644-677 | each target gets at most three failed drafts and one final row |
| Scout.FinalMeansNeverSelected | scripts/slack-complaint-scout-discover.py:279-287 | after its final row a target is never selected again |
| Scout.ScoutTerminates | scripts/slack-complaint-scout-discover.py:593-677 | any number of passes over a set of targets appends at most four rows a target |
| Scout.IdleOnlyWhenFinished | scripts/slack-complaint-scout-discover.py:593-605 | a pass appends nothing if and only if every candidate is finished or the post failed |

## Left out

- RunSafety.RunKeepsInvariant: for runs as described under "What a run is assumed to be"; the part the code does not enforce has runs that show what happens without it.
- SafePush.HistoryOnlyGrows: for work landed directly on the head it was built on, which the script does not check.
- DeltaCache.CacheAgreesWithHistory: for owners that give no version of an id to two tasks; the general case is CacheAgreesOverGenerations.
- Planner: the wording of details and comments is kept symbolic, and whether a `waiting_for` text mentions a conflict or a comment carries a split stop is read from the snapshot.
- Dry runs, logging, poll flags and exit codes of `run_cycle`, and rows other processes append while a tick runs rather than between ticks.
- The `repo` filter of `Ledger`, which no modelled caller passes, and the `meta` fields no decision reads.
- `classify_repair_outcome_detail` and `resolve_workflow_for_pr`: arbitrary answers, since the ledger properties do not depend on them.
- `plan_rebase_onto_base` and `count_infra_settles`: no planner path uses them.
- JSON text of rows and snapshots, except in `JsonScan.dfy` and the effect of `JSON.stringify` on fields in `DeltaCache.dfy`.
- Bulk seeding of the task cache, branch-name and SHA validation of `safe_push`, and ledger rows it records after a push.
- Fork attribution, timestamps of sessions, the OMP collector, which bills like the Claude one, and merging reports.
- Duplicate flags by title, and conversion of Slack messages to candidates.
- Prompt and YAML text, reports, argument parsing, file locks and API plumbing: no deep property.
