# Thread Glance and Thread Usage, verified

A Dafny model of the two stateful plugins of bb: **Thread Glance**, which keeps
a lifecycle row for every thread (parked, snoozed, settled, active, waiting to
settle), and **Thread Usage**, which accounts for the tokens and dollars every
thread spends. The model covers what both decide and store. bb itself, other
writers and the file system appear as an environment that may change between
any two reads.

## How it is laid out

Thread Glance

- `Threads`, `ThreadTree`: bb's threads, when one is busy, and the two walks
  over parents, down and up, on any parent graph.
- `Lifecycle`, `LifecycleStore`: the row, its marks and shelves, and the map of
  rows that is written through to a table.
- `AutoSettle`, `AutoSettleLaws`, `Passes`: the planner as a greatest fixpoint, and the rule that
  runs at most one pass and holds at most one in waiting.
- `Bb`: the gateway to bb. Its threads may be other ones at every call, and
  any call may fail; `taken`, `failures` and `answers` record what was asked,
  refused and answered, and every action's contract is about those answers.
- `Actions`, `Settling`, `SettleSpec`, `SettleUndos`, `LifecycleActions`,
  `ActionLaws`: the actions a user takes and their Undo.
- `WaitingRule`, `WaitingSettles`, `WaitingLaws`: settles that wait for their
  tree to go idle.
- `ThreadEvents`, `EventLaws`: bb's thread events and the reconcile at startup.
- `RecordSync`, `RecordLog`: the revision log, and what windows make of it.

Thread Usage

- `LogLines`, `LogLaws`, `LogCache`: append-only logs, read by byte offset,
  against one parse of the whole file.
- `Tokens`, `Ledger`, `LedgerLaws`, `LedgerTokens`, `LedgerRequests`,
  `LedgerEvents`, `LedgerGaps`, `LedgerCursors`: the fold of bb's events into
  turns, and what it conserves.
- `CatchUpLane`, `Engine`: when events are read. `CatchUpLane` is one thread's
  protocol as a state machine, `Engine` the maps that carry it for all threads.
- `Pricing`, `PricingLaws`, `Figures`, `FigureLaws`, `Summary`, `EntryLaws`,
  `ThreadUsage`, `ViewLaws`, `UsageLaws`: what a thread's usage costs, and that
  each token is counted once.
- `UsageTree`, `TreeFigures`: the tree of a thread and the sum over it.

`Common` holds the few notions all of them share. Where the source updates
fields in place the model is a class, and each of its methods is proved against
a function or predicate over the state before and after; lemmas then prove what
that function means over every input, or over every run. A method's contract
may name the functions its body uses; the modules called `...Laws`, with
`LedgerEvents`, `LedgerGaps` and `LedgerCursors`, then say what its result is
in the fields of bb's threads, turns, events, rows, prices and bytes alone, so
that no rule stands only on its own definition.

## What turned out to hold only under a condition

For each the exact condition is a lemma, an equivalence proved both ways, and
another lemma gives inputs that fail it.

- One pass of auto-settle leaves nothing to a second one exactly when no thread
  it settled has attention later than the time it wrote
  (`AutoSettle.ConvergesInOnePass`). A clock behind bb's makes every pass
  settle such a thread again (`AutoSettle.ClockBehindSettlesAgain`).
- The walk of `wholeTreeSettled` keeps no record of where it has been. It ends
  exactly when no parent cycle lies below its root, or when one of the threads
  it meets on its way to and round the cycle is not fine
  (`AutoSettle.WalkEndsIff`). Where a withdrawable thread's walk does not end,
  no withdrawal changes that (`AutoSettle.WithdrawingEndsNoWalk`), so the
  planner does not end; two quiet threads that are each other's parent are
  such an input (`AutoSettle.PlannerGoesRoundACycle`).
- The opening balance and the counts of the total's own run make up bb's total
  exactly when those counts are what the latest harness start left counted
  (`LedgerTokens.OpeningBalanceIsExact`). Any identity event empties that
  count, so a start after the total counts its run twice
  (`LedgerTokens.AStartCountsTheRunTwice`).
- Adding figures up counts each line again by its name. A line stays on its own
  model exactly when every name is its own key (`Figures.LinesStayIffNamesStable`);
  a model called `[x]` moves to `unknown` (`Figures.SummingASumCanMoveALine`).
  So a tree's figure has the lines of the flat sum over its threads exactly
  when no thread below the root has a key that moves (`TreeFigures.NodeIsFlat`,
  `TreeFigures.MovedLine`).
- Each subagent entry lands in exactly one view, unless a turn's id is `outside`
  while some entry is outside all turns (`UsageLaws.EachSubagentEntryOnce`,
  `UsageLaws.OutsideTurnCountsTwice`).
- A log rewritten in place is read rightly exactly when its size, its time or
  the bytes compared before the offset give it away, or every line before the
  offset reads as it did (`LogCache.RewriteIsReadIff`); one byte changed in a
  line of seventy is missed (`LogCache.RewritingCanBeMissed`). The cache is for
  files that only grow.

Two more depart from what a caller might expect. Undo of a lifecycle action
keeps the rows it wrote even when bb then cannot list its threads for the pins,
and the call itself is refused
(`LifecycleActions.LifecycleActions.UndoLifecycle`). And requests at one set of
rates cost what their tokens as reported would exactly when capping each
request's 1-hour writes at its own writes comes to the same as capping the sum,
or those writes cost no more than others
(`Pricing.UniformRatesCostTheReportedIff`).

## Model

| member | source | states |
|---|---|---|
| ThreadTree.DescendantIds | plugins/thread-glance/shared/thread-tree.ts:11-30 | on any parent graph, cycles and repeated ids included, the walk finds exactly the threads below the root, each once, no thread before its parent |
| ThreadTree.TreeIds | plugins/thread-glance/shared/thread-tree.ts:33-35 | the root first, then exactly the threads below it, each once |
| ThreadTree.IdsAbove | plugins/thread-glance/shared/thread-tree.ts:42-49 | exactly the ids on a walk up from some picked thread |
| ThreadTree.AncestorIds | plugins/thread-glance/shared/thread-tree.ts:52-61 | the walk up by parents, ended by an unlisted parent or where a cycle closes |
| ThreadTree.WalksAreDual | plugins/thread-glance/shared/thread-tree.ts:11-61 | `a` is above `t` exactly when `t` is below `a`, on every parent graph with unique ids; no walk names a thread twice |
| ThreadTree.AboveIsPickedBelow | plugins/thread-glance/shared/thread-tree.ts:37-49 | an id is above a picked thread exactly when a walk down from it meets one |
| ThreadTree.WaitingBelow | plugins/thread-glance/shared/lifecycle.ts:218-233 | the action's refusal and the shelf rule never disagree: a thread that waits is found below an id exactly when that id is lifted |
| Lifecycle.ClearingKeepsTheShelf | plugins/thread-glance/shared/lifecycle.ts:284-323 | clearing a stale mark changes no shelf, whatever the row, thread and settings, and leaves nothing stale behind |
| Lifecycle.EndingAWaitRestores | plugins/thread-glance/shared/lifecycle.ts:105-113 | ending a waiting settle gives back exactly the row there was before it |
| ActionLaws.ShelfIs | plugins/thread-glance/shared/lifecycle.ts:185-405 | in fields: which of the seven shelves a thread is on, for every row the store can hold |
| LifecycleStore.LifecycleStore.PutMany | plugins/thread-glance/server/lifecycle-store.ts:60-90 | every row ends as last put, no empty row is stored, memory equals the table, marks stay exclusive, and exactly the moved threads are named |
| LifecycleStore.LifecycleStore.PutRow | plugins/thread-glance/server/lifecycle-store.ts:60-85 | one row is stored as put, an empty one as none, and it reports a move exactly when the row differs |
| LifecycleStore.LifecycleStore.PutMap | plugins/thread-glance/server/lifecycle-store.ts:60-90 | written as a map: each named thread has its new row, every other its old one |
| LifecycleStore.LifecycleStore.Forget | plugins/thread-glance/server/lifecycle-store.ts:91 | written through row by row: exactly the named threads' rows go from memory and table alike, those that had one are told, and no row is new |
| LifecycleStore.LifecycleStore.Prune | plugins/thread-glance/server/lifecycle-store.ts:92 | written through row by row: exactly the rows of threads not alive go from memory and table alike, and are told |
| LifecycleStore.PutAllIs | plugins/thread-glance/server/lifecycle-store.ts:60-85 | puts that agree leave each named thread as put and every other as it was, in any order |
| AutoSettle.StandingIsGreatest | plugins/thread-glance/server/auto-settle.ts:109-178 | what stays settled or settling is itself closed and holds every closed set of candidates: the greatest set in which each withdrawable thread has its whole tree |
| AutoSettle.StandingIsCounted | plugins/thread-glance/server/auto-settle.ts:143-178 | that greatest set is what the plan leaves counted |
| AutoSettle.IsWholeTreeSettled | plugins/thread-glance/server/auto-settle.ts:150-158 | where the walk ends, it says whether every thread below is fine |
| AutoSettle.WalkEndsIff | plugins/thread-glance/server/auto-settle.ts:150-158 | the walk, which stops at the first thread that is not fine and remembers nothing, ends exactly when no parent cycle lies below the root or one of the threads it meets before it goes round is not fine |
| AutoSettle.CycleBelowIsThrough | plugins/thread-glance/server/auto-settle.ts:150-158 | where each thread is listed once, a cycle lies below a thread exactly when the thread is on it |
| AutoSettle.WithdrawingEndsNoWalk | plugins/thread-glance/server/auto-settle.ts:160-178 | whatever the loop withdraws, in any order, the walks that end are those that ended when it began |
| AutoSettle.PlannerGoesRoundACycle | plugins/thread-glance/server/auto-settle.ts:150-178 | two quiet threads that are each other's parent keep the planner going round for ever, unless one is pinned |
| AutoSettle.ShortTreeDoesNotStand | plugins/thread-glance/server/auto-settle.ts:160-178 | a settle the loop withdraws is in no closed set, so no order of withdrawals takes too much |
| AutoSettle.Withdraw | plugins/thread-glance/server/auto-settle.ts:160-178 | wherever each withdrawable thread's walk ends, the loop ends with the greatest closed set, whatever order its sweeps take; settle and unsettle are apart |
| AutoSettle.PlanAutoSettle | plugins/thread-glance/server/auto-settle.ts:115-179 | the planner's two lists are the ones of the greatest fixpoint of its decisions, on every listing where its walks end; which threads these are is `AutoSettleLaws.PlanSettlesIff` and `AutoSettleLaws.PlanReturnsIff` |
| AutoSettleLaws.PlanSettlesIff | plugins/thread-glance/server/auto-settle.ts:62-179 | in fields: a thread is in the settle list exactly when it is visible, not held back, free of the user's marks, unpinned, at rest, not parked, snoozed or settled already, has a cause, and all below it is out of the way; a cause is a pull request over since its last activity, or quiet past the days set with none open, draft or unknown |
| AutoSettleLaws.PlanReturnsIff | plugins/thread-glance/server/auto-settle.ts:62-179 | in fields: a thread is in the return list exactly when it is an automatic settle of the planner's, and is no longer free, has lost its cause, or something below it is in the way |
| AutoSettleLaws.OpenRequestBlocks | plugins/thread-glance/server/auto-settle.ts:90-107 | with an open or draft pull request a thread is in no settle list, and an automatic settle is in the return list |
| AutoSettleLaws.ReturnedAreNotWalked | plugins/thread-glance/server/auto-settle.ts:160-178 | a thread its own decision returns is not walked for its tree |
| AutoSettleLaws.PassWrites | plugins/thread-glance/server/auto-settle.ts:198-218 | in fields: a settled thread's row is that time's automatic settle and nothing else, a returned one has no row, and no other row moves |
| AutoSettle.DecideAfterReturn | plugins/thread-glance/server/auto-settle.ts:75-107 | a thread given back is then kept: with exclusive marks no row is returned and settled in turn |
| AutoSettle.Resort | plugins/thread-glance/server/auto-settle.ts:115-142 | how the decisions of a second plan follow from the first plan's, set by set |
| AutoSettle.ConvergesInOnePass | plugins/thread-glance/server/auto-settle.ts:75-179 | planning again after writing a plan gives the empty plan exactly when no settled thread has attention after the time written |
| AutoSettle.ClockBehindSettlesAgain | plugins/thread-glance/server/auto-settle.ts:75-179 | a thread with a closed pull request and attention after the time written is settled again by the second plan |
| AutoSettle.PlanLeavesManualMarks | plugins/thread-glance/server/auto-settle.ts:75-107 | no thread with a manual settle, an active override or a waiting settle is in any plan |
| AutoSettle.PlanSettlesOnlyQuietThreads | plugins/thread-glance/server/auto-settle.ts:75-179 | a thread in the settle list is visible, not excluded, not held back, and everything below it is fine |
| Passes.AnsweredByALaterPass | plugins/thread-glance/server/auto-settle.ts:232-254 | over every run of calls and ends, a call is answered by a pass that had not begun before it; it begins with the call unless another is under way, and otherwise as soon as that one ends |
| Passes.OnePassAtATime | plugins/thread-glance/server/auto-settle.ts:232-254 | over every run of calls and ends, at most one pass is begun and not ended, and one waits only behind a pass under way |
| Passes.CallsShareTheWaitingPass | plugins/thread-glance/server/auto-settle.ts:232-254 | two calls are given the same pass exactly when the first had to wait and no pass ended between them |
| Passes.AutoSettleRuns.WritePlan | plugins/thread-glance/server/auto-settle.ts:198-218 | inside the change the plan's rows are written, unless the settings have changed since: then none |
| Passes.WaitingChecks.Check | plugins/thread-glance/server/waiting-settles.ts:239-250 | a request's event is in a batch no check has started on, after all told before it; no other batch changes |
| Passes.WaitingChecks.Start | plugins/thread-glance/server/waiting-settles.ts:239-250 | the check that starts takes every event gathered, and later requests start another batch |
| Bb.Gateway.Snapshot | plugins/thread-glance/server/actions.ts:116-121 | a listing is bb's threads as they are by then, each id once, or a failure, and is recorded as bb's answer with the pins taken by then |
| Actions.ChangesAre | plugins/thread-glance/server/actions.ts:148-160 | reported are exactly the entries that moved a row or unpinned a thread, with the rows before and after |
| Actions.UndoLeavesChanged | plugins/thread-glance/server/actions.ts:361-375 | a thread whose row, parent, pin or busyness changed since a settle is untouched by its Undo |
| Actions.UndoRestoresUnchanged | plugins/thread-glance/server/actions.ts:361-376 | a thread still as the settle left it gets the row it had before |
| Actions.SettleThenUndo | plugins/thread-glance/server/actions.ts:261-388 | thread by thread, whatever other writers did meanwhile: one still as the settle left it gets the row it had before, and every other keeps the row it has now |
| SettleSpec.OldUndoSparesNewSettle | plugins/thread-glance/server/actions.ts:308-313 | over any run of actions settle times rise, so the Undo of one settle restores nothing a later settle wrote |
| Settling.ListedTree | plugins/thread-glance/server/actions.ts:263-267 | the threads of the root's tree among those bb lists, each once |
| Settling.SameTreeIsWhole | plugins/thread-glance/server/actions.ts:281-299 | when the second reading passes the comparison, both readings hold the very same tree and bb still lists its root |
| SettleSpec.WrittenSettles | plugins/thread-glance/server/actions.ts:308-322 | writing the settled rows settles the whole tree as read second and keeps all its Undo needs: rows, pins and parents |
| SettleSpec.SettledChangesAre | plugins/thread-glance/server/actions.ts:148-160 | a settle reports one change for each moved row and each unpinned thread, no others |
| SettleSpec.SettleRemembers | plugins/thread-glance/server/actions.ts:314-322 | the snapshot of a settle names every row it changed and pin it took, with the parent each thread had |
| SettleSpec.SettleThenUndoRestoresAll | plugins/thread-glance/server/actions.ts:261-388 | from the postconditions of settle and Undo, on any store that agrees on the tree: the tree's rows are as before, every other row stays as it is, and every pin is given back unless bb refuses it |
| SettleSpec.SettleThenUndoRestores | plugins/thread-glance/server/actions.ts:261-388 | the same for one thread, exactly when nothing the Undo looks at has changed of it |
| ActionLaws.SettleWrites | plugins/thread-glance/server/actions.ts:308-322 | in fields: a Settle that is done leaves each thread of the tree settled by hand at a time after any before, with nothing else in its row, and no other row moves |
| ActionLaws.SettledWereAtRest | plugins/thread-glance/server/actions.ts:281-307 | every thread settled was at rest, unpinned, under its parent and without attention since the first reading |
| ActionLaws.UnchangedIff | plugins/thread-glance/server/actions.ts:281-299 | in fields: a thread is unchanged exactly when its parent is, no row of it moved and, unless the settle waits, it has no pin and no attention since |
| ActionLaws.RefusesForAChangeIff | plugins/thread-glance/server/actions.ts:281-299 | the tree counts as changed exactly when its size differs or some thread has another parent or, unless the settle waits, a pin or attention since |
| ActionLaws.WaitWrites | plugins/thread-glance/server/actions.ts:300-307 | in fields: a Settle left waiting adds its time to the thread's own row, whose other fields stay |
| ActionLaws.RestorableIff | plugins/thread-glance/server/actions.ts:361-375 | in fields: Undo restores exactly the threads bb lists at rest, unpinned and under their old parent, whose row is still the settle's |
| ActionLaws.CanRepinIff | plugins/thread-glance/server/actions.ts:192-218 | a pin goes back exactly to a thread listed unpinned under its old parent with its row as it was |
| ActionLaws.LeftAloneIff | plugins/thread-glance/server/actions.ts:361-375 | in fields, what the restoring theorems ask: bb lists the thread at rest, unpinned and under the same parent |
| ActionLaws.UndoLasts | plugins/thread-glance/server/actions.ts:335-355 | Undo can be pressed for its own thread, seven seconds, or thirteen beside a note |
| ActionLaws.FindsFirst | plugins/thread-glance/server/actions.ts:349-355 | the snapshot an Undo takes is the first one held under its token |
| SettleSpec.PlainChangesTell | plugins/thread-glance/server/actions.ts:148-160 | what an action's changes say of before and after is what the store held |
| LifecycleActions.LifecycleActions.Write | plugins/thread-glance/server/actions.ts:148-160 | the rows are written and exactly the moved or unpinned threads reported with the row before |
| LifecycleActions.LifecycleActions.UnpinTree | plugins/thread-glance/server/actions.ts:273-280 | pins are taken in order up to the first bb refuses; done means all of the tree's |
| LifecycleActions.LifecycleActions.RestorePins | plugins/thread-glance/server/actions.ts:192-218 | an unfinished settle pins again exactly the threads that bb's answer shows unchanged, unless bb refuses |
| LifecycleActions.LifecycleActions.ReadFirst | plugins/thread-glance/server/actions.ts:262-269 | by bb's answer, refuses where bb fails, has no such thread, or a question waits on or below it, in that order |
| LifecycleActions.LifecycleActions.ReadAgain | plugins/thread-glance/server/actions.ts:281-299 | by bb's second answer, refuses where it differs from the first in any way a settle depends on |
| LifecycleActions.LifecycleActions.SettleTree | plugins/thread-glance/server/actions.ts:261-338 | a settle is refused, left waiting or done by bb's two answers; each outcome fixes rows, pins, reports and what was asked, at any interleaving of bb's changes |
| LifecycleActions.LifecycleActions.Settle | plugins/thread-glance/server/actions.ts:261-338 | by bb's answers: a settle that fails changes no row; one that succeeds settles the tree and holds its Undo under its token |
| LifecycleActions.LifecycleActions.RememberSettle | plugins/thread-glance/server/actions.ts:221-226 | the newest snapshot is held; expired ones go, and of the rest the oldest beyond the limit |
| LifecycleActions.LifecycleActions.UndoSettle | plugins/thread-glance/server/actions.ts:349-388 | works once and only for its thread and time; by bb's answer restores exactly the threads still as settled, rows and pins, and reports those; a refusal changes no row |
| LifecycleActions.LifecycleActions.Snooze | plugins/thread-glance/server/actions.ts:170-238 | refuses a time not ahead or over a year away, a busy or asked thread or one with a waiting child; else unpins it and writes the one mark |
| LifecycleActions.LifecycleActions.Park | plugins/thread-glance/server/actions.ts:170-240 | refuses as Snooze does, else unpins the thread and writes the one mark |
| LifecycleActions.LifecycleActions.WakeNow | plugins/thread-glance/server/actions.ts:242-250 | ends a snooze and touches nothing else; does nothing for a thread not snoozed |
| LifecycleActions.LifecycleActions.Resume | plugins/thread-glance/server/actions.ts:252-259 | leaves the thread with the active override alone; refused, it changes no row |
| LifecycleActions.LifecycleActions.CancelSettle | plugins/thread-glance/server/actions.ts:340-347 | ends a waiting settle and gives back the marks the row had before it |
| LifecycleActions.LifecycleActions.Unsettle | plugins/thread-glance/server/actions.ts:390-404 | the thread becomes active, settled threads below and marked ones above reopen, all others keep their rows |
| LifecycleActions.UnsettledByEntries | plugins/thread-glance/server/actions.ts:390-404 | the entries written for an unsettle come to exactly that, by descendants and ancestors of the listing |
| LifecycleActions.LifecycleActions.UndoLifecycle | plugins/thread-glance/server/actions.ts:406-437 | puts back and reports each row still as its action left it, tells which were skipped and why, and pins again by bb's answer; rows stay even if bb then fails |
| LifecycleActions.UndoReversesAnAction | plugins/thread-glance/server/actions.ts:406-422 | an action then its Undo, with nothing moved since, gives back every row but those whose snooze has ended |
| LifecycleActions.LifecycleActions.DismissWoke | plugins/thread-glance/server/actions.ts:439-450 | clears the row exactly when the thread's woke marker is up by bb's listing |
| LifecycleActions.LifecycleActions.ClearPinned | plugins/thread-glance/server/actions.ts:452-461 | clears the row exactly when the thread is pinned and does not merely wait since the pin |
| ActionLaws.NotThereIff | plugins/thread-glance/server/actions.ts:116-135 | an action is refused at once exactly when bb gave no listing or lists no such thread, each with its own reason |
| ActionLaws.AsideRefusedIff | plugins/thread-glance/server/actions.ts:170-190 | in fields: Snooze and Park are refused for a thread not at rest, then for a question below, and for nothing else of the listing |
| ActionLaws.AsideWrites | plugins/thread-glance/server/actions.ts:170-240 | in fields: Snooze and Park leave that one mark on a thread at rest, and no other row moves |
| ActionLaws.CancelWrites | plugins/thread-glance/server/actions.ts:340-347 | in fields: cancelling leaves the row without its wait, or no row where nothing else was in it |
| ActionLaws.ResumeWrites | plugins/thread-glance/server/actions.ts:252-259 | in fields: the thread is active with nothing else in its row, and no other row moves |
| ActionLaws.UnsettleWrites | plugins/thread-glance/server/actions.ts:390-404 | in fields: the thread is active, settled rows below and marked ones above go, and no other row moves |
| ActionLaws.UndoneIff | plugins/thread-glance/server/actions.ts:406-422 | a change is undone exactly when its row is still the action's and no ended snooze would come back |
| ActionLaws.SkipsAre | plugins/thread-glance/server/actions.ts:406-437 | told as skipped are exactly the changes left, each with its reason; pinned again are only those undone that the action unpinned |
| ActionLaws.DismissesIff | plugins/thread-glance/shared/lifecycle.ts:185-210 | a Woke marker is dismissed exactly for a snooze that its time or attention since ended |
| ActionLaws.PinClearsIff | plugins/thread-glance/shared/lifecycle.ts:333-345 | a pin clears a row exactly when no settle waits in it since the pin or later |
| WaitingRule.NoTurnEnds | plugins/thread-glance/shared/waiting-settle.ts:39-46 | no turn ends a wait exactly when each one leaves it waiting, in any order |
| WaitingRule.LandMeans | plugins/thread-glance/shared/waiting-settle.ts:57-68 | a settle lands exactly when every thread is idle with no pin since and no turn ended it |
| WaitingRule.MoreTurnsLandLess | plugins/thread-glance/shared/waiting-settle.ts:39-68 | hearing of more turns never makes a settle land |
| WaitingRule.LandsAtRest | plugins/thread-glance/shared/waiting-settle.ts:39-68 | in fields: a settle lands exactly when every thread is at rest, none was pinned since, and no turn is a message of the user's or a failure since |
| WaitingRule.EndsBecause | plugins/thread-glance/shared/waiting-settle.ts:39-68 | in fields: it ends exactly for a pin since, a visible question, a message that failed to send, or the first turn that tells, each with its own reason and looked for in that order |
| WaitingSettles.LandHeardAll | plugins/thread-glance/server/waiting-settles.ts:107-159 | a tree said to land is idle with no pin since, bb told of the turns of every one of its threads, and neither those nor the events told end the settle |
| WaitingSettles.ChoiceExcuses | plugins/thread-glance/server/waiting-settles.ts:253-255 | as long as a settle waits, a look excuses the user's turns of exactly the threads that had queued messages when it was chosen |
| WaitingSettles.WaitingSettles.TurnsOf | plugins/thread-glance/server/waiting-settles.ts:107-118 | asks bb for the turns of every thread of the tree; its answers, less those queued before the choice, or nothing if it cannot say for one |
| WaitingSettles.WaitingSettles.Decide | plugins/thread-glance/server/waiting-settles.ts:121-159 | says wait, end or land by the rule, for the listed tree, bb's answers for its threads and the events told of, or nothing when bb fails |
| WaitingSettles.WaitingSettles.WaitingRows | plugins/thread-glance/server/waiting-settles.ts:81-85 | exactly the rows with a waiting settle, with the time each was chosen |
| WaitingSettles.WaitingSettles.LookOnce | plugins/thread-glance/server/waiting-settles.ts:184-197 | one look, with the very answers it went by, sets, keeps or ends the root's idle time: anything but land ends it |
| WaitingSettles.WaitingSettles.LookAtAll | plugins/thread-glance/server/waiting-settles.ts:179-197 | each waiting settle is looked at once, with its own grounds, and sorted as ending, landing after the grace, or neither |
| WaitingSettles.WaitingSettles.LandAll | plugins/thread-glance/server/waiting-settles.ts:211-226 | by the fresh listing, only trees that still land are settled, each the tree below its root there, and the pins taken are theirs |
| WaitingSettles.WaitingSettles.WriteDecided | plugins/thread-glance/server/waiting-settles.ts:200-229 | the rows written are those of the ended waits and of the trees that land on bb's fresh answer, and no others; none when bb cannot list |
| WaitingSettles.PutsWrite | plugins/thread-glance/server/waiting-settles.ts:203-227 | an ended wait leaves the row as before it, a landed tree is settled, and every other row stays |
| WaitingSettles.WaitingSettles.CheckNow | plugins/thread-glance/server/waiting-settles.ts:173-235 | with other writers and bb changing between reads, a tree is settled only if its row still holds that settle, a fresh read lands, and no check within the grace said otherwise; while bb answers none that should end or land is passed over; what a look says, which settles end and land, the rows written and the idle times kept are in fields in `WaitingLaws` |
| WaitingLaws.LooksLandIff | plugins/thread-glance/server/waiting-settles.ts:107-159 | over a look's grounds, in fields: land exactly when the tree is at rest and unpinned since, bb told of every thread's turns, and no turn of its answers or of the events is the user's or a failure since, but for threads queued at the choice and those that may be spawning |
| WaitingLaws.LooksEndIff | plugins/thread-glance/server/waiting-settles.ts:107-159 | over a look's grounds, in fields: the settle ends exactly for a pin, a question or a failed message in the tree, or for such a turn; turns at or before the choice, an agent's or completed ones never end it |
| WaitingLaws.LooksWaitOnWork | plugins/thread-glance/server/waiting-settles.ts:121-159 | a look that says wait saw a thread that is not at rest |
| WaitingLaws.AsksAbout | plugins/thread-glance/server/waiting-settles.ts:137-148 | bb is asked about exactly the tree's threads that an event named without their turns and those with a turn in flight |
| WaitingLaws.QueuedAtChoice | plugins/thread-glance/server/waiting-settles.ts:253-255 | a choice excuses exactly the tree's threads with a message waiting or failed to send |
| WaitingLaws.CheckDecides | plugins/thread-glance/server/waiting-settles.ts:179-199 | each waiting settle is looked at once; one gone or over is to end, one said to land five seconds after it was first seen idle is to land, and its idle time starts, stays or goes by what the look said |
| WaitingLaws.EndsOnlyWhenOver | plugins/thread-glance/server/waiting-settles.ts:186-199 | only a settle that a look of this check found gone or over is to end |
| WaitingLaws.LandsOnlyWhenIdle | plugins/thread-glance/server/waiting-settles.ts:193-199 | only a settle lands that its row still holds, that this look and one five seconds before said to land, with none between that did not |
| WaitingLaws.IdleTimesAreOfWaiting | plugins/thread-glance/server/waiting-settles.ts:173-177 | a root that waits no more keeps no idle time |
| WaitingLaws.LandsOnlyAtRest | plugins/thread-glance/server/waiting-settles.ts:211-226 | a landed tree is at rest and unpinned since in the listing read again, and its row still waits since then |
| WaitingLaws.LandsWhenAtRest | plugins/thread-glance/server/waiting-settles.ts:211-226 | a tree to land that is so in that listing lands |
| WaitingLaws.CheckWrites | plugins/thread-glance/server/waiting-settles.ts:203-227 | in fields: a landed tree's rows are settled by hand and nothing else, an ended settle leaves the marks its row had and no row where there were none, and no other row moves |
| ThreadEvents.HoldRows | plugins/thread-glance/server/reconcile.ts:37-51 | the held threads are those a waiting question holds, and each gets the attention it just had set aside |
| ThreadEvents.HoldingKeepsTheMark | plugins/thread-glance/shared/lifecycle.ts:263-267 | held attention only rises, the mark stays, and is not stale for any attention seen so far |
| ThreadEvents.ClearStaleRows | plugins/thread-glance/server/reconcile.ts:17-22 | exactly the stale marks of the named threads go, and the moved rows are told |
| ThreadEvents.HoldThenClearThenReopen | plugins/thread-glance/server/thread-events.ts:83-142 | hold, clear, reopen in that order never clears a held row and reopens every other marked ancestor |
| ThreadEvents.ThreadEvents.AncestorsFrom | plugins/thread-glance/server/thread-events.ts:64-73 | the ids above by bb's answers to the walk, nearest first, none twice, ended where bb says so or at the depth limit, though bb changes between the reads |
| ThreadEvents.ThreadEvents.HoldWhileAsked | plugins/thread-glance/server/thread-events.ts:83-99 | by bb's answer, exactly the threads a question holds keep their marks with attention set aside; nothing moves when bb cannot list |
| ThreadEvents.ThreadEvents.Reopen | plugins/thread-glance/server/thread-events.ts:102-110 | marked ancestors not held lose their mark and keep a waiting settle (`EventLaws.ReopenWrites`); no other row moves |
| ThreadEvents.ThreadEvents.Created | plugins/thread-glance/server/thread-events.ts:113-119 | the ancestors bb told of a new thread reopen but for those its listing shows held, and nothing else moves |
| ThreadEvents.ThreadEvents.TurnStarted | plugins/thread-glance/server/thread-events.ts:121-131 | ends the override, clears the thread's own stale mark and reopens above, but clears no row bb's listing shows held |
| ThreadEvents.ThreadEvents.Attention | plugins/thread-glance/server/thread-events.ts:133-142 | clears the thread's stale mark unless bb's listing shows a question holds it or it was held when the turn began; without bb that hold stays |
| ThreadEvents.TakenInKeepsMarks | plugins/thread-glance/server/thread-events.ts:83-142 | after an event is taken in, each held row has the mark it had and is not stale for any attention the listing shows |
| EventLaws.ReopenWrites | plugins/thread-glance/server/thread-events.ts:102-110 | in fields: a marked ancestor not held has no parked, snoozed, settled, active or held field left and the waiting settle it had, and no row exactly when it had none; any other row is as it was |
| EventLaws.CreatedWrites | plugins/thread-glance/server/thread-events.ts:113-119 | in fields, by bb's listing: each ancestor's row is reopened so, or, held by a question below, keeps every field with the attention it just had set aside; no other row moves |
| EventLaws.TurnStartedWrites | plugins/thread-glance/server/thread-events.ts:121-131 | in fields: an override goes, a held row keeps its mark, else the thread's own out-of-date mark goes with all but a waiting settle, marked ancestors reopen, and no other row moves |
| EventLaws.TurnIsHeldIff | plugins/thread-glance/server/thread-events.ts:121-131 | the turn is remembered as held exactly when its thread is marked and a question waits below it and none on it |
| EventLaws.AttentionWrites | plugins/thread-glance/server/thread-events.ts:133-142 | in fields: the thread's own out-of-date mark goes unless it is held, with all but a waiting settle; no other row moves |
| EventLaws.HeldIff | plugins/thread-glance/shared/lifecycle.ts:245-260 | a thread is held exactly when it is marked and listed visible, does not ask, and a visible thread strictly below it asks or its turn began so |
| EventLaws.AskedIff | plugins/thread-glance/server/thread-events.ts:83-99 | bb is asked for its threads exactly when one of these has a mark |
| ThreadEvents.ThreadEvents.Unarchived | plugins/thread-glance/server/thread-events.ts:151-157 | a thread that leaves the archive has its row published |
| ThreadEvents.ThreadEvents.Deleted | plugins/thread-glance/server/thread-events.ts:159-165 | its row goes, it leaves the archive, and any row shown is told |
| ThreadEvents.ReconcileState | plugins/thread-glance/server/reconcile.ts:60-78 | rows of unknown threads go, no listed thread is left with a stale mark, and no held row is cleared |
| EventLaws.ReconcileWrites | plugins/thread-glance/server/reconcile.ts:37-78 | in fields: a row stays only for a thread bb listed, was asked about or has archived; held marks stay with their attention set aside, others go exactly when attention came after them |
| RecordLog.ArchivedThreads.Replace | plugins/thread-glance/server/archived.ts:54-66 | an event heard wins over the listing for its thread; the first listing takes nothing out of the archive |
| RecordLog.RecordLog.Publish | plugins/thread-glance/server/records.ts:41-49 | a change that touched threads takes the next revision and signals their records as they are; one that touched none sends nothing |
| RecordLog.RecordLog.Since | plugins/thread-glance/server/records.ts:50-62 | a delta holds every record changed since, a full answer every row not archived |
| RecordSync.SignalTaken | plugins/thread-glance/features/thread-list/sync/records.ts:89-95 | in fields: a signal before the first answer changes nothing, one of another epoch is refused, any other is taken record by record unless a later one is held, and the revision never falls |
| RecordSync.DeltaTaken | plugins/thread-glance/features/thread-list/sync/records.ts:29-55 | in fields: a delta is taken record by record unless a later one is held |
| RecordSync.FullTaken | plugins/thread-glance/features/thread-list/sync/records.ts:51-73 | in fields: after a full answer a window holds it, with the records of its epoch that came at a later revision, and nothing else |
| RecordSync.DeltaIsAsGoodAsFull | plugins/thread-glance/server/records.ts:50-62 | a view right at revision r, with the delta since r applied, is right now for every thread, as after a full answer |
| RecordSync.RightStays | plugins/thread-glance/server/records.ts:41-49 | a record stays right until a change touches its thread, archiving included |
| RecordSync.FullIsRight | plugins/thread-glance/features/thread-list/sync/records.ts:51-73 | a full answer applied keeps only records that are right, or newer ones the window had heard |
| RecordSync.StepKeepsOk | plugins/thread-glance/features/thread-list/sync/records.ts:29-93 | every step of server and window keeps what the window holds right or still to be overwritten |
| RecordSync.WindowsAgree | plugins/thread-glance/server.ts:88-144 | over every run, however answers and signals interleave, a window with its answer and all signals has the server's row of each thread not archived |
| LogLines.ParseConcat | plugins/thread-usage/src/host/log-cache.ts:340-373 | parsing whole lines and then the rest is parsing it all |
| LogLines.FullParseKeeps | plugins/thread-usage/src/host/log-cache.ts:128-175 | a full parse keeps every entry in line order, or the last of each key in the order the keys first appear |
| LogLaws.EveryLineIsRead | plugins/thread-usage/src/host/log-cache.ts:128-175 | by bytes alone: a full parse has one entry, in line order, for exactly the lines between newlines that are not empty, hold the needle and parse under their number; a CR before a newline is no part of a line, and a last line without one counts as it stands |
| LogLaws.LatestOfEachKeyIsKept | plugins/thread-usage/src/host/log-cache.ts:129-140 | where one entry per key is kept, it is the latest of each key of those, once, in the order the keys first stand |
| LogCache.ReadLines | plugins/thread-usage/src/host/log-cache.ts:340-373 | however the bytes come in chunks, the lines ended are parsed onto the start and the rest is what follows the last newline |
| LogCache.TakeLines | plugins/thread-usage/src/host/log-cache.ts:358-366 | the newline scan of one buffer is the parse of its whole lines, CRLF included |
| LogCache.Apply | plugins/thread-usage/src/host/log-cache.ts:129-140 | adding by the index is adding by a scan for the key, and the index stays right |
| LogCache.FileContinues | plugins/thread-usage/src/host/log-cache.ts:179-184 | true exactly when the inode is the state's, the file is long enough, and the bytes before the offset are the same |
| LogCache.ReadAppended | plugins/thread-usage/src/host/log-cache.ts:143-175 | reading on from a state of the file gives the next state and, with the last line, the full parse |
| LogCache.ReadingOnIsFullParse | plugins/thread-usage/src/host/log-cache.ts:108-176 | from any state of a file, reading on is one full parse of its bytes |
| LogCache.TrustedReadsFully | plugins/thread-usage/src/host/log-cache.ts:108-184 | whatever earlier state is kept, it is read on from or dropped, and either way the read is a full parse |
| LogCache.RewritingIsNoticed | plugins/thread-usage/src/host/log-cache.ts:108-184 | a shrunk file, or one with other bytes before the offset, is parsed from the start unless size and time are as before |
| LogCache.FarRewriteIsMissed | plugins/thread-usage/src/host/log-cache.ts:179-184 | every in-place rewrite of a line further back than the bytes compared is not seen, and the stale entries are returned |
| LogCache.RewriteIsReadIff | plugins/thread-usage/src/host/log-cache.ts:108-184 | a file rewritten in place is read rightly exactly when size, time, inode or the bytes compared differ, or every line before the offset reads as before |
| LogCache.RewritingCanBeMissed | plugins/thread-usage/src/host/log-cache.ts:179-184 | one byte changed at the start of a line of seventy is missed |
| LogCache.LogCache.Remember | plugins/thread-usage/src/host/log-cache.ts:186-190 | the ids in use stay in order with this one last; past the limit the longest unused goes, and no other state changes |
| LogCache.LogCache.Load | plugins/thread-usage/src/host/log-cache.ts:196-209 | gives the state stored for the id or none |
| LogCache.LogCache.Save | plugins/thread-usage/src/host/log-cache.ts:251-262 | stores the state under its id or changes nothing |
| LogCache.LogCache.ReadNow | plugins/thread-usage/src/host/log-cache.ts:108-176 | from memory, disk or nothing, a read returns the full parse of the file as it was when looked at; a missing file has none and an aborted read changes nothing kept |
| LogCache.EveryReadIsFull | plugins/thread-usage/src/host/log-cache.ts:96-176 | over every run of reads, appends, replacements, other readers and restarts, each read not aborted is one full parse of the file as it was when the read looked |
| Tokens.BothStylesConvert | plugins/thread-usage/src/core/tokens.ts:109-131 | a request converts to the same counts whether its input is reported with or without the cached tokens |
| Tokens.BreakdownReads | plugins/thread-usage/src/core/tokens.ts:109-131 | in fields: each count of bb's breakdown with negatives as none, the cached tokens off the input exactly where the total is nearer without them |
| Tokens.ShareRounds | plugins/thread-usage/src/core/tokens.ts:59-69 | n shares rounded to whole tokens differ from the whole by at most n/2 |
| Ledger.IngestEvents | plugins/thread-usage/src/core/ledger.ts:312-569 | the loop over a batch comes to the fold of its events, then the opening record or the gap; what that is in the events' own fields is in `LedgerEvents`, `LedgerGaps` and `LedgerCursors` |
| LedgerEvents.TurnsAreMade | plugins/thread-usage/src/core/ledger.ts:312-486 | a turn changes exactly when an event of its own records something, and its record is then its old one with what its own new events say, field by field: its end, start, model, lines, counts and the requests it keeps |
| LedgerEvents.NewerAre | plugins/thread-usage/src/core/ledger.ts:338-345 | what counts of a batch are exactly the events above the cursor |
| LedgerGaps.GapIff | plugins/thread-usage/src/core/ledger.ts:513-530 | a gap is reported exactly when the thread was seen before and a turn that completed lacks usage that was pruned |
| LedgerGaps.FilledIff | plugins/thread-usage/src/core/ledger.ts:530-545 | a gap is filled exactly when bb told a total after the last harness start of the batch, one was stored before, and no kind of it fell |
| LedgerGaps.NoFillAcrossAStart | plugins/thread-usage/src/core/ledger.ts:530-551 | with a harness start at or below the latest total a gap is not filled: the ledger grows by the usage events' tokens alone and each missing turn is partial |
| LedgerGaps.UnfilledGapMarks | plugins/thread-usage/src/core/ledger.ts:545-555 | a gap that is not filled adds only its usage events' tokens and marks exactly its turns partial |
| LedgerGaps.FilledGapMarks | plugins/thread-usage/src/core/ledger.ts:530-545 | a filled gap marks exactly its turns filled |
| LedgerGaps.OpensIff | plugins/thread-usage/src/core/ledger.ts:487-512 | a first read opens a balance exactly when a completed turn lacks usage and bb told a total |
| LedgerCursors.OpeningIs | plugins/thread-usage/src/core/ledger.ts:487-512 | the opening record, field by field |
| LedgerCursors.GapSpans | plugins/thread-usage/src/core/ledger.ts:513-555 | a gap spans from the earliest start to the latest end of its turns |
| LedgerCursors.CursorAfterBatch | plugins/thread-usage/src/core/ledger.ts:346-569 | the cursor after a batch, field by field, by what the new events say last |
| LedgerCursors.RequestsKept | plugins/thread-usage/src/core/ledger.ts:346-390 | a request waits for its turn exactly while it is asked for, not taken and no more than a day old |
| LedgerCursors.AcceptedNames | plugins/thread-usage/src/core/ledger.ts:346-390 | the event that takes a request gives its turn the request's model and prompt where it has none |
| LedgerCursors.StartNames | plugins/thread-usage/src/core/ledger.ts:346-390 | a turn that starts without a model runs on the one last asked for |
| LedgerLaws.IngestIsHomomorphic | plugins/thread-usage/src/core/ledger.ts:312-569 | two batches in turn give the cursor and records of one joint batch, on a thread seen before with no gap and no request aged out |
| LedgerLaws.RedeliveryChangesNothing | plugins/thread-usage/src/core/ledger.ts:338-569 | events delivered again, at or below the cursor, change nothing wherever they stand among the new ones; where there are none but those no turn changes |
| LedgerTokens.BatchAdds | plugins/thread-usage/src/core/ledger.ts:391-555 | kind by kind, a batch adds to the ledger its usage counts and what a filled gap adds, nothing else |
| LedgerTokens.FilledGapMatchesTotal | plugins/thread-usage/src/core/ledger.ts:513-555 | when a gap over n turns is filled the ledger grows as bb's total did, up to n/2 a kind, unless usage events already exceed that |
| LedgerTokens.CountsSinceStart | plugins/thread-usage/src/core/ledger.ts:391-451 | the running sum is that of the usage events since the latest harness start |
| LedgerTokens.OpeningBalanceIsExact | plugins/thread-usage/src/core/ledger.ts:487-512 | opening balance plus the counts of the total's own run equals the total exactly when, kind by kind, those counts are the counts since the latest harness start, as far as the total goes |
| LedgerTokens.OpeningBalanceAfterTheLastCount | plugins/thread-usage/src/core/ledger.ts:487-512 | where no counts follow the total, exactly when no harness start follows it or there is nothing to explain |
| LedgerTokens.AStartCountsTheRunTwice | plugins/thread-usage/src/core/ledger.ts:487-512 | a pruned turn, a counted one and a harness start open a balance of the whole total, with the counted turn in it again |
| LedgerRequests.IngestKeepsRequests | plugins/thread-usage/src/core/ledger.ts:391-423 | a batch keeps, in changed and merged records: requests kept are as many as usage events and sum to the turn's tokens |
| LedgerRequests.EveryLedgerAddsUp | plugins/thread-usage/src/core/ledger.ts:391-555 | so it is in every ledger any run of batches reaches |
| CatchUpLane.NextKeeps | plugins/thread-usage/src/server/engine.ts:196-346 | each of the engine's steps keeps that what was read through is folded in and what is owed is covered or pending |
| CatchUpLane.NoNotificationIsLost | plugins/thread-usage/src/server/engine.ts:220-346 | over every run, with disposals and restarts over the stored ledger, what was read through is in the ledger, and each number notified is there or a catch-up covering it is to come, but for what only a failed read, a dispose or the engine before a restart was to cover |
| CatchUpLane.CallIsAnsweredLater | plugins/thread-usage/src/server/engine.ts:244-262 | a call is answered by a run that has not started and stands behind every drop queued before it, with a hint at least the call's |
| CatchUpLane.WaitingRunStartsInOrder | plugins/thread-usage/src/server/engine.ts:196-262 | a waiting run keeps its turn and, when it starts, reads from the cursor of that time |
| CatchUpLane.ReadCoversItsStart | plugins/thread-usage/src/server/engine.ts:264-346 | a read that ends well leaves every event bb had when it began in the ledger, and its hint read through |
| Engine.Engine.CatchUpSoon | plugins/thread-usage/src/server/engine.ts:220-236 | a notification is dropped only when read through or disposed, else gathered under the higher hint; other threads untouched |
| Engine.Engine.CatchUp | plugins/thread-usage/src/server/engine.ts:244-262 | takes what was gathered, joins the run that has not started or queues one; other threads untouched |
| Engine.Engine.StartNext | plugins/thread-usage/src/server/engine.ts:254-279 | the first task of the thread's chain starts with the cursor and hint of that time |
| Engine.Engine.PageArrives | plugins/thread-usage/src/server/engine.ts:278-290 | a full page moves on from its last event, a short one ends the read |
| Engine.Engine.FinishCatchUp | plugins/thread-usage/src/server/engine.ts:291-346 | what was read is folded in, cursor and read-through move to the highest number seen, and never back |
| Engine.Engine.FailCatchUp | plugins/thread-usage/src/server/engine.ts:196-205 | a failed read changes no ledger and lets the chain go on |
| Engine.Engine.RebuildLedger | plugins/thread-usage/src/server/engine.ts:582-598 | a drop is queued and no later call joins a run queued before it |
| Engine.Engine.ResetLedger | plugins/thread-usage/src/server/engine.ts:582-598 | the thread's ledger and what was read through go together, and it is read again as a job |
| Engine.Engine.Dispose | plugins/thread-usage/src/server/engine.ts:146-150 | the gathering of every thread stops at once |
| Engine.Engine.StepKeepsValid | plugins/thread-usage/src/server/engine.ts:196-346 | a method that takes one thread a step further keeps the invariant for all threads |
| Engine.Engine.StepIsOk | plugins/thread-usage/src/server/engine.ts:196-346 | a method's step on one thread's lane is a step of the engine over all of them |
| Engine.NoThreadLosesANotification | plugins/thread-usage/src/server/engine.ts:131-346 | over every run of the engine's methods on all threads, with stops and restarts, no thread's notification is lost |
| Pricing.TierIsHighest | plugins/thread-usage/src/core/pricing.ts:144-165 | the tier is the highest one the prompt is over, and none exactly when it is over none |
| Pricing.TierIsFirstHighest | plugins/thread-usage/src/core/pricing.ts:144-165 | which tier: none exactly when the prompt is over none, else the first in the list of the highest it is over |
| Pricing.TierOrderDoesNotMatter | plugins/thread-usage/src/core/pricing.ts:144-165 | the list's order does not matter |
| Pricing.CostIsCharge | plugins/thread-usage/src/core/pricing.ts:189-211 | a cost is each kind at its rate, with 1-hour writes, no more than all writes, at twice the input rate or the assumed one |
| Pricing.PriceRequests | plugins/thread-usage/src/core/pricing.ts:243-274 | each request is priced on its own prompt with its kept share of writes, the 1-hour line apart, and the dollars are their sum; in the fields of the price this is `PricingLaws.EachRequestCosts` and `PricingLaws.LineCosts` |
| PricingLaws.UntieredRequestCosts | plugins/thread-usage/src/core/pricing.ts:145-211 | in fields: with the prompt over no tier each kind goes at the price's own input, output, read and write rate, or the input rate where it has none |
| PricingLaws.TieredRequestCosts | plugins/thread-usage/src/core/pricing.ts:145-211 | in fields: over a tier each kind goes at the rate of the highest, or the base one where that tier omits it |
| PricingLaws.SummedTokensCost | plugins/thread-usage/src/core/pricing.ts:189-211 | in fields: tokens of no one request go at the base rates, unsized exactly when the price has tiers |
| PricingLaws.AssumedIff | plugins/thread-usage/src/core/pricing.ts:189-211 | a rate is assumed exactly for cached tokens without one of their own and for 1-hour writes of another maker's model |
| PricingLaws.EachRequestCosts | plugins/thread-usage/src/core/pricing.ts:243-274 | in fields: each request's number, prompt, tier and dollars, for the part of its cache writes it keeps |
| PricingLaws.KeepsPart | plugins/thread-usage/src/core/pricing.ts:243-274 | the part kept leaves out exactly the turn's unmatched 1-hour writes |
| PricingLaws.LineCosts | plugins/thread-usage/src/core/pricing.ts:243-274 | the 1-hour line goes at the highest hour's rate that any of the requests is charged at |
| PricingLaws.OneRequestTurn | plugins/thread-usage/src/core/pricing.ts:243-274 | a turn of one request costs that request at its own tier |
| Pricing.WritesAddUp | plugins/thread-usage/src/core/pricing.ts:243-274 | kept 5-minute writes and the 1-hour line are the requests' cache writes |
| Pricing.DetailAddsUp | plugins/thread-usage/src/core/summary.ts:358-367 | tiered, untiered and 1-hour dollars are the turn's dollars, each request on one side |
| Pricing.UniformRatesChargeTheSum | plugins/thread-usage/src/core/pricing.ts:243-274 | requests all charged at one set of rates come to what those rates charge for the summed tokens, each request's 1-hour writes within its own |
| Pricing.UniformRatesCostTheSum | plugins/thread-usage/src/core/pricing.ts:189-274 | and so to `costOf` of that sum |
| Pricing.UniformRatesCostTheReportedIff | plugins/thread-usage/src/core/pricing.ts:189-274 | they cost what the tokens as reported would exactly when the caps on 1-hour writes come to the same, or those cost no more than others |
| Figures.SumWithPart | plugins/thread-usage/src/core/summary.ts:249-266 | adding a part to the table adds it to the whole and to its one line |
| Figures.ListedSumsTheSame | plugins/thread-usage/src/core/summary.ts:261-265 | lines left out of the list count for nothing |
| Figures.SumFigures | plugins/thread-usage/src/core/summary.ts:689-721 | totals add up, each key has the lines whose names come to it, lines sum to totals, and a line's name is the key of one added up |
| FigureLaws.TokensAddUp | plugins/thread-usage/src/core/summary.ts:689-721 | each kind of a sum's tokens is the sum of the figures' |
| FigureLaws.DollarsAddUp | plugins/thread-usage/src/core/summary.ts:689-721 | its dollars, unpriced tokens and each billing mode's tokens and dollars are the sums of theirs |
| FigureLaws.CountsAddUp | plugins/thread-usage/src/core/summary.ts:689-721 | so are its turns, requests, time, unsized turns and lines of diff |
| FigureLaws.NotesAddUp | plugins/thread-usage/src/core/summary.ts:689-721 | it is partial, approximate or on assumed rates exactly when one of them is, and names exactly their unpriced models |
| FigureLaws.KeyIs | plugins/thread-usage/src/core/summary.ts:245-247 | a model's line, by the characters of its name: unknown without one, else the name up to the first bracket that opens a part closing only at its end |
| FigureLaws.TableTakes | plugins/thread-usage/src/core/summary.ts:249-260 | adding to the table moves the first line of that name, kind by kind, or puts a new one last |
| FigureLaws.ListsThose | plugins/thread-usage/src/core/summary.ts:261-265 | listed are exactly the lines with counted tokens or dollars |
| Figures.LinesStayIffNamesStable | plugins/thread-usage/src/core/summary.ts:245-266 | summing again keeps every line on its key exactly when each name is its own key |
| Figures.SummingASumCanMoveALine | plugins/thread-usage/src/core/summary.ts:245-266 | a model named by a bare suffix moves to the unknown models when summed again |
| Figures.UnpricedWithinTokens | plugins/thread-usage/src/core/summary.ts:618-645 | a figure whose lines are in step has no more unpriced tokens than tokens |
| Summary.MergeLogEntries | plugins/thread-usage/src/core/summary.ts:67-87 | each list holds exactly the entries of its use, in log order |
| Summary.EachEntryHasOneUse | plugins/thread-usage/src/core/summary.ts:67-87 | every entry has exactly one use, as often as it is logged |
| EntryLaws.HistoryArePicked | plugins/thread-usage/src/core/summary.ts:67-87 | in fields, in log order: history are exactly the main session's entries before first sight where it was backfilled, a fork's copied ones left out |
| EntryLaws.GapFillArePicked | plugins/thread-usage/src/core/summary.ts:67-87 | gap fill are exactly its later entries inside a partial gap, ends included |
| EntryLaws.SubagentsArePicked | plugins/thread-usage/src/core/summary.ts:67-87 | subagent entries are exactly those with an agent's id that no fork copied |
| EntryLaws.WritesArePicked | plugins/thread-usage/src/core/summary.ts:67-87 | the cache writes are exactly the remaining entries that have any |
| Summary.EstimateRequests | plugins/thread-usage/src/core/summary.ts:336-356 | the estimate's tokens and unpriced tokens are the requests', its dollars those of pricing them one by one, and it tells of their number, tiers, assumed rates and a missing price |
| Summary.EstimateEntries | plugins/thread-usage/src/core/summary.ts:375-384 | entries cost the sum of each on its own, under one model or several; a rate is assumed exactly as for one of them, and the first model without a price is named |
| Summary.AllUnpricedIff | plugins/thread-usage/src/core/summary.ts:309-356 | unpriced tokens are within the tokens, and all of them exactly when no part with tokens has a price |
| Summary.PlacedOnce | plugins/thread-usage/src/core/summary.ts:411-418 | each entry is placed under one key: the last turn whose window holds it, or outside |
| Summary.RealTurnsSorted | plugins/thread-usage/src/core/summary.ts:402-405 | the turns stand by start, and those that start together keep their order |
| Summary.PlaceAll | plugins/thread-usage/src/core/summary.ts:411-418 | the map filled in the loop has under each key exactly the entries placed there |
| Summary.PlaceHistory | plugins/thread-usage/src/core/summary.ts:452-464 | likewise for history entries and the covered turns |
| EntryLaws.PlacedArePicked | plugins/thread-usage/src/core/summary.ts:411-418 | in fields, in log order: an entry is placed in the last turn whose time it falls in, from its start to half a minute past its end or past now, or outside when in none |
| EntryLaws.CoveringArePicked | plugins/thread-usage/src/core/summary.ts:452-464 | history stands in for exactly the last turn it falls in of those completed before first sight |
| EntryLaws.AloneArePicked | plugins/thread-usage/src/core/summary.ts:529-541 | history stands alone exactly when it falls in no turn |
| EntryLaws.RealTurnsInOrder | plugins/thread-usage/src/core/summary.ts:402-405 | views are made for each real turn of the ledger once, by start, those that start together as they stood |
| ThreadUsage.OneHourShareFits | plugins/thread-usage/src/core/summary.ts:476-486 | a turn's share of logged 1-hour writes is within its own writes |
| ThreadUsage.PriceOwn | plugins/thread-usage/src/core/summary.ts:487-498 | a turn's own tokens are priced as its log entries, its requests or its sum, and the estimate is of those very tokens |
| ThreadUsage.CountTurn | plugins/thread-usage/src/core/summary.ts:466-518 | a turn counts its ledger tokens or what replaces them, and its subagents, and the table grows by exactly its view |
| ThreadUsage.ThreadUsage | plugins/thread-usage/src/core/summary.ts:396-646 | the By-model lines sum to the figure's tokens, dollars and unpriced tokens, and both to the views'; each line is exactly what the views count of its own model; every line listed has tokens or dollars; each view counts and costs what its turn and entries say |
| ViewLaws.TurnCounts | plugins/thread-usage/src/core/summary.ts:466-518 | in fields: a turn's view counts, kind by kind, its ledger tokens or the picked entries that stand in for them, and its picked subagent entries; unpriced is exactly what has no price under its name |
| ViewLaws.SubagentsCost | plugins/thread-usage/src/core/summary.ts:423-449 | its dollars are its own and those of each subagent request at its own prompt |
| ViewLaws.InsteadCosts | plugins/thread-usage/src/core/summary.ts:375-384 | entries that stand in for a turn cost each what it does as a request |
| ViewLaws.RequestsCost | plugins/thread-usage/src/core/summary.ts:336-356 | a turn whose requests are known costs them one by one, less the part of their writes in the 1-hour line, and that line |
| ViewLaws.TogetherCost | plugins/thread-usage/src/core/summary.ts:476-498 | any other turn costs its tokens together at base rates, the 1-hour part being the ledger's or the logged share to the nearest token |
| ViewLaws.CoveredCostsNothing | plugins/thread-usage/src/core/summary.ts:466-498 | a turn that history covers without an entry costs nothing |
| ViewLaws.TotalsAre | plugins/thread-usage/src/core/summary.ts:618-630 | a figure's tokens by kind, dollars and unpriced tokens are the sums over its views |
| ViewLaws.OtherTotalsAre | plugins/thread-usage/src/core/summary.ts:618-636 | so are its lines, requests, turns, time and unsized turns |
| ViewLaws.FigureNotes | plugins/thread-usage/src/core/summary.ts:618-639 | a figure is partial as a view is, approximate exactly when a view is or a rate was assumed in one, and names exactly the models views lacked a price for |
| ViewLaws.FigureSums | plugins/thread-usage/src/core/summary.ts:618-645 | in all else its totals are those sums, billed at their dollars |
| ViewLaws.EntryAssumesWhen | plugins/thread-usage/src/core/pricing.ts:189-211 | in fields: when a rate is assumed for a logged request |
| ViewLaws.TogetherNotes | plugins/thread-usage/src/core/summary.ts:309-334 | in fields: when tokens of no one request are unsized, on an assumed rate, approximate or without a price |
| ViewLaws.OneModelIff | plugins/thread-usage/src/core/summary.ts:375-384 | entries are priced together exactly when all go by one model's name |
| ViewLaws.UnpricedNameWhen | plugins/thread-usage/src/core/summary.ts:309-334 | in fields: a model is named as unpriced exactly for counted tokens it has no price for |
| ViewLaws.SubagentsNoted | plugins/thread-usage/src/core/summary.ts:423-449 | a view notes each rate assumed for its subagents and each model they lack a price for |
| ViewLaws.BilledInOne | plugins/thread-usage/src/core/summary.ts:640-645 | all of it is billed in the thread's one mode and nothing in the others |
| ViewLaws.OpeningIsFirst | plugins/thread-usage/src/core/summary.ts:406-406 | the opening balance shown is the first record of that kind |
| UsageLaws.EachSubagentEntryOnce | plugins/thread-usage/src/core/summary.ts:411-616 | every subagent entry is in exactly one view, exactly unless a turn is named `outside` while an entry is outside |
| UsageLaws.OutsideTurnCountsTwice | plugins/thread-usage/src/core/summary.ts:411-595 | with such a turn an entry is counted twice |
| UsageLaws.EachHistoryEntryAtMostOnce | plugins/thread-usage/src/core/summary.ts:452-541 | a history entry is in one view when a turn covers it or it stands alone, and in none otherwise |
| UsageLaws.LedgerOrLogs | plugins/thread-usage/src/core/summary.ts:468-505 | a turn's ledger tokens are never counted with the log entries that replace them |
| UsageLaws.FigureUnpricedIff | plugins/thread-usage/src/core/summary.ts:618-645 | a thread's unpriced tokens are within its tokens and all of them exactly when none was priced |
| UsageTree.IndexEdges | plugins/thread-usage/src/core/tree.ts:31-53 | the last row of an id counts, and children and forks are listed under exactly their parents and sources |
| UsageTree.Build | plugins/thread-usage/src/core/tree.ts:62-71 | a subtree holds no thread twice and none seen before, so parent cycles are cut |
| UsageTree.TreeOf | plugins/thread-usage/src/core/tree.ts:62-71 | the tree holds exactly the threads at or below its root, each once, forks and theirs left out |
| UsageTree.TreeIds | plugins/thread-usage/src/core/tree.ts:74-82 | its ids, each once |
| UsageTree.AncestorIds | plugins/thread-usage/src/core/tree.ts:85-96 | the walk up by the parents the tree follows; a fork's ends at the fork |
| UsageTree.AncestorsAreItsRoots | plugins/thread-usage/src/core/tree.ts:62-96 | a thread and its ancestors are exactly the roots whose tree holds it |
| UsageTree.ForksStandAlone | plugins/thread-usage/src/core/tree.ts:27-53 | a fork is in no tree but its own |
| FigureLaws.TreeEdgeIff | plugins/thread-usage/src/core/tree.ts:27-53 | in fields: a thread is its parent's child in the tree exactly when it is no fork |
| TreeFigures.NodeIsFlat | plugins/thread-usage/src/server/model.ts:150-157 | a node's sum over its own and its children's sums is the flat sum over its subtree: totals always, every line exactly when no thread below the node has a key that moves |
| TreeFigures.MovedLine | plugins/thread-usage/src/server/model.ts:150-157 | a key that moves below the node leaves some line of its figure without the tokens its threads counted on it |
| TreeFigures.TreeFigure | plugins/thread-usage/src/server/model.ts:144-158 | a tree's figure is the flat sum over its threads, each counted once: totals always, every line exactly when no thread below the root has a key that moves |
| TreeFigures.AncestorTotals | plugins/thread-usage/src/server/model.ts:459-467 | budgets are checked for exactly the roots whose tree holds the thread, each by its tree's billed dollars |
| FigureLaws.BudgetLeavesOutSubscriptions | plugins/thread-usage/src/server/model.ts:459-467 | a budget counts exactly what is billed outside a subscription |

## Left out

- Order of threads in a walk: breadth-first order within a level, and a plan's list order, are not stated; membership, uniqueness and parents first are.
- createSerialQueue: each method that stands for a change runs alone; the promise chain that makes it so in Thread Glance is not modelled (the engine's chains are).
- Words: titles, messages, notes, tooltips, report text and exports; `reclaim` after an action; the order of pins and the manual order store.
- LifecycleStore.LifecycleStore.PutMany: the table is a map; SQL, loading rows at startup and a failing transaction are not part of it.
- AutoSettle.PlanAutoSettle: settings, pull requests and their reads before a pass are inputs; it asks that the walk of each thread the plan may withdraw ends, as the source does not end where one does not.
- AutoSettle.Withdraw: the sweeps take the threads in any order, so the source's order is one of those covered.
- LifecycleActions.LifecycleActions.Snooze: a missing time is refused before this point and is not modelled.
- WaitingSettles.WaitingSettles.CheckNow: idle time is kept per root, as in the source, so the grace is stated per root: a settle cancelled and chosen again between checks keeps the idle time of the one before.
- WaitingSettles.WaitingSettles.LookOnce: the timer, the polling loop and `poke` are left out; any sequence of checks is covered.
- ThreadEvents.ReconcileState: the listing and the single reads before it are inputs, with the threads asked one by one not among those listed.
- RecordLog.RecordLog.Since: waiting for the first archived listing is left out; the archive is whatever it is by then.
- RecordSync.WindowsAgree: one epoch and one connection; signals that reach a window before its first answer are kept by it and taken after that answer, so the model delivers them then; reconnecting after lost signals is left out.
- LogLines.FullParseKeeps: JSON parsing and the needle test are one function from a line to an entry, the same for every read.
- LogCache.LogCache.ReadNow: entries are values, so sharing of arrays between reads is left out, as are pruning of files on disk, the location cache, statistics and the lock per file; reads that return fewer bytes than a file holds go on until its end.
- Ledger.IngestEvents: routing facts, models, prompts and diff lines are reduced to what the laws need; wall time of collapsed records is left out; counts are whole and not negative once converted.
- CatchUpLane.NoNotificationIsLost: a failed read, a dispose or a restart forgives what only it was to cover, as the source does; harness log reads queued by a catch-up and the filter of a fork's inherited events are left out.
- Engine.Engine.RunEventsJob: the backfill's retries, attempts and pacing are left out; a job may run at any time.
- Pricing.PriceRequests: exact arithmetic stands for floating point, and models are looked up by one name; candidate names and price fetching are left out.
- ThreadUsage.ThreadUsage: the gateway and harness cost buckets, always zero, are one number; a view's rows per subagent are its entries, not yet grouped by agent; and the model shown of a view without a turn is left out.
- Figures.SumFigures: the sort of lines by cost is left out, as a list's order changes no sum.
- TreeFigures.TreeFigure: the depth of nodes and the figure kept for each node are left out.
- User interface, ports, project icons, settings validation, and the other two plugins.
