# Verification of the catalogue loads and the message pipeline

A Dafny model of three parts of the system, with proofs about it. `dafny verify dfyconfig.toml`
checks the whole project.

**The catalogue-correction engine** (`scripts/catalog-loads`). A small language of product edits (title,
renamed values, an added value, moved variants, a deleted value, reordered values, restored positions) with an
interpreter, guards, skip tests, a comparison, planners, and a rollback planner that starts from whatever live
state a stopped execution left behind. `Catalogue` has the data and the meaning of an edit; `Edits`,
`KeepsForm`, `Compare`, `Congruence` and `ReflowOrder` say what edits and the comparison do; `EditMeaning`
that an edit changes only what it names; `Executor` describes every answer the store may give and
`AcceptedAnswers` which ones the script takes; `Simulation`, `Apply` and `RollbackPlanner` are the imperative
scripts, proved against those functions and against plain statements on the fields; the `Rollback*` modules
prove which products the rollback refuses (`RollbackOwners`) and that it inverts every prefix, of the load and
of a rollback (`RollbackAgain`); `WholeLoad` joins execution and rollback over a log of many products; the
`Planner*` modules are about the two value planners: which products they stop at and what they plan for the
others (`PlannerAnomalies`, `PlannerRenames`), when planning again plans nothing (`PlannerFixpoint`,
`PlannerPositions`), that planned jobs roll back (`PlannerJobs`), when a guard refuses one of their edits
(`PlannerGuards`), on which answer of the store (`PlannerAnswers`) and of which jobs at all
(`PlannerRefusals`), and the products that show it (`PlannerWitnesses`). `Skus`, `SkuPlans` and `SkuRuns` are
the all-or-nothing SKU load.

**The message pipeline.** The bridge's durable queue (`Outbox`), the server's inbox and conversation
record (`Inbox`, `InboxRuns`), both joined through the webhook (`Pipeline`), the agent door's
rendezvous (`AgentReplies`, `AgentDoor`, `DoorSteps`), its keys (`AgentKeys`) and the queue that runs one
conversation's turns one after the other (`PerConversationQueue`). Each is a state with named steps,
crash and restart among them, and the main results are about every state of every run.

**Three guards.** The rate limiter (`RateLimit`, `RateLimitClocks`), the leads and handoffs of the admin console
(`Handoff`) and the purge of customer conversations (`Purge`).

## How it is modelled

- Ids, names, SKUs, conversation keys, texts, admins and phones are opaque tokens; only the agent
  door's own keys are strings. A variant's title is the list of its values, which the store joins with " / ".
- `norm`, the shape of a SKU, "has content", "is blank", "is a key of the agent door", the phone
  normalisation and the dedupe key of a payload are arbitrary functions: results hold for all of them.
  Distinct payloads have distinct dedupe keys in `Pipeline`.
- A well-formed product has options with distinct ids and names, values distinct up to `norm`, ids
  exactly for its values, variants with distinct combinations of existing values, and positions 1 to n.
  Results that need one say `WellFormed`; `AllKnown` says that no id is still to be minted.
- Where the two halves of the SKU load meet (`SkuRuns.BuiltPlanIsAccepted`), a target's format allows
  neither spaces nor dashes, and both reads list a variant under one product.
- The iteration order of a dictionary is a list of its keys, given as an argument and arbitrary.
- The store is whatever answers a well-formed product that the comparison accepts; it may re-flow or
  not, mint any fresh id, and place free values and positions anywhere.
- Time is an integer. Where a result needs a clock that does not step back it says so, and a concrete
  run shows what happens otherwise.
- Each database statement or transaction is one step. Steps of the agent door that have an `await`
  between them are separate steps.

## What the proofs found

- With the new diameter already in place no order is planned with the moves, and the re-flow after
  them can displace it: a moved variant that stands before the one left at the old diameter is enough
  (`PlannerWitnesses.DisplacedIsPlannedAgain`). A second planning then asks for an order; the planner is
  a fixpoint exactly otherwise (`PlannerPositions.ReplanExactly`).
- The diameter planner lists the diameter option first in its order edit, while the guard wants the
  options as they stand. Products that list the height first pass only because the edit is skipped when
  it is satisfied already. Whether it is depends on the store's answer to the moves. Without a re-flow the
  order is refused exactly when the new value does not stand right after the old one before the moves
  (`PlannerAnswers.UnreflowedRefusedExactly`): always when the plan found both and orders them, while an
  added value stands wherever the store put it. With a re-flow, positions decide for the values variants
  hold and the store places the rest (`PlannerAnswers.ReflowedRefusedExactly`). So every planned order of
  such a product has a run that ends there (`PlannerRefusals.CanBeRefusedExactly`), and a concrete family
  completes on one answer and is refused on the other (`PlannerWitnesses.AnswersPart`). It can be rolled
  back from there (`PlannerJobs.PlannedRunRollsBack`).
- The agent door's refusal of blank text is what keeps answers apart: a blank batch is settled without
  a turn and leaves its caller parked for the next answer (`AgentDoor.BlankWouldLeak`).
- The batcher settles an over-cap batch, awaits the removal of its audio, and only then tells whoever is
  parked. The batch's own caller is never among them: a fourth claim follows a crash, and a crash empties
  the spots. So what is told there is false whenever anybody hears it: a call made in that gap is told of
  the old failure while its own row waits (`AgentDoor.GivenUpTellsANewcomer`), and no other caller is ever
  told so wrongly (`AgentDoor.TurnFailedExactly`). An agent's rows have no audio and a fourth claim is a
  replay at boot, so the gap is a few settled promises before the server listens
  (`server/src/index.ts:862-864`); the model lets a call run there because nothing in the batcher itself rules it out.
- The turn key of a retried batch stays its first row's key exactly while no message of the conversation
  is stamped before it (`InboxRuns.LeaderExactly`). The daily cap holds exactly for clocks that do not come
  back to a day, and the hourly cap exactly for clocks that do not forget two instants and come back
  within the hour (`RateLimitClocks`).
- The webhook's discard is not the only way a queued row is dropped: an error while the bridge builds
  the request (`bridge/delivery.go:49-52`) discards the row as well; `Pipeline` lets it happen to any row.
- A customer with only tool calls or handoffs left is out of the purge's reach
  (`Purge.TraceAloneIsKept`).

## Model

| member | source | states |
|---|---|---|
| RollbackInverts.RollbackInvertsEveryPrefix | scripts/catalog-loads/ajustes_pt2_catalogo_apply.py:583-678 | Wherever a forward job stopped, at a refused guard included, whatever the store answered on the way and whatever prices changed since, the rollback planner reports no problem and its edits, each passing its guard at its turn, end exactly at the start state with the live prices |
| RollbackInverts.PrefixIsRecoverable | scripts/catalog-loads/ajustes_pt2_catalogo_apply.py:493-515 | Every state a job can leave behind after any prefix of its edits is one the rollback recognises as its own doing |
| RollbackInverts.CompletedRollbackRestores | scripts/catalog-loads/ajustes_pt2_catalogo_apply.py:457-541 | The rollback is itself executed against the store: whichever answers the store gives, a completed one ends exactly at the start state with the live prices |
| RollbackAgain.RollbackOfRollbacks | scripts/catalog-loads/ajustes_pt2_catalogo_apply.py:583-678 | However often the rollback of a stopped job is itself stopped, at any edit, after any answers, with prices changed in between, planning it again from the same log reports no problem and leads exactly to the start state |
| RollbackAgain.StoppedRollbackIsRecoverable | scripts/catalog-loads/ajustes_pt2_catalogo_apply.py:493-515 | Every state a rollback can leave behind after any prefix of its edits is again one the planner recognises |
| WholeLoad.PlanLog | scripts/catalog-loads/ajustes_pt2_catalogo_apply.py:583-678 | The loop over the log: each product is a problem, skipped, or planned with its edits and target, in the order of the log; which one it is `RevertsExactly` tells on the fields |
| WholeLoad.RevertsExactly | scripts/catalog-loads/ajustes_pt2_catalogo_apply.py:583-678 | A product of the log is planned back exactly when it lines up with the start, nothing on it is anybody else's, and the edits reach the start |
| WholeLoad.ExecutedRan | scripts/catalog-loads/ajustes_pt2_catalogo_apply.py:457-522 | However an execution ends, its log is one the rollback is proved for: each product's record is an execution of a prefix of its edits |
| WholeLoad.LoadIsPlannedBack | scripts/catalog-loads/ajustes_pt2_catalogo_apply.py:583-678 | For the log of a load that ran to any point, every product standing where its record leaves off or where its last, unsettled write came to in the end, no product is a problem, and a job is planned for exactly those not at their start, none of which the load never reached |
| WholeLoad.LoadRollsBack | scripts/catalog-loads/ajustes_pt2_catalogo_apply.py:457-678 | Executed to the end, that rollback leaves every product of the load, completed, cut short or never reached, at its start with its live prices |
| RollbackRestores.RecoverableRollsBack | scripts/catalog-loads/ajustes_pt2_catalogo_apply.py:650-672 | From any recoverable live state the planned edits pass one after the other and reach the start state |
| RollbackRestores.RollbackIsPlanned | scripts/catalog-loads/ajustes_pt2_catalogo_apply.py:589-672 | For a recoverable live state every field is at its start or promised value and the simulated end matches the target, so nothing is reported |
| RollbackRestores.SkippedExactlyAtStart | scripts/catalog-loads/ajustes_pt2_catalogo_apply.py:673-677 | A product is skipped (the plan would write nothing) if and only if, prices aside, it is already the start state |
| RollbackPlanner.PlanRollback | scripts/catalog-loads/ajustes_pt2_catalogo_apply.py:583-678 | The imperative planner for one product refuses exactly when the options or variants changed, a name, value, place, title or handle is neither the start's nor the run's, or the edits do not reach the start; otherwise it skips or plans the staged edits and their target |
| RollbackPlanner.Gather | scripts/catalog-loads/ajustes_pt2_catalogo_apply.py:592-656 | The pass over the options with its appends and the final sort yields the staged rollback, and no finding exactly when every value name, value, variant place, title and handle is where the run started or where it promised to put it |
| RollbackOwners.RefusedExactly | scripts/catalog-loads/ajustes_pt2_catalogo_apply.py:583-678 | Told on the fields: a product is not refused if and only if its options and variants line up with the start, every start value carries its start or promised name, every other value is one the run promised, every variant holds its start value or its promised one, and the planned edits reach the start |
| RollbackPlanner.SortedIsStaged | scripts/catalog-loads/ajustes_pt2_catalogo_apply.py:652-656 | The stable sort by kind of what the pass appended is title, renames, moves, deletes, order, positions |
| RollbackPlanner.ConditionalNoop | scripts/catalog-loads/ajustes_pt2_catalogo_apply.py:681-689 | The fold over the earlier edits decides whether the edit would find itself satisfied at its turn |
| RollbackPlanner.ExpectedAfter | scripts/catalog-loads/ajustes_pt2_catalogo_dry_run.py:711-715 | The loop of simulations is the state the edits promise, and stops exactly when one of them cannot be simulated |
| Executor.SkippingIsSimulating | scripts/catalog-loads/ajustes_pt2_catalogo_apply.py:310-315 | An edit that is already satisfied simulates to the product it is skipped on |
| Executor.EveryPrefixIsAlike | scripts/catalog-loads/ajustes_pt2_catalogo_apply.py:493-515 | After any prefix of a job, on either accepted branch, with any fresh id and any order and positions the flags leave open, the product is well formed and equal to the promise up to exactly those freedoms |
| Executor.CompletedRunsAgree | scripts/catalog-loads/ajustes_pt2_catalogo_apply.py:448-455 | A completed job that ends with the two ordering edits, listing every option in whatever order, is at `expected_after` up to minted ids |
| Executor.RunsAreConfluent | scripts/catalog-loads/ajustes_pt2_catalogo_apply.py:493-515 | Two completed executions of a job, one re-flowed and one not, end in the same product when the store minted the same ids |
| Congruence.SimulateAlike | scripts/catalog-loads/ajustes_pt2_catalogo_dry_run.py:294-346 | Simulating an edit respects the equivalence the executor's freedoms leave: alike products stay alike |
| KeepsForm.EditKeepsForm | scripts/catalog-loads/ajustes_pt2_catalogo_apply.py:318-369 | Every edit whose guard passes can be simulated and leaves a well-formed product, on the re-flowed state and on the accepted alternative |
| EditMeaning.OnlyWhatItNames | scripts/catalog-loads/ajustes_pt2_catalogo_apply.py:318-369 | Whatever edit passes its guard changes only what it names: each value, variant and id it names is found as the edit expects it and ends as the edit says, and everything else, other options and other variants included, stays as it was |
| Edits.RenamesActTogether | scripts/catalog-loads/ajustes_pt2_catalogo_dry_run.py:302-311 | Under the guards the one-by-one rename loop is one simultaneous substitution of values, names of ids and choices |
| Simulation.SimulateEdit | scripts/catalog-loads/ajustes_pt2_catalogo_dry_run.py:294-346 | The imperative interpreter, loops and all, computes the specified state and flags, and fails exactly where the script stops with an error |
| Simulation.ReflowValues | scripts/catalog-loads/ajustes_pt2_catalogo_dry_run.py:349-365 | The nested loops compute the specified re-flow and report the unused values |
| Simulation.RenameLoop | scripts/catalog-loads/ajustes_pt2_catalogo_dry_run.py:302-311 | The rename loop computes the specified state, and stops at a source that is not there |
| Simulation.InPositionOrder | scripts/catalog-loads/ajustes_pt2_catalogo_dry_run.py:286-288 | The variants sorted by position, ties left as the dictionary lists them; with positions 1 to n that is one order, however it lists them |
| ReflowOrder.ReflowOrders | scripts/catalog-loads/ajustes_pt2_catalogo_dry_run.py:349-365 | Two values of an option stand in re-flowed order exactly as: used before unused, used ones by the first position of a variant using them, unused ones in their old relative order |
| ReflowOrder.UnusedExactly | scripts/catalog-loads/ajustes_pt2_catalogo_dry_run.py:349-365 | The values reported free are exactly those no variant uses |
| ReflowOrder.ReflowTwice | scripts/catalog-loads/ajustes_pt2_catalogo_dry_run.py:349-365 | Re-flowing is idempotent |
| KeepsForm.ReflowPermutes | scripts/catalog-loads/ajustes_pt2_catalogo_dry_run.py:349-365 | Re-flowed values are a permutation of the option's values |
| Compare.FindDifferences | scripts/catalog-loads/ajustes_pt2_catalogo_dry_run.py:368-409 | The comparison with its early exit reports nothing exactly when the products match |
| Compare.MatchesExactly | scripts/catalog-loads/ajustes_pt2_catalogo_dry_run.py:368-409 | On well-formed products, with free values taken from the expected state, a match is exactly equality up to the place of the free values, the ids marked unknown and, when free, the positions |
| Compare.StrictMatchIsEquality | scripts/catalog-loads/ajustes_pt2_catalogo_dry_run.py:368-409 | With no flags and every id known only the expected state itself is accepted |
| Apply.Precondition | scripts/catalog-loads/ajustes_pt2_catalogo_apply.py:318-369 | The guard finds no problem exactly when the edit passes |
| Apply.IsSatisfied | scripts/catalog-loads/ajustes_pt2_catalogo_apply.py:310-315 | The skip test is the specified comparison with the simulated state |
| Executor.SatisfiedExactly | scripts/catalog-loads/ajustes_pt2_catalogo_apply.py:310-315 | A conditional edit is skipped if and only if making it would change nothing |
| Apply.SettledRead | scripts/catalog-loads/ajustes_pt2_catalogo_apply.py:430-445 | Of five re-reads the first acceptable one is returned, otherwise the last with its differences |
| AcceptedAnswers.AnswerExactly | scripts/catalog-loads/ajustes_pt2_catalogo_apply.py:430-445 | The script takes exactly the answers that are as promised: values, ids, variants and their places told field by field, free only where the store decides, which is the place of an added value, the places of unused values or the whole re-flow after a move, and positions after a reorder or before a restore |
| Apply.Run.RunEdit | scripts/catalog-loads/ajustes_pt2_catalogo_apply.py:493-515 | The edit goes on if and only if it is skipped because it changes nothing, or its guard passes and one of the five re-reads is acceptable, the first of them being the next state; otherwise the log ends with the last re-read and its differences, or with nothing when the guard refused |
| Apply.Run.RunJob | scripts/catalog-loads/ajustes_pt2_catalogo_apply.py:477-515 | A job comes to its end if and only if the product had not drifted and every edit in turn was skipped or settled, each next state being the first acceptable re-read; otherwise its log ends exactly at the first edit that was not |
| Apply.Run.Execute | scripts/catalog-loads/ajustes_pt2_catalogo_apply.py:457-541 | Job after job up to the first that does not come to its end, each told as for one job, so a run stops only for a drift, a refused guard or an unsettled write; writing is disarmed in the end, and a run to the end names exactly the products none of whose final re-reads is as promised |
| PlannerAnomalies.AnomalyExactly | scripts/catalog-loads/ajustes_pt2_catalogo_dry_run.py:585-681 | The diameter planner stops at exactly the products that are not as expected, told on the fields: its two options are there, no two variants share diameter and height, every variant has a SKU read, those of a moved height carry that height's reference before and after their move and no other variant does, those of a kept height carry theirs, either every moved height is still to move and none has moved or none is left to move, and an order that is asked for finds the old value |
| PlannerAnomalies.PlannedExactly | scripts/catalog-loads/ajustes_pt2_catalogo_dry_run.py:585-681 | For the others exactly this is planned: the new value if it is missing and wanted, one move for each variant still at the old value, and, when asked for and not in place, the orders that put the new value right after the old one |
| Apply.AllEndedCompleted | scripts/catalog-loads/ajustes_pt2_catalogo_apply.py:457-522 | A run that was not stopped has completed every job, each step one the store may take |
| Apply.CompletedIsVerified | scripts/catalog-loads/ajustes_pt2_catalogo_apply.py:525-541 | The final comparison passes for every completed job that ends with the two ordering edits, on whichever branch the store took, unless somebody edited the product since |
| AcceptedAnswers.VerifiedExactly | scripts/catalog-loads/ajustes_pt2_catalogo_apply.py:525-541 | A product passes the final comparison exactly when one of the last five re-reads is the promised product up to minted ids and, without a value reorder, the place of the first added value |
| PlannerPositions.ReplanExactly | scripts/catalog-loads/ajustes_pt2_catalogo_dry_run.py:585-681 | Planned again on the state its own edits promise, a product raises no anomaly, and nothing more is planned unless the new value was in place before the moves and the variants' positions displace it: exactly then the first variant left at the old value does not come before every one at the new, or a third value's first variant comes between |
| PlannerPositions.ReplanIsNothing | scripts/catalog-loads/ajustes_pt2_catalogo_dry_run.py:585-681 | With reordering on and the new value absent at first, planning again plans nothing |
| PlannerWitnesses.DisplacedIsPlannedAgain | scripts/catalog-loads/ajustes_pt2_catalogo_dry_run.py:585-681 | A concrete product on which a second planning asks for an order: the moved variant stands before the one that stays |
| PlannerGuards.RefusedExactly | scripts/catalog-loads/ajustes_pt2_catalogo_apply.py:493-503 | Whatever the store answered so far, the next edit of a planned job is refused exactly when it adds a value that some value equals up to case and accents, or orders the values of a product that lists the height first and does not have them so already |
| PlannerGuards.MovedIsOrdered | scripts/catalog-loads/ajustes_pt2_catalogo_dry_run.py:349-365 | On the re-flowed state after the moves the planned order is skipped as satisfied exactly when the variants' positions bring both options into the order it asks for |
| PlannerGuards.BeforeMoves | scripts/catalog-loads/ajustes_pt2_catalogo_apply.py:493-515 | In every run the store stands before the moves where the plan was made, but for the title and the added value, wherever that landed |
| PlannerAnswers.UnreflowedRefusedExactly | scripts/catalog-loads/ajustes_pt2_catalogo_apply.py:493-503 | On any accepted answer without a re-flow, added value or not, the order is refused exactly when the height comes first and the new value does not stand right after the old one before the moves, where the plan found it or where the store put it |
| PlannerAnswers.ReflowedRefusedExactly | scripts/catalog-loads/ajustes_pt2_catalogo_apply.py:493-503 | On any accepted re-flowed answer, wherever the store put the values nobody holds, the order is refused exactly when the height comes first and either the held values do not land in order by their positions or the store put the others elsewhere |
| PlannerAnswers.HeldRefusedExactly | scripts/catalog-loads/ajustes_pt2_catalogo_apply.py:493-503 | When every value is held by some variant, on every re-flowed answer exactly when the height comes first and the positions do not land in order |
| PlannerRefusals.CanBeRefusedExactly | scripts/catalog-loads/ajustes_pt2_catalogo_apply.py:493-503 | Told from the product before its job: some run of the store ends at a refused guard if and only if the value is added though another one equals it up to case and accents, or an order is planned for a product that lists the height first |
| PlannerWitnesses.AnswersPart | scripts/catalog-loads/ajustes_pt2_catalogo_apply.py:430-445 | A concrete height-first product whose planned job completes on the re-flowed answer and is refused on the other accepted one |
| PlannerJobs.PlannedIsPromised | scripts/catalog-loads/ajustes_pt2_catalogo_dry_run.py:711-715 | The planned edits can be simulated one after the other, and no order among them drops a value |
| PlannerJobs.PlannedRunRollsBack | scripts/catalog-loads/ajustes_pt2_catalogo_apply.py:583-678 | Whatever a run of any planned job leaves behind, refused or stopped wherever it was, the rollback planned from there restores the product |
| PlannerRenames.RenamesExactly | scripts/catalog-loads/ajustes_pt2_catalogo_dry_run.py:541-582 | The table is turned down exactly for products without the option or where a renamed value is gone without its new name, or its new name reads like another value |
| PlannerRenames.PlannedRenamesAre | scripts/catalog-loads/ajustes_pt2_catalogo_dry_run.py:541-582 | Otherwise one edit renames each old name still there, by its id, and nothing is planned when none is |
| PlannerRenames.RenamesPlanOnce | scripts/catalog-loads/ajustes_pt2_catalogo_dry_run.py:541-582 | The planned renames pass their guard, and planned again on the renamed state the table asks for nothing |
| PlannerRenames.CleanStaysDistinct | scripts/catalog-loads/ajustes_pt2_catalogo_dry_run.py:541-582 | The check on the whole renamed set never finds what the check name by name let through |
| Skus.ValidatePlan | scripts/catalog-loads/ajustes_pt2_skus_apply.py:175-204 | No problem is found exactly for clean plans of SKU rewrites only whose rewrites agree with the snapshot, each with a plain target no variant of the snapshot carries, name each variant once and have distinct targets |
| Skus.Collisions | scripts/catalog-loads/ajustes_pt2_skus_apply.py:207-216 | A collision is found exactly when a target sits on a variant other than its own, whether the plan writes that variant or not |
| Skus.WrittenExactly | scripts/catalog-loads/ajustes_pt2_skus_apply.py:262-280 | After the writes of some products exactly their variants changed, each to its target |
| Skus.UniqueAfterEveryPrefix | scripts/catalog-loads/ajustes_pt2_skus_apply.py:175-280 | Plan and collision checks passed, SKUs stay unique store-wide after any prefix of the per-product writes |
| Skus.UniqueAfterAnyPartExactly | scripts/catalog-loads/ajustes_pt2_skus_apply.py:175-280 | Uniqueness survives whichever products are written if and only if it held, targets are distinct, and a target only meets a SKU its own product gives up |
| Skus.JudgedExactly | scripts/catalog-loads/ajustes_pt2_skus_apply.py:305-332 | Each product of the log is judged revert or already exactly as it was written or not |
| Skus.RollbackInvertsEveryPrefix | scripts/catalog-loads/ajustes_pt2_skus_apply.py:305-339 | After any prefix of the product writes the rollback finds no problem, reverts the written products, skips the others, and restores every SKU |
| Skus.RollbackDoesNotCollide | scripts/catalog-loads/ajustes_pt2_skus_apply.py:207-216 | The restored SKUs pass the collision check |
| SkuPlans.BuildPlan | scripts/catalog-loads/ajustes_pt2_skus_dry_run.py:367-532 | A row is resolved to the one scanned variant that carries its SKU, or its target when nobody carries the SKU, of the row's product and variant title, unless an earlier row reached it; the blocked products are exactly those some check names, their part is dropped even when the block comes late, and the others get exactly their rewrites and no-ops; without anomalies every variant of each touched product is planned once, with distinct targets no other variant carries |
| SkuPlans.ResolveRows | scripts/catalog-loads/ajustes_pt2_skus_dry_run.py:388-448 | Each row is skipped by decision, resolved exactly when a single variant of its titles carries its SKU or target and no earlier row reached it, or named with the product it reaches |
| SkuPlans.ResolveRow | scripts/catalog-loads/ajustes_pt2_skus_dry_run.py:401-433 | The variant a row reaches, and whether both titles agree |
| SkuPlans.CheckTargets | scripts/catalog-loads/ajustes_pt2_skus_dry_run.py:450-490 | A product is named exactly when one of its targets is planned twice, is on another variant, does not fit its row, or differs in code from another of the product |
| SkuPlans.CleanBlocksNothing | scripts/catalog-loads/ajustes_pt2_skus_dry_run.py:504-532 | A plan has no anomaly exactly when no check names any product |
| SkuPlans.CheckCoverage | scripts/catalog-loads/ajustes_pt2_skus_dry_run.py:496-502 | The variants of the touched products without a row, and the products that have one, are named exactly |
| SkuRuns.Run.Execute | scripts/catalog-loads/ajustes_pt2_skus_apply.py:219-301 | Each product is read again and compared before it is written; exactly the products before the first that drifted, was refused, or came back lost or otherwise are written, and that one too if the store took the write; writing is disarmed in the end, and a run to the end names exactly the products that do not read as promised |
| SkuRuns.PlanRollback | scripts/catalog-loads/ajustes_pt2_skus_apply.py:305-339 | Each product is judged by its variants that are still there, told by their SKUs: reverted when all carry what the run wrote, skipped when all carry what was there before; a problem is reported exactly when one is gone, carries neither SKU, or its product is in a mixed state |
| SkuRuns.StoppedRunRollsBack | scripts/catalog-loads/ajustes_pt2_skus_apply.py:305-339 | Wherever a load stopped, its rollback finds no problem, collides with nothing, and executed to the end restores the store |
| SkuRuns.BuiltPlanIsAccepted | scripts/catalog-loads/ajustes_pt2_skus_apply.py:175-216 | A plan built without an anomaly passes `validate_plan` against the products it was built on, and on the store as scanned no target is taken |
| SkuRuns.BuiltPlanIsSafe | scripts/catalog-loads/ajustes_pt2_skus_apply.py:219-339 | From the sheet to the rollback: such a plan keeps the store's SKUs unique wherever its execution stops, and its rollback brings every SKU back |
| Outbox.BackoffExactly | bridge/outbox.go:113-119 | With 64-bit wrap-around the wait is exactly min(2^attempts, 60) seconds |
| Outbox.Outbox.Run | bridge/outbox.go:123-186 | Over any schedule, lost writes included, every queued row's attempts are its recorded failures, a wait after a failure is the backoff of one more than those before it, and the payloads that left followed by those still queued are those that came, in that order |
| Outbox.KthWaitExactly | bridge/outbox.go:113-186 | When every write is recorded the k-th wait of a row is exactly min(2^k, 60) seconds, whatever came and went between |
| Outbox.Outbox.Dispatch | bridge/outbox.go:136-183 | One pass delivers the head: it is removed when confirmed or refused for good, counted once more when it failed, and left as it was when the write was lost; the rest of the queue stays |
| Inbox.InboxTable.Insert | server/src/data/repo.ts:374-441 | INSERT OR IGNORE on the dedupe key: a known key changes nothing |
| Inbox.InboxTable.InsertAgent | server/src/data/repo.ts:464-478 | The busy look and the insert in one step: busy, known or a new row |
| Inbox.InboxTable.Claim | server/src/data/repo.ts:547-562 | Every un-settled row of the conversation, in arrival order, with one attempt more |
| Inbox.InboxTable.Sweep | server/src/data/repo.ts:618-630 | Only settled rows past their days go |
| Inbox.InboxTable.SetTranscript | server/src/data/repo.ts:479-494 | The text of the one row changes, if it is still there, and nothing else |
| Inbox.InboxTable.RecordInbound | server/src/data/repo.ts:736-775 | One record per row not yet recorded |
| InboxRuns.StepExactly | server/src/data/repo.ts:374-775 | What each statement does to the table, told on the fields: which rows a sweep takes, what a claim, a settling, a retry or a transcript makes of those that stay, which row a message brings and when it brings none, and which records are written |
| InboxRuns.KeptUntilSettled | server/src/data/repo.ts:547-630 | Over every run an accepted row stays un-settled with its content until a step settles it by name |
| InboxRuns.WaitingIsReplayed | server/src/data/repo.ts:607-612 | Such a row is in the boot replay and in the next claim of its conversation |
| InboxRuns.RecordsAreForGood | server/src/data/repo.ts:736-775 | Over any claims, retries and sweeps each recorded inbox id has one inbound record, that of the message first accepted under it, and no id is reused |
| InboxRuns.RecordingAgain | server/src/data/repo.ts:736-775 | Recording a grown batch again adds records for the new rows only |
| InboxRuns.TurnIsStable | server/src/inbox/batcher.ts:640-652 | While the first row of a batch is un-settled and no message of its conversation is stamped before it, every later claim starts with it, so the turn key is stable |
| InboxRuns.LeaderExactly | server/src/inbox/batcher.ts:640-652 | Exactly when that holds: an un-settled row stays the first of its conversation if and only if no accepted message of that conversation is stamped before it |
| InboxRuns.ClockMatters | server/src/inbox/batcher.ts:640-652 | A clock that steps back breaks that: a concrete run in which a later message takes the first place |
| InboxRuns.OneExchangeAtATime | server/src/data/repo.ts:464-478 | A conversation only the agent door writes to has at most one un-settled row in every state of every run |
| Pipeline.EveryPayloadHasOneFate | bridge/outbox.go:123-186 | In every reachable state, crashes between post and delete included, each enqueued payload is queued, accepted, ignored or discarded, and only the queue's head can be both queued and accepted |
| Pipeline.FateExactly | bridge/outbox.go:123-186 | What became of a payload is told by the run alone: accepted or ignored, by its content, exactly when it was posted; discarded exactly when it was dropped without ever being posted; and out of the queue exactly when the bridge dropped it |
| Pipeline.AcceptedOnceInOrder | server/src/inbox/webhook.ts:236-256 | Accepted payloads are in the inbox once each, under ascending ids in enqueue order |
| AgentReplies.AgentReplies.Register | server/src/egress/agent-reply.ts:115-139 | One parked caller per conversation, and every spot is a new one |
| AgentReplies.AgentReplies.Release | server/src/egress/agent-reply.ts:132-137 | Releasing an old spot never frees a newer one |
| AgentReplies.AgentReplies.Deliver | server/src/egress/agent-reply.ts:153-179 | A parked caller wins over a callback, and the reply reaches the one parked |
| AgentDoor.AnswersReachTheirAskers | server/src/inbox/a2a.ts:226-293 | In every interleaving of calls, callbacks, timeouts, retries, failures and restarts a reply resolves only the caller whose row it answers, and a callback receives only answers to its own row |
| DoorSteps.CallersToldExactly | server/src/egress/agent-reply.ts:102-201 | In every step of every run a parked caller is told by the step that answers, fails, gives up or times out its call, exactly what that step says, and by no other; what was told stays, nobody else is told, and a call is parked exactly when its spot, its conversation and its key are free |
| DoorSteps.RowsSettledExactly | server/src/inbox/batcher.ts:682-793 | An un-settled row of the door changes exactly as the step on its conversation says: claimed with one attempt more, done, failed, or pending again |
| DoorSteps.BatchesMoveExactly | server/src/inbox/batcher.ts:640-793 | A batch begins with exactly the un-settled rows of its conversation, is delivered exactly when its reply is out, and ends exactly when settled, given back, told of or forgotten by a restart; a callback is posted to exactly when nobody is parked and the batch named it |
| AgentDoor.TurnFailedExactly | server/src/inbox/batcher.ts:682-793 | In every run, at the step at which a caller is told that its turn failed, its row has just been settled as failed if and only if its call was not made while an over-cap batch of its conversation was given up but not yet told of |
| AgentDoor.FailureIsForGood | server/src/inbox/batcher.ts:682-793 | In every state a caller told of a failure outside that gap has a failed row, while the row is kept, and a caller from the gap was never told anything else |
| AgentDoor.OwnCallerIsGone | server/src/inbox/batcher.ts:686-713 | When an over-cap batch is given up nobody is parked, and whoever is parked when that is told came in the gap |
| AgentDoor.NeverSilent | server/src/inbox/a2a.ts:333-336 | A running batch of the agent door is never blank, so none is settled as done without a turn |
| AgentDoor.AlwaysTargeted | server/src/inbox/batcher.ts:660-674 | A running batch of the agent door names a target on its first row, so none is settled as failed for want of one without its caller being told |
| AgentDoor.BlankWouldLeak | server/src/inbox/a2a.ts:333-336 | Without the refusal of blank text a caller would receive the answer to another call: a concrete run |
| AgentDoor.GivenUpTellsANewcomer | server/src/inbox/batcher.ts:693-713 | Three claims cut short by a crash, a fourth over the cap, and a call between its settling and its telling: the new caller is told of the old failure while its own row waits |
| AgentKeys.KeysTellApart | server/src/a2a-protocol.ts:48-54 | Two exchanges share a conversation key if and only if they share caller, target and correlation, given that agent ids hold no separator |
| AgentKeys.KeysAndPhonesApart | server/src/a2a-protocol.ts:48-59 | Every key of the door reads as one, and no phone does |
| PerConversationQueue.OneAfterTheOther | server/src/inbox/queue.ts:27-41 | In every schedule a job starts only after all earlier jobs on its key have settled, across rejections and map clean-up |
| PerConversationQueue.InOrderAndAlone | server/src/inbox/queue.ts:27-41 | Jobs on one key run one at a time, in enqueue order |
| PerConversationQueue.UnsettledKeepsItsTail | server/src/inbox/queue.ts:36-40 | A key with an unsettled job has its tail, the last job, in the map |
| PerConversationQueue.NoneIsStuck | server/src/inbox/queue.ts:27-41 | Some job not after an unsettled one, on its key, can always move on |
| PerConversationQueue.Queue.Enqueue | server/src/inbox/queue.ts:27-41 | A job is chained onto the tail and becomes the tail |
| RateLimit.DecidedExactly | server/src/inbox/rate-limit.ts:27-45 | With a steady clock the answers are exactly those the whole history deserves, although the lists are pruned |
| RateLimit.HourlyCap | server/src/inbox/rate-limit.ts:34-44 | Every one-hour window of every run holds at most `perPhonePerHour` admissions of each phone |
| RateLimit.DailyCap | server/src/inbox/rate-limit.ts:28-33 | Each UTC day holds at most `globalPerDay` admissions |
| RateLimitClocks.DailyCapExactly | server/src/inbox/rate-limit.ts:28-33 | For the instants of a run, a day's admissions stay within the cap, whatever it is and whoever calls, if and only if the clock does not come back to that day after leaving it |
| RateLimitClocks.HourlyCapExactly | server/src/inbox/rate-limit.ts:34-44 | Likewise each phone stays within its cap in a one-hour window if and only if the clock does not return to the window after passing two of its instants and then standing an hour past both |
| RateLimitClocks.ClockMatters | server/src/inbox/rate-limit.ts:28-33 | A clock that steps back over midnight admits more than the daily cap: a concrete run |
| RateLimit.NoticesSpaced | server/src/inbox/rate-limit.ts:51-56 | Whatever the clock does, two notices to one phone are an hour apart |
| RateLimit.NoticeExactly | server/src/inbox/rate-limit.ts:51-56 | A notice is sent exactly when every earlier one to the phone is an hour old |
| RateLimit.RateLimiter.Check | server/src/inbox/rate-limit.ts:27-45 | The imperative check is the specified decision and state: a count that starts over with each UTC day, refusals for the day that touch no list, and a list that keeps exactly the instants of the last hour |
| Handoff.AlwaysOneLive | server/src/data/repo.ts:1364-1404 | In every reachable state at most one handoff is live per conversation and agent |
| Handoff.UnpausedExactly | server/src/admin/console.ts:733-797 | A step unpauses a conversation if and only if it is its release, its purge, or the return to new of its last lead in progress when the oldest live handoff was caused by a lead |
| Handoff.PausedExactly | server/src/admin/console.ts:504-797 | A step pauses a conversation if and only if it is its pause route, a message to a person, or the taking of a lead of the pair, which alone is noted as the cause |
| Handoff.SessionsExactly | server/src/admin/console.ts:504-797 | A stored session appears when a turn ends and goes exactly when it is lost, purged or its conversation given back |
| Handoff.LeadsExactly | server/src/admin/console.ts:733-765 | A move changes the status and claimant of its lead alone, a capture adds a new one, nothing else touches leads |
| Handoff.HeldStaysPaused | server/src/admin/console.ts:755-797 | Over every run without a release or purge of the pair, a person's conversation with a lead in progress is paused |
| Handoff.ManualPauseLasts | server/src/admin/console.ts:766-783 | Over every such run a pause no lead caused stays as it is |
| Handoff.HandBackSparesOthers | server/src/admin/console.ts:768-783 | A hand-back never unpauses a conversation another held lead came from |
| Handoff.UnpausedWithoutSession | server/src/admin/console.ts:514-528 | Whatever gives a conversation back also drops its stored session |
| Handoff.ReleaseUnderAHeldLead | server/src/admin/console.ts:504-528 | An explicit release can leave a lead in progress while its agent answers: a concrete run |
| Handoff.Console.LeadStatusRoute | server/src/admin/console.ts:733-819 | The route's new state, and an answer that says truly whether it released and why it did not |
| Handoff.Console.ReleaseRoute | server/src/admin/console.ts:504-528 | Ends every live handoff, and drops the session only when one was live |
| Handoff.Console.MessageRoute | server/src/admin/console.ts:546-610 | Pauses before sending, keeps the pause when sending fails, records exactly what was sent, refuses keys of the agent door |
| Purge.ExactlyTheCustomers | server/src/data/purge.ts:145-263 | Pairs of the agent door, of an appointed or listed owner, or with the owners' agent keep every row; any other pair keeps no message, and keeps tool calls and handoffs exactly when neither a stored session nor a message led to it |
| Purge.TraceAloneIsKept | server/src/data/purge.ts:195-263 | A customer with neither session nor message keeps its tool calls and handoffs through every purge |
| Purge.PurgeAgainIsNothing | server/src/data/purge.ts:145-263 | A second purge removes nothing |
| Purge.TwoPassesAreOne | server/src/data/purge.ts:215-250 | The two passes together remove each pair's rows once |
| Purge.Database.PurgeCustomerSessions | server/src/data/purge.ts:145-263 | Refuses when no owner is known; otherwise the state above, counts equal to the rows removed, and each orphan pair counted once |

## Left out

- Shopify's HTTP, throttling, GraphQL documents, schema check, spreadsheets, log files and printing: input and output; the store is a step that yields an acceptable product.
- `plan_titles`, the title collision check, the height report and the printed position shifts: they only read and report.
- The regular expressions behind a SKU's shape and `prove_pattern`: the target of a row is given with the row, and shape, code and reference are arbitrary functions of it.
- `ajustes_pt2_dry_run.py`, `ajustes_pt2_apply.py` and the `velas_cebada` loads: simpler forms of the two modelled.
- RollbackInvertsEveryPrefix: covers jobs as the planners build them, with at most one edit of each kind, moves with one target, and no option both renamed and moved.
- LoadRollsBack: a product whose last write never came to an answer the script accepts, or that somebody edited beside its prices, is not covered; the planner then judges it field by field and may refuse it.
- HourlyCap: needs a steady clock because it is about every window of a run; `HourlyCapExactly` says window by window which clocks do.
- AcceptedOnceInOrder: no settled row is swept between two deliveries of one payload; after such a sweep the table no longer knows its key.
- The batcher's debounce, media and transcription, and the agent's turn itself: a turn is a step that ends in a reply, a failure or a silent settle.
- Fastify routing, authentication, request parsing, HTML, SHA-256 and token comparison, the callback's allowed prefix and the hop cap: one-branch facts or foreign code.
- The map of the queue is cleaned by promise callbacks; their order among each other is arbitrary here.
- Transcripts on disk and the counts of swept files in the purge; the order of its second pass, which does not change the result.
- SQLite: tables are maps or sequences with ascending ids, and a failing statement is a crash before it.
