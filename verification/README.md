# Prompt Performance Engine: verified models

This project models the parts of the Prompt Performance Engine that decide whether money may be
spent, whether evidence may be believed and whether a result may be published, and proves what
those parts are for. Each module follows one part of the engine. Code that works by changing
state is a method or a class proved against a specification function; what the engine promises is
then proved about that specification, over every input, every run or every interleaving.

`dafny verify dfyconfig.toml` checks the whole project.

## The execution protocol

A campaign is admitted when a computed worst case fits hard ceilings on five axes. A frozen plan
lists every physical call. A host claims slots, reserves worst-case resources in a ledger, calls
the provider, settles exactly once and records a report; a terminal snapshot becomes a manifest
that an independent validator checks.

- `Budget`, `Ledger`: amounts on five axes and the ledger object with its sticky breach. A refused
  reservation burns its id in the ledger.
- `Campaign`, `ExecutionPlan`: the worst case, its admission, the plan and the call matrix.
- `Host`: the host as a transition system whose steps are the lock regions and the provider call
  of any number of concurrent attempts. A refused reservation gives its slot back. The provider,
  the receipt verifier, the clock and interrupts are an arbitrary environment.
- `HostInvariant`, `HostReceipts`, `HostSteps`, `HostRuns`: the invariant, its preservation by each
  kind of step, and by every interleaving.
- `HostOutcomes`: what each report says of its call, in terms of what the provider returned and the
  clock measured.
- `HostResults`, `HostLifecycle`, `HostOwnership`, `HostInterrupts`, `HostAdmission`, `HostSnapshot`,
  `HostReuse`, `HostSchedule`: safety over all interleavings, who owns a receipt, the cost of
  unhandled interrupts, soundness of admission, and independence of the snapshot from the schedule.
  An attempt in flight when another one breaches may still settle cleanly, and the theorems do not
  exclude it.
- `Manifest`, `HostManifest`: the validator, and its agreement with completed hosts.
- `HostObject`: the host as an object, whose `ExecuteAttempt` refines the transition system.
- `HostCompletion`, `HostWitness`: admission, execution and validation put together, and a campaign,
  calls and a run that meet the premises.

## Canonical artifacts

- `Json`, `JsonGraph`, `JsonValidation`: Python object graphs that may share or contain cycles,
  what value they denote, and the explicit-stack walk that decides whether to accept them.
- `JsonNumbers`, `JsonText`, `JsonRoundTrip`, `Utf8`, `StringOrder`, `AuthorityBytes`: the printer, a strict
  parser (RFC 8259, sections 2 to 7), UTF-8, and the loader, which accepts exactly the image of
  the printer.
- `JsonSpelling`, `JsonSize`, `CanonicalForm`: the printed form spelled out token by token; it is the
  shortest text of its value, with its keys in order.
- `WriteOnce`, `WriteOnceHonest`, `WriteOnceCalm`, `WriteOnceFaultless`, `WriteOnceLimits`: publication by
  hard link as steps of concurrent writers on names, inode numbers and bytes, with I/O errors anywhere,
  in a hostile environment, among honest writers and without any error, and two runs that show which
  conditions the promises need.

## Statistics

`Holm`, `Binomial`, `SignTest`, `Wilson`, `RiskBound`, `Pareto` and `Quality` hold the decision
statistics over exact reals, each against an independent definition: closed testing, the binomial
distribution, inversion of a test, separation of all roots, dominance, and the least mean over all
subsets.

## Evidence

- `ReviewSampling`, `ReviewPacket`, `ReviewValidation`, `ReviewLaws`: the blinded human review, its
  validator, and what an accepted packet says of the records and the coin.
- `Evaluation`: matched evaluation, the validator that recomputes it, and both in the letters that the
  judges wrote.
- `ReportStatus`, `ReportLaws`: the status of a report and its reconstruction, and each status and
  authority check spelled out.
- `Replicates`, `ReplicateRuns`, `ReplicateAggregation`, `ReplicateValidation`, `ReplicateLaws`,
  `ReplicateTotals`: repeated runs, what their rows determine, the producer and the validator that compute
  it separately, and consensus, release and totals counted in the observations.

## Results that differ from what a reader may expect

- The validator of evaluations demands more than the producer: `Evaluation.SuiteAccepted` gives
  the exact condition, which includes names and rubric items that the producer does not check.
- A published artifact is permanent exactly when its own writer is past its revalidation
  (`WriteOnceHonest.PermanentExactlyWhenSettled`). Until then an I/O error makes that writer roll
  back, and the artifact goes unless the unlink fails too (`WriteOnceHonest.FaultUnpublishes`).
  Another writer may have reported success by then, as the run in
  `WriteOnceLimits.FaultAfterLinkLosesArtifact` shows. The documentation of
  `write_authority_artifact` (src/prompt_performance_engine/frontier_io.py:620-624) does not
  mention this.
- `execute_attempt` handles an interrupt from the provider call to the receipt region
  (src/prompt_performance_engine/frontier_host.py:982-1079) and nowhere else. `HostInterrupts` says
  exactly what one costs before and after; the other theorems about runs are about interrupts that
  the code handles.
- Of those, one between lines 1058 and 1059 leaves a receipt digest known for good and owned by no
  report, and only such a one does (`HostOwnership.UnownedExactlyWhenLost`). One between lines 1059 and
  1060 leaves a receipt with the full charge (`HostReceipts.ChargeByAuthority`).
- The component capacity check of the host, the cycle check of the JSON walk and, for a maximum
  p-value of at most one half, the majority conjunct of the sign test never decide anything.

`Options`, `Texts`, `Counting`, `Sorting` and `Diagnostics` hold shared vocabulary.

## Model

| member | source | states |
|---|---|---|
| `Ledger.BudgetLedger.constructor` | src/prompt_performance_engine/frontier_budget.py:87-102 | A new ledger has consumed, reserved and recorded nothing. |
| `Ledger.BudgetLedger.Open` | src/prompt_performance_engine/frontier_budget.py:87-102 | A ledger exists exactly for five ceilings that are each between zero and the largest permitted amount, and it starts inside the invariant. |
| `Ledger.BudgetLedger.SumReservations` | src/prompt_performance_engine/frontier_budget.py:69-73 | The summing loop yields the per-axis sum of all open reservations, in whatever order they are visited. |
| `Ledger.BudgetLedger.Reserve` | src/prompt_performance_engine/frontier_budget.py:104-150 | Answer and whole new state of a reservation: malformed amounts, a used id or an earlier breach change nothing; a request over a ceiling burns its id, records the rejection and breaches; otherwise the reservation opens. The invariant is kept. |
| `Ledger.BudgetLedger.CancelBeforeCall` | src/prompt_performance_engine/frontier_budget.py:152-170 | Answer and whole new state of a cancellation: only the token of an open reservation closes it without a charge. The invariant is kept. |
| `Ledger.BudgetLedger.Settle` | src/prompt_performance_engine/frontier_budget.py:172-229 | Answer and whole new state of a settlement: the charge is added and recorded before an overage is reported, and an overage of the reservation or of a ceiling breaches the ledger. The invariant is kept. |
| `Ledger.ReserveKeepsInvariant` | src/prompt_performance_engine/frontier_budget.py:104-150 | One reservation keeps the ledger invariant whatever its arguments. |
| `Ledger.CancelKeepsInvariant` | src/prompt_performance_engine/frontier_budget.py:152-170 | One cancellation keeps the ledger invariant whatever its arguments. |
| `Ledger.SettleKeepsInvariant` | src/prompt_performance_engine/frontier_budget.py:172-229 | One settlement keeps the ledger invariant whatever its arguments, also when it overruns. |
| `Ledger.EveryRunKeepsInvariant` | src/prompt_performance_engine/frontier_budget.py:104-229 | After every sequence of operations: used ids are the disjoint union of open, settled, cancelled and rejected ids; on each axis consumed is the sum of the charges, and consumed plus open reservations exceed the ceiling by no more than the sum of max(0, charged - reserved) over the events; the ledger is breached iff it recorded a rejection or an attempt over budget. |
| `Ledger.BreachIsPermanent` | src/prompt_performance_engine/frontier_budget.py:116-118 | From a breached ledger every sequence of operations stays breached, opens nothing, uses no new id, and adds only events of reservations open at that moment. |
| `Ledger.NoOverrunWithinCeilings` | src/prompt_performance_engine/frontier_budget.py:119-127 | While no event charged more than it reserved, consumed plus open reservations stay within every ceiling. |
| `Ledger.GrantExactly` | src/prompt_performance_engine/frontier_budget.py:110-127 | A reservation is granted iff it is for one call under a new id, nothing was breached, and consumption, open reservations and the request together fit every ceiling; otherwise the axes that are listed are exactly those on which they do not. |
| `Ledger.CancelUndoesReserve` | src/prompt_performance_engine/frontier_budget.py:152-170 | Reserving and then cancelling with the same token leaves every amount as it was, with the id used up and listed as cancelled; any other token leaves the ledger as the reservation left it. |
| `Ledger.OnlyItsTokenCancels` | src/prompt_performance_engine/frontier_budget.py:163-170 | The token of a reservation cancels it without a charge, and any other token leaves the whole ledger unchanged. |
| `Ledger.OnlyItsTokenSettles` | src/prompt_performance_engine/frontier_budget.py:188-229 | Settling with the token of a reservation adds the charge on every axis and records one event that states what was reserved, what was charged, and exactly the axes that overran; any other token leaves the whole ledger unchanged. |
| `Ledger.ReservationOutlives` | src/prompt_performance_engine/frontier_budget.py:104-229 | In every sequence of operations a granted reservation stays open, with its own amounts and token, as long as no one holding its token cancels or settles it. |
| `Budget.TotalPermutation` | src/prompt_performance_engine/frontier_budget.py:69-73 | Sums over the same multiset of entries agree, so the order in which the table is iterated cannot matter. |
| `Campaign.ComputedWorstCase` | src/prompt_performance_engine/frontier_contracts.py:1664-1693 | The accumulating loop yields a worst case iff there are components, each is well formed, and the sums stay within the safe range; the value is then, per axis, the sum over components of attempts times the per-attempt maximum. |
| `Campaign.WorstCaseGrows` | src/prompt_performance_engine/frontier_contracts.py:1691-1692 | Partial sums never exceed the final sum, so the range check inside the loop refuses nothing that the final sum alone would admit. |
| `Campaign.BudgetAdmitted` | src/prompt_performance_engine/frontier_contracts.py:1786-1791 | A budget is admitted iff the declared worst case is the computed one and it fits the ceilings on every axis. |
| `ExecutionPlan.ValidateExecutionPlan` | src/prompt_performance_engine/frontier_host.py:358-439 | The validator has no finding iff the plan has slots, all indices and seeds are in range, slot ids are unique, and no unit repeats a retry index. |
| `ExecutionPlan.IndexSlots` | src/prompt_performance_engine/frontier_host.py:750-790 | The slot loop succeeds iff every slot is authorized (component, model, purpose, retry, route, seed) and no unit changes its binding between retries; its tables then hold exactly the retries and the binding of each unit. |
| `ExecutionPlan.CheckComponent` | src/prompt_performance_engine/frontier_host.py:791-809 | The per-component check on the built tables holds iff the plan covers the component: as many units as frozen, every unit with every retry, and no case and replicate under two units. |
| `ExecutionPlan.CheckCoverage` | src/prompt_performance_engine/frontier_host.py:791-809 | The coverage loop holds iff every component is covered. |
| `ExecutionPlan.CheckCallMatrix` | src/prompt_performance_engine/frontier_host.py:750-809 | The whole matrix check holds iff slots are authorized, bindings are stable and every component is covered. |
| `ExecutionPlan.RetriesTellCoverage` | src/prompt_performance_engine/frontier_host.py:792-800 | Comparing the number of units and each unit's set of retry indices is the same as requiring the exact call matrix. |
| `ExecutionPlan.ReplicateCountTellsUnits` | src/prompt_performance_engine/frontier_host.py:801-809 | Counting distinct case and replicate pairs tells exactly whether two units share one. |
| `ExecutionPlan.SlotCountIsCapacity` | src/prompt_performance_engine/frontier_host.py:791-800 | An accepted plan holds, for every component, exactly unit count times attempts per unit slots. |
| `ExecutionPlan.MatrixTells` | src/prompt_performance_engine/frontier_host.py:750-809 | In an accepted plan every slot is authorized in component, model, purpose, retry, route and seed, the slots of a unit are one call that differs only in slot id and retry index, every permitted retry occurs exactly once, and different units of a component differ in case or replicate. |
| `HostSteps.ReservationTried` | src/prompt_performance_engine/frontier_host.py:941-946 | The reserving step keeps the host invariant, whether the ledger grants the reservation or burns the id and refuses it. |
| `HostSteps.Released` | src/prompt_performance_engine/frontier_host.py:879-882 | Giving a slot back after a refusal keeps the host invariant. |
| `HostSteps.ReceiptRegion` | src/prompt_performance_engine/frontier_host.py:1054-1060 | The receipt region keeps the host invariant, wherever an interrupt meets it: a digest is claimed by one attempt at most. |
| `HostSteps.Settling` | src/prompt_performance_engine/frontier_host.py:1087-1147 | Settling keeps the host invariant and leaves one event, matched by the report that the attempt is about to record, also when it breaches. |
| `HostSteps.Recording` | src/prompt_performance_engine/frontier_host.py:1148 | Recording keeps the host invariant and puts the slot on record once. |
| `HostReceipts.ChargeByAuthority` | src/prompt_performance_engine/frontier_host.py:1053-1098 | A call keeps its receipt iff it was verified, new, and not interrupted before it was taken (1059); it is charged its own figures iff it keeps its receipt and was not interrupted before they became authoritative (1060), and the full reservation otherwise. |
| `HostRuns.StepKeepsInv` | src/prompt_performance_engine/frontier_host.py:861-1154 | Every lock region of every attempt keeps the host invariant that ties used slots, counters, reservations, events, receipts and reports to the attempts in flight. |
| `HostRuns.EveryInterleavingKeepsInv` | src/prompt_performance_engine/frontier_host.py:861-1154 | The host invariant holds after every interleaving of any number of attempts, for every behaviour of provider, verifier and clock, with exceptions and with interrupts anywhere in the block that handles them (982-1079). |
| `HostRuns.CapacityNeverExhausted` | src/prompt_performance_engine/frontier_host.py:868-870 | In no reachable state does the component capacity check refuse a claim. |
| `HostLifecycle.ReportIsSound` | src/prompt_performance_engine/frontier_host.py:1084-1113 | Every report: without a receipt it is charged at least its full reservation; a usable one is a receipted success without failure; an overage of its own settlement makes it an unusable budget breach. |
| `HostLifecycle.OutputIsSound` | src/prompt_performance_engine/frontier_host.py:1148-1154 | Text is released only with a recorded usable report and is the text the provider returned for that attempt. |
| `HostLifecycle.SlotLifecycle` | src/prompt_performance_engine/frontier_host.py:941-1154 | After every interleaving: events and reports never repeat an attempt, every attempt that ended past its reservation has its event and its report on record, an event lacks its report only while its attempt is about to record it, a released slot leaves no trace, receipts are pairwise distinct, every report and every released text is sound, and no attempt ends with an open reservation. |
| `HostLifecycle.ClaimTold` | src/prompt_performance_engine/frontier_host.py:861-873 | In every reachable state a claim is granted iff the plan has the slot and it is neither on record nor in the hands of a live attempt; the only refusals are an unscheduled slot and a taken one. |
| `HostOwnership.StepOwnership` | src/prompt_performance_engine/frontier_host.py:1053-1148 | In every step a known receipt digest neither gains nor loses its owner, on record or in flight; a new digest has its owner from the start unless an interrupt comes between adding it (1058) and taking it (1059). |
| `HostOwnership.UnownedExactlyWhenLost` | src/prompt_performance_engine/frontier_host.py:1053-1148 | In every interleaving, a digest the host knows has no owner iff one of the steps was interrupted between adding and taking it. |
| `HostOwnership.AlwaysOwned` | src/prompt_performance_engine/frontier_host.py:1053-1148 | If no call is interrupted there, every known digest is on record or held by an attempt in flight. |
| `HostInterrupts.InterruptCosts` | src/prompt_performance_engine/frontier_host.py:941-1154 | For an attempt that an interrupt ends before or after the block that handles interrupts (982-1079), exactly which clause of the invariant fails in which phase: the slot always stays used without a holder, a reservation stays open from reserving to settling, a charge lacks its report between settling and recording, and the ledger, the counters, the receipts and the reports on record stay sound. |
| `HostInterrupts.InterruptOrphans` | src/prompt_performance_engine/frontier_host.py:1054-1150 | Such an interrupt leaves the receipt its attempt had claimed known and without an owner, and no other. |
| `HostInterrupts.InterruptKeepsInv` | src/prompt_performance_engine/frontier_host.py:1099-1150 | Such an interrupt keeps the invariant exactly if the attempt has already ended. |
| `HostInterrupts.InterruptedReserveLeavesTrace` | src/prompt_performance_engine/frontier_host.py:942-946 | An interrupt inside the reservation after it was stored releases the slot and leaves the reservation open. |
| `HostAdmission.PlanCostIsWorstCase` | src/prompt_performance_engine/frontier_host.py:791-800 | The maximums of all slots of an accepted plan sum, per axis, to the campaign's worst case. |
| `HostAdmission.StepNeverRefuses` | src/prompt_performance_engine/frontier_host.py:941-946 | If the plan fits the ceilings and no settled charge overran its reservation, the next step of any attempt refuses no reservation. |
| `HostAdmission.AdmissionSound` | src/prompt_performance_engine/frontier_contracts.py:1786-1791 | If the worst case fits the ceilings and the plan covers the exact call matrix, then in every interleaving without an overrun no reservation is rejected, none fails, and the ledger is not breached. |
| `HostSnapshot.OneReportPerSlot` | src/prompt_performance_engine/frontier_host.py:1156-1163 | A completed host holds exactly one report for each slot of the plan. |
| `HostSnapshot.ReportsArranged` | src/prompt_performance_engine/frontier_host.py:1158-1163 | Sorting by slot order puts the report of each slot at the slot's own place in the plan. |
| `HostSnapshot.EventsArranged` | src/prompt_performance_engine/frontier_host.py:1165-1170 | Sorting by slot order puts the ledger event of each slot at the slot's own place in the plan. |
| `HostSnapshot.AllCapacityUsed` | src/prompt_performance_engine/frontier_host.py:1182-1183 | In a completed host the allocated attempts equal the component capacities. |
| `HostSchedule.ReportDetermined` | src/prompt_performance_engine/frontier_host.py:1114-1147 | In a completed run without overrun and with distinct receipts, a report depends only on its slot and on what the provider did for it. |
| `HostSchedule.EventDetermined` | src/prompt_performance_engine/frontier_budget.py:203-220 | The ledger event of an attempt is the one its own report determines. |
| `HostSchedule.SnapshotDetermined` | src/prompt_performance_engine/frontier_host.py:1156-1191 | The snapshot of such a run is a function of the configuration and the provider's behaviour alone; its receipt digests are those the verifier returned, also where an interrupt lost one. |
| `HostSchedule.ScheduleIndependent` | src/prompt_performance_engine/frontier_host.py:1156-1191 | Two complete interleavings with the same provider behaviour, distinct receipts and no overrun have the same snapshot, whatever the order of settling and recording. |
| `Manifest.ValidateAttemptReport` | src/prompt_performance_engine/frontier_host.py:1194-1308 | The report validator has no finding iff usage is one call within range, usability, status, failure code, receipt and response agree, and the self-hash matches. |
| `Manifest.SumUsage` | src/prompt_performance_engine/frontier_host.py:1381-1390 | The usage loop yields the per-axis sum of all reports' usage. |
| `Manifest.CompareEvents` | src/prompt_performance_engine/frontier_host.py:1354-1379 | The pairing loop has no finding iff there are as many events as reports and each event repeats its report's id, status, charge and receipt and lists no overage. |
| `Manifest.ValidateTerminalLedger` | src/prompt_performance_engine/frontier_host.py:1311-1409 | The ledger validator has no finding iff nothing is open, rejected or cancelled, the events agree with the reports, consumed is their usage, remaining is the difference to the ceilings, and the self-hash matches. |
| `Manifest.CompareReports` | src/prompt_performance_engine/frontier_host.py:1455-1491 | The binding loop has no finding iff each report is valid and carries the identity and the frozen binding of the slot at its place. |
| `Manifest.ValidateManifest` | src/prompt_performance_engine/frontier_host.py:1412-1502 | The manifest validator has no finding iff the plan is valid, identity and completed slots match it, each report is valid and bound to its slot, the terminal ledger passes, and the self-hash matches. |
| `Manifest.AcceptedManifest` | src/prompt_performance_engine/frontier_host.py:1412-1541 | Every accepted manifest has one report per slot in plan order that carries every frozen field of the slot and the identity of the plan, a usable report is a success with response, receipt and no failure, each event repeats its report, and consumption is the sum of the usage, one call per slot, within every ceiling. |
| `Manifest.BuildManifest` | src/prompt_performance_engine/frontier_host.py:1505-1541 | A manifest is built iff the snapshot's hash is its own and the assembled manifest passes the validator. |
| `HostManifest.HostLedgerTerminal` | src/prompt_performance_engine/frontier_host.py:1311-1409 | The ledger of every completed host without overrun passes the terminal ledger check. |
| `HostManifest.CompletedHostAccepted` | src/prompt_performance_engine/frontier_host.py:1412-1541 | Whenever a host has completed every slot without a breach, its snapshot builds a manifest that the validator accepts, after every interleaving. |
| `HostManifest.CompletedHostWithinMaximums` | src/prompt_performance_engine/frontier_host.py:1648-1666 | The manifest of such a host keeps every attempt within its component's frozen maximums. |
| `HostObject.FrontierExecutionHost.constructor` | src/prompt_performance_engine/frontier_host.py:543-815 | A new host starts from the accepted configuration with nothing used, allocated, claimed or recorded. |
| `HostObject.FrontierExecutionHost.Open` | src/prompt_performance_engine/frontier_host.py:543-815 | A host exists iff the ceilings, the authority, the plan and the call matrix are accepted, and it owns a fresh ledger. |
| `HostObject.FrontierExecutionHost.ClaimSlot` | src/prompt_performance_engine/frontier_host.py:861-873 | Answer and whole new state of a claim: an unknown, used or over-capacity slot changes nothing. |
| `HostObject.FrontierExecutionHost.ReleaseSlot` | src/prompt_performance_engine/frontier_host.py:879-882 | A release gives the slot and its allocation back and changes nothing else. |
| `HostObject.FrontierExecutionHost.ClaimReceipt` | src/prompt_performance_engine/frontier_host.py:1054-1060 | The receipt region reports reuse iff the digest was known, and adds only that digest. |
| `HostObject.FrontierExecutionHost.Record` | src/prompt_performance_engine/frontier_host.py:875-877 | Recording appends the one report and changes nothing else. |
| `HostObject.FrontierExecutionHost.Dispatch` | src/prompt_performance_engine/frontier_host.py:981-1082 | From the provider call to the receipt region: the drafted status, charge, receipt, authority and failure for every outcome and every interrupt, and the receipts afterwards. |
| `HostObject.FrontierExecutionHost.Screen` | src/prompt_performance_engine/frontier_host.py:897-939 | The checks before the claim pass iff the evidence is valid, the slot is scheduled, its metadata and both prompt digests match and the clock works; a refusal names a check that fails. |
| `HostObject.AdmissibleExactly` | src/prompt_performance_engine/frontier_host.py:884-940 | A request passes the checks before the claim iff the evidence has not expired and some slot of the plan has its id, component, retry, model, purpose and the digests of its two texts. |
| `HostObject.FrontierExecutionHost.ExecuteAttempt` | src/prompt_performance_engine/frontier_host.py:884-1154 | One call of the method, run to its end: a request that is expired, unscheduled, or not for the frozen metadata and texts, or a broken clock, is refused without a trace; any other is the transition system run with one attempt, with the same result and the same new host and ledger state. |
| `HostObject.AloneKeepsInv` | src/prompt_performance_engine/frontier_host.py:884-1154 | An attempt that runs by itself keeps the host invariant at every step. |
| `HostObject.AloneDenied` | src/prompt_performance_engine/frontier_host.py:941 | A refused claim ends the attempt with the host unchanged. |
| `HostObject.AloneUnreserved` | src/prompt_performance_engine/frontier_host.py:942-946 | A refused reservation releases the slot, while the ledger keeps what the refusal did to it. |
| `HostObject.AloneDispatched` | src/prompt_performance_engine/frontier_host.py:947-1154 | A dispatched attempt settles, records and returns exactly what its draft determines. |
| `HostObject.AloneEnds` | src/prompt_performance_engine/frontier_host.py:884-1154 | An attempt that runs by itself leaves no other attempt, reservation or pending report behind. |
| `HostOutcomes.EveryReportTells` | src/prompt_performance_engine/frontier_host.py:981-1147 | In every run each recorded report says what the provider did: every raised or malformed outcome has its own status, failure code and the full charge; a sound result has the digest of its own text and, with its receipt, its own status, input tokens, output tokens and money and the measured time; an interrupt, a missing or reused receipt and a breach each have their code; identity, provider and model are the authorized ones. |
| `HostOutcomes.OutcomeTold` | src/prompt_performance_engine/frontier_host.py:981-1113 | The same for the report of any call on any slot, whether its receipt was used before and whether its charge breaches. |
| `HostOutcomes.EveryResultTells` | src/prompt_performance_engine/frontier_host.py:1130-1155 | In every run the caller gets the text of the provider iff the report is usable, and the interrupt iff the report says so. |
| `HostOutcomes.FitsExactly` | src/prompt_performance_engine/frontier_host.py:1084-1113 | The times and figures of a call fit the component iff the charge fits the reservation whether or not the receipt turns out to be reused. |
| `HostCompletion.AdmittedRunCompletes` | src/prompt_performance_engine/frontier_host.py:884-1154 | If the campaign is admitted, every slot was attempted, every attempt ended and none overran, then every slot has its report. |
| `HostCompletion.EventCharge` | src/prompt_performance_engine/frontier_host.py:1084-1098 | Every settled charge is what the outcome of the call and the reuse of its receipt determine, against the frozen maximums of the slot; what that is in figures is the subject of HostOutcomes.EveryReportTells. |
| `HostCompletion.CallsNeverOverrun` | src/prompt_performance_engine/frontier_host.py:1084-1113 | If the measured time of each call and, for each sound result with a verified receipt, the figures of the provider fit the maximums of the component, no event of any interleaving overruns. |
| `HostCompletion.AdmittedCampaignIsAccepted` | src/prompt_performance_engine/frontier_host.py:1412-1541 | End to end: an admitted budget, an exact plan, calls whose own times and figures fit the maximums of their components, and every slot attempted lead, in every interleaving, to a manifest the validator accepts. |
| `HostWitness.AdmittedCampaignCompletes` | src/prompt_performance_engine/frontier_host.py:884-1541 | Every admitted campaign can be completed: attempting its slots one by one, with any calls within their reservations, puts every slot on record, and the manifest is accepted. |
| `HostWitness.FullCallsWithin` | src/prompt_performance_engine/frontier_host.py:982-1098 | For every accepted configuration there are calls within their reservations: successes that use up the whole allowance of their component. |
| `HostWitness.CampaignExists` | src/prompt_performance_engine/frontier_host.py:884-1541 | A campaign, calls and a run that meet every premise of completion and of schedule independence. |
| `JsonGraph.WeighableDenotes` | src/prompt_performance_engine/frontier_io.py:84-146 | A graph that can be weighed within a depth budget denotes a finite tree of at most that depth, and its weight is the tree's node count, with shared containers counted once per occurrence. |
| `JsonGraph.DenotedWeighs` | src/prompt_performance_engine/frontier_io.py:84-146 | Conversely every graph that denotes a tree of depth within the budget weighs the tree's node count. |
| `JsonGraph.DenotesUnique` | src/prompt_performance_engine/frontier_io.py:84-146 | A graph denotes at most one value. |
| `JsonValidation.PushEntries` | src/prompt_performance_engine/frontier_io.py:119-124 | The entry loop pushes the children in reverse, and fails iff a key is not a string. |
| `JsonValidation.PushItems` | src/prompt_performance_engine/frontier_io.py:131-132 | The item loop pushes the children in reverse. |
| `JsonValidation.Visit` | src/prompt_performance_engine/frontier_io.py:106-146 | One visit keeps the loop invariant (the active set is exactly the containers on the path to the root, and the nodes counted plus those the stack still owes are the graph's weight) or rejects a graph that is not acceptable. |
| `JsonValidation.ValidateJsonValue` | src/prompt_performance_engine/frontier_io.py:84-146 | The stack loop ends on every finite object graph, shared or cyclic, with keys of any kind, and accepts iff the limits are positive, the root is an object and the graph denotes a legal tree, with safe integers and finite floats, within depth and node limits; it reports a cycle only where there is one. |
| `JsonValidation.AcceptsWeighable` | src/prompt_performance_engine/frontier_io.py:84-146 | Acceptance is the same as being weighable within the depth limit with weight within the node limit. |
| `JsonValidation.CycleNeverWeighs` | src/prompt_performance_engine/frontier_io.py:109-116 | A container on a cycle exceeds every depth limit, so the cycle check never changes accept or reject. |
| `JsonValidation.CycleFound` | src/prompt_performance_engine/frontier_io.py:114-116 | A container met again on its own root path lies on a cycle. |
| `JsonValidation.CyclicDenotesNothing` | src/prompt_performance_engine/frontier_io.py:114-116 | A graph that reaches a cycle denotes no finite value. |
| `StringOrder.SortedKeysSorted` | src/prompt_performance_engine/frontier_io.py:162 | Sorting an object's keys lists each key once in strictly ascending code point order. |
| `StringOrder.KeyLeqByFirstDifference` | src/prompt_performance_engine/frontier_io.py:162 | One key sorts before another iff it is a prefix of it or has the smaller character where they first differ. |
| `StringOrder.SortedKeysAscend` | src/prompt_performance_engine/frontier_io.py:162 | The sorted list holds exactly the keys, and each later one follows each earlier one by first difference. |
| `Utf8.DecodeEncode` | src/prompt_performance_engine/frontier_io.py:165-223 | Decoding the UTF-8 encoding of any text gives the text back. |
| `JsonNumbers.FloatStops` | src/prompt_performance_engine/frontier_io.py:192-229 | The token of a float is found again in front of every delimiter. |
| `JsonRoundTrip.IntParsed` | src/prompt_performance_engine/frontier_io.py:159-165 | A printed integer is read back, whatever delimiter follows it. |
| `JsonRoundTrip.FloatParsed` | src/prompt_performance_engine/frontier_io.py:159-229 | A printed float is read back, whatever delimiter follows it. |
| `JsonRoundTrip.StringParsed` | src/prompt_performance_engine/frontier_io.py:159-165 | A printed string with its escapes is read back, whatever follows it. |
| `JsonRoundTrip.ItemsParsed` | src/prompt_performance_engine/frontier_io.py:159-229 | The printed items of an array are read back from any position. |
| `JsonRoundTrip.MembersParsed` | src/prompt_performance_engine/frontier_io.py:199-229 | The printed members of an object are read back in sorted order from any position, and no key repeats. |
| `JsonRoundTrip.ValueParsed` | src/prompt_performance_engine/frontier_io.py:159-229 | Any printed value is read back, whatever delimiter follows it. |
| `JsonRoundTrip.ValueFinite` | src/prompt_performance_engine/frontier_io.py:192-229 | Every float of a parsed value is finite and is read back as itself. |
| `AuthorityBytes.AcceptedGraphs` | src/prompt_performance_engine/frontier_io.py:84-146 | The graph walk accepts iff the graph denotes a value that the limits admit. |
| `AuthorityBytes.PrintAppend` | src/prompt_performance_engine/frontier_io.py:159-165 | Printing in front of a text is printing and then appending the text. |
| `AuthorityBytes.PrintVisible` | src/prompt_performance_engine/frontier_io.py:159-165 | The printed form holds no control character. |
| `JsonSize.PrintSize` | src/prompt_performance_engine/frontier_io.py:159-165 | The length of the printed form is the sum of its tokens: brackets, colons, and one comma between entries. |
| `JsonSize.ParsedSize` | src/prompt_performance_engine/frontier_io.py:208-229 | Every text that parses to a value is at least as long as the sum of the tokens of the value, counting for each float the least length of a token that is read as it. |
| `JsonSize.PrintedIsShortest` | src/prompt_performance_engine/frontier_io.py:159-165 | No text that parses to a value is shorter than its printed form, except where a float has a shorter token than the one Python prints; so the printed form has no insignificant blank and no avoidable escape. |
| `CanonicalForm.KeysPrintedInOrder` | src/prompt_performance_engine/frontier_io.py:162 | Of any two members of an object the one whose key precedes is printed first. |
| `JsonSpelling.CharSpelled` | src/prompt_performance_engine/frontier_io.py:160-164 | Inside a string, quote, backslash and five control characters have their own escapes, other control characters are four lower-case hexadecimal digits, and every other character stands for itself. |
| `JsonSpelling.PrintSpelled` | src/prompt_performance_engine/frontier_io.py:159-165 | The accumulating printer puts in front of what follows exactly the text of the value written out token by token: literals, decimal integers, quoted strings, brackets, one comma between entries, one colon after each key, keys in ascending order. |
| `JsonSpelling.CanonicalIsSpelled` | src/prompt_performance_engine/frontier_io.py:149-168 | The canonical text of every value is that text and one line feed. |
| `AuthorityBytes.OneTrailingLineFeed` | src/prompt_performance_engine/frontier_io.py:149-168 | Canonical text is the printed value and one line feed, and holds no other line feed. |
| `AuthorityBytes.CanonicalParses` | src/prompt_performance_engine/frontier_io.py:208-229 | The canonical bytes of every value, floats included, decode and parse to that value. |
| `AuthorityBytes.LoadsExactlyCanonicalBytes` | src/prompt_performance_engine/frontier_io.py:208-251 | The loader returns a value iff the data are the canonical bytes of that value, it is admissible, its floats are finite and the size limit holds: a round trip, and nothing but the printer's image is accepted. |
| `AuthorityBytes.IntegersExactly` | src/prompt_performance_engine/frontier_io.py:138-142 | An admissible value holds, at any depth, no integer of magnitude two to the 53 or more, and that is all that its integers are checked for. |
| `AuthorityBytes.CanonicalBytesInjective` | src/prompt_performance_engine/frontier_io.py:149-168 | Different values have different canonical bytes. |
| `WriteOnce.StepSafe` | src/prompt_performance_engine/frontier_io.py:561-749 | Every step of every writer, with I/O errors anywhere, and every foreign step that spares the temporary names, keeps each staged file pinned by its writer's temporary name for as long as the writer may still compare its inode; a temporary name that a failed removal left behind still names the writer's own file. |
| `WriteOnce.RunSafe` | src/prompt_performance_engine/frontier_io.py:561-749 | The pinning invariant holds after every run. |
| `WriteOnce.RemovesOnlyItsOwn` | src/prompt_performance_engine/frontier_io.py:539-558 | In every run in which the environment may replace, relink, remove or overwrite the target, a step of a writer removes a name only if the file behind it is the writer's own, and redirects none. |
| `WriteOnceHonest.StepHonest` | src/prompt_performance_engine/frontier_io.py:539-749 | One step of an honest writer with or without an I/O error: the published file and its bytes stay unless the step is a rollback whose unlink succeeds, and a rollback starts exactly by an error between publication and the end of revalidation. |
| `WriteOnceHonest.RunHonest` | src/prompt_performance_engine/frontier_io.py:611-749 | The invariant of honest writers holds after every run, whatever I/O errors occur, also while names are being removed. |
| `WriteOnceHonest.UnpublishedExactlyByRollback` | src/prompt_performance_engine/frontier_io.py:539-558 | In every run of honest writers a published target disappears at a step iff the step is the rollback of the writer whose inode it names and its unlink meets no error; every other step keeps file and bytes. |
| `WriteOnceHonest.FaultUnpublishes` | src/prompt_performance_engine/frontier_io.py:703-739 | After an I/O error between a publication and the end of its revalidation the artifact goes with that writer's next step iff the rollback's unlink meets no error, whatever other writers do in between; if it meets one, the artifact is there for good although its writer fails. |
| `WriteOnceHonest.SettledForever` | src/prompt_performance_engine/frontier_io.py:611-749 | Once the writer of the published file is past its revalidation, or the file is nobody's, file and bytes never change again. |
| `WriteOnceHonest.PermanentExactlyWhenSettled` | src/prompt_performance_engine/frontier_io.py:611-749 | A published artifact survives everything that honest writers and their I/O errors may still do iff its own writer is past its revalidation. |
| `WriteOnceHonest.CreatedForever` | src/prompt_performance_engine/frontier_io.py:611-749 | In every run at most one writer reports creation, the target holds its bytes, and they stay from then on. |
| `WriteOnceCalm.RunCalm` | src/prompt_performance_engine/frontier_io.py:611-749 | In a run without an I/O error between a publication and its revalidation no writer rolls back, and every writer that has confirmed the target is right about its bytes. |
| `WriteOnceCalm.PublishedForever` | src/prompt_performance_engine/frontier_io.py:611-749 | In such a run a published artifact keeps its file and its bytes from then on. |
| `WriteOnceCalm.OutcomesAgree` | src/prompt_performance_engine/frontier_io.py:611-749 | In such a run all successful writers wrote the published bytes, and a conflict is reported only against different bytes. |
| `WriteOnceFaultless.ExactOutcome` | src/prompt_performance_engine/frontier_io.py:611-749 | In every run of honest writers without an I/O error, a writer that is done reports a conflict iff the published bytes differ from its own, creation iff the published file is its own, and otherwise an existing artifact; it never fails. |
| `WriteOnceLimits.FaultAfterLinkLosesArtifact` | src/prompt_performance_engine/frontier_io.py:708-711 | Without the condition the promise fails: a run of two honest writers in which one reports success and the artifact is gone afterwards. |
| `WriteOnceLimits.UnpinnedRollbackRemovesForeignFile` | src/prompt_performance_engine/frontier_io.py:716-721 | If the temporary name is removed by others, inode reuse lets a rollback remove a foreign file; the retained name is needed. |
| `Holm.HolmBonferroni` | src/prompt_performance_engine/frontier_statistics.py:277-308 | The loop with its early break rejects hypothesis i iff every set of hypotheses that contains i has a p-value at most alpha over its size; invalid input is refused. |
| `Holm.StepDownIsClosed` | src/prompt_performance_engine/frontier_statistics.py:301-308 | Stopping at the first failing rank of the sorted order is closed testing with Bonferroni tests. |
| `Holm.PassedIsClosed` | src/prompt_performance_engine/frontier_statistics.py:303-307 | Every set that contains a hypothesis before the first failing rank is rejected. |
| `Holm.FailedIsNotClosed` | src/prompt_performance_engine/frontier_statistics.py:303-307 | Every hypothesis from the first failing rank on lies in a set that is not rejected. |
| `Holm.EqualPValues` | src/prompt_performance_engine/frontier_statistics.py:277-308 | Equal p-values get equal decisions. |
| `Holm.Monotone` | src/prompt_performance_engine/frontier_statistics.py:277-308 | Lowering p-values never loses a rejection. |
| `Holm.Rearranged` | src/prompt_performance_engine/frontier_statistics.py:301-308 | Decisions commute with permuting the input: a hypothesis is rejected iff it is rejected at its new place. |
| `Holm.FamilyWise` | src/prompt_performance_engine/frontier_statistics.py:277-308 | Rejecting any member of a set forces the set's least p-value to at most alpha over its size. |
| `Binomial.CdfIsSum` | src/prompt_performance_engine/frontier_statistics.py:602-618 | The recursive distribution function is the sum of the binomial terms. |
| `Binomial.CdfFalls` | src/prompt_performance_engine/frontier_statistics.py:602-618 | The distribution function falls in the probability, strictly below one and below the number of trials. |
| `Binomial.CdfGrows` | src/prompt_performance_engine/frontier_statistics.py:602-618 | The distribution function grows in the count, strictly inside. |
| `Binomial.CdfSymmetry` | src/prompt_performance_engine/frontier_statistics.py:602-618 | Successes and failures exchange: the lower tail at p and the complementary lower tail at 1 - p sum to one. |
| `Binomial.CdfRange` | src/prompt_performance_engine/frontier_statistics.py:602-618 | The distribution function lies between zero and one. |
| `SignTest.ExactOneSidedSignPValue` | src/prompt_performance_engine/frontier_statistics.py:121-140 | The value is the fair-coin probability of at least that many wins, defined from the distribution function; over the limit or negative counts are refused. |
| `SignTest.TailIsFair` | src/prompt_performance_engine/frontier_statistics.py:137-140 | The counted binomial coefficients over two to the n are that tail probability. |
| `SignTest.TailRange` | src/prompt_performance_engine/frontier_statistics.py:121-140 | The value is above zero and at most one. |
| `SignTest.MoreWins` | src/prompt_performance_engine/frontier_statistics.py:121-140 | Another win never raises it. |
| `SignTest.MoreLosses` | src/prompt_performance_engine/frontier_statistics.py:121-140 | Another loss never lowers it. |
| `SignTest.NoMajorityNoEvidence` | src/prompt_performance_engine/frontier_statistics.py:121-140 | Without more wins than losses it exceeds one half. |
| `SignTest.PairedSuperiorityDiagnostic` | src/prompt_performance_engine/frontier_statistics.py:180-274 | Every count, rate and interval of the diagnostic; the gate passes iff the net margin is met and wins exceed losses with a small enough p-value; for a maximum p-value of at most one half the separate majority conjunct is implied. |
| `Wilson.WilsonInterval` | src/prompt_performance_engine/frontier_statistics.py:143-177 | The interval lies between zero and one and holds exactly the probabilities that the score test keeps; bad counts or confidence are refused and no trials give the whole range. |
| `Wilson.IntervalInvertsTest` | src/prompt_performance_engine/frontier_statistics.py:164-177 | For every probability: it lies in the interval iff the observed share is within the quantile of its own standard error. |
| `Wilson.IntervalHoldsShare` | src/prompt_performance_engine/frontier_statistics.py:164-177 | The interval holds the observed share. |
| `RiskBound.ExactBinomialRiskUpperBound` | src/prompt_performance_engine/frontier_statistics.py:621-667 | Every case: certainty is one; without failures the closed form separates exactly the probabilities whose distribution function exceeds alpha from the others; otherwise the bisection does so to within two to the minus 81. |
| `RiskBound.BracketSeparates` | src/prompt_performance_engine/frontier_statistics.py:655-667 | The midpoint of any bracket separates to within half its width. |
| `RiskBound.NearEverySolution` | src/prompt_performance_engine/frontier_statistics.py:655-667 | The result is within the precision of every root of the defining equation. |
| `RiskBound.SolutionUnique` | src/prompt_performance_engine/frontier_statistics.py:655-667 | The defining equation has at most one root. |
| `RiskBound.ClosedFormExact` | src/prompt_performance_engine/frontier_statistics.py:653-654 | The number whose complement to the power of the trials is alpha is the exact bound without failures. |
| `RiskBound.NoFailures` | src/prompt_performance_engine/frontier_statistics.py:653-654 | Without failures the distribution function is the power of the complement, which the closed form inverts. |
| `Pareto.NondominatedIds` | src/prompt_performance_engine/frontier_statistics.py:865-929 | The result lists, strictly ascending, exactly the candidates that no candidate dominates; blank ids and empty, oversized or out-of-range input are refused. |
| `Pareto.EveryCandidateCovered` | src/prompt_performance_engine/frontier_statistics.py:910-929 | Every candidate is itself undominated or dominated by an undominated one. |
| `Pareto.FrontierCovers` | src/prompt_performance_engine/frontier_statistics.py:910-929 | The frontier is not empty, no member dominates another, and every excluded candidate is dominated by a member. |
| `Pareto.BestOnFrontier` | src/prompt_performance_engine/frontier_statistics.py:910-929 | Some frontier member has the greatest quality of all candidates, some the least cost and some the least latency. |
| `Quality.SummarizeDomains` | src/prompt_performance_engine/frontier_statistics.py:332-350 | The loop yields every domain's mean and all pooled deltas iff no id is blank, each domain is non-empty and in range, and the total stays within the limit. |
| `Quality.QualityDistributionSummary` | src/prompt_performance_engine/frontier_statistics.py:311-368 | Every field of the summary: counts, means, the worst domain and the bottom domains listed by mean and then by id; the bottom mean is the least mean over all sets of that many domains, and lies between the worst domain and the macro mean; the count is the fraction rounded up. |
| `Quality.PrefixIsLeast` | src/prompt_performance_engine/frontier_statistics.py:351-353 | The first k domains in ascending order have the least sum among all sets of k domains. |
| `Quality.BottomBelowMacro` | src/prompt_performance_engine/frontier_statistics.py:358-367 | The mean of a bottom set is at most the macro mean. |
| `Quality.BottomBetween` | src/prompt_performance_engine/frontier_statistics.py:360-367 | The bottom mean lies between the worst domain and the macro mean. |
| `Quality.MeansAddUp` | src/prompt_performance_engine/frontier_statistics.py:332-358 | The mean of a domain times its size is the sum of its deltas, and the micro mean times the number of cases is the sum over all domains, so no delta is lost or counted twice. |
| `ReviewSampling.DrawRound` | src/prompt_performance_engine/human_review.py:233-243 | One pass over the domains draws the next case of each that still has one, stopping when the sample is full, and draws nothing only when every domain is exhausted. |
| `ReviewSampling.RoundRobin` | src/prompt_performance_engine/human_review.py:230-243 | The loop ends and selects exactly the first n cases of the round-robin order. |
| `ReviewSampling.SampleExact` | src/prompt_performance_engine/human_review.py:230-243 | Whenever n cases exist the sample has n distinct cases. |
| `ReviewSampling.Fair` | src/prompt_performance_engine/human_review.py:230-243 | At every prefix of the draw two domains differ by at most one unless the smaller one is exhausted. |
| `ReviewPacket.GroupsPartition` | src/prompt_performance_engine/human_review.py:220-229 | Grouping and sorting the records by digest keeps every record in exactly one group. |
| `ReviewPacket.SelectedOk` | src/prompt_performance_engine/human_review.py:220-243 | A sample that fits selects n distinct known records. |
| `ReviewPacket.DrawSample` | src/prompt_performance_engine/human_review.py:220-243 | Grouping, sorting and drawing together compute the sample. |
| `ReviewPacket.BuildItems` | src/prompt_performance_engine/human_review.py:245-322 | The loops build one base item per drawn record and one probe for each of the first ones, with matching secrets. |
| `ReviewPacket.ReviewItems` | src/prompt_performance_engine/human_review.py:209-325 | Item lists exist iff the sample fits, and are the sorted lists that the protocol prescribes. |
| `ReviewPacket.CreateReviewerPacket` | src/prompt_performance_engine/human_review.py:486-567 | A packet and its key exist iff reviewer, size and probe count are acceptable and the sample fits; both are fully determined. |
| `ReviewValidation.CheckHeaders` | src/prompt_performance_engine/human_review.py:773-835 | The header checks hold iff hashes, authority, reviewer, protocol parameters and the blinding commitment bind packet and key. |
| `ReviewValidation.CheckPairs` | src/prompt_performance_engine/human_review.py:923-932 | The pairing check holds iff each drawn record has one base item and at most one probe, with the labels reversed. |
| `ReviewValidation.DrawnPairOk` | src/prompt_performance_engine/human_review.py:304-322 | Every pair the sampler makes has one base and at most one probe, and the probe reverses the base label. |
| `ReviewValidation.ExpectedListsPass` | src/prompt_performance_engine/human_review.py:848-932 | Every later check of the validator holds of the prescribed lists. |
| `ReviewValidation.ValidatePacketKey` | src/prompt_performance_engine/human_review.py:747-932 | A packet and key are accepted iff the headers bind and both lists are the prescribed ones. |
| `ReviewValidation.CreatedPacketsAccepted` | src/prompt_performance_engine/human_review.py:486-932 | Every packet and key created by the producer passes the validator. |
| `ReviewLaws.SampleRanked` | src/prompt_performance_engine/human_review.py:220-243 | Within a domain, a drawn case ranks no higher than one that is not drawn. |
| `ReviewLaws.SampleSpread` | src/prompt_performance_engine/human_review.py:230-243 | In the sample no domain is more than one case ahead of another, unless all cases of the other one are drawn. |
| `ReviewLaws.SampleLeftovers` | src/prompt_performance_engine/human_review.py:230-243 | Where only some domains give one case more, it is the first ones in order of name, unless they have no case left. |
| `ReviewLaws.AcceptedPacketTells` | src/prompt_performance_engine/human_review.py:209-932 | An accepted packet and key hold one item for each of the requested number of cases and one probe for each of the requested number of those; the cases are the lowest-ranked of their domains and spread evenly; each item shows both outputs of its own record, the optimized one under the letter that the coin gave it and, on the probe, under the other; both lists are in order of item id. |
| `ReviewValidation.CountProbes` | src/prompt_performance_engine/human_review.py:1123-1137 | Each pair is counted once, and a pair without a tie counts as consistent iff both verdicts map to the same winner. |
| `ReviewLaws.ProbesTold` | src/prompt_performance_engine/human_review.py:1123-1137 | The tally in letters: a pair is consistent iff one verdict names A and the other B, and biased iff both name the same letter. |
| `Evaluation.AggregateJudges` | src/prompt_performance_engine/evaluation.py:633-651 | The counting loops give the verdict, whose meaning in the letters of the judges is Evaluation.VerdictInLetters. |
| `Evaluation.VerdictInLetters` | src/prompt_performance_engine/evaluation.py:624-651 | In the letters the judges wrote: a flag on the letter of the optimized output is a loss with the fatal flag set; otherwise the outcome is a win iff more decisions name that letter than the other, a loss iff fewer, and a tie iff as many. |
| `Evaluation.BlindingNeutral` | src/prompt_performance_engine/evaluation.py:624-651 | Swapping A and B in every decision together with the blind bit leaves outcome and fatal flag unchanged. |
| `Evaluation.EvaluateCase` | src/prompt_performance_engine/evaluation.py:654-769 | A record exists iff the case, the outputs, at least two judges and, where they are asked, the decisions are valid; it then tells outcome, regression and fatal flaw as the letters of the answers and the hard checks of the trial decide them. |
| `Evaluation.RecordTells` | src/prompt_performance_engine/evaluation.py:654-769 | What a record says, counted in the letters of the answers and in the hard checks of the trial: outcome, regression, fatal flag, blind map, hashes and which answers are kept. |
| `Evaluation.EvaluateSuite` | src/prompt_performance_engine/evaluation.py:772-842 | A suite result exists iff the suite is named and every case succeeds; its counts are the numbers of trials that won, tied, lost, regressed, were flawed or failed, by their own answers and checks, and its gate, evidence and hash follow. |
| `Evaluation.SuiteTells` | src/prompt_performance_engine/evaluation.py:772-842 | Each counter of a suite is the number of its trials that won, tied, lost, regressed, were flawed or failed a hard check, counted in answers and checks; the gate and the evidence follow from those numbers. |
| `Evaluation.OutcomesPartition` | src/prompt_performance_engine/evaluation.py:802-804 | Wins, ties and losses sum to the number of cases. |
| `Evaluation.CheckRecord` | src/prompt_performance_engine/evaluation.py:948-1178 | The per-record checks hold iff the record's fields are present, its hashes match, its blind map follows the seed, and outcome, regression and fatal flag are derived from its checks and decisions. |
| `Evaluation.CheckRecords` | src/prompt_performance_engine/evaluation.py:944-1183 | The record loop has no finding iff every record is right, case ids differ, and execution setting and prompts are the same throughout. |
| `Evaluation.SettingsTell` | src/prompt_performance_engine/evaluation.py:1180-1183 | Counting distinct settings and prompt hashes tells exactly whether all records share one. |
| `Evaluation.CountFeature` | src/prompt_performance_engine/evaluation.py:1185-1194 | Each counter of the validator counts the records with its feature. |
| `Evaluation.ValidateEvaluation` | src/prompt_performance_engine/evaluation.py:845-1237 | The validator has no finding iff records, counters, gate, evidence and hash are all derived. |
| `Evaluation.AcceptedGate` | src/prompt_performance_engine/evaluation.py:1185-1206 | An accepted passing gate means at least five distinct cases, more wins than losses, and no failed check, regression or fatal flaw. |
| `Evaluation.AcceptedTells` | src/prompt_performance_engine/evaluation.py:845-1237 | In every result that the validator accepts, wins, ties and losses are the numbers of records that end so by the letters of their decisions and their hard checks; in each record the coin decided the letters, the hashes are those of the outputs, and the flags follow from checks and decisions. |
| `Evaluation.SuiteAccepted` | src/prompt_performance_engine/evaluation.py:772-1237 | A suite result is accepted by the validator iff case ids are distinct, executor, domains, rubric items and the names of the judges that were asked are not empty; the producer itself checks less. |
| `Evaluation.MadeButRejected` | src/prompt_performance_engine/evaluation.py:772-1237 | Two concrete suites that the producer completes and the validator rejects, for an empty executor name and for an empty rubric item; with both texts given the suite is accepted. |
| `ReportStatus.VerifyReceipts` | src/prompt_performance_engine/frontier_reporting.py:653-725 | The receipt loop has no finding iff every populated attestation is confirmed and no receipt repeats; which messages it gives is exact. |
| `ReportStatus.TopologyFailures` | src/prompt_performance_engine/frontier_reporting.py:588-604 | The role table has an authority with two roles iff roles are not independent. |
| `ReportStatus.GateFindings` | src/prompt_performance_engine/frontier_reporting.py:736-744 | The gate loop's messages and flags are exactly what the gates' outcomes imply. |
| `ReportStatus.ComparisonFindings` | src/prompt_performance_engine/frontier_reporting.py:746-758 | The comparison loop's messages and flags are exactly what the comparisons' outcomes imply. |
| `ReportStatus.AuthorityFindings` | src/prompt_performance_engine/frontier_reporting.py:760-771 | The authority checks have no finding iff attestations are confirmed, receipts are distinct across both kinds, and roles are independent. |
| `ReportStatus.DeriveReportOutcome` | src/prompt_performance_engine/frontier_reporting.py:728-784 | Status and failure list; the list is strictly sorted and, for an input with comparisons, empty iff the status is the top one. |
| `ReportStatus.TopMeansAll` | src/prompt_performance_engine/frontier_reporting.py:773-784 | For an input with comparisons the top status holds iff the authority checks hold, all gates passed and all comparisons are superior. |
| `ReportStatus.Monotone` | src/prompt_performance_engine/frontier_reporting.py:773-784 | With the authority checks fixed, improving any gate or comparison never lowers the status. |
| `ReportStatus.BuildFrontierReport` | src/prompt_performance_engine/frontier_reporting.py:787-809 | A report is built iff the input is valid and bound to its policy; it is then fully determined. |
| `ReportStatus.ValidateFrontierReport` | src/prompt_performance_engine/frontier_reporting.py:812-845 | A report is accepted iff it is exactly the one the producer builds from its own input with the same policy and verifier. |
| `ReportStatus.BuiltReportsAccepted` | src/prompt_performance_engine/frontier_reporting.py:787-845 | Every built report is accepted with the same policy and verifier, and no other report on the same input is. |
| `ReportLaws.StatusExactly` | src/prompt_performance_engine/frontier_reporting.py:142-144 | Each status exactly: not evaluable iff the authority checks fail, an outcome is missing, or the preflight, readiness, independence or reproduction gate failed; otherwise not superior iff the comparison with the original prompt is not superior; otherwise a verified improvement iff a quality, safety, robustness, cost or latency gate failed or another baseline is not beaten; otherwise the top status. |
| `ReportLaws.AuthorityExactly` | src/prompt_performance_engine/frontier_reporting.py:588-725 | For a valid input the authority checks hold iff the verifier answers for every gate and comparison with evidence with its own receipt, no receipt is used twice, and no authority signs in two places other than cost with latency, or quality and comparisons with comparisons. |
| `ReportLaws.AcceptedStatus` | src/prompt_performance_engine/frontier_reporting.py:728-845 | The status of every accepted report, in terms of its own entries and the answers of the verifier, and its comparisons are the baselines, kinds and margin of the policy. |
| `ReportLaws.AcceptedReasons` | src/prompt_performance_engine/frontier_reporting.py:736-758 | The reasons of every accepted report name exactly the gates that failed or are not evaluable and whether a comparison is not superior or not evaluable. |
| `ReportLaws.TopTierMeans` | src/prompt_performance_engine/frontier_reporting.py:773-784 | An accepted report of the top status has nine passed gates and, over every required baseline, an interval wholly above the margin of the policy, all backed by evidence that the verifier confirms, with every kind of baseline among them. |
| `Replicates.ConsensusIsPlurality` | src/prompt_performance_engine/benchmark_replicates.py:1190-1198 | A consensus other than a tied plurality is the one outcome seen more often than any other; unanimity means that only one outcome was seen. |
| `ReplicateLaws.ConsensusTold` | src/prompt_performance_engine/benchmark_replicates.py:1187-1198 | The consensus is a win iff wins exceed both ties and losses, a loss iff losses exceed both wins and ties, and a tie otherwise; it is a tied plurality iff no outcome leads, and unanimous iff only one outcome occurs. |
| `ReplicateLaws.RowTold` | src/prompt_performance_engine/benchmark_replicates.py:1356-1390 | A row counted directly in its observations: its tallies, its consensus by a strict lead, its unanimity, stability and agreement. |
| `ReplicateLaws.ValidReportTells` | src/prompt_performance_engine/benchmark_replicates.py:1529-1573 | In every report that the validator accepts each row tells its observations, and the wins, ties and losses of the aggregate are the numbers of cases that end so by their observations. |
| `ReplicateLaws.ReplicateTells` | src/prompt_performance_engine/benchmark_replicates.py:1436-1476 | The counts of each replicate are the numbers of cases in which its own observation is a win, a tie or a loss. |
| `ReplicateLaws.ReleaseExactly` | src/prompt_performance_engine/benchmark_replicates.py:2204-2215 | The release gate of an accepted report holds iff there are at least three replicates, twelve domains and sixty cases, every call is verified, no observation regressed, was flawed or failed, every domain has five cases or more with more wins than losses in the consensus and for each replicate, and over all cases the consensus and each replicate are ahead by a tenth of the cases. |
| `ReplicateLaws.AggregatedTells` | src/prompt_performance_engine/benchmark_replicates.py:1298-1573 | The same for every report aggregated from compatible runs. |
| `ReplicateTotals.TotalsTell` | src/prompt_performance_engine/benchmark_replicates.py:1529-1580 | The totals of every accepted report, counted in its observations and sources: flags, cases whose observations all agree, agreement and net improvement as shares, calls and verified calls, sources that share nothing, and the evidence level, which is the highest iff the observations and sources are releasable. |
| `ReplicateTotals.ReplicateFlagsTell` | src/prompt_performance_engine/benchmark_replicates.py:1436-1476 | The counters of flags of each replicate are the numbers of cases in which its own observation carries the flag, and its own release gate holds iff there are twelve domains, in each of which it saw five cases or more, more wins than losses and no flag, and over all cases it is ahead by a tenth of them. |
| `ReplicateTotals.DomainsTell` | src/prompt_performance_engine/benchmark_replicates.py:1392-1450 | An accepted report has a result for exactly the domains of its rows, and it counts the cases of that domain that end in a win, a tie or a loss. |
| `Replicates.DomainGateFromObservations` | src/prompt_performance_engine/benchmark_replicates.py:1201-1226 | The counting loop gives the gate: at least five observations, more wins than losses, and no regression, fatal flaw or hard failure. |
| `Replicates.SumsAreCounts` | src/prompt_performance_engine/benchmark_replicates.py:1461-1467 | Added up over any duplicate-free list of the domains, a replicate's gates give its counts over all cases, so the producer's sorted order and the validator's order of appearance agree. |
| `Replicates.FactsFromSums` | src/prompt_performance_engine/benchmark_replicates.py:1461-1476 | The facts that such sums lead to, including the replicate's release gate, are the ones the rows determine. |
| `Replicates.ReleaseMeans` | src/prompt_performance_engine/benchmark_replicates.py:2204-2215 | An accepted release gate means at least three replicates, twelve domains and sixty cases, and in every domain every replicate wins more than it loses with no regression, fatal flaw or hard failure. |
| `ReplicateAggregation.CheckIndependence` | src/prompt_performance_engine/benchmark_replicates.py:1326-1342 | The accumulating loop holds iff no two runs share a provider response or a receipt. |
| `ReplicateAggregation.BuildRow` | src/prompt_performance_engine/benchmark_replicates.py:1356-1390 | The loop over the runs yields the case's observations in run order with their consensus, agreement and stability. |
| `ReplicateAggregation.BuildRows` | src/prompt_performance_engine/benchmark_replicates.py:1344-1390 | The nested loops yield one row for each case, domain by domain in sorted order. |
| `ReplicateAggregation.SumFlags` | src/prompt_performance_engine/benchmark_replicates.py:1431-1445 | The nested sum counts a flag over all observations of the rows. |
| `ReplicateAggregation.BuildDomain` | src/prompt_performance_engine/benchmark_replicates.py:1393-1450 | Filtering the rows of one domain and gating each replicate and the consensus yields the domain's result. |
| `ReplicateAggregation.BuildDomains` | src/prompt_performance_engine/benchmark_replicates.py:1392-1450 | The loop over the sorted domains yields the result of every domain that has rows. |
| `ReplicateAggregation.BuildFacts` | src/prompt_performance_engine/benchmark_replicates.py:1453-1476 | Looking the replicate up by its index in each domain result and adding up yields the facts of the rows. |
| `ReplicateAggregation.BuildAggregate` | src/prompt_performance_engine/benchmark_replicates.py:1529-1573 | The sums and gates over rows, results and facts yield the aggregate. |
| `ReplicateAggregation.AggregateBenchmarkReplicates` | src/prompt_performance_engine/benchmark_replicates.py:1298-1625 | A report exists iff the runs fit together, are independent, and their summaries claim the gates that follow; it is then the one the rows determine. |
| `ReplicateRuns.AggregatedAccepted` | src/prompt_performance_engine/benchmark_replicates.py:1298-2303 | Every report aggregated from compatible runs satisfies what the validator requires. |
| `ReplicateValidation.SameIds` | src/prompt_performance_engine/benchmark_replicates.py:1820-1825 | Comparing the sorted lists of replicate ids is the same as one observation of each replicate. |
| `ReplicateValidation.CheckRow` | src/prompt_performance_engine/benchmark_replicates.py:1801-1865 | The row check holds iff the row is complete over the replicates and its counts, consensus, agreement and stability follow from its observations. |
| `ReplicateValidation.CheckRows` | src/prompt_performance_engine/benchmark_replicates.py:1763-1866 | The row loop accepts iff every row is right and no case repeats; its table then groups the rows by domain in the order of first appearance. |
| `ReplicateValidation.RecomputeDomains` | src/prompt_performance_engine/benchmark_replicates.py:1936-2003 | The recomputation from the groups agrees with the claimed results iff they are the ones the rows determine, and leaves each replicate's gates in the order of the groups. |
| `ReplicateValidation.CheckFacts` | src/prompt_performance_engine/benchmark_replicates.py:2005-2120 | The recomputed facts, added up in the order of the groups, agree with the claimed ones iff they are the ones the rows determine. |
| `ReplicateValidation.RecomputeAggregate` | src/prompt_performance_engine/benchmark_replicates.py:2163-2239 | The validator's own totals yield the aggregate that rows, results and facts determine. |
| `ReplicateValidation.ValidateReplicateReport` | src/prompt_performance_engine/benchmark_replicates.py:1628-2303 | The recomputation accepts iff rows, sources, per-domain and per-replicate gates, coverage, aggregate and evidence are all derived. |

## Left out

Idealizations that hold throughout:

- SHA-256, HMAC, self-hashes and reservation tokens: a hash is the value it was taken of, so it is
  injective, and a token is a number the caller presents. Digest-based draws (the blind coin, the
  sampling order) are arbitrary functions, and the theorems hold for all of them.
- Field sets, Python types, identifier and digest patterns, schema versions and timestamps: values
  are of the right shape already, and evidence never expires.
- Lists and dictionaries whose order the engine does not use are sets and maps.
- Message texts of failures: findings are named constructors where only emptiness matters.
- Floating point: a finite float is the text Python prints for it, and what the loader reads a number
  token as is an arbitrary function that reads every such text back as itself. Statistics use exact
  reals; the normal quantile and the roots that two of them take are given to the methods.
- Recursion limits and memory errors of the Python runtime.

What single members leave open:

- ExecutionPlan.ValidateExecutionPlan: not the plan's self-hash, which has no counterpart among the model's fields.
- HostObject.FrontierExecutionHost.Open: not the preflight authorization, expiry, embedded receipts or model digests that the constructor also checks, because they are bulk schema checks.
- HostRuns.EveryInterleavingKeepsInv: what an interrupt costs before and after the block that handles interrupts is the subject of HostInterrupts.
- HostManifest.CompletedHostWithinMaximums: the bundle validator's other bindings (src/prompt_performance_engine/frontier_host.py:1544-1694) are equality checks read off the line.
- WriteOnce.RemovesOnlyItsOwn: a rollback's identity check and its unlink are one step, though the code makes two calls between which a name could be replaced; an I/O error in either leaves the name, as in the code. Parent directories, symbolic links, containment and syncing are not modelled.
- Quality.QualityDistributionSummary: exact sums, where the code adds rounded floating-point numbers.
- ReviewPacket.CreateReviewerPacket: the records are given; how they are gathered from reports and run directories is left out.
- ReviewValidation.ValidatePacketKey: for records filed under their own ids, as their loader files them.
- Evaluation.CheckRecord: not the execution settings' and metadata's own fields or the classification of hard checks by name, which are schema checks.
- Evaluation.EvaluateCase: the executor's outputs, the hard checks' results and the judges' answers are inputs.
- ReportStatus.BuildFrontierReport: the scope, timestamps and metric fields of the input and the release policy's own fields are left out; only what binds the policy to the input is kept.
- ReplicateAggregation.AggregateBenchmarkReplicates: runs are already loaded; artifact and payload fingerprints are opaque, and two runs with the same manifest or summary are refused with the incompatible ones rather than by the final check of the report.

Parts of the engine that are not modelled:

- Bootstrap intervals, linear quantiles, cost, latency and robustness summaries: loops over draws or fields with no deep invariant beside those proved here.
- Submission checks and the remaining accounting of the human-review aggregate: field checks and counters of the kind already shown.
- The claim inventory (src/prompt_performance_engine/frontier_reporting.py:848-1270): field checks against a report.
- The rest of the campaign, policy and commitment validators: long lists of schema checks.
- Provider adapters, subprocess and HTTP code, the command line, caches and the sandbox: input and output only.
- Prompt audit, prompt compilation, domain checks and profiles: text tables and patterns.
