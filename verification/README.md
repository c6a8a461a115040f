# Kalyx: a verified model of the governance runtime

Kalyx lets autonomous agents spend credits under governance: a double-entry ledger holds the
credits, a policy engine and humans decide what may happen, an execution boundary moves credits
through escrow while a provider is called, and everything is audited. This project models that
money and governance core in Dafny and proves what every run of it keeps.

Each component has two layers. The specification is a set of functions over immutable values: one
function per operation, including every refusal. On top of it stand invariants and theorems over
all runs. Beside it, a class with the fields of the Python object carries the operations out step by
step, and each method is proved to leave exactly the state its function computes. A third set of
modules, named `...Results`, says what one call of each main operation does without mentioning those
functions: by the inputs, in states, counters, balances and inequalities. So a branch changed in a
function and in its method alike does not go unnoticed.

| file | component |
|---|---|
| `Ledger.dfy` | the double-entry ledger |
| `Execution.dfy` | consequential execution, crash by crash; reconciliation; the auditor's ledger check |
| `PurchaseLoop.dfy` | the governed purchase loop |
| `PurchasePolicy.dfy` | purchase bounds, human approvals, revocation, the beneficiary allowlist |
| `GovernedLoop.dfy` | the purchase loop run under the purchase policy, with approvals issued and revoked around it |
| `Reputation.dfy` | outcome recording, scores, lifecycle, the policy engine's rule loop |
| `Allocator.dfy` | the three allocation strategies |
| `EventStore.dfy` | the hash-chained event store |
| `Missions.dfy` | self-funded missions and surplus reconciliation, on top of the purchase loop |
| `Marketplace.dfy` | escrowed orders over two ledgers, on top of surplus reconciliation |
| `Replan.dfy` | bounded replanning and the two state machines |
| `RateLimiter.dfy` | the sliding-window limiter |
| `Quorum.dfy` | two-person resumption and the circuit breaker |
| `Readings.dfy` | what a signed approval can be read as, and so what a resume rests on |
| `Text.dfy` | delimiter-joined text and numerals, as hashed and signed elsewhere |
| `ExecutionResults.dfy` | one call at the execution boundary by provider answer, one reconciliation by status, every refusal |
| `LoopResults.dfy` | one step of the purchase loop by decision, outcome and evidence |
| `PolicyResults.dfy` | when the purchase policy allows, asks and denies, and what issuing and revoking change |
| `ReplanResults.dfy` | how a call on the engine ends by the answers it got, and the two state tables |
| `ReputationResults.dfy` | what each outcome costs or gains, where the lifecycle puts an agent, the default rules |
| `AllocatorResults.dfy` | weights in points, shares as inequalities, who takes part |
| `MissionResults.dfy` | one mission and one surplus claim by their inputs |
| `MarketResults.dfy` | each marketplace operation on an order and both ledgers |
| `QuorumResults.dfy` | when a place may be resumed, and what pausing and resuming change |

## Where the code and its promises differ

Where the code does not meet a property everywhere, the model keeps the code's behaviour, and a
theorem says when the property holds or gives an input on which it fails.

- A transfer to the mint account breaks conservation; an accepted transfer keeps it if and only if
  its destination is another account (`TransferConservesIff`). The private mint is unchecked: it keeps
  a ledger valid if and only if the amount is positive (`MintKeepsValidIff`).
- Reconciliation settles an operation a second time if and only if the provider's status contradicts
  a settlement already on the ledger and escrow still holds enough of other operations' credits
  (`ResolveSafeIff`, `DoubleSettlement`). A run from a new ledger gets there (`DoubleSettlementIsReached`).
  The run theorems assume a provider that does not do that.
- An operation that fails on a consumed token has moved no credits, yet the auditor asks for its rollback. It
  finds one exactly if the owner of the token was rolled back for the same amount (`ReplayerAuditedIff`).
- The purchase loop's duplicate-intent branch can never be taken (`ProposalIsNew`).
- Revoking approvals by intent hash revokes the latest one only (`RevokeByHashIff`); an earlier
  approval for the same intent still allows the purchase when presented (`EarlierApprovalSurvives`).
- An allowlist entry that is an address followed by a newline is honoured for the bytes32 spelling
  of that beneficiary and not for the address (`CheckIsMembershipIff`).
- A failure that consumed credits raises an efficiency below 0.1 to 0.1 (`WastedRaisesIff`). So no such
  failure makes the status of any agent of a given efficiency less severe if and only if that efficiency
  is at least 0.1 (`BadOutcomeNeverHelpsIff`); a new agent can get there without any performance record
  (`BadOutcomeHelpsNewAgent`).
- After a suspension the status may recover, the permissions never do (`OnceSuspendedNeverApproved`,
  `StatusRecoversPermissionsDoNot`). A suspended or restricted agent has ceiling 5, not 0, exactly when
  a performance record was passed and its composite is below 60 (`SidelinedCeiling`).
- STATIC allocation exceeds a ceiling for restricted agents only (`StaticExceedsCeilingIff`), and
  ADAPTIVE weights rank every restricted or probationary agent above every active one
  (`SidelinedOutweighActive`).
- A head hash pins down an accepted event chain if and only if no name in that chain holds the delimiter
  (`HeadPinsIff`); two different chains that share one are given (`DelimiterInFieldHidesChange`).
- The two-person rule for resuming fails for some names. What counts is where the marker
  `:tenant:action:target:hash:` of a place stands in the signed text of an approval. One signed text gives
  the votes of two people for a place if and only if that place's marker stands there twice (`TwoVotesIff`),
  and then the one approval resumes alone (`ResumesAloneIff`, `OneApprovalResumes`). An approval serves at
  most one resume if and only if all markers in its text stand at one position (`ServesOnceIff`); one with a
  separator in its tenant name can serve two, of two places (`AmbiguousServesTwice`). Where the markers of
  every issued approval stand at one position, each resume has two approvals of its own
  (`TwoApprovalsPerResume`); names without the separator are enough for that (`PlainHasOneMarker`). No
  presented approval id serves two resumes in any case (`EveryRunIsSound`).
- A bounty stays in REVENUE when the reconciler refuses after the deposit (`StrandedIff`), as it does when
  a settled order is carried out again (`SecondSettlementStrands`).
- A mission's budget holds against every answer of policy and provider, in every state of the purchase loop,
  if and only if the loop's exposure is within it (`BudgetHoldsIff`): what a human has approved, or what the
  loop would buy for its own need. The preflight prices the mission's shortfall instead. A mission that
  settles with fifty times its budget is given (`BudgetCanBeOverspent`).
- A marketplace settlement that the reconciler refuses has already charged both ledgers; the order can
  then be refunded too if and only if the other held bounties cover it (`StepKeepsInvIff`,
  `DerailedThenRefundIff`); a run gets there (`ReleasedAndRefunded`). The docstring of `refund_escrow` says OPEN or CANCELLED orders only; the code
  refunds claimed orders as well, and the model follows the code.
- With a limit below one the rate limiter fails on an empty history (`BrokenIff`).

## Assumptions

- Calls are sequential. A crash is possible between any two durable writes of the execution boundary,
  of its reconciliation, and between consuming a quorum and resuming. Calls of the purchase policy from
  outside fall between the steps of the purchase loop.
- Digests are collision-free, and valid tags exist only for what was signed. A digest of an id stands for
  the id itself; generated uuids are fresh. Where text is signed or hashed, the joined text is modelled
  and its fields are recovered from it.
- Scores, weights and clock readings are exact reals, and instants in signed approvals are whole ticks;
  `round(x, 2)` rounds half to even.
- Providers, executors, auditors, planners, policies outside the modelled rules and humans answer
  anything: their answers are parameters of each step.

## Model

| member | source | states |
|---|---|---|
| Ledger.EveryLedgerIsSound | src/economy/ledger.py:30-117 | After any sequence of mints, deposits and transfers, refused or not, from an opened ledger: every non-mint balance is the fold of the entry log, ids are unique, all balances add up to the minted total, and the conservation check passes exactly when the mint account is empty, which it is as long as no call names it; nothing is overdrawn as long as the unchecked mint gets positive amounts |
| Ledger.RunKeepsValid | src/economy/ledger.py:30-113 | The same over runs from any consistent ledger, and an empty mint account stays empty unless a call names it |
| Ledger.MintKeepsValidIff | src/economy/ledger.py:30-45 | The unchecked mint keeps a valid ledger valid exactly when the amount is positive |
| Ledger.ConservedIffMintEmpty | src/economy/ledger.py:115-117 | On every reachable ledger the conservation check passes exactly when the mint account is empty |
| Ledger.TransferConservesIff | src/economy/ledger.py:71-108 | An accepted transfer keeps conservation if and only if its destination is not the mint |
| Ledger.TransferToMintBreaksConservation | src/economy/ledger.py:86-117 | A concrete accepted transfer after which the check fails |
| Ledger.DoubleEntryLedger.MintTo | src/economy/ledger.py:30-45 | The new ledger state, for any amount |
| Ledger.DoubleEntryLedger.DepositRevenue | src/economy/ledger.py:47-66 | The new ledger state, or an unchanged one with the reason of refusal, with chosen or generated ids |
| Ledger.DoubleEntryLedger.Move | src/economy/ledger.py:71-108 | The same for transfers, refusals in the code's order; a refused call changes nothing |
| Ledger.DoubleEntryLedger.VerifyConservation | src/economy/ledger.py:115-117 | The loop over accounts decides conservation |
| Ledger.TransferLogs | src/economy/ledger.py:71-108 | When a transfer is accepted, the entry it logs and every balance after it; otherwise the first reason of refusal |
| Ledger.DepositIs | src/economy/ledger.py:47-66 | The same for a deposit into REVENUE |
| Execution.EscrowIsWhatIsHeld | src/execution/consequential.py:318-492 | Over every run of proposals, reconciliations and foreign ledger use, with the process dying anywhere: ESCROW is the sum of the operations locked and not settled, at most one of an operation's four settlement ids (commit or rollback, direct or reconciled) is on record, none is settled without its lock, ids never repeat |
| Execution.DispatchedAtMostOnce | src/execution/consequential.py:285-386 | Over every such run the provider hears of each idempotency key and of each authorization token at most once |
| Execution.RunKeepsInv | src/execution/consequential.py:494-534 | The full invariant is kept by every run of steps |
| Execution.ExecuteKeepsInv | src/execution/consequential.py:494-534 | One proposal call keeps it wherever the call stops, for every provider answer, including calls that resume an operation left behind by an earlier crash |
| Execution.ConsumeInv | src/execution/consequential.py:285-305 | Writing a consumed token to the journal, before the operation's state is saved, keeps the invariant |
| Execution.AuthorizeInv | src/execution/consequential.py:285-309 | A freshly consumed token takes exactly one operation past CREATED |
| Execution.DispatchInv | src/execution/consequential.py:372-385 | Saving SUBMITTED keeps the invariant, and so does the dispatch that follows it, which is the operation's first |
| Execution.LockPhase | src/execution/consequential.py:323-350 | An operation that died between its lock transfer and its state write finds the lock again instead of locking twice |
| Execution.SettleInv | src/execution/consequential.py:405-465 | A settlement finds its credits in escrow and is the operation's only one |
| Execution.ScanIsExact | src/settlement/reconciliation.py:97-166 | The service's scans of the log find exactly the recorded settlements, commits and refunds, direct or reconciled |
| Execution.ReconcileKeepsInv | src/settlement/reconciliation.py:46-222 | Reconciliation, dying anywhere, keeps the invariant unless the provider contradicts a recorded settlement |
| Execution.ResolveSafeIff | src/settlement/reconciliation.py:94-206 | Resolving keeps the invariant if and only if it is not the case that the status contradicts the ledger and escrow covers the amount |
| Execution.DoubleSettlement | src/settlement/reconciliation.py:113-176 | In that case the operation ends both committed and rolled back |
| Execution.DoubleSettlementIsReached | src/settlement/reconciliation.py:151-176 | A run from a new ledger that ends there: one call dies after its commit, another stays open, and the provider then denies the first |
| Execution.AuditConfirmsOwners | src/audit/auditor.py:340-375 | The auditor's ledger check accepts every operation that got past the replay barrier, in every reachable store |
| Execution.ExecutionManager.CreateOperation | src/execution/consequential.py:200-272 | Creation or idempotent reuse, with its refusals |
| Execution.ExecutionManager.AuthorizeOperation | src/execution/consequential.py:274-316 | Token consumption and the replay failure |
| Execution.ExecutionManager.EscrowOperation | src/execution/consequential.py:318-358 | Lock or recovery of the lock |
| Execution.ExecutionManager.SubmitOperation | src/execution/consequential.py:360-492 | Ends as the submission phase of the specification, dying anywhere; `ExecutionResults.ExecuteByAnswer` says where that leaves the amount |
| Execution.ExecutionManager.Execute | src/execution/consequential.py:494-534 | The whole call ends in the state and outcome of its specification for every crash point; the `ExecutionResults` rows say which those are |
| Execution.ExecutionManager.ReconcileOperation | src/settlement/reconciliation.py:46-222 | The same for reconciliation, whose results are `ExecutionResults.ReconcileByStatus` and `ReconcileLeavesRest` |
| ExecutionResults.ExecuteByAnswer | src/execution/consequential.py:318-534 | From any reachable store and from wherever an earlier call left the operation, a call that goes through uses up its token, is dispatched once and ends by the provider's answer alone: SUCCESS pays EXTERNAL_SINK (SUCCEEDED, receipt, commit on record), FAILURE puts every credit back in TREASURY (FAILED, rollback on record), anything else leaves the amount in ESCROW (UNKNOWN, no settlement on record); no other operation or account changes |
| ExecutionResults.RefusedAtOnce | src/execution/consequential.py:207-219 | An unapproved request is a policy violation, one without a valid token, capability or other check is unauthorized, and nothing changes |
| ExecutionResults.AnsweredFromRecord | src/execution/consequential.py:224-256 | A taken key is refused across tenants or organisations and for another fingerprint; an operation already sent is answered from its state; nothing changes |
| ExecutionResults.ReplayedTokenFails | src/execution/consequential.py:285-305 | A consumed token fails an operation that was only created, and nothing moves or is sent |
| ExecutionResults.UnfundedWaits | src/execution/consequential.py:323-358 | Without the credits to lock the call is refused, the operation stays AUTHORIZED and the ledger is untouched |
| ExecutionResults.ReconcileByStatus | src/settlement/reconciliation.py:75-206 | For every status that does not deny a recorded settlement: SUCCESS ends RECONCILED and committed, and EXTERNAL_SINK grows by the amount exactly if it was not committed before; FAILURE ends RECONCILED and rolled back, TREASURY growing likewise; an unclear status ends UNKNOWN and a raised one stays RECONCILING, both with the ledger untouched |
| ExecutionResults.ReconcileLeavesRest | src/settlement/reconciliation.py:46-73 | Unknown, foreign, finished and not yet sent operations are answered without any change |
| ExecutionResults.ReplayerAuditedIff | src/audit/auditor.py:340-375 | A replay that failed on a consumed token passes the ledger part of the audit exactly when the token's owner was rolled back for the same amount |
| PurchaseLoop.EveryLoopIsSound | src/agents/orbio_purchase_loop.py:252-608 | Over every run of steps and approvals: ESCROW is the pending operation's amount, EXTERNAL_SINK grew by exactly the succeeded and reconciled operations, spending stays in budget, dispatches are at most iterations and those within the limit, completed intents are pairwise distinct, an operation is pending exactly while unresolved |
| PurchaseLoop.RunKeepsInv | src/agents/orbio_purchase_loop.py:252-608 | The full invariant over runs |
| PurchaseLoop.StepKeepsInv | src/agents/orbio_purchase_loop.py:252-608 | One step keeps it and raises only for a foreign tenant |
| PurchaseLoop.NothingNewWhileUnresolved | src/agents/orbio_purchase_loop.py:545-608 | While an outcome is open nothing is proposed, created or dispatched |
| PurchaseLoop.AnsweredKeepsInv | src/agents/orbio_purchase_loop.py:429-541 | For every provider outcome the funded operation is settled, refunded or, on a timeout only, left pending |
| PurchaseLoop.ReconcileKeepsInv | src/agents/orbio_purchase_loop.py:545-608 | Reconciling the pending purchase keeps the invariant and never raises; `LoopResults.ReconcilesByEvidence` says who gets the credits |
| PurchaseLoop.SizeIsLeast | src/agents/orbio_purchase_loop.py:245-250 | The sized amount is the least USDG whose fill covers the need |
| PurchaseLoop.ProposalIsAsSized | src/agents/orbio_purchase_loop.py:193-240 | The clamps in proposing never change what the step sized |
| PurchaseLoop.RunKeepsPendingSized | src/agents/orbio_purchase_loop.py:321-363 | Over every run the purchase a loop waits for a human about is still the one it would size now |
| GovernedLoop.ProposalPassesSlippage | src/governance/orbio_purchase_rules.py:488-500 | The policy's bound checks never answer a loop proposal with a slippage denial |
| GovernedLoop.EveryDispatchIsBacked | src/agents/orbio_purchase_loop.py:316-380 | Over every run of loop steps, supplied approvals and issue and revoke calls: the dispatches are distinct operations, each for the very intent the policy allowed at that moment, and above the autonomous ceiling each rests on an approval this policy issued for exactly that intent, unexpired and unrevoked at the dispatch |
| GovernedLoop.EveryDispatchInBounds | src/governance/orbio_purchase_rules.py:482-531 | Over every such run no dispatch is above the absolute ceiling, outside another bound, after its deadline, or to an unknown deployment or unlisted beneficiary |
| GovernedLoop.OneDispatchPerApproval | src/agents/orbio_purchase_loop.py:303-380 | Over every such run two dispatches above the ceiling rest on approvals for different intent hashes, so no approval backs two |
| GovernedLoop.RevokedBacksNoDispatch | src/governance/orbio_purchase_rules.py:353-368 | From the moment an approval id is revoked no above-ceiling dispatch rests on it, whatever happens later |
| GovernedLoop.StepDispatches | src/agents/orbio_purchase_loop.py:252-541 | A step dispatches at most once, only on an ALLOW and only the intent it asked about, and never changes an earlier operation's intent |
| GovernedLoop.HashIsIntent | src/domain/blockchain.py:251-281 | Intents of the loop with one intent hash are equal |
| PurchaseLoop.ProposalIsNew | src/agents/orbio_purchase_loop.py:303-311 | A new proposal never repeats a completed intent |
| PurchaseLoop.FillMeetsBound | src/agents/orbio_purchase_loop.py:295-301 | At 9000 basis points or more every positive fill meets the minimum asked for |
| PurchaseLoop.IdealStep | src/agents/orbio_purchase_loop.py:252-541 | With an allowing policy and a full fill one step acquires the fill and spends the size |
| PurchaseLoop.CompletesWithin | src/agents/orbio_purchase_loop.py:252-541 | With such answers the loop completes within k steps whenever k capped fills cover the target inside budget, iterations and treasury |
| PurchaseLoop.AgentLoop.StepOnce | src/agents/orbio_purchase_loop.py:252-342 | The imperative step computes the specified state and raises when it does; `LoopResults.StepByCase` says what that state is |
| PurchaseLoop.AgentLoop.WaitForHuman | src/agents/orbio_purchase_loop.py:344-380 | The waiting state: kept without approval, re-evaluated with one |
| PurchaseLoop.AgentLoop.ExecutePurchase | src/agents/orbio_purchase_loop.py:382-541 | Funding, dispatch and settlement of an authorized intent |
| PurchaseLoop.AgentLoop.ReconcilePending | src/agents/orbio_purchase_loop.py:545-608 | Refines the reconciling branch of the specification, whose results are `LoopResults.ReconcilesByEvidence` |
| LoopResults.StepByCase | src/agents/orbio_purchase_loop.py:252-608 | Every step of every sound loop by its status: complete, propose and decide, wait or resume for a human, reconcile, or stay stopped |
| LoopResults.BeginsByDecision | src/agents/orbio_purchase_loop.py:264-342 | A ready loop stops for its limits in order, or proposes the one right intent and follows the policy's decision on it |
| LoopResults.ExecutesByOutcome | src/agents/orbio_purchase_loop.py:382-541 | An authorized intent, by funds, outcome and evidence fields: unfunded and unsent; timed out with the amount in ESCROW and pending; paid to EXTERNAL_SINK with CREDIT and USDG counted when the evidence matches; otherwise every credit back in TREASURY, nothing counted, stopped |
| LoopResults.ReconcilesByEvidence | src/settlement/orbio_purchase_reconciliation.py:224-296 | A pending purchase: matching evidence pays EXTERNAL_SINK and counts; a failure, missing or mismatching evidence, too little CREDIT included, refunds TREASURY, counts nothing and stops; an open status moves nothing; without a reconciler the loop stops unknown |
| LoopResults.SizedRight | src/agents/orbio_purchase_loop.py:245-294 | The size proposed is within both limits, and no smaller one covers the need |
| LoopResults.ProposedIsOne | src/agents/orbio_purchase_loop.py:245-301 | Size, minimum and amount of the next intent are determined by what is promised of them |
| PurchasePolicy.EveryAllowRestsOnApproval | src/governance/orbio_purchase_rules.py:533-599 | Over every sequence of issue and revoke calls, an ALLOW above the autonomous ceiling rests on an approval this policy issued for this intent hash, identical in every signed field, unexpired, unrevoked and registered, even when others hold the same signing secret |
| PurchasePolicy.PresentedIsIssued | src/governance/orbio_purchase_rules.py:160-194 | A presented approval that passes is the one on the registry, recovered from the joined signed text |
| PurchasePolicy.PayloadDetermines | src/governance/orbio_purchase_rules.py:300-311 | The signed text determines id, hash, the middle fields and both instants when id and hash hold no delimiter |
| PurchasePolicy.RevokedNeverAllows | src/governance/orbio_purchase_rules.py:353-368 | A revoked id never carries an above-ceiling ALLOW again, whatever follows |
| PurchasePolicy.RevokeRegisters | src/governance/orbio_purchase_rules.py:353-368 | Revoking an issued id always registers it as revoked |
| PurchasePolicy.RevokeByHashIff | src/governance/orbio_purchase_rules.py:353-368 | Revoking by intent hash revokes an issued approval exactly when it is the one on file for the hash (or the hash happens to be its id) |
| PurchasePolicy.EarlierApprovalSurvives | src/governance/orbio_purchase_rules.py:353-368 | Two approvals and a revocation by hash: the first still allows, the second does not |
| PurchasePolicy.OnFileAllowsIff | src/governance/orbio_purchase_rules.py:533-599 | With nothing presented, an in-bounds intent is allowed exactly when the approval on file is unexpired and unrevoked |
| PurchasePolicy.BeneficiaryAllowed | src/governance/orbio_purchase_rules.py:454-480 | The three-way search equals membership of the padded form, plus the newline case for bytes32 keys |
| PurchasePolicy.CheckIsMembershipIff | src/governance/orbio_purchase_rules.py:454-480 | It is plain membership for every key exactly when each newline-terminated address is also listed without the newline |
| PurchasePolicy.NewlineEntrySplitsSpellings | src/domain/blockchain.py:24-45 | A concrete allowlist on which the two spellings of one beneficiary differ |
| PurchasePolicy.OrbioPurchasePolicy.IssueHumanApproval | src/governance/orbio_purchase_rules.py:313-351 | The approval issued and both registries afterwards |
| PurchasePolicy.OrbioPurchasePolicy.RevokeHumanApproval | src/governance/orbio_purchase_rules.py:353-368 | The registries after either kind of key |
| PurchasePolicy.OrbioPurchasePolicy.EvaluateIntent | src/governance/orbio_purchase_rules.py:377-611 | The verdict of the specification in the code's order of checks; the `PolicyResults` rows say when it allows and with which code it denies |
| PolicyResults.AllowsIff | src/governance/orbio_purchase_rules.py:377-611 | For every desk and whatever is presented: ALLOW exactly when the deployment is known, the beneficiary is on a list in force, every amount, fill, gas and deadline bound holds, and the USDG is within the autonomous ceiling or an issued, tagged, unrevoked, unexpired approval for this very intent counts |
| PolicyResults.AsksHumanIff | src/governance/orbio_purchase_rules.py:533-551 | A human is asked exactly when nothing but an approval is missing |
| PolicyResults.DeniedByFirstFault | src/governance/orbio_purchase_rules.py:395-531 | An intent over the absolute ceiling, with an invalid minimum, or over another bound is denied with that bound's code, the first one that fails |
| PolicyResults.UnknownByFirstField | src/governance/orbio_purchase_rules.py:403-448 | The code for an unknown deployment names the first field or pair that no known deployment has |
| PolicyResults.ApprovalFault | src/governance/orbio_purchase_rules.py:553-593 | An unusable approval denies with its first fault: revoked, not issued or not tagged here, expired, for another intent, of another party |
| PolicyResults.IssuedAllowsUntilExpiry | src/governance/orbio_purchase_rules.py:313-351 | An approval just issued allows its in-bounds purchase up to its last second, unless its id was revoked beforehand, whatever was on file |
| PolicyResults.IssueAs | src/governance/orbio_purchase_rules.py:313-351 | Both registries, field by field, after an approval is issued; nothing else changes |
| PolicyResults.RevokeAs | src/governance/orbio_purchase_rules.py:353-368 | Exactly which ids are revoked by a key read as hash, id or both, and what leaves the two registries |
| Reputation.PermissionsOnlyShrink | src/economy/reputation.py:316-375 | Over every run, with any performance records, the permitted actions never grow and RETIRED is final |
| Reputation.OnceSuspendedNeverApproved | src/governance/rules.py:35-42 | Once suspended, no later state of the agent passes the default rules for any proposal |
| Reputation.StatusRecoversPermissionsDoNot | src/economy/reputation.py:343-364 | A new agent can be suspended and be on probation again with no permitted action |
| Reputation.SidelinedCeiling | src/economy/reputation.py:343-375 | The exact ceiling of suspended, restricted and retired agents after a lifecycle evaluation |
| Reputation.EvaluateProposal | src/governance/policy_engine.py:201-262 | Approved or escalated exactly when the agent exists, no rule is violated and the threshold says so; a rejection names the first violated rule and the rules tried |
| Reputation.NewAgentRuns | src/economy/reputation.py:93-188 | From a new agent, over any outcomes: scores stay in range, status is what scores and streak say, and with efficiency at least 0.1 a failure or violation never makes the status less severe |
| Reputation.BadOutcomeNeverHelps | src/economy/reputation.py:93-188 | For any coherent agent a failure or violation never makes the status less severe, given efficiency at least 0.1 when the failure consumed credits |
| Reputation.BadOutcomeNeverHelpsIff | src/economy/reputation.py:112-129 | Among all coherent agents of one efficiency no charged failure makes the status less severe if and only if that efficiency is at least 0.1 |
| Reputation.HandleKeepsCoherent | src/economy/reputation.py:228-302 | Every recorded outcome keeps scores within [0, 100] and status equal to their classification |
| Reputation.CompositeMonotone | src/economy/reputation.py:249-278 | The rounded composite is monotone in success rate, compliance and efficiency |
| Reputation.WastedRaisesIff | src/economy/reputation.py:114-116 | A charged failure raises the recorded efficiency if and only if it was below 0.1 |
| Reputation.BadOutcomeHelpsNewAgent | src/economy/reputation.py:34-188 | A run of outcomes from a new agent, without any record, after which a charged failure moves it from suspended to restricted |
| Reputation.FifteenBadOutcomesRetire | src/economy/reputation.py:293-346 | Fifteen bad outcomes in a row retire any agent, after any history, with or without records |
| Reputation.ConsecutiveFailures | src/economy/reputation.py:293-302 | The reverse loop counts the bad outcomes since the last success |
| Reputation.UpdateScores | src/economy/reputation.py:227-291 | The scores written, with and without a record |
| Reputation.EvaluateLifecycle | src/economy/reputation.py:315-375 | Status, ceiling, permissions and authority level written |
| Reputation.RecordTaskSuccess | src/economy/reputation.py:34-76 | The whole effect of a success on agent and record |
| Reputation.RecordTaskFailure | src/economy/reputation.py:92-129 | The whole effect of a failure |
| Reputation.RecordPolicyViolation | src/economy/reputation.py:145-174 | The whole effect of a violation |
| Reputation.RecordExecutionOutcome | src/economy/reputation.py:206-225 | The effect of an execution outcome |
| Reputation.EvaluatePerformance | src/economy/reputation.py:442-486 | The effect of a stored evaluation, which overwrites the agent's counters |
| ReputationResults.FailureCosts | src/economy/reputation.py:92-129 | A failure costs five points of reputation and, if charged, leaves 0.85 of the efficiency but at least a tenth; scores, status, ceiling, permissions and level follow as below |
| ReputationResults.ViolationCosts | src/economy/reputation.py:145-174 | A violation costs ten points and adds fifteen to the risk, both kept within a percentage |
| ReputationResults.SuccessGains | src/economy/reputation.py:34-76 | A success gains three points and mixes three parts of ten of the bounded use of credits into the efficiency |
| ReputationResults.EvaluationOverwrites | src/economy/reputation.py:442-486 | A stored evaluation adds to the record and makes its counters the agent's own |
| ReputationResults.ExecutionOutcomeCounts | src/economy/reputation.py:206-225 | An execution outcome changes the record and the scores only, and nothing without a record |
| ReputationResults.UpdateScoresAs | src/economy/reputation.py:227-291 | Reliability and composite are the roundings to cents of the weighted formulas, bounded to percentages |
| ReputationResults.RoundsToOne | src/economy/reputation.py:261-278 | A rounding to cents is unique, ties included |
| ReputationResults.LifecycleAs | src/economy/reputation.py:315-375 | Each status exactly by reputation, composite and streak; ceiling, permissions and level by the status, with promotion and demotion |
| ReputationResults.StreakCounts | src/economy/reputation.py:293-302 | The streak is the number of bad outcomes since the last success |
| ReputationResults.DefaultRulesIff | src/governance/rules.py:15-111 | A proposal passes the default rules exactly when the organisation runs, the status lets the agent act, treasury and ceiling cover the credits, the action is permitted and no other rule objects |
| Allocator.Distribute | src/economy/allocator.py:132-227 | The weighted loop gives each agent its own floor share capped by its ceiling, whatever the order, and the sum stays within the treasury |
| Allocator.ClampNeverBinds | src/economy/allocator.py:138-147 | The remaining-budget clamp never changes a share |
| Allocator.OrderDoesNotMatter | src/economy/allocator.py:137-147 | Two orders of the same agents give the same allocation |
| Allocator.AllocationMonotone | src/economy/allocator.py:114-227 | Higher scores, in the record or the agent, and a higher ceiling never lower the agent's own credits nor raise anyone else's |
| Allocator.ScoresRaiseWeight | src/economy/allocator.py:122-205 | Scores no lower in any part give a weight no lower, in both weighted strategies |
| Allocator.WeightedWithinCeiling | src/economy/allocator.py:142-145 | Weighted credits are never negative and never above a non-negative ceiling |
| Allocator.SidelinedOutweighActive | src/economy/allocator.py:166-205 | Adaptive weights of restricted and probationary agents exceed every active agent's |
| Allocator.StaticExceedsCeilingIff | src/economy/allocator.py:103-109 | Equal division exceeds a ceiling exactly for a restricted agent whose ceiling is below both 5 and the share |
| Allocator.StaticOverrunsRestricted | src/economy/allocator.py:104-105 | For an agent restricted by the lifecycle without a record that is every positive share |
| Allocator.DivideEqually | src/economy/allocator.py:95-112 | The equal shares, summing to at most the treasury |
| Allocator.Organisation.Allocate | src/economy/allocator.py:27-93 | Balances written for eligible agents only, by strategy; nothing written without treasury or eligible agents |
| AllocatorResults.AdaptiveWeightAs | src/economy/allocator.py:166-205 | The adaptive weight in points out of two thousand, a suited role counting three tenths more, with the fixed weights of sidelined agents |
| AllocatorResults.ShareAs | src/economy/allocator.py:132-227 | A weighted share is the whole credits of the agent's part of the damped treasury: not above it, and a whole credit below it only at the ceiling |
| AllocatorResults.StaticShareAs | src/economy/allocator.py:103-109 | An equal share is the largest within the limits of the agent's status |
| AllocatorResults.EligibleAs | src/economy/allocator.py:38-42 | The pass is over the agents neither suspended nor retired, each once |
| EventStore.AcceptedIffRebuilt | src/audit/event_store.py:59-87 | The check accepts exactly the chains that appending their own contents to an empty store produces |
| EventStore.EveryStoreAccepted | src/audit/event_store.py:16-54 | Every store grown from an accepted one by appends is accepted and extends it |
| EventStore.AppendAccepted | src/audit/event_store.py:16-54 | Appending neither breaks nor repairs acceptance |
| EventStore.PrefixAccepted | src/audit/event_store.py:59-87 | Every prefix of an accepted chain is accepted |
| EventStore.SameHeadSameHistory | src/audit/event_store.py:65-85 | Two accepted chains with the same last hash have equal length and agree event by event, names as joined text and payloads as canonical text, with no assumption on the fields |
| EventStore.SameHeadSameEvents | src/domain/events.py:39-49 | Any accepted chain with the head hash of an accepted chain without delimiters in its names agrees with it in every field of every event |
| EventStore.HeadPinsIff | src/domain/events.py:39-49 | An accepted chain is pinned down by its head hash, against every accepted chain, if and only if no name in it holds the delimiter |
| EventStore.NamesReadableIff | src/domain/events.py:48 | Three names are the only ones with their joined text if and only if none of them holds the delimiter |
| EventStore.TamperingIsDetected | src/audit/event_store.py:59-87 | A corollary: whatever replaces an accepted chain without delimiters in its names under the same head hash is rejected if it differs in any hashed field or in length |
| EventStore.DelimiterInFieldHidesChange | src/domain/events.py:48-49 | Two different accepted chains with one head hash when a field holds the delimiter |
| EventStore.AppendOnlyEventStore.AppendEvent | src/audit/event_store.py:16-54 | The event appended, keeping acceptance |
| EventStore.AppendOnlyEventStore.VerifyIntegrity | src/audit/event_store.py:59-87 | Accepts exactly the well-linked chains and otherwise reports the first fault with its kind |
| EventStore.AppendAs | src/audit/event_store.py:16-54 | The fields of an appended event, its link, and the seven joined parts its hash is of |
| EventStore.FaultMeans | src/audit/event_store.py:59-87 | Which fault an event is reported for |
| Missions.EverySeriesIsSound | src/agents/self_sustaining_loop.py:72-244 | Over any series of missions TREASURY, REVENUE and SURPLUS_RESERVE change by exactly what the outcomes report and each work order is reconciled at most once |
| Missions.SeriesIsAccounted | src/agents/self_sustaining_loop.py:72-244 | The same from any state that satisfies the joint invariant of loop, ledger and reconciler |
| Missions.SettledTreasuryEffect | src/agents/self_sustaining_loop.py:207-244 | A settled mission raises TREASURY by its mission allocation when the bounty covers the expense and lowers it by the shortfall otherwise, besides what the purchase step refunded |
| Missions.StrandedIff | src/agents/self_sustaining_loop.py:207-229 | REVENUE changes exactly when the bounty was deposited and the reconciler then refused |
| Missions.SecondSettlementStrands | src/economy/surplus_accounting.py:66-68 | A settled order carried out again ends with its bounty left in REVENUE and no event |
| Missions.ReconcileAllOrNothing | src/economy/surplus_accounting.py:60-153 | The reconciler refuses exactly for a stated reason, touching nothing, and otherwise moves the whole split |
| Missions.SplitIsExact | src/economy/surplus_accounting.py:85-96 | Reimbursement, reserve and mission budget add up to the bounty, with the reserve the exact floor |
| Missions.MissionIsAccounted | src/agents/self_sustaining_loop.py:72-244 | One mission, ending anywhere, keeps the invariant and accounts for the three accounts |
| Missions.StepFrame | src/agents/orbio_purchase_loop.py:252-608 | A purchase step leaves REVENUE and SURPLUS_RESERVE alone |
| Missions.BudgetAdmitsIff | src/agents/self_sustaining_loop.py:112-120 | The preflight admits exactly the native amounts that fit in the budget |
| Missions.BudgetHoldsIff | src/agents/self_sustaining_loop.py:94-161 | In every reachable state of the loop, waiting for a human or not, the measured expense of an admitted mission is within its budget for all answers of policy and provider if and only if the loop's exposure is |
| Missions.StepCost | src/agents/orbio_purchase_loop.py:252-608 | One step, from any reachable state, costs the treasury at most the exposure, and exactly that when the policy allows and the provider does not come back |
| Missions.AdmittedWithinBudget | src/agents/self_sustaining_loop.py:112-140 | The measured expense of an admitted mission is within its budget when the loop needs no more than the mission is short of, whether the loop buys now or has had its purchase approved |
| Missions.BudgetCanBeOverspent | src/agents/self_sustaining_loop.py:72-244 | A whole mission under a budget of one that is admitted, settles and reports an expense of fifty |
| Missions.SurplusReconciler.ReconcileSurplus | src/economy/surplus_accounting.py:51-153 | Ledger, events and result of one reconciliation |
| Missions.SelfSustainingLoopRunner.ObtainCredits | src/agents/self_sustaining_loop.py:83-161 | The acquisition branches, the measured expense and whether the mission goes on |
| Missions.SelfSustainingLoopRunner.ExecuteMission | src/agents/self_sustaining_loop.py:72-244 | Ledger, loop, events, final status and event of one mission |
| MissionResults.MissionByCase | src/agents/self_sustaining_loop.py:72-244 | Every mission from a sound state by its inputs: refused without trying, raised, declined or rejected with the ledger as the purchase step left it, verified with its bounty in REVENUE, or settled with every unit of the bounty placed and one event recorded |
| MissionResults.ReconcilesAs | src/economy/surplus_accounting.py:60-153 | The first of the objections refuses a claim with nothing moved; without one the event and all balances are as the split says |
| MissionResults.SplitDivides | src/economy/surplus_accounting.py:85-96 | Cost is the lesser of bounty and expense; the surplus divides into the whole units of the reserve ratio and the rest |
| Marketplace.EveryMarketIsSound | src/agents/b2b_marketplace_coordinator.py:75-491 | Over every interleaving without a derailed settlement: client ESCROW is the held bounties, what reached the client's EXTERNAL_SINK is what the provider ledger minted, and no order is both released and refunded |
| Marketplace.StepKeepsInvIff | src/agents/b2b_marketplace_coordinator.py:376-422 | Every step keeps the invariant except exactly a settlement the reconciler refuses after both ledgers were charged |
| Marketplace.DerailedThenRefundIff | src/agents/b2b_marketplace_coordinator.py:376-486 | After such a settlement the order can be refunded too exactly when the other held bounties cover it, and settling it again fails |
| Marketplace.ReleasedAndRefunded | src/agents/b2b_marketplace_coordinator.py:376-486 | A run from new ledgers after which one order is both released and refunded while another's bounty is gone from escrow |
| Marketplace.SettleIs | src/agents/b2b_marketplace_coordinator.py:303-422 | An admitted settlement is complete or leaves both postings with the order unchanged |
| Marketplace.RefundKeepsInv | src/agents/b2b_marketplace_coordinator.py:439-486 | A held escrow is always refundable, claimed or not, and nothing else is |
| Marketplace.PublishKeepsInv | src/agents/b2b_marketplace_coordinator.py:124-168 | Publication succeeds exactly when approved and covered by the treasury |
| Marketplace.B2BMarketplaceCoordinator.PublishOrder | src/agents/b2b_marketplace_coordinator.py:124-168 | The state after publication |
| Marketplace.B2BMarketplaceCoordinator.ClaimOrder | src/persistence/marketplace_repository.py:181-217 | The conditional claim |
| Marketplace.B2BMarketplaceCoordinator.SettleOrder | src/agents/b2b_marketplace_coordinator.py:303-422 | Both ledgers, the reconciler and the records after settlement, or at the point it failed |
| Marketplace.B2BMarketplaceCoordinator.Refund | src/agents/b2b_marketplace_coordinator.py:454-486 | The state after a refund |
| MarketResults.PublishAs | src/agents/b2b_marketplace_coordinator.py:124-168 | An approved bounty the treasury covers opens an order and moves to ESCROW; any other is refused unchanged |
| MarketResults.ClaimAs | src/persistence/marketplace_repository.py:181-217 | An open order goes to the claimant and nothing else changes; any other claim is refused |
| MarketResults.SettleAs | src/agents/b2b_marketplace_coordinator.py:303-422 | A settlement by its inputs: refused unchanged; complete, with the bounty in EXTERNAL_SINK, the provider's share distributed and the order COMPLETED; or charged on both sides with the order still held |
| MarketResults.RefundAs | src/agents/b2b_marketplace_coordinator.py:439-486 | A held order is cancelled and its bounty is back in the TREASURY; any other refund is refused unchanged |
| Replan.ProcessIs | src/orchestration/engine.py:133-204 | From a task in progress under a live organisation, for every behaviour of policy, planner, executor and auditor: the call ends within the evaluation budget, calls the executor at most once and for the last proposal evaluated, evaluates only replacements within a positive allocation, touches no other task, attempts no illegal transition, and leaves the statuses its ending implies |
| Replan.BudgetIsUsed | src/orchestration/engine.py:173-186 | Under constant rejection the budget is used up exactly and the task aborted |
| Replan.ExecutedWithinAllocation | src/orchestration/engine.py:183-186 | What is executed is the submitted proposal or one within the task's positive allocation |
| Replan.RefusedIff | src/orchestration/engine.py:134-138 | A call is refused, changing nothing, exactly for an unknown task or one neither in progress nor submitted |
| Replan.EveryTaskExecutesOnce | src/orchestration/engine.py:133-204 | Over every run of calls mixed with any legal transitions the executor is called at most once per task |
| Replan.OrchestrationEngine.TransitionTask | src/orchestration/state_machine.py:36-43 | Legal moves happen, illegal ones change nothing |
| Replan.OrchestrationEngine.TransitionOrg | src/orchestration/state_machine.py:27-34 | The same for the organisation |
| Replan.OrchestrationEngine.ProcessActionProposal | src/orchestration/engine.py:133-204 | The recursive method ends in the state and way its specification says; the `ReplanResults` rows say which by the answers |
| ReplanResults.CallFollowsAnswers | src/orchestration/engine.py:133-204 | Every answer before the last of a call was a rejection within the limit whose replacement, cut to the allocation, is evaluated next; the last answer decides how the call ends, what is executed and the rejection count |
| ReplanResults.LastAnswerDecides | src/orchestration/engine.py:146-203 | Something is executed exactly if the last answer approved, and the end is then by receipt and audit; the organisation waits paused for a human exactly if it escalated; otherwise the call aborts or the planner failed |
| ReplanResults.CallRecords | src/orchestration/engine.py:137-173 | The task keeps every proposal evaluated, in order, and rejections are counted under its id and the caller's key |
| ReplanResults.TaskMovesAre | src/orchestration/state_machine.py:15-24 | The legal task moves by how far the task has come |
| ReplanResults.OrgMovesAre | src/orchestration/state_machine.py:6-13 | The legal organisation moves by where they lead |
| RateLimiter.EveryWindowIsBounded | src/api/security_middleware.py:82-103 | Over every run with a forward clock no closed sixty-second window holds more admissions of a key than its limit, and the next request is refused exactly when its last sixty seconds are full |
| RateLimiter.RefusedIff | src/api/security_middleware.py:85-100 | The same for one key in any reachable state |
| RateLimiter.RetryAfterIsLeast | src/api/security_middleware.py:90-100 | The announced wait always gets the next request admitted and one second less never does |
| RateLimiter.SpacedMeansFew | src/api/security_middleware.py:85-102 | If limit + 1 consecutive admissions always span more than sixty seconds, every closed window holds at most limit |
| RateLimiter.KeptIsWindow | src/api/security_middleware.py:85-88 | After eviction the list is exactly the admissions of the last sixty seconds |
| RateLimiter.BrokenIff | src/api/security_middleware.py:90-91 | Indexing fails exactly for a limit below one and no recent admission |
| RateLimiter.RateLimitMiddleware.Dispatch | src/api/security_middleware.py:82-103 | The eviction loop, the reply and the lists afterwards |
| RateLimiter.NextAs | src/api/security_middleware.py:62-103 | A request touches only its own principal and kind, and is logged exactly when that key's last sixty seconds hold fewer admissions than the limit of its kind |
| RateLimiter.ServeAs | src/api/security_middleware.py:82-103 | What is logged and what is kept after a request |
| RateLimiter.WithinCounts | src/api/security_middleware.py:85-91 | The count of a window is the number of admissions in it |
| Quorum.EveryRunIsSound | src/governance/circuit_breaker.py:64-180 | Over every run of issues, pauses, resumes (dying after consumption or not) and other quorum decisions, for any names: no approval id serves two resumes, twice the resumes is at most the consumed approvals, the audit trail replays to the current state, each row's state before is what the rows above give |
| Quorum.UnambiguousIffPlain | src/governance/admin_governance.py:27-28 | Every reading of an approval's signed text has its fields if and only if none of them holds the separator |
| Quorum.QuorumIds | src/governance/admin_governance.py:159-189 | A held quorum of unforged approvals consists of as many distinct unconsumed ids as approvals, for any names |
| Quorum.CanonicalDetermines | src/governance/admin_governance.py:27-28 | The signed text of an approval without separators determines all its fields, the expiry to a ten-thousandth of a second, against any presented approval |
| Readings.ResumeRestsOnTwo | src/governance/circuit_breaker.py:110-150 | A resume rests on unconsumed, unexpired votes of two different people for this tenant, organisation, action and payload, read from issued approvals, which are two different ones unless the one has the place's marker twice |
| Readings.TwoVotesIff | src/governance/admin_governance.py:27-28 | One signed text can be read as resume approvals of a place by two different people if and only if the place's marker stands in it twice |
| Readings.TwoIdsIff | src/governance/admin_governance.py:27-28 | It can be read as resume approvals with two ids, of any places, if and only if markers stand in it at two positions |
| Readings.ResumesAloneIff | src/governance/circuit_breaker.py:110-150 | With one approval issued, some place can be resumed if and only if a place's marker stands twice in its signed text |
| Readings.OneApprovalResumes | src/governance/admin_governance.py:70-100 | A run with one issued approval and one successful resume: the approver's name holds a marker |
| Readings.ServesOnceIff | src/governance/circuit_breaker.py:110-180 | An approval serves at most one resume, in every continuation of the run that issued it, if and only if all markers in its signed text stand at one position |
| Readings.OneMarkerServesOnce | src/governance/circuit_breaker.py:110-180 | The same direction for any approval of any reachable world |
| Readings.PlainHasOneMarker | src/governance/admin_governance.py:27-28 | Fields without the separator leave all markers at one position |
| Readings.TwoApprovalsPerResume | src/governance/circuit_breaker.py:110-180 | Over every run whose issued approvals have all markers at one position each resume is backed by two issued approvals, none backs two resumes, and twice the resumes is at most the issued approvals |
| Readings.AmbiguousServesTwice | src/governance/admin_governance.py:27-28 | A run in which the signed text of one issued approval, with the separator in its tenant name, backs two resumes of two places |
| Quorum.AdminGovernanceManager.VerifyAndConsumeQuorum | src/governance/admin_governance.py:102-216 | Succeeds exactly when the quorum holds and then consumes exactly its ids; otherwise consumes nothing |
| Quorum.SystemCircuitBreaker.PausePlace | src/governance/circuit_breaker.py:64-108 | State row and audit row after a pause |
| Quorum.SystemCircuitBreaker.ResumePlace | src/governance/circuit_breaker.py:110-180 | Succeeds exactly under the stated conditions, with state, audit row and consumption; refused without a manager |
| QuorumResults.MayResumeIff | src/governance/circuit_breaker.py:110-150 | A place may be resumed exactly with two or more live votes of pairwise different people, listed by name in the same order; the separate check on the set of names adds nothing |
| QuorumResults.TwoPeopleResume | src/governance/admin_governance.py:70-189 | Two votes as issued resume their place exactly when they are of two people, both unexpired and under unused ids |
| QuorumResults.ResumeAs | src/governance/circuit_breaker.py:110-180 | A resume returns only its place to NORMAL, uses up exactly the ids presented and leaves one audit row; dying in between it has used up the ids only; refused it changes nothing |
| QuorumResults.PauseAs | src/governance/circuit_breaker.py:64-108 | A pause changes only its place and leaves one audit row with the state before |
| QuorumResults.FirstFault | src/governance/admin_governance.py:141-171 | An approval is refused for the first fault it has |

## Left out

- Concurrent workers on one operation: the repository upsert is not atomic, so nothing is claimed for them.
- The execution manager without a database connection, without a ledger or with retries inside the provider.
- Event-store writes, reputation updates and receipts made beside the modelled state by the execution manager, the loops and the engine.
- Memo text beyond the operation id it mentions: an id occurring inside another id is excluded.
- Crashes inside marketplace settlement and missions, which the code does not make atomic; exceptions there are modelled.
- The search for an open order and capability grants in `discover_and_claim`: the claim itself is modelled for any order.
- Several providers or clients in one market, and orders whose ids collide.
- Authorization token encoding and verification in `policy_engine.py`, and rules of the default engine about targets, chains, recipients, gas and capabilities, which enter as arbitrary answers.
- The fields of purchase intents that only enter the intent hash are one opaque text; policy versions, reasons and audit dictionaries are not modelled.
- The inspectable sub-scores copied into performance records, which feed back into nothing modelled.
- IEEE rounding and NaN in scores and clocks.
- JSON escaping of the resume payload: only its digest is used.
- HTTP server, middleware other than the limiter, wallet sign-in, RPC, signing, ABI encoding, SQL, adapters for language models, statistics and reports.
- Collateral positions, work-order status, identity contexts, the call-budget adapter and the solvency table: correct and easy.
- Execution.RunKeepsInv: assumes reconciliation statuses that do not contradict the ledger and other ledger users that leave escrow alone and mint positive amounts only; `ResolveSafeIff` says exactly what happens otherwise.
- Marketplace.EveryMarketIsSound: excludes runs with a settlement the reconciler refuses after the postings; `StepKeepsInvIff` shows that exactly these break the invariant.
- Readings.TwoApprovalsPerResume: assumes that the markers of every issued approval stand at one position; `ServesOnceIff` and `ResumesAloneIff` show that the condition is exact.
