# Verification of the operations protocols

A Dafny model of how this repository's operator tools spend money and keep evidence on a testnet
Lightning node, with proofs about every run of the model.

Four tools share one discipline. Each stores an intent, issues one irreversible call, treats a lost
reply as unknown, and does not call again until evidence settles the old intent. `Intents` states that
discipline once, on event histories. The Loop swap journal, the channel-open journal and the
proof-payment journal prove that their own histories replay on its single slot. The close journal, where
several closes may be open at a time, proves that its history replays on the form with one slot per key,
which every single-slot history also follows.

- `LoopJournal`, `LoopMachine`, `LoopSafety`, `LoopTheorems`, `LoopClaims`: the swap journal, updated by
  compare-and-swap. Any number of clients are interleaved at every read, write and POST, with a daemon
  that moves on its own; a client may die anywhere and what it left in flight may land later or never.
- `LoopWindow`: exactly how long a window the fee budget protects.
- `LoopPlan`: the quote, and the checks `submit` makes again on it.
- `Funding`, `Ordering`, `OpenJournal`, `OpenSafety`, `OpenTheorems`: input selection and channel opens, from
  an empty disk or from one that an older journal left with a request still open.
- `ForwardingProof`, `ProofJournal`, `ProofSafety`: one proof payment, its evidence, and the independent
  count of forwards.
- `CloseJournal`: cooperative closes.
- `Routing`: capacities, fees, policies and the search for a usable pair of channels.
- `Monitor`: the alert and freshness state machines.
- `PeerRetries`, `VmRetries`: bounded retries with stored backoff.
- `FluxRecords`, `FluxSafety`: exercise stages, handoff baseline, ownership mark, acceptance.
- `FluxRace`: the same commands split at their reads and writes, any number of them interleaved; run alone,
  each is the whole command of `FluxRecords`.
- `ValuesMerge`: the credential filter, the deep merge and the edit of exported values.
- `PaymentMetrics`: paginated reading and aggregation.

Where the source updates files or fields, the model is a class or a method with a loop, proved equal to
a function of the old state; the theorems are about that function over whole runs. Where the tools hold
a file lock, an operation is one step with a parameter `effects`: the number of stored writes and
irreversible calls it gets to before the process dies, so a run can be cut after any of them. `log`,
`calls`, `starts`, `claims`, `autos` and `epoch` are history that no branch reads.

For each operation a lemma, most of them called `...IsExact` or `...Ends`, gives its whole answer in terms of
the fields of its input alone, in both directions; the theorems about runs build on these.

`Runs` folds the actions of all these machines, `Selections` picks from lists, `Arithmetic` and `Wrappers` hold
what they share.

Check everything with `dafny verify dfyconfig.toml`.

## Assumed of the environment

- A stored file is replaced atomically and the lock excludes other holders (`ops/router_store.py:42-74`).
- A journal save succeeds only on the current resourceVersion (`ops/loop_api.py:118-120`).
- UUIDs are new; digests and base64 of different values differ.
- The swap daemon shows this tool's own swaps as they are, never changes a swap that reached SUCCESS or
  FAILED, and reports final costs with that state. Its list may omit or repeat swaps.

## Where a promised property holds only on a condition

- One close per wallet and channel: `ClosedAtMostOnce` holds while the wallet does not change inside one
  submit; `RepeatsExactlyOnSwitch` says exactly when a close is asked for again, and
  `WalletSwitchRepeatsClose` is such a run. The record check looks only at the wallet read by the status
  pass, while the plan is compared with a second reading.
- Protected settings survive an edit: exactly when the patch's `lnd` is absent or an object, or nothing
  protected was there (`EditKeepsProtected`); `ListPatchDropsNodes` shows a list that passes the guard.
- A fresh quote passes submit's own checks: exactly when the quoted channels have distinct ids
  (`FreshPlanPasses`). `plan` compares counts only, so `RepeatedIdPassesPlan` is a missing check: nothing
  here says that a node ever lists one id twice.
- The adopted baseline is safe while the handoff file exists and commands run one at a time
  (`HandoffKeepsIdentity`, `MarkedExport`); `DeletedFileLosesBaseline` is a run that removes the file and
  replaces the baseline.
- The commands take no lock. When they interleave, an adopted baseline survives everything that may follow
  if and only if, at the moment of the mark, it is the stored one and no export under way has passed the mark
  check for another; and all later commands show its wallet if and only if, besides, no handoff command under
  way holds another baseline and can still pass (`AdoptionSurvivesRace`). `RacingRefreshLosesBaseline` is a
  run in which a refresh overtakes an adoption.
- A rejection attested as below the minimum amount is possible only for a request an older journal left
  behind (`MinimumIsForLegacy`), and for that one exactly under the conditions of `LegacyMayBeRejected`.
- The rolling fee budget does not cover 24 hours of creation times. With one budget, nondecreasing clocks
  and no swap above its reservation, a window is protected in all runs if and only if it is no longer than
  a day, less the minute a quote may age, less the longest delay between that check and the cutoff reading
  (`WindowIsExact`); `OverspendingRun` is a run for every longer window.
- The retry backoff is counted from one clock reading per pass, not from the call. A connect call, or a VM
  start, keeps its full backoff against everything that may follow if and only if it was the last allowed,
  or came with no lag after that reading, or the lock stayed held for the whole backoff
  (`BackoffKeptExactly`, for peers and for the VM). `LateCallShortensBackoff` is a run with two peers and
  one thirty-second timeout, `InventoryShortensBackoff` one with a fifteen-second inventory.

## Model

| member | source | states |
|---|---|---|
| Intents.ResolvedBetweenEffects | ops/router_channels.py:186-227 | in a history that follows the discipline two effects have different keys, the first is resolved right after it, and the second's own intent comes right before it |
| Intents.EffectAfterIntentOnce | ops/router_proof_run.py:87-98 | every effect follows its stored intent and occurs once |
| Intents.KeywiseEffectOnce | ops/router_closing.py:74-81 | with one slot per key, every effect still follows its own stored intent and occurs once |
| Intents.DisciplinedIsKeywise | ops/router_closing.py:66-90 | a history that follows the single slot follows one slot per key |
| LoopJournal.Reconcile | ops/loop_ops.py:77-119 | the loop over the records gives the specified new document, or nothing when one record makes the pass raise; a completion switches automation off |
| LoopJournal.ReconcileRecordIsExact | ops/loop_ops.py:85-114 | what a pass makes of one record, in every case: unmatched, matched twice, differing, or read field by field with the dating of its cost and the evidence that settles it |
| LoopJournal.PassIsExact | ops/loop_ops.py:77-119 | a pass raises exactly when one record makes it raise, else makes of every record what it should, and switches automation off exactly on a completion |
| LoopJournal.BudgetUsed | ops/loop_ops.py:277-287 | the two accumulating loops compute what is used; the next two rows say what that is |
| LoopJournal.ForeignSwapsCount | ops/loop_ops.py:282-285 | one more listed swap raises what is used by exactly its three costs when no record carries its label and it was updated since the cutoff, and otherwise by nothing |
| LoopJournal.RecordsCount | ops/loop_ops.py:281-281 | one more record raises it by its real cost when its failure is settled, else by its reservation or its cost if more, and only if it was created or its cost observed since the cutoff |
| LoopJournal.ChargesCoverFees | ops/loop_ops.py:281-281 | what is charged since a cutoff is at least the real fees of everything created since it, although settled failures release their reservation |
| LoopJournal.ReleaseIsFresh | ops/loop_ops.py:86-114 | a record is charged less than its reservation only on evidence of an off-chain failure re-proved in that very pass, and then exactly its real cost |
| LoopJournal.RebalanceNeverOvershoots | ops/loop_ops.py:339-347 | a move is chosen exactly outside the thresholds; it goes towards their middle rounded down, reaches it or stops at the armed maximum before it, and is zero only at the target |
| LoopMachine.LiveNeverFired | ops/loop_ops.py:269-276 | an approval that may still fire has never fired before |
| LoopSafety.ReconcileKeeps | ops/loop_ops.py:85-114 | a reconcile pass never changes a request or a terminal record, and a terminal record repeats what the daemon finally reported |
| LoopSafety.StepKeepsInvariant | ops/loop_ops.py:53-325 | every single step of any client, of the store and of the daemon keeps single flight, backing by the daemon, budget and one-shot automation |
| LoopSafety.RunKeepsInvariant | ops/loop_ops.py:53-325 | so does every interleaving |
| LoopTheorems.PostedOnceAfterRecord | ops/loop_ops.py:288-299 | for any number of clients, crashes and lost or late replies each label is POSTed at most once and after its record was stored; two POSTs are separated by the stored completion of the first |
| LoopTheorems.SwapSingleFlight | ops/loop_ops.py:233-239 | at most the last record is unresolved and at most one swap of this tool is live |
| LoopTheorems.QuietAtPost | ops/loop_ops.py:233-299 | at any POST its record is the last stored one, all others are terminal, the label was never sent, and no swap of this tool is live |
| LoopTheorems.RollingBudget | ops/loop_ops.py:208-287 | in every run the real cost of all swaps created in the protected window is at most the budget of its last claim plus that swap's own overrun |
| LoopTheorems.FixedBudgetIsKept | ops/loop_ops.py:208-287 | with one budget, prompt claims and no overrun the window never costs more than the budget |
| LoopWindow.WindowIsExact | ops/loop_ops.py:208-287 | a window of creation times is protected in every run with one budget, prompt claims, nondecreasing clocks and no overrun if and only if it is at most a day less the quote minute and the claim delay |
| LoopWindow.OverspendingRun | ops/loop_ops.py:277-287 | for every longer window, a run whose two swaps in it together cost twice the budget |
| LoopTheorems.OneShotAutomation | ops/loop_ops.py:288-318 | each automatic record used one approval, no approval is used twice, and each use follows the arming of that id with no use and no covering disarm between |
| LoopTheorems.NoFiringAfterDisarm | ops/loop_ops.py:320-325 | an approval armed before a completed disarm that covers it never fires after it |
| LoopClaims.BeginIsExact | ops/loop_ops.py:208-232 | a submit goes on exactly with a plan at most a minute old whose payload is the approved one, for its amount, channels or peer, and reservation |
| LoopClaims.ClaimIsExact | ops/loop_ops.py:233-287 | a claim is made exactly when its label is new, every record and listed swap has ended, an automatic one stays within the armed channel, amount, fees and budget, and what is used and the reservation fit the budget |
| LoopClaims.LoadIsExact | ops/loop_ops.py:320-325 | a disarm is written exactly when automation is on and it names no approval or the armed one |
| LoopClaims.DecideIsExact | ops/loop_ops.py:233-318 | and then what it writes; an arming is written exactly when all is quiet and the rule's limits and thresholds are in order |
| LoopClaims.ClaimsAreGrounded | ops/loop_ops.py:207-299 | in every run each record repeats an unaltered fresh plan claimed on ended swaps and within the very rule it was armed by; at its claim the real costs of this tool's swaps in the window, the listed costs of other tools' swaps updated since, and its reservation together fit its budget |
| LoopPlan.Regather | ops/loop_ops.py:245-254 | the loop finds each approved channel again exactly once and idle, or refuses |
| LoopPlan.PlanIsExact | ops/loop_ops.py:130-184 | exactly which orders are quoted, by bounds, ids, idle channels, offer, risk and balances |
| LoopPlan.QuoteIsExact | ops/loop_ops.py:185-206 | and what the quote says, field by field, down to the request and the channels it names |
| LoopPlan.StillGoodIsExact | ops/loop_ops.py:239-265 | exactly when submit's checks of channels and balances pass |
| LoopPlan.FreshPlanPasses | ops/loop_ops.py:130-262 | a quote re-submitted while nothing moved passes submit's checks of payload, channels, fees and balances if and only if its channels have distinct ids |
| LoopPlan.RepeatedIdPassesPlan | ops/loop_ops.py:151-156 | a check `plan` lacks: an order over a listing with a repeated id that it accepts and `submit` refuses |
| Ordering.SortIsDescendingPermutation | ops/router_channels.py:35-35 | the sort returns the same inputs, largest first |
| Ordering.SortIsStable | ops/router_channels.py:35-35 | equal keys keep their order |
| Funding.FundingSelection | ops/router_channels.py:26-54 | the result is the one the sorted eligible inputs decide: the least paying prefix, nothing, or the first malformed outpoint reached |
| Funding.SelectInOrder | ops/router_channels.py:34-54 | the loop over the sorted inputs reaches that decision |
| Funding.FirstAreBest | ops/router_channels.py:34-54 | no choice of k inputs sums to more than the k largest |
| Funding.CandidatesAreEligible | ops/router_channels.py:35-46 | the candidates are all eligible inputs with their multiplicity, in descending order |
| Funding.SelectionIsMinimal | ops/router_channels.py:47-53 | a success pays amount and fee bound within the cap, and no choice of inputs that pays is smaller |
| Funding.SelectionIsExact | ops/router_channels.py:34-54 | with parsing outpoints it succeeds if and only if some choice of eligible inputs pays |
| Funding.DecisionIsUnique | ops/router_channels.py:26-54 | the three outcomes exclude each other and determine the result |
| OpenJournal.StillApproved | ops/router_channels.py:191-194 | the second preview equals the approved summary exactly when every check and every field agree |
| OpenJournal.OpenStore.SaveBoth | ops/router_channels.py:199-200 | the two file replacements, as far as the process lives |
| OpenJournal.OpenStore.ReconcileFirst | ops/router_channels.py:104-156 | reads, matches, and stores the new version of a blocking request, or leaves it alone when a read raises |
| OpenJournal.OpenStore.AcknowledgeRejection | ops/router_channels.py:159-183 | rejects on attestation only an uncertain request with no funding reference |
| OpenJournal.OpenStore.SubmitOpen | ops/router_channels.py:186-227 | stores the intent, calls once, stores the outcome, whatever the reply and wherever it dies |
| OpenSafety.ReconcileIsExact | ops/router_channels.py:104-156 | what a reconcile stores in every case: the state and point of the one matching entry by its group, closed on one confirmed close of a vanished point, otherwise uncertain |
| OpenSafety.OnlyAUniqueMatchAssigns | ops/router_channels.py:112-134 | a point is assigned only by a single candidate agreeing on memo, peer, capacity and funding transaction; ambiguity assigns nothing |
| OpenSafety.ResolutionIsExact | ops/router_channels.py:120-146 | a reconcile stops blocking if and only if one open channel is the request's only match, or its known point is nowhere left and one close of it is confirmed |
| OpenSafety.ReplyAccounts | ops/router_channels.py:201-227 | only an explicit pre-funding refusal stops blocking; a reply that named a funding transaction is kept and can never be acknowledged as rejected |
| OpenSafety.ApplyKeeps | ops/router_channels.py:104-227 | every operation, cut anywhere, keeps the journal matching its history and forgets no identity |
| OpenSafety.RunKeeps | ops/router_channels.py:104-227 | so does every run |
| OpenTheorems.SecondOpenNeedsResolution | ops/router_channels.py:186-202 | from an empty disk or one with an older journal's open request, a second `openchannel` comes only after a stored resolution of the first, be it inherited, by a unique live channel, a confirmed close, an explicit refusal, or an attested rejection without funding reference |
| OpenTheorems.SentOpensWereAffordable | ops/router_channels.py:65-101 | every `openchannel` had been planned in the same locked operation: every check of the preview held, with a smallest choice of inputs that pays |
| OpenTheorems.PreviewIsExact | ops/router_channels.py:65-101 | exactly which summaries a preview returns: new connected peer, both budgets, reserve and locked balance kept back, and the decided inputs |
| OpenTheorems.SubmitEnds | ops/router_channels.py:186-227 | what a submit stores for each answer, field by field and wherever it is cut, or that it changes nothing when the plan no longer holds |
| OpenTheorems.SubmitResolves | ops/router_channels.py:186-194 | a submit whose reconcile resolves the request goes on as if that had come before |
| OpenTheorems.SubmitBlocked | ops/router_channels.py:187-190 | an unresolved request that its reconcile does not resolve blocks every submit |
| OpenTheorems.ReconcileEnds | ops/router_channels.py:104-156 | what a reconcile writes to both files, wherever it is cut |
| OpenTheorems.AcknowledgeEnds | ops/router_channels.py:159-183 | exactly which request an attestation rejects, for either kind |
| OpenTheorems.IdentityIsWriteOnce | ops/router_channels.py:112-134 | over all later runs a request keeps its funding transaction and channel point, and the point extends the transaction |
| OpenTheorems.MinimumIsForLegacy | ops/router_channels.py:159-183 | in every run a rejection attested as below the minimum ends only the inherited request, which is below it and has no funding reference |
| OpenTheorems.LegacyMayBeRejected | ops/router_channels.py:159-183 | an attestation ends an inherited request if and only if wallet, amount and missing references fit, the wallet's transactions could be read, and no unique channel matches; the rejection is stored in both files |
| ForwardingProof.Observe | ops/router_forwarding.py:4-36 | loop, sort and summary give counts, fees and newest forwards of the filtered history |
| ForwardingProof.HistoryIsExact | ops/router_forwarding.py:11-30 | the history holds exactly the complete, conserving events of the last day, and what is attributed is exactly its part between two different public peers |
| ForwardingProof.TotalsAdd | ops/router_forwarding.py:33-36 | the reported totals are sums |
| ForwardingProof.NewestIsLatest | ops/router_forwarding.py:35-35 | the reported time is that of the latest attributed event |
| ForwardingProof.PlanIsExact | ops/router_proof.py:10-28 | exactly which plans are made, and what they say |
| ForwardingProof.ValidateIsExact | ops/router_proof.py:31-79 | evidence is complete if and only if payment, invoice, the one attempt that succeeded with its times and two hops, and the one matching local forward all say what was approved |
| ForwardingProof.CurrentIsExact | ops/router_proof.py:82-92 | evidence is current exactly while this wallet shows both public channels as planned |
| ForwardingProof.HistoryConservesValue | ops/router_forwarding.py:17-23 | total inflow of the accepted history is total outflow plus total fees |
| ForwardingProof.ObservedWithinHistory | ops/router_forwarding.py:23-36 | forwards attributed to two public peers never exceed the history in number or fees |
| ForwardingProof.RecentAreNewest | ops/router_forwarding.py:31-32 | nothing left out of the recent list is newer than anything in it |
| ForwardingProof.ValidatedMoneyAddsUp | ops/router_proof.py:31-79 | complete evidence names the one local forward whose inflow is what the payer sent, outflow what the receiver was paid, and difference the payer's fee within the limit |
| ForwardingProof.ProofImpliesObservation | ops/router_proof.py:31-92 | evidence made from an approved plan and still current is counted by `observe`, exactly when both channels have an id |
| ProofJournal.ProofStore.StartProof | ops/router_proof_run.py:71-98 | stores request, then paying record, calls once, stores the answer, wherever it dies |
| ProofJournal.ProofStore.ReconcileProof | ops/router_proof_run.py:102-134 | stores failed or complete evidence, or leaves the record alone |
| ProofSafety.RunKeeps | ops/router_proof_run.py:71-134 | in every run the stored record holds the slot of its own history |
| ProofSafety.PreviewIsExact | ops/router_proof_run.py:56-63 | exactly which plans a preview returns |
| ProofSafety.ReconcileIsExact | ops/router_proof_run.py:102-134 | a reconcile settles exactly on the payer's report of failure or on full validation, while wallets and channels are those of the plan |
| ProofSafety.StartEnds | ops/router_proof_run.py:71-98 | what a start stores, wherever it is cut: nothing, the request alone, or the paid request by how the call ended |
| ProofSafety.ReconcileEnds | ops/router_proof_run.py:102-134 | what a reconcile writes, the forwarding proof included, wherever it is cut |
| ProofSafety.SecondPaymentNeedsOutcome | ops/router_proof_run.py:71-134 | between two `payinvoice` calls the first became failed on the payer's report for that hash or complete on full validation, and the second was stored as paying |
| ProofSafety.PaidOnceAfterPlan | ops/router_proof_run.py:73-91 | each request pays at most once, right after its paying record, for a plan made on the wallets seen under the lock and an invoice of its receiver and amount with an agreed hash |
| ProofSafety.SettledWasIntended | ops/router_proof_run.py:87-132 | every outcome belongs to an earlier stored intent of the same plan and hash |
| ProofSafety.CompletedPaymentIsObserved | ops/router_proof_run.py:127-134 | a completed and still current payment is confirmed by the independent forwarding count |
| CloseJournal.RefreshIsExact | ops/router_closing.py:24-37 | what a status pass makes of one record in every case |
| CloseJournal.PreviewIsExact | ops/router_closing.py:43-63 | exactly which plans a preview returns |
| CloseJournal.StatusEnds | ops/router_closing.py:17-40 | a status pass rewrites every record as it finds it, or none |
| CloseJournal.SubmitEnds | ops/router_closing.py:66-90 | what a submit stores wherever it is cut, and exactly when it asks |
| CloseJournal.StatusClosesOnEvidence | ops/router_closing.py:17-40 | a status pass sets closed only on a confirmed close with nothing pending, keeps every request, and leaves other wallets alone |
| CloseJournal.CloseStore.RefreshStatus | ops/router_closing.py:17-40 | the loop over the records in place, then the rewrite |
| CloseJournal.CloseStore.SubmitClose | ops/router_closing.py:66-90 | stores the request, calls once, stores the outcome |
| CloseJournal.ClosesFollowDiscipline | ops/router_closing.py:66-90 | if the wallet is stable during each submit, every run follows the shared discipline with one slot per wallet and channel point |
| CloseJournal.ClosedAtMostOnce | ops/router_closing.py:66-90 | over all such runs one wallet asks to close one channel point at most once, and only after the request was stored |
| CloseJournal.ClosedRecordsWereConfirmed | ops/router_closing.py:24-40 | a record says closed only after a stored pass saw its confirmed close |
| CloseJournal.RepeatsExactlyOnSwitch | ops/router_closing.py:66-81 | after any run, any action asks again for a close already asked for if and only if it is a submit that lives past its stored request, whose plan still holds, and whose status pass read another wallet that has no record of the point |
| CloseJournal.WalletSwitchRepeatsClose | ops/router_closing.py:66-72 | the run in which a wallet switch repeats the close |
| Monitor.Observations.Advance | ops/router_monitor.py:60-69 | what one condition does to the three alert fields and which events it emits |
| Monitor.Observations.Accept | ops/router_monitor.py:49-72 | appends one observation to the history and emits exactly the events of that history |
| Monitor.Observations.CheckFreshness | ops/router_monitor.py:74-90 | the same for the freshness history |
| Monitor.AlertFieldsAreHistory | ops/router_monitor.py:60-69 | condition, since and alerted are functions of the whole observation history |
| Monitor.EventsOfHistory | ops/router_monitor.py:49-72 | the emitted events are the status change, the end of an alerted run, and the first crossing of the threshold, as read off the history |
| Monitor.StaleFieldsAreHistory | ops/router_monitor.py:74-90 | the freshness fields and events are functions of the check history |
| Monitor.AlertedByLatest | ops/router_monitor.py:67-69 | in nondecreasing time a run has alerted exactly when its latest observation is a threshold after its first |
| Monitor.CountedAreEmitted | ops/router_monitor.py:60-69 | what the balance counts are exactly the emitted alert and end events |
| Monitor.AlertsBalance | ops/router_monitor.py:60-69 | alerts minus recoveries and changes is one while alerted, else zero |
| Monitor.OneAlertPerRun | ops/router_monitor.py:67-69 | no run of one condition rings twice |
| Monitor.CrossedRunRings | ops/router_monitor.py:67-69 | every run that crosses the threshold has rung |
| Monitor.StaleBalance | ops/router_monitor.py:80-86 | stale and resumed events balance |
| Monitor.OneStaleAlertPerRun | ops/router_monitor.py:87-89 | no stale run rings twice |
| Monitor.CrossedStaleRunRings | ops/router_monitor.py:87-89 | every stale run with a later check past the threshold has rung |
| Monitor.CountedChecksAreEmitted | ops/router_monitor.py:74-90 | what the freshness balance and the stale-alert law count are exactly the emitted stale, resumed and alert events |
| Monitor.OutageIsLatestReport | ops/router_monitor.py:57-59 | the machine is in no outage exactly when its latest report is ready and no query error, else in the outage of its code |
| Monitor.FreshIsExact | ops/router_monitor.py:74-79 | exactly when a check finds the observation fresh |
| Monitor.StatusIsExact | ops/router_monitor.py:14-30 | the state a reader is shown, by the saved fields |
| Monitor.ReadyMeansHealthy | ops/router_monitor.py:14-35 | a reader shown ready or pending can trust that the writer lives and is fresh; ready means no outage, pending the outage of the code shown |
| Routing.CapacityIsExact | ops/router_model.py:41-61 | outgoing by this side's balance, reserve, fee, slots and limit, incoming by the peer's, a positive amount is within the capacity if and only if it could be added now |
| Routing.FeeIsCeiling | ops/router_model.py:165-165 | the fee is the base plus the least whole millisatoshi not below the exact proportional part |
| Routing.FeasibleIffUnblocked | ops/router_model.py:163-189 | a pair passes all of the search's checks if and only if it can forward the amount |
| Routing.BlockersAreExact | ops/router_model.py:161-189 | what stops an outgoing or incoming channel first, in terms of its own fields |
| Routing.Search | ops/router_model.py:161-189 | the nested loops list the routes and exactly the blockers met |
| Routing.RoutesAreFeasiblePairs | ops/router_model.py:161-189 | the listed routes are exactly the feasible pairs of distinct peers, with the target's fee |
| Routing.Assess | ops/router_model.py:108-195 | over the node's own fields: the first failing gate; or the feasible pairs as routes, each once when ids are distinct; or everything that stopped a channel or pair |
| Routing.GateIsExact | ops/router_model.py:132-159 | the gates stop exactly where the node's own fields say |
| Routing.ReadyIffFeasible | ops/router_model.py:108-195 | past the gates the node is ready if and only if a feasible pair exists |
| Routing.GateChecksPolicies | ops/router_model.py:136-159 | past the gates every usable channel is public, connected and publishes the target policy |
| Routing.UnknownPolicyIsReal | ops/router_model.py:179-193 | waiting for the graph is reported exactly when some pair lacks only a remote policy at its turn |
| PaymentMetrics.ReadPages | collector/payment_metrics.py:93-116 | the loop yields the items and offsets of the specified reading |
| PaymentMetrics.OffsetsIncrease | collector/payment_metrics.py:95-116 | against any server the offsets strictly increase and the repeated-offset error is unreachable |
| PaymentMetrics.ReadsWholeCollection | collector/payment_metrics.py:93-116 | against a server that pages by index no error is reachable and the whole collection is read once each in order, in one request more than its full pages |
| PaymentMetrics.Aggregate | collector/payment_metrics.py:119-145 | the accumulating loops equal filtering first and summing after |
| PaymentMetrics.Collect | collector/payment_metrics.py:93-145 | one scrape reports totals only when both reads finished |
| PaymentMetrics.ScrapeCoversCollections | collector/payment_metrics.py:93-145 | a finished scrape reports the totals of the two whole collections |
| PaymentMetrics.TotalsAddOverPages | collector/payment_metrics.py:119-145 | the totals do not depend on how the collections are cut into pages |
| PaymentMetrics.OnePaymentAdds | collector/payment_metrics.py:119-138 | what one payment adds to the totals, by its creation, state, fee and latest resolution |
| PaymentMetrics.OneInvoiceAdds | collector/payment_metrics.py:140-145 | one invoice counts exactly when settled within the hour |
| ValuesMerge.MergeInto | ops/flux_ops.py:541-546 | the recursive loop over the patch's keys computes the merge |
| ValuesMerge.MergeLookup | ops/flux_ops.py:541-546 | path by path: where both hold an object the result is an object with the keys of both; elsewhere the patch's value replaces what was there, cuts off what lies below its leaves, and leaves all else |
| ValuesMerge.MergeIdempotent | ops/flux_ops.py:541-546 | applying a patch twice is applying it once |
| ValuesMerge.FilterIsExact | ops/flux_ops.py:336-346 | the filter passes if and only if no path through objects and lists ends in a credential |
| ValuesMerge.DottedStrips | ops/flux_ops.py:339-339 | the name of a key is path and key joined by a dot, stripped of the dots around the whole |
| ValuesMerge.AcceptedIsExact | ops/flux_ops.py:535-553 | exactly which patches are written |
| ValuesMerge.MergeKeepsSecretFree | ops/flux_ops.py:336-346 | merging two values that pass the filter gives one that passes |
| ValuesMerge.Release.EditValues | ops/flux_ops.py:535-556 | an accepted patch is merged, a refused one leaves the file as it was |
| ValuesMerge.EditKeepsProtected | ops/flux_ops.py:547-553 | an accepted patch keeps profile, bitcoin, lnd.nodes and lnd.storage if and only if its `lnd` is absent or an object, or there was nothing to lose |
| ValuesMerge.ListPatchDropsNodes | ops/flux_ops.py:551-553 | a list under `lnd` passes the guard and loses the node count |
| ValuesMerge.EditsKeepFile | ops/flux_ops.py:535-556 | any run of edits keeps an exported file free of credentials, and the protected settings under that condition |
| PeerRetries.PeerStore.Approve | ops/router_peers.py:39-47 | refuses a malformed address and this node's own key, else writes a fresh entry in place of the old one or at the end |
| PeerRetries.PeerStore.TryPeer | ops/router_peers.py:70-82 | stores the attempt, calls, stores the outcome, wherever it dies |
| PeerRetries.PeerStore.Reconnect | ops/router_peers.py:50-84 | the loop over the peers, with every place it may die |
| PeerRetries.CallsAreBounded | ops/router_peers.py:50-84 | in every run at most three connect calls per peer between two stored resets; after call k the next is decided at least 10 * 2^(k-1) seconds after the clock reading of k, and made at least that less the lag of k after it |
| PeerRetries.CallsInTimeOrder | ops/router_peers.py:50-84 | in every run the moments of the calls, lags included, never go back, and none is later than the release of the lock |
| PeerRetries.NewCallIsLatest | ops/router_peers.py:70-73 | when a pass ends or dies, each call it made is the latest stored attempt of its peer |
| PeerRetries.BackoffKeptExactly | ops/router_peers.py:51-76 | such a call keeps its full backoff in real time, whatever follows, if and only if it was the last allowed, had no lag, or the lock stayed held for the whole backoff |
| PeerRetries.LateCallShortensBackoff | ops/router_peers.py:51-76 | two peers and one connect timeout: a backoff of 20 seconds shrinks to 10 |
| PeerRetries.FullPassCallsDue | ops/router_peers.py:50-84 | a pass that is not cut short treats every peer by itself and calls exactly the due ones, in order |
| PeerRetries.OutcomeIsExact | ops/router_peers.py:58-82 | what an uncut pass leaves of one entry, by its own fields |
| PeerRetries.TurnsTell | ops/router_peers.py:58-83 | and exactly what it announces, in order |
| PeerRetries.AttemptEnds | ops/router_peers.py:70-83 | what one attempt leaves wherever it is cut |
| PeerRetries.FinishEnds | ops/router_peers.py:83-84 | a pass that still lives at its end rewrites the file |
| PeerRetries.MalformedEnds | ops/router_peers.py:57-57 | a malformed stored address ends the pass with nothing more called or stored |
| PeerRetries.ConnectionRestoresBudget | ops/router_peers.py:58-62 | after a pass that saw a peer connected, the next pass that misses it calls it at once, as attempt one |
| VmRetries.VmStore.EnsureStarted | ops/router_vm.py:50-102 | every answer and every stored record of one call, wherever it dies |
| VmRetries.EnsureIsExact | ops/router_vm.py:50-102 | what an uncut call answers and stores in every case, by the record's own fields |
| VmRetries.EnsureCut | ops/router_vm.py:68-101 | what a call leaves that is cut before its last write |
| VmRetries.StartsAreBounded | ops/router_vm.py:50-102 | in every run at most three starts between two stored resets; the next is spawned at least 30 * 2^(k-1) seconds, less the lag of start k, after k was spawned and after its stored end; the tool's own record never fails its format check |
| VmRetries.StartsInTimeOrder | ops/router_vm.py:50-102 | in every run each start is spawned no earlier than the stored end of the one before, and none ends after the release of the lock |
| VmRetries.NewStartIsLatest | ops/router_vm.py:80-83 | when its call is over, a start is the latest attempt of the record |
| VmRetries.BackoffKeptExactly | ops/router_vm.py:51-101 | such a start keeps its full backoff in real time, whatever follows, if and only if it was the last allowed, had no lag, or the lock stayed held for the whole backoff |
| VmRetries.InventoryShortensBackoff | ops/router_vm.py:51-84 | a fifteen-second inventory: a backoff of 30 seconds shrinks to 15 |
| FluxRecords.Records.CaptureProbe | ops/flux_ops.py:266-293 | records a stage, clearing the later ones, or refuses |
| FluxRecords.Records.ExportLnd | ops/flux_ops.py:413-442 | records the baseline, then writes the suspended file, then lists it, under the export conditions; passes only past all three |
| FluxRecords.Records.Adopt | ops/flux_ops.py:450-478 | marks ownership, then releases the file, under the handoff conditions |
| FluxRecords.Records.Verify | ops/flux_ops.py:481-510 | passes exactly under the stated conditions, initial or later |
| FluxRecords.Records.Accept | ops/flux_ops.py:513-515 | stores the acceptance of the baseline just verified |
| FluxSafety.CaptureIsExact | ops/flux_ops.py:266-293 | exactly when a stage is recorded, and what it drops |
| FluxSafety.ExportIsExact | ops/flux_ops.py:413-442 | exactly when an export writes, and what |
| FluxSafety.AdoptIsExact | ops/flux_ops.py:450-478 | exactly when an adoption marks and releases |
| FluxSafety.VerifyIsExact | ops/flux_ops.py:481-515 | exactly when an acceptance or a verification passes |
| FluxSafety.CommandsAreCut | ops/flux_ops.py:413-515 | the writes of each command are made in order, and only those it gets to |
| FluxSafety.StagesAreSequential | ops/flux_ops.py:266-304 | in every run the stages are a prefix with distinct neighbours, captured in order, and the exercise is done if and only if recovery is recorded at a revision other than the baseline's |
| FluxSafety.PassedCommandsAreJustified | ops/flux_ops.py:450-515 | every passed adopt, accept and verify came after a whole exercise and showed its baseline's wallet, an adoption also its very release; every verify after an accept of that baseline |
| FluxSafety.HandoffKeepsIdentity | ops/flux_ops.py:413-515 | with one command at a time, after an adoption no export replaces the baseline and every later passed command shows the same PVCs and node keys |
| FluxSafety.MarkedExport | ops/flux_ops.py:418-427 | once marked, an export changes something if and only if the file is gone, no refresh was asked, and its checks pass |
| FluxSafety.DeletedFileLosesBaseline | ops/flux_ops.py:418-440 | a run in which deleting the file lets a marked baseline be replaced by another wallet's |
| FluxRace.ExportAlone | ops/flux_ops.py:413-442 | the split export, undisturbed by the other commands under way, is the whole export |
| FluxRace.HandoffAlone | ops/flux_ops.py:450-515 | so are the split adoption, acceptance and verification |
| FluxRace.AdoptionSurvivesRace | ops/flux_ops.py:413-478 | in every interleaving, a baseline just marked survives all that may follow if and only if it is stored and no export past the mark check can write another; all later passed commands also show its wallet if and only if no handoff command holding another can still pass |
| FluxRace.AdoptionKeepsIdentity | ops/flux_ops.py:450-515 | under that condition every command that passes later shows the PVCs and node keys the adoption showed |
| FluxRace.RacingRefreshLosesBaseline | ops/flux_ops.py:418-440 | a run in which a refresh that had passed the mark check replaces the adopted baseline by another wallet's |

## Left out

- LoopTheorems.RollingBudget: the protected window is shorter than 24 hours, because the code compares plan creation times with a cutoff read later (LoopWindow.WindowIsExact says no longer one is protected); a swap that overruns its reservation is added explicitly.
- CloseJournal.ClosedAtMostOnce: assumes the wallet does not change inside one submit, because the code is wrong without it.
- FluxSafety.HandoffKeepsIdentity: commands run one at a time; FluxRace.AdoptionSurvivesRace is the statement for racing commands, where the file and the mark are never removed by hand.
- PeerRetries.CallsAreBounded: the gap between the moments of two calls is the backoff less the lag of the first, because the code promises no more; PeerRetries.BackoffKeptExactly says when it is the whole backoff.
- VmRetries.StartsAreBounded: likewise, with VmRetries.BackoffKeptExactly; a start whose end was not stored (the process died) counts its gap from the spawn.
- ValuesMerge.MergeInto: works on map values and returns the result; sharing of subtrees between patch and file is not modelled.
- ForwardingProof.ProofImpliesObservation: assumes unique channel ids in the status rows and the matched forward inside the queried day.
- Channel, balance, binding and Autoloop reads inside `submit` and `arm` of the Loop tool are one refusing input `gate` in LoopMachine; LoopPlan models the channel and balance part of it for a single quote.
- The branches of `auto_tick` around the rebalancing amount are not a client job of their own: a tick is a reconcile, then a submit or a disarm, which are.
- Clock readings, ratios and latencies are integers or reals, never binary floats.
- Bookkeeping that no branch reads: most timestamps, failure texts, `observed_txids`, the `before` balances of a plan, printed messages.
- `funding_progress` enters the assessment only through its attention flag; its texts are not modelled.
- The choice of transport: kubectl, ssh, lncli, REST, HTTP handlers and their timeouts.
- File permissions, symlink checks and fsync inside `router_store`.
- Regular expressions, address syntax, UUIDs and digests; a malformed value is an input that says so. The credential key test is a parameter.
- `arm` and the Loop rule: only the fields the checks read.
- User interface, wizards, reports, systemd and launchd files, charts, image builds, MCP gateways.
- `router_recovery`, `router_address_recovery`, `router_observation`: long equality checks that add members rather than difficulty.
