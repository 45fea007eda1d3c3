# Capgate's authority kernel, verified

Capgate puts a harness between agents and tools. An agent proposes an action; the policy engine
decides it under the one contract the agent is bound to; an allowed action is executed once, under a
signed grant; an escalated one waits for a human of that contract; and every decision is written to a
hash-chained audit trail. Several harness replicas may share one store. This project models that
kernel in Dafny and proves what it is for, over every run, input or reachable state.

## How it is laid out

| files | contents |
|---|---|
| `Json`, `Policy`, `Decisions` | JSON values, requests, contracts, the deny-by-default engine, decisions and their records |
| `Contracts`, `ContractDiff`, `Sorting` | binding agents to contracts, what prebuilt grants let through, comparing two contract sets in order |
| `Store`, `SqlStore`, `StoreHistory` | the in-process store, the SQL tables that refine it, and their replies told from the history of operations |
| `Rollback`, `Transactions`, `InProcess` | which operations leave the tables as they were; nested transactions and the SQLite store; failures in the in-process store |
| `Locks` | the locks of one process and which threads can block each other for good |
| `Audit`, `AuditFleet` | how an audit write can end, the hash chain, the log file, the browser, many writers on one audit table |
| `RateLimit` | token buckets and the failure sampler |
| `Kernel`, `KernelEffects` | the machine whose steps are the replicas' committed transactions, and what each step changes |
| `KernelBudget`, `KernelCounts`, `KernelExecution`, `KernelPruning`, `KernelIsolation` | the theorems over all its runs |
| `KernelAnswers`, `FacadeAnswers` | what transactions and whole calls answer and leave, told field by field apart from the functions that compute it |
| `Facade`, `FacadeSteps` | whole facade calls as functions, each shown to be a possible run of the machine |
| `Delegation` | a delegation against the recipient's own proposal |
| `Interceptor`, `Executor`, `Harness` | the classes that change the store and the trail in place, proved equal to those functions |
| `Simulation` | task runs, simulated and enforced |
| `Base64`, `Identity`, `Tokens` | base64url, signed tokens, keyrings, revocation |
| `Counterexamples` | inputs at which the code departs from what one might expect of it |

Two forms of the same code appear on purpose. The classes follow the source statement by statement,
with nested transactions, audit writes that may raise and early returns. Their postconditions equate
the new state and the result with a function of the old state, whatever raises where. The same
functions are the steps of the machine `Kernel.Step`, in which any number of replicas interleave at
transaction granularity and hold, between two transactions, an escalation not yet stored, a grant not
yet minted, a rejection not yet recorded or a claimed grant whose tool has not run. `FacadeSteps` ties
the two together. A function that a method mirrors says nothing by itself; `KernelAnswers`, `FacadeAnswers` and
the lemmas named `...Exact` and `...Iff` state what its results must be in terms of the inputs alone.

An audit write ends in one of four ways (`AuditFates.Fate`): it returns, or it raises before anything
is on disk, or with the line on disk but the head not moved (a failing `fsync`), or with the head moved
(a failing echo). A decision record that lands although its call raises is a `Stray` entry of the
trail; on disk nothing tells it from any other.

Fresh ids, clock readings and the ends of audit writes are parameters (`Event` fields in the machine,
`Draws` and `Live.fates` in the facade), so "the same event" includes the ids it draws. `Kernel.Enabled`
says what the world guarantees of them: ids are fresh, a signature that verifies belongs to a minted
payload (HMAC, section 2 of RFC 2104, is unforgeable), a fresh proposal carries no approver, and no
clock reads more than an hour behind a prune. SHA-256 over canonical JSON is injective. Decision types,
reason codes, rules and statuses are enumerations that stand one-to-one for the stored text.

## What the code does that its description does not say

* A delegation spends a step before the recipient's proposal is looked at. If both agents share a
  contract and it is the last step, the recipient is denied where its own proposal would have been
  answered (`DelegationInfluencesIff`, `DelegationSpendsLastStep`).
* An audit write that raises after its line is on disk leaves a decision in the trail that the store has
  rolled back. Store and trail agree exactly without such records (`TrailAgreesIff`), and a trail that
  holds them can show more ALLOW decisions than steps were spent (`StrayOverspends`). Budgets hold of
  the decisions that were returned.
* After a failing `fsync` the next record repeats a sequence number and the file never verifies again
  (`VerifiableIff`, `UnsyncedBreaksChain`); reopening before that repairs it (`Reopen`).
* A nested store transaction is not a savepoint: code that caught an exception between two levels
  would commit partial writes (`FailedTransactionRestoresIff`, `NestedFailureKeepsWrite`).
* The in-process store's transaction is only a lock: whatever raises, every operation executed stays done
  (`NothingUndone`). After a transaction that fails in both, it and the SQL store still agree exactly if
  what was executed goes unnoticed (`FailedTransactionAgreesIff`), and one spent step is enough for them
  not to (`InProcessKeepsStep`).
* `reject` takes the approval in its own transaction, which commits before the denial is audited. A taken
  approval is therefore spent in any case, but answered by a decision exactly if that write returns
  (`RejectionAnsweredIff`). `approve` takes and decides in one transaction; a taken, enforced approval
  that policy still lets through earns its grant exactly if both audit writes return, and is decided for
  good if only the first does (`ApprovalEarnsGrantIff`).
* `decide` takes the interceptor's lock and then the store's, `approve` the other way round. With the
  in-process store threads of one process can block each other for good exactly if one may approve while
  another proposes or records (`DeadlockIff`); no other calls can (`SQLiteStateStore` waits 30 seconds for
  its lock and then raises).
* Contracts built from prebuilt grants may hold reserved actions or messages without targets. Reserved
  actions are denied all the same (`ReservedAlwaysDenied`). Of a message or delegation a missing list
  excludes nothing (`TargetListsDecide`), so that such a grant reaches whoever is registered
  (`PrebuiltMessagesAnyone`); a grant confines what it lets through to what it names exactly if it has the
  lists a spelled-out one must have, or lets nothing through (`ConfinedIff`).
* Simulation agrees with enforcement row by row, but an enforced task aborts when an allowed message's
  grant expires before it is checked (`SimulationRefinesEnforcement`, `LateMessageRaises`).
* `diff` does not look at which contract an agent is bound to; a clean diff means equal policy exactly
  when the bindings are equal too (`CleanDiffSoundIff`, `CleanDiffHidesBinding`).
* `audit_view` with limit 0 shows every record (`TailShows`).
* A key id that contains a dot makes every token under it unreadable (`DottedKidNeverVerifies`), and a
  token bound to a workload can never be revoked (`RevocableIffUnbound`).

## Model

| member | source | states |
|---|---|---|
| Json.LongestStringBounds | src/capgate/capability.py:185-192 | the longest string is within a limit exactly when every string, key or value at any depth, is |
| Json.GetExact | src/capgate/capability.py:173-178 | a missing argument is found under no key, a given one under its own |
| Policy.CheckConstraintsConform | src/capgate/capability.py:144-182 | no violation is reported exactly when the call limit and every argument constraint hold |
| Policy.ViolationsAreReal | src/capgate/capability.py:144-182 | a reported violation's rule is really broken, in the way its reason code says |
| Policy.NotDeniedIff | src/capgate/policy.py:31-83 | deny by default: a proposal escapes denial exactly when every condition of an explicit grant holds; then the effect alone picks allow or escalate |
| Policy.EarlyReasonsExact | src/capgate/policy.py:38-61 | malformed, unknown-agent and contract-mismatch denials are given exactly in their own situation, and tool-not-allowed only where no capability is held |
| Policy.EarlyAnswersExact | src/capgate/policy.py:38-61 | every denial before the capability is looked at is given, reason and rule, in exactly one situation |
| Policy.CapabilityAnswersExact | src/capgate/policy.py:63-83 | so is every answer of a capability: explicit denial, expiry, constraints, self, unknown target, escalation and permission |
| Policy.FirstViolationCited | src/capgate/capability.py:144-182 | of the constraints the first that fails is the one cited, those before it holding |
| Policy.DottedIff | src/capgate/request.py:17 | an action name is segments, each a letter followed by letters, digits or underscores, joined by dots |
| Policy.WellFormedIff | src/capgate/request.py:66-85 | a request is well-formed exactly with a nonempty agent id, an action name in the pattern and a contract id that is text if any |
| Contracts.ParseCapability | src/capgate/capability.py:68-108 | a capability is accepted exactly if its name is lawful and unreserved and, when spelled out as a message or delegation, it names its targets and actions; each error is given for its own reason |
| Contracts.ParseAgent | src/capgate/contract.py:150-167 | accepts a mapping exactly if each of its capabilities parses, and then holds exactly these |
| Contracts.ParsedGrantsAreBounded | src/capgate/policy.py:56-78 | under spelled-out contracts a message or delegation that is not denied goes to a target, and asks for an action, that its grant names |
| Contracts.TargetListsDecide | src/capgate/capability.py:172-180 | a request escapes its capability's denial exactly if it would without the lists of targets and actions and every list present names what it asks for |
| Contracts.ConfinedIff | src/capgate/capability.py:74-97 | a grant of any origin lets a message or delegation through only to what it names exactly if it has the lists a spelled-out grant must have, or lets nothing through |
| Counterexamples.PrebuiltMessagesAnyone | src/capgate/capability.py:74-75 | a prebuilt message grant without targets is accepted where the spelled-out one is refused, binds, and lets its agent message any other registered agent |
| Contracts.ReservedAlwaysDenied | src/capgate/policy.py:56-57 | a reserved action is denied whatever the contracts hold |
| Policy.EvaluateAntitone | src/capgate/policy.py:50-83 | spending budget or letting time pass never un-denies a request nor changes an answer that is still no denial |
| Contracts.BuildBindings | src/capgate/contract.py:195-212 | succeeds exactly when ids are unique, no agent is bound twice and no approver is an agent; the result indexes exactly the given contracts and agents, and an error names what is wrong |
| Contracts.IndexedIsRegistry | src/capgate/contract.py:195-212 | what is built from valid contracts binds every agent to one contract that declares it, with approvers apart |
| ContractDiff.GrantsFromContracts | src/capgate/inspect/model.py:60-73 | lists every grant of every contract once, contract after contract and within one by agent and then action |
| ContractDiff.ListedOnce | src/capgate/inspect/model.py:60-73 | so contracts are listed in one way only |
| Sorting.StringLeqExact | src/capgate/inspect/model.py:63-65 | texts are listed in the order of their characters, a prefix first |
| Sorting.PairLeqIff | src/capgate/inspect/model.py:126 | pairs by the first component and then by the second |
| ContractDiff.LastIsFound | src/capgate/inspect/model.py:123-124 | keyed by agent and action, the list shows the grant of the last contract that has one |
| ContractDiff.Diff | src/capgate/inspect/model.py:121-146 | refuses inconsistent sets; otherwise reports for every agent and action exactly the change between the grants held through the bindings, and for every contract exactly the change of limits, expiry or approvers, each with both sides, ordered by agent and action and by id; it is empty exactly when the comparison is clean |
| ContractDiff.ReportedOnce | src/capgate/inspect/model.py:121-146 | what is reported, and in which order, is determined by the two sets |
| ContractDiff.StatusExact | src/capgate/inspect/model.py:126-133 | a grant is reported added, removed, widened, narrowed or changed each in exactly one situation |
| ContractDiff.ContractChangeIff | src/capgate/inspect/model.py:137-144 | a contract is reported exactly if it is new or gone or its step limit, expiry or approvers differ |
| ContractDiff.FoundIsRow | src/capgate/inspect/model.py:60-73 | in a consistent set the listed grant is the one the agent's own contract holds |
| ContractDiff.CleanDiffSoundIff | src/capgate/inspect/model.py:121-146 | after a clean diff, policy answers every request, usage and time alike exactly when both sets bind the same agents to the same contract ids |
| Counterexamples.CleanDiffHidesBinding | src/capgate/inspect/model.py:121-146 | two sets that swap the agents of two equal contracts compare clean and do not answer alike |
| MemoryStore.MemoryStateStore.PendingApprovals | src/capgate/state.py:104-106 | the pending records in first-insertion order |
| MemoryStore.MemoryStateStore.RateAdmit | src/capgate/state.py:130-137 | the new tables and the reply are those of the store's specification: a refusal is counted, an admission reports and clears the count |
| StoreRefinement.StepRefines | src/capgate/state.py:154-275 | every operation keeps the SQL tables a refinement of the in-process store and gets the same reply |
| StoreRefinement.BackendsAgree | src/capgate/state.py:58-275 | from empty, every sequence of operations gets the same replies from both stores |
| StoreRefinement.DrainIsFifo | src/capgate/state.py:236-245 | draining one recipient from the shared message table returns exactly what was sent to it since its last drain, in order |
| StoreRefinement.SharedFloodEvidenceConserved | src/capgate/state.py:265-275 | refusals of a key equal the suppressed counts already reported plus the count still held |
| StoreHistory.RepliesTellHistory | src/capgate/state.py:58-275 | from empty both stores answer as their history says: counters count, the first claim wins, the last record put is found, pending records come in the order of their first put, drains get what was sent since, revocations stay |
| StoreHistory.NewRowHasFullBurst | src/capgate/state.py:31-36 | of the takes or admissions from a new row at least the first burst are granted whatever the clocks read, and exactly so many at one instant |
| StoreHistory.MinuteRefills | src/capgate/state.py:130-137 | a sampler admits its records per minute in one burst, and a minute refills them |
| SqlTables.PruneExact | src/capgate/state.py:277-282 | a prune drops exactly the claims and revocations more than an hour past their expiry |
| KernelAnswers.PruneIsStores | src/capgate/state.py:277-282 | the machine's prune is the store's |
| Transactions.OutermostIsAtomic | src/capgate/state.py:171-187 | an outermost transaction is all or nothing, whatever nesting its body has |
| Rollback.UndisturbedIff | src/capgate/state.py:193-275 | operations leave the tables as they were exactly if no counter is raised and no message sent, every claim and revocation finds its row, every drain finds nothing, every approval put is last put back, and the rate operations cancel out |
| Rollback.UndisturbedForwardIff | src/capgate/state.py:193-275 | while no clock runs backwards, the rate operations among them must each be a take refused at the very time of its row |
| Transactions.FailedTransactionRestoresIff | src/capgate/state.py:171-187 | a failed transaction restores the tables exactly when it is outermost or the operations executed before it raised disturb nothing |
| Transactions.NestedFailureKeepsWrite | src/capgate/state.py:171-187 | a handled failure of an inner transaction commits the step it had spent, which alone would have been undone |
| InProcess.NothingUndone | src/capgate/state.py:70-73 | whatever a program raises and however it nests transactions, the in-process store keeps every operation executed |
| InProcess.FailedTransactionAgreesIff | src/capgate/state.py:70-73 | after a transaction failing in both, in-process and SQL store agree exactly if no counter was raised, claims and revocations found their rows, approvals and queues were put back and the rate operations cancel out |
| InProcess.InProcessKeepsStep | src/capgate/state.py:70-73 | a step spent before a failure is undone by the SQL store and kept by the in-process one |
| Locks.DeadlockIff | src/capgate/interceptor.py:52-72 | threads of one process can deadlock exactly if one may approve (core.py:320) while another decides or records; no other order of locks conflicts |
| Locks.DeadlockStays | src/capgate/core.py:320-335 | a deadlock is for good, whatever other threads do |
| Locks.NoDeadlockGoesOn | src/capgate/core.py:320-335 | short of a deadlock, while a thread is inside a section some such thread can go on |
| Transactions.SQLiteStateStore.ClaimGrant | src/capgate/state.py:212-218 | only the first claim of a decision id succeeds, and a replay changes nothing |
| Transactions.SQLiteStateStore.DrainMessages | src/capgate/state.py:240-245 | returns the recipient's queue and removes exactly it |
| RateLimit.TokenBucket.Take | src/capgate/ratelimit.py:60-74 | the new table and the answer are those of one refill, take and least-recently-used eviction, an unknown key starting with a full burst (`InstantAllowsBurst`) |
| RateLimit.WindowBound | src/capgate/ratelimit.py:60-74 | over any stretch of takes a key is allowed at most (evictions + 1) bursts plus the refill of the time spanned |
| RateLimit.AnyWindowBound | src/capgate/ratelimit.py:60-74 | so it is between any two takes of any history of a bucket that starts empty |
| RateLimit.FirstBurstAllowed | src/capgate/ratelimit.py:60-74 | a key not in the table is allowed its first burst of attempts while it is not evicted and time does not run backwards |
| RateLimit.InstantAllowsBurst | src/capgate/ratelimit.py:60-74 | at one instant it is allowed exactly as many as it attempts, up to a burst |
| RateLimit.EvictsLeastRecentlyUsed | src/capgate/ratelimit.py:71-73 | after any history the table holds exactly the most recently used keys, oldest first, up to its size |
| RateLimit.BucketsAgree | src/capgate/ratelimit.py:60-74 | for nondecreasing positive times and no eviction the in-process and shared buckets answer alike at every call |
| RateLimit.RetryExact | src/capgate/state.py:31-36 | after a refusal every attempt before the ready time is refused and the first at or after it succeeds, whatever lies between |
| RateLimit.RefusalRetry | src/capgate/state.py:31-36 | the retry seconds of a refusal lead exactly to the ready time |
| RateLimit.FloodEvidenceConserved | src/capgate/ratelimit.py:86-95 | in the in-process sampler every refusal is reported or still held |
| Audit.VerifyChain | src/capgate/audit.py:109-122 | accepts exactly chains, returning their length and last hash; otherwise names the first bad record and its problem |
| Audit.ChainDetermined | src/capgate/audit.py:104-122 | two verified chains with the same length and last hash are equal record for record |
| Audit.AuditLog.Write | src/capgate/audit.py:48-74 | what is on disk and in the head after each way a write can end; the log can go on exactly if it could and the line was not left unsynced, and the file verifies exactly if it did and nothing landed on an unsound head |
| Audit.VerifiableIff | src/capgate/audit.py:48-69 | over any writes the file still verifies exactly if nothing landed after an unsynced line, and the log can go on exactly if none was left unsynced |
| Counterexamples.UnsyncedBreaksChain | src/capgate/audit.py:61-69 | one unsynced line and one more, and the file never verifies again |
| Audit.Open | src/capgate/audit.py:44-46 | a tampered file is refused, an intact one is resumed at its head |
| Audit.Reopen | src/capgate/audit.py:44-46 | an intact file reopens with the count and hash the closed log held exactly if that log was sound, and a file that does not verify stays closed |
| Audit.LoadAudit | src/capgate/audit.py:125-139 | accepts exactly the intact files and returns their records |
| Audit.AuditView | src/capgate/inspect/model.py:155-205 | reports the first bad position and its problem if any, the matching records marked by whether the chain is good through them, and the tail the limit selects |
| Audit.BrowserAgreesWithVerifier | src/capgate/inspect/model.py:163-186 | the browser finds no bad position exactly in the files the verifier accepts |
| Audit.ValidBeforeFirstBad | src/capgate/inspect/model.py:174-185 | exactly the records before the first bad position are marked valid |
| Audit.TailShows | src/capgate/inspect/model.py:198-204 | a limit of at least one shows the newest matches up to it; any other limit shows more unless there are none |
| Audit.MatchingExact | src/capgate/inspect/model.py:186-198 | the matching records are those lines that pass the filter, in order, each marked valid exactly if the chain is good through it |
| AuditFleet.FleetAlwaysVerifies | src/capgate/audit.py:164-232 | whatever sinks start, restart and write, however their writes end, two on one stream included, every stream stays a verifiable chain and every cached head describes a prefix of its stream |
| AuditFleet.StaleWriterRefused | src/capgate/audit.py:191-197 | an insert succeeds exactly when the sink's cached count is its stream's length |
| AuditFleet.PostgresAuditSink.Record | src/capgate/audit.py:180-202 | the shared table and the cached head after each way an insert can end; a conflicting one changes neither |
| KernelEffects.StepChanges | src/capgate/core.py:211-417 | each step changes counters, trail and approvals in one of seven stated ways |
| KernelEffects.ApproveRecords | src/capgate/core.py:316-335 | an approval is taken from pending, by an approver of its contract who is no agent, and decides the identical request within the budget as it stands |
| KernelAnswers.DecideTxExact | src/capgate/interceptor.py:44-59 | a proposal is decided by policy against the counters as they stand, bound to its agent's contract and that contract's hash, and spends one step whatever the answer |
| KernelAnswers.RecordTxExact | src/capgate/interceptor.py:61-99 | a recorded decision carries the request, the answer, the bound contract with its hash and who asked; an ALLOW counts one call |
| KernelAnswers.TakeApprovalIff | src/capgate/core.py:374-394 | an approval can be taken exactly by those in its contract's list, at any place, who are no agents, while it is pending |
| KernelAnswers.ApproveTxExact | src/capgate/core.py:316-335 | an approval decides the escalated request against the counters as they stand, allowed on the human's word where policy would escalate again, and spends no step |
| KernelAnswers.DenyTxExact | src/capgate/core.py:355-359 | a rejection denies the escalated request and counts nothing |
| KernelAnswers.RefuseEarlyExact | src/capgate/interceptor.py:101-104 | a request refused before policy is recorded as denied for the agent and action given |
| KernelAnswers.JudgeExact | src/capgate/executor.py:162-176 | a grant is executed exactly if its signature, agent, action, arguments and expiry hold, its action has a tool and it is unclaimed; each refusal is given in exactly one situation |
| KernelBudget.BudgetsNeverOverspent | src/capgate/interceptor.py:44-99 | in every reachable state the ALLOW decisions returned plus pending approvals of a contract exceed neither its steps spent nor its step budget, and no call limit is exceeded, however audit writes end |
| KernelBudget.TrailAgreesIff | src/capgate/interceptor.py:89-99 | an agent's calls as the trail reads are at least those the store counts, and equal exactly if no ALLOW of theirs was written by a call that then raised |
| KernelBudget.TrailWithinBudgets | src/capgate/interceptor.py:44-99 | while no audit write both lands and raises, the step budget holds of the trail as it reads |
| KernelCounts.StepsAreProposals | src/capgate/interceptor.py:52-59 | in any run the steps spent under a contract are the answered proposals of its agents, no more and no fewer |
| KernelCounts.BudgetsDenyExactly | src/capgate/policy.py:50-54 | after any run a proposal is denied for want of steps, or for its call limit, exactly when that budget is used up |
| Counterexamples.StrayOverspends | src/capgate/audit.py:70-73 | a record whose echo raises shows an ALLOW for which no step was spent |
| KernelBudget.AuthorityNeverComesBack | src/capgate/interceptor.py:52-59 | along any run a denied request stays denied at every later time, and one not denied later was answered alike before |
| KernelExecution.EveryRunAuthorized | src/capgate/executor.py:126-176 | tool runs map injectively to ALLOW decisions of the same agent, contract, action and arguments, each claimed before its grant expired by an executor that has a tool for the action; behind an escalate effect stands a human of that contract answering the identical request |
| KernelExecution.EscalationsTakenOnce | src/capgate/core.py:374-394 | two human-approved decisions that rest on the same escalation are the same decision |
| KernelExecution.EveryMessageAuthorized | src/capgate/core.py:246-262 | every queued message comes from a run of its own under an ALLOW decision naming its sender and recipient |
| KernelPruning.PruningInvisible | src/capgate/state.py:277-282 | a run with prunes anywhere has the same trail, refusals, tool runs, counters, approvals and next executor answers as the run without them |
| KernelPruning.EarlyPruneShows | src/capgate/executor.py:169-175 | a used grant stops being refused as used exactly when a prune reaches its expiry, which needs a clock more than an hour behind |
| KernelIsolation.ContractIsolation | src/capgate/policy.py:31-83 | two runs that agree on the events of one contract's agents agree on all their decisions, approvals and budgets, which are those of running these events alone |
| Delegation.DelegationInfluencesIff | src/capgate/core.py:268-298 | the recipient's decision is, but for the trace, the one its own proposal would have got, except exactly where both agents share a contract, in time, whose last step the sender's proposal spends; then the budget is exhausted |
| Counterexamples.DelegationSpendsLastStep | src/capgate/core.py:292-298 | with one step left between them an agent may act on its own proposal and may not when the other asks |
| Facade.AskedActionRoundTrip | src/capgate/request.py:155-165 | the delegation request and what an approved one asks for carry the same recipient's proposal, whose fields `DelegateExact` states |
| FacadeAnswers.ProposalExact | src/capgate/core.py:211-213 | a proposal is answered as policy answers, and acted on: an escalation is stored unanswered with all that is known of it, an enforced ALLOW gets a grant for exactly what was decided |
| FacadeAnswers.ParkedCanBeTaken | src/capgate/core.py:374-394 | an escalation just stored can be taken by every approver of its contract, at any place in the list, and by nobody else |
| FacadeAnswers.TakeExact | src/capgate/core.py:374-394 | taking succeeds exactly for those entitled and leaves the record saying who answered and how; otherwise the refusal is audited |
| FacadeAnswers.DelegateExact | src/capgate/core.py:268-301 | the sender proposes to delegate exactly what it asks for; the recipient's proposal, made exactly if that is allowed, has the asked action and arguments, names no contract and says who asked |
| FacadeAnswers.AskExact | src/capgate/core.py:347-353 | an approved delegation goes on to the recipient's proposal with the action and arguments its request carries |
| FacadeAnswers.AskedActionIff | src/capgate/core.py:350-352 | which approved delegations can go on |
| FacadeAnswers.ApproveExact | src/capgate/core.py:316-353 | what an approval decides, audits, writes to the record and grants once both audit writes return, and when its second stage is reached |
| FacadeAnswers.RejectExact | src/capgate/core.py:355-372 | a rejection is answered exactly for those entitled while pending and both writes return; denial, record and verdict say so and nothing is counted |
| FacadeAnswers.ExecuteExact | src/capgate/executor.py:126-160 | the tool runs exactly if the grant is executable: the grant is spent, run, outcome and message are on record; otherwise only the refusal is audited, for its own reason |
| FacadeAnswers.NoExecution | src/capgate/core.py:215-232 | simulation and a missing grant leave an audited refusal and nothing else |
| FacadeAnswers.SendExact | src/capgate/core.py:246-262 | a message allowed and delivered is last in its recipient's queue, from its sender and with its body, and no other queue has changed |
| FacadeSteps.AuthorizeIsRun | src/capgate/core.py:211-213 | a proposal, in either mode and however its audit write ends, is a possible run: decide, then park or mint |
| FacadeSteps.DelegateIsRun | src/capgate/core.py:268-298 | a delegation is the sender's possible run and, if that is allowed, the recipient's after it |
| FacadeSteps.SendIsRun | src/capgate/core.py:246-254 | a message is its proposal's possible run and, if allowed and enforced, its delivery's |
| FacadeSteps.ExecuteIsRun | src/capgate/executor.py:126-160 | an execution is a possible run of claim, run and audit, or of one refusal, however its audit write ends |
| FacadeSteps.ApproveIsRun | src/capgate/core.py:316-353 | an approval is a possible run of one transaction, the audited verdict, the annotation, the grant and an approved delegation's second stage, as far as the call gets |
| FacadeSteps.RejectIsRun | src/capgate/core.py:355-372 | a rejection is a possible run of take, denial, annotation and audited verdict, as far as the call gets |
| FacadeSteps.RefuseEarlyIsRun | src/capgate/interceptor.py:101-104 | a request refused before policy is a possible run of one recorded denial, however its audit write ends |
| FacadeSteps.ReachablePresentable | src/capgate/executor.py:162-176 | in a reachable state any grant the world lets be presented can be executed as that run: one that a replica is running is claimed or expired |
| FacadeSteps.CallsStayReachable | src/capgate/core.py:141-417 | a call from a reachable state ends in a reachable state |
| Facade.RaisingLeavesOnlyTrail | src/capgate/interceptor.py:52-99 | wherever the audit write of a proposal or of an approval's transaction raises, ledger, grants and runs are as before and at most a stray record or an audited refusal is left |
| Facade.ApprovalEarnsGrantIff | src/capgate/core.py:316-353 | a taken approval earns a grant exactly if it is enforced, its request is not denied now and both audit writes return; it is decided for good exactly if the first returns |
| Facade.RejectionAnsweredIff | src/capgate/core.py:355-372 | a taken rejection spends the approval, is answered by a decision exactly if auditing the denial returns, and returns it exactly if auditing the verdict does too |
| Interception.Interceptor.UsageOf | src/capgate/interceptor.py:36-42 | the counters of the bound contract and of the agent's action, zero for malformed or unbound requests |
| Interception.Interceptor.Record | src/capgate/interceptor.py:61-99 | binds, counts and writes as one step; if the write raises the trail may hold a stray record, and the tables are as before or the outermost transaction still holds what restores them |
| Interception.Interceptor.Decide | src/capgate/interceptor.py:44-59 | reads, evaluates, spends and records as one step; if the write raises, at most a stray record is left and outside any transaction the tables are as before |
| Interception.Interceptor.RejectBeforePolicy | src/capgate/interceptor.py:101-104 | records a denial, however the write ends, without touching any counter |
| Execution.Executor.Check | src/capgate/executor.py:162-176 | the refusal the first failing check gives, and a claim exactly when all pass |
| Execution.Executor.Execute | src/capgate/executor.py:126-160 | refusal, or claim, run and audit, with the state left by each way the audit write can end |
| HarnessCore.Harness.AuthorizeRequest | src/capgate/core.py:211-213 | decides and parks or mints, with the state left by each way the audit write can end; if it raises the tables are as before and there is no grant |
| HarnessCore.Harness.ResultFor | src/capgate/core.py:398-417 | an escalation is stored pending, an enforced allow earns a signed grant, a denial nothing |
| HarnessCore.Harness.Execute | src/capgate/core.py:215-232 | simulation, denials and escalations reach no tool and no table |
| HarnessCore.Harness.SendMessage | src/capgate/core.py:246-254 | a proposal and, when allowed and enforcing, its delivery, with the state left wherever a write or the delivery raises |
| HarnessCore.Harness.Receive | src/capgate/core.py:256-257 | returns the agent's queue and removes exactly it |
| HarnessCore.Harness.Delegate | src/capgate/core.py:268-298 | the sender's proposal and, only if allowed, the recipient's own, with the state left wherever a write raises |
| HarnessCore.Harness.Take | src/capgate/core.py:374-394 | hands out the decision and spends the approval exactly if it is pending and the approver may take it; otherwise only the refusal is audited |
| HarnessCore.Harness.Retake | src/capgate/core.py:316-335 | take, re-evaluation and record stand or fall together: wherever auditing raises, the approval is pending, the tables are as before and no grant exists |
| HarnessCore.Harness.Approve | src/capgate/core.py:316-353 | the whole approval, an approved delegation's second stage included, and exactly what stands wherever an audit write raises |
| HarnessCore.Harness.Reject | src/capgate/core.py:355-372 | the whole rejection, and exactly what stands wherever an audit write raises |
| Simulation.RunTask | src/capgate/simulation.py:169-194 | the rows and the final state are those of stepping the task, wherever a step raises |
| Simulation.ActionRowExact | src/capgate/simulation.py:169-228 | an action step has one row showing the agent's own proposal and what the tool did or why it was not reached |
| Simulation.MessageRowExact | src/capgate/simulation.py:181-184 | a message step has one row for the message as given |
| Simulation.DelegationRowsExact | src/capgate/simulation.py:185-193 | a delegation step has the sender's row and, exactly if it is allowed, the recipient's |
| Simulation.StepNumbered | src/capgate/simulation.py:175-176 | rows carry their step's number, counted from one |
| Simulation.SimulationRefinesEnforcement | src/capgate/simulation.py:169-228 | while audit writes go well simulating gives the enforced rows but for outcomes and ids, with no grant, run or message; enforcement finishes exactly when no allowed message outlives its grant |
| Counterexamples.LateMessageRaises | src/capgate/simulation.py:181-184 | a task of one allowed message checked too late: simulation has its row, enforcement raises |
| Simulation.DeliveryRaisesIff | src/capgate/simulation.py:181-184 | an enforced message raises exactly when it is allowed and its grant expires before it is checked |
| Base64.DecodeEncodeIff | src/capgate/identity.py:46-53 | unpadded base64url (section 5 of RFC 4648) decodes back every byte string but the empty one |
| Base64.EncodeDecodeIff | src/capgate/identity.py:46-53 | of the texts decoding accepts, exactly those with zero spare bits are encodings |
| Base64.SameBits | src/capgate/identity.py:46-49 | every three bytes and the four digits they make are the same 24 bits |
| Base64.AlphabetInOrder | src/capgate/identity.py:46-49 | the digits' characters are the URL-safe alphabet (table 2 of RFC 4648) in its order |
| Identity.CheckBindingIff | src/capgate/workload.py:156-164 | a workload passes exactly when it is verified and shows everything the token is bound to (section 3.1 of RFC 8705) |
| Identity.BindingRoundTrip | src/capgate/workload.py:137-153 | a valid binding, or none, is read back from its own claims |
| Identity.TokenRoundTripIff | src/capgate/identity.py:158-210 | an issued token verifies as its claims exactly when its key id has no dot, the ring signs it alike, its times fit, it is not revoked and the workload satisfies its binding |
| Identity.PayloadGets | src/capgate/identity.py:158-172 | the payload states subject, role, times, token id and binding under their own names |
| Identity.AdmitExact | src/capgate/identity.py:191-210 | each refusal of an authentic token is given in exactly one situation, the checks before it passing |
| Identity.AuthenticateExact | src/capgate/identity.py:174-190 | so is each refusal before that |
| Identity.DottedKidNeverVerifies | src/capgate/identity.py:170-177 | under a key id with a dot even a fresh token is malformed |
| Tokens.Keyring.Create | src/capgate/identity.py:74-80 | succeeds exactly when the active key is in the ring and every key has 32 bytes, and otherwise says which failed first |
| Tokens.Keyring.RotateTo | src/capgate/identity.py:102-106 | adds the drawn key, makes it active, changes no other, and keeps the ring valid |
| Tokens.Keyring.RetireKey | src/capgate/identity.py:108-113 | removes a known key that is not active, and otherwise changes nothing and says why |
| Tokens.ActiveStaysInRing | src/capgate/identity.py:102-113 | after any rotations and retirements the active key is in the ring |
| Tokens.KeptUnlessRetired | src/capgate/identity.py:102-113 | a key stays in the ring exactly until it is retired, provided no rotation draws its id again |
| Tokens.RedrawnKidReplaces | src/capgate/identity.py:102-106 | a rotation that draws an id in use invalidates its tokens unless the new key signs them alike |
| Tokens.RoundTripOverHistories | src/capgate/identity.py:158-210 | the round trip over whole key histories: the signing key must not have been retired |
| Tokens.TokenAuthority.Issue | src/capgate/identity.py:158-172 | issues exactly for known roles and admissible lifetimes; whenever the token is shown it reads as subject, role, id and binding asked for, from the time of issue for the lifetime asked for, exactly while these times hold, it is not revoked and the workload satisfies the binding |
| Tokens.TruncateExact | src/capgate/identity.py:165 | times of issue lose their fraction |
| Tokens.TokenAuthority.Verify | src/capgate/identity.py:174-210 | the specified verdict against the current ring and revocations |
| Tokens.TokenAuthority.Revoke | src/capgate/identity.py:212-218 | records the token's expiry exactly when it verifies without a workload |
| Tokens.RevocableIffUnbound | src/capgate/identity.py:212-218 | a token that verifies for its holder can be revoked exactly if it is bound to no workload |
| Tokens.PruningKeepsVerification | src/capgate/state.py:277-282 | pruned revocations change no verification while no clock reads more than an hour behind a prune |

## Left out

- HTTP, TLS, MCP, the client SDK, the command line and the inspect server: transport and presentation over the calls modelled here.
- URL and host classification: `UrlCheck` is any fixed function of a capability's URL constraints and the arguments.
- YAML loading, field validation and timestamp parsing: contracts arrive as values that the constructor accepts.
- Detail texts, notes, the audited mode and record ids: carried along by the source, consulted by nothing.
- JSON text, SHA-256 and HMAC as bytes: injective or symbolic; `Identity.Codec` lists what tokens need of them.
- Floating-point rounding in buckets and expiries: times, rates and tokens are reals.
- Threads inside one process, but for the order in which they take locks: the classes run one call at a time; interleavings of replicas are the machine's.
- Locks inside SQLite and Postgres: `Locks` is about the in-process store's.
- Postgres statements: the machine's steps stand for its transactions; the orders of its drained messages and of its pending approvals are not modelled.
- `rate_admit` with `per_minute` 0, and bucket rows whose last time is exactly 0.
- Hot reload of the keyring file and its storage on disk.
- The syntax of SPIFFE ids and the reading of certificates: `Codec.spiffe` is any predicate.
- A partial audit line: a write that breaks off inside a line is not among the four ends of a write.
- Policy.Evaluate: a prebuilt message or delegation grant without target names, asked with a list or an object as target, makes the source raise; the model denies it.
- The JSON and timestamp text of stored decision records: records are the fields themselves.
- An audit line that is JSON but no object, and a signed token payload of that kind beyond its own error value: the source would raise an exception of another class.
- Requests whose arguments cannot be canonical JSON: refused before policy; `RejectBeforePolicy` models the record they leave.
- HarnessCore.Harness.Approve: an escalated delegation whose `arguments` is neither an object nor empty is taken to raise, although the source also accepts a list of pairs.
- Simulation.RunTask: task files, the approve callback and the tools' construction are not modelled; a tool either succeeds or fails.
