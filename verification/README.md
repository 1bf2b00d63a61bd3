# Verification of GameWake

GameWake is a prepaid control plane for game servers. This project models its domain layer in Dafny and
proves what that layer promises: that a wallet is never overdrawn whoever races for it, that a failed
wake costs nothing, that a World always shows what its one live operation is doing, that a game is only
released after its state is safe, that an account always keeps an Owner, and that what is persisted comes
back.

`dafny verify dfyconfig.toml` checks everything. Short lemmas with an empty or one-line body name a fact once
so that larger proofs can keep the definitions behind it hidden.

## The parts

**Wallet** (`Money`, `Wallet`, `Solvency`, `Usages`, `FailedWake`, `HoldEndings`, `BalanceGuard`,
`AlertProtocol`, `Budgets`, `Contributions`, `Idempotency`, `Postings`, `WalletDecisions`, `GuardDecisions`).
`Wallet` gives every billing command as one attempt
on one snapshot: what it would save, answer or raise. The other modules prove laws about single attempts
and lift them to every run of commands. `Optimistic` and `BillingProtocol` then let any number of clients
hold snapshots of any age and show that the stored wallet of an interleaving is that of its accepted
commands in order, so every law about the wallets of runs is a law about interleavings. For what callers
are handed, `AlertProtocol` shows the same of the alerts: only an accepted save hands one out.
`WalletDecisions` and `GuardDecisions` say of every command exactly when it saves and what it leaves, from
the records alone. `BillingService` has the repository and the retry loop as classes.

**World lifecycle** (`WorldModel`, `WorldPlans`, `WorldLaws`, `WorldProtocol`, `RecoveryWindow`, `Endings`,
`Outcomes`, `WorldDecisions`, `Rivals`, `WorldWorker`, `WorldService`, `SafeSleep`, `SafeWake`, `ClosedSessions`,
`IdleSleep`, `ConfigurationFold`). `WorldModel` has the
repository as a class over its six dictionaries, each method proved against a function on the whole
repository. `WorldPlans` says, for every service, data, monitor and worker call, which effects it performs
and which single write it asks for, given the records it read. `WorldWorker` and `WorldService` carry the
calls out step by step and are proved to do what the plans say. `WorldProtocol` lets clients read at any
time and act later on what they read; the invariant it proves says that each World has at most one live
operation, that the status names it, and that the active index equals the scan for live operations.
`Endings` tells exactly which actions remove a World and which end an operation, `Outcomes` what each leaves
and how operations end, `WorldDecisions` when a request is granted. `SafeSleep` and `SafeWake` follow a worker
that may crash anywhere through its trace of effects, and `ClosedSessions` puts that trace on the bill.

**Wake saga** (`UsageRecorder`, `WakeSaga`, `WakeExamples`, `WakeRace`, `RaceOutcome`, `RaceExample`). The
call that reserves money, attaches it to a wake and compensates on failure, over both stores; inputs that
show what it does not promise; the race of many callers under one key; and exactly what becomes of the hold
and the operation they share.

**Storage** (`Archive`, `Storage`). Backups in insertion order, stable listing by age, pruning, and the
grace period.

**Accounts** (`AccountModel`, `AccountLaws`, `AccountDecisions`, `AccountService`, `AccountProtocol`) and **codec** (`Codec`).

## How the source is read

- Amounts are whole cents and instants whole microseconds. The month of an instant, the wall clock, fresh
  identifiers and the answers of the outside world are parameters.
- A runtime's identifier and reference travel together in one optional record; so do a stored state and
  its checksum, and a session's quote and reservation. The source sets and clears each pair together.
- Guard and budget alerts keep the set of thresholds already announced. The reference of a ledger entry is
  a datatype, so a free-text reference never collides with a contribution, usage or interval.
- Permission checks of the Worlds services and of the wake saga are parameters; in `AccountService` they
  are looked up.
- An exception leaves a repository as the last completed call left it. `WakeSaga` lets one strike between
  any two calls.

## Where a natural claim is false

- "A contribution is credited once and reversed once." Three steps break it: an underfunded reversal, which
  sends a credited contribution to review, where it can be credited again; a late checkout attach over a
  credited one; and one over a refunded or disputed one. `Contributions.CountExactly` says these are the
  only three, from the status and the ledger lines before the step. The first two also part the ledger's
  net from the contribution, and are the only two that do (`Contributions.AgreementExactly`); the third
  does not (`Contributions.RefundedAttachCreditsTwice`).
- An older budget key can be applied again once a later budget of the same World replaced it
  (`Idempotency.BudgetRepeatsExactly`).
- "Revisions are numbered one to n." `update_configuration` reads the World twice, and two updates from one
  preview share a number (`ConfigurationFold.StalePreviewRepeatsNumber`). The numbering holds exactly while
  every committed update previewed a still effective revision (`ConfigurationFold.RunFaithfulExactly`).
- "A wake whose billing fails leaves no reservation." A call that fails without reaching its reservation,
  because its quote has expired meanwhile, leaves an earlier one under its key active.
  `WakeSaga.FailureUndoes` says exactly when; `WakeExamples.ExpiredQuoteLeavesHold` is an input.
- "A wake whose billing fails is over." When the reservation the call reaches has been captured, its release
  raises before the operation is failed, which stays live. `WakeSaga.FailureUndoes` says this is the only
  case; `WakeExamples.CapturedHoldKeepsWake` is an input.
- "A wake that succeeds is under way." A retry under the key of a wake that is over is answered success: for
  nothing if that wake has its session (`WakeSaga.DeadSessionIsAnswered`), and paid for again if it was given
  up before its first step (`WakeExamples.AbandonedWakeTakesMoney` is an input). The operation answered lives
  exactly when the key is not that of a wake that is over (`WakeSaga.SuccessLivesExactly`).
- "A finished caller's hold is active and its wake lives." Callers racing under one key share one hold and one
  operation, and one that fails gives back the hold and fails the operation, before or after another has
  attached. `RaceExample.FinishedCallerLosesAll` is a race in which no service breaks down. The hold is active
  exactly while no turn closed it (`RaceOutcome.RaceActiveExactly`), the operation live exactly while no turn
  ended it (`RaceOutcome.RaceLiveExactly`).
- "A cancelled deletion keeps the World." `purge_due_deletion` deletes on the strength of its own read
  (`WorldService.CancelledIsPurged` is the race). A cancelled World stays exactly until a purge by a client
  that remembers it pending and due (`Endings.CancelledStaysExactly`).
- "A wake that succeeded was never released or closed." No advance does (`SafeWake.SucceededWake`), but a giving
  up that breaks off after its effects and before its commit leaves a live wake without its runtime, which one
  healthy answer then ends SUCCEEDED (`SafeWake.InterruptedCloseSucceeds`).
- `request_wake` does not look at the World's status; the World invariant allows for it.
- Removing a membership asks for the Owner role in any scope, role changes for account-wide Owners only.
  Both keep an account-wide Owner.

## Model

| member | source | states |
|---|---|---|
| Money.HoldCoversCharge | gamewake/billing/service.py:767-771 | a hold rounded up for some seconds pays any charge rounded half-up for fewer seconds |
| Solvency.AttemptGood | gamewake/billing/service.py:306-1190 | each of the eighteen commands, on any funded wallet, leaves it funded, only appends to ledger, quotes, usages and events, and never changes a captured or released reservation |
| Solvency.RunSound | gamewake/billing/service.py:306-1190 | the same over every run of commands |
| Optimistic.SaveCoherent | gamewake/billing/in_memory.py:29-46 | a save is accepted only from the snapshot it replaces; any other save changes nothing |
| BillingProtocol.NextAtomic | gamewake/billing/in_memory.py:11-46 | a commit from any snapshot either has the effect of the command on the current wallet or none |
| BillingProtocol.Linearizable | gamewake/billing/service.py:1190-1195 | every interleaving of any number of clients equals its accepted commands one after another |
| BillingProtocol.InterleavingsSound | gamewake/billing/service.py:1197-1212 | in every state any interleaving reaches, ledger less active holds is not negative, the ledger extends the earlier one and closed reservations are as they were |
| BillingProtocol.EveryWalletIsFunded | gamewake/billing/in_memory.py:11-46 | the same from an account that never held anything |
| BillingService.BillingRepository.Save | gamewake/billing/in_memory.py:29-46 | accepted exactly when the version matches, and then only this account's wallet is replaced |
| BillingService.Billing.Execute | gamewake/billing/service.py:685-734 | with rivals committing between every read and save, the command takes effect once, on the wallet of its last read, or gives up after a hundred rounds each lost to a rival |
| BillingService.Billing.Call | gamewake/billing/service.py:1190-1195 | without rivals a call is one atomic execution of the command on its account, and no other account changes |
| WalletDecisions.CommandExactly | gamewake/billing/service.py:52-1188 | every command but the guard, on every wallet with unique identifiers: it saves if and only if its arguments, its key, the clock, the ledger, the holds, the contributions and the World's budget say so, and it leaves exactly the records named here changed, with holds, charges and credits as relations between cents, rate and started seconds; told without the functions that compute it |
| WalletDecisions.RepeatsExactly | gamewake/billing/service.py:52-1188 | and it answers without saving if and only if it repeats what is there or has nothing to do, and fails in every other case |
| WalletDecisions.ReservesExactly | gamewake/billing/service.py:685-734 | with no contribution under review and a new key a hold is made if and only if its amount is positive and within ledger balance less active holds, and within what the World's budget leaves of this month after costs and holds |
| WalletDecisions.ReserveRefusals | gamewake/billing/service.py:707-716 | why a new hold is refused: funds first, then the budget |
| WalletDecisions.ReviewFreezes | gamewake/billing/service.py:1197-1212 | while any contribution is under review no hold is made, for a wake or otherwise, and no storage is charged |
| WalletDecisions.ReviewSpreads | gamewake/billing/service.py:417-455 | and a refund or dispute of a credited contribution posts nothing and puts that one under review too |
| WalletDecisions.AnswersFit | gamewake/billing/service.py:52-1188 | a command that does not fail answers with its own record as the wallet then holds it, made now or found by key, identifier or interval |
| BillingService.WorldBudgetSpent | gamewake/billing/service.py:1247-1272 | the accumulating loops compute, for every usage of the World in the month, its charge less its own credits and never less than zero |
| Usages.RunAccounted | gamewake/billing/service.py:929-967 | over every run each usage has its one charge and a captured reservation, each guarantee belongs to a usage and equals its charge, and no usage is guaranteed twice |
| Usages.UsageNet | gamewake/billing/service.py:1121-1188 | the ledger lines of a usage sum to its charge, or to zero once guaranteed |
| Usages.RetriesClose | gamewake/billing/runtime.py:39-67 | any number of closings, each free to crash between capture and guarantee, leaves one usage, one charge and at most one guarantee |
| Usages.FailedWakeIsFree | gamewake/billing/runtime.py:39-67 | once one closing of a failed wake finishes, the balance is what it was, the hold is captured and the available balance has risen by the whole hold |
| FailedWake.FailedWakeCostsNothing | gamewake/billing/runtime.py:39-67 | the same among everybody else's commands: whatever they do short of touching this reservation and usage key, and however often the worker crashes before, between or after its two commands, once a guarantee was applied there is one usage under the key, its charge and guarantee cancel, its reservation is captured, and the balance is what the other lines sum to |
| FailedWake.TurnKeeps | gamewake/billing/runtime.py:39-67 | every turn of worker or others keeps the stage: covered and uncharged, or charged once and, once applied, guaranteed |
| Usages.CancelOnlyReleases | gamewake/billing/runtime.py:31-37 | a wake that fails before its runtime exists only releases its hold |
| HoldEndings.ClosesExactly | gamewake/billing/service.py:906-1119 | a hold is active after a command if and only if the command is none of: a release of it, a capture under a new key for a positive amount within it, a usage under a new key of a known quote charged within it; guards and refused captures leave it active |
| HoldEndings.RunActiveExactly | gamewake/billing/service.py:906-1119 | an active hold is active at the end of a run if and only if no command of the run closed it, and once closed it stays closed |
| UsageRecorder.BillingRuntimeUsageRecorder.Protect | gamewake/billing/runtime.py:16-29 | asks the guard exactly for a complete session, and otherwise touches nothing |
| UsageRecorder.BillingRuntimeUsageRecorder.Cancel | gamewake/billing/runtime.py:31-37 | releases the operation's reservation, if it has one |
| UsageRecorder.BillingRuntimeUsageRecorder.RecordRelease | gamewake/billing/runtime.py:39-67 | captures the usage and, unless the World came online or a crash intervened, guarantees it; an incomplete session raises and changes nothing |
| UsageRecorder.BillingRuntimeUsageRecorder.CloseFailedWake | gamewake/billing/runtime.py:39-67 | repeated closings have the effect that Usages.FailedWakeIsFree is about |
| UsageRecorder.UsageKeysDiffer | gamewake/billing/runtime.py:52-59 | two operations never share a usage key |
| BalanceGuard.GuardCoversCapture | gamewake/billing/service.py:736-866 | after a guard that reserved its window of at least a minute, and any run that neither closes the reservation nor guards it for less, every capture up to the end of the window is accepted |
| BalanceGuard.LaterGuardsRespect | gamewake/billing/service.py:747-791 | guards observing later with at least the same window never shorten it, so they belong to such a run |
| BalanceGuard.RunKeepsCover | gamewake/billing/service.py:784-822 | such a run keeps the hold large enough, extended or not |
| BalanceGuard.UnsavedIsSilent | gamewake/billing/service.py:823-866 | an attempt that saves nothing announces no alert |
| AlertProtocol.InterleavedAlertsFireOnce | gamewake/billing/service.py:736-903 | over every interleaving of racing clients with snapshots of any age, what the callers are handed, replies without a save included, strictly falls and strictly rises, and every threshold handed out stays notified |
| AlertProtocol.EmissionIsCommitted | gamewake/billing/in_memory.py:29-46 | no alert is handed out without its state: the attempt that announces one has its save accepted, on the wallet it replaces |
| AlertProtocol.EmittedByAccepted | gamewake/billing/service.py:736-903 | what an interleaving hands out is what its accepted commands announce one after another |
| Budgets.OnlyGrantsRaise | gamewake/billing/service.py:1214-1272 | no capture, release, credit, event or other posting raises what any World has spent and reserved in any month |
| Budgets.StepWithinBudget | gamewake/billing/service.py:710-791 | no reservation or guard extension takes the observed month above the larger of the limit and its previous value |
| Budgets.RunWithinBudget | gamewake/billing/service.py:1221-1245 | the same over every run whose grants are observed in the month |
| Budgets.NextGuardExtends | gamewake/billing/service.py:838-866 | a guard that does not ask for sleep gets its window again one interval later, if nothing else is spent meanwhile in the month |
| GuardDecisions.GuardExactly | gamewake/billing/service.py:736-903 | what a guard decides, from the hold that covers its window, the ledger balance less holds and the World's budget: the window is reserved if and only if both pay what it costs more; sleep is asked for if and only if it is not reserved, or the smaller rest is below the rate over one interval; the reason; the whole minutes left; the lowest of 30, 10 and 5 minutes and the highest of 50, 80 and 100 percent reached and not told before; and what it leaves: the hold, the thresholds told, nothing else |
| GuardDecisions.GuardsExactly | gamewake/billing/service.py:747-783 | a guard raises if and only if its times are out of order or the session is not that of a known quote with its own active reservation |
| GuardDecisions.ReviewStopsGuard | gamewake/billing/service.py:784-850 | with a contribution under review a guard that needs more than its hold leaves every hold as it is and asks for sleep |
| Contributions.AgreementExactly | gamewake/billing/service.py:306-455 | a step from an agreeing wallet keeps ledger and contributions in agreement if and only if it is neither an attach over a credited contribution nor an underfunded reversal of one |
| Contributions.CountExactly | gamewake/billing/service.py:306-455 | a step from a wallet whose contributions are credited and reversed as their status tells keeps them so, at most once each, if and only if it is none of: an underfunded reversal of a credited one, an attach over a credited one, an attach over a reversed one that the ledger once credited |
| Contributions.RunAgrees | gamewake/billing/service.py:306-455 | over every run without those three cases the ledger holds a contribution's amount exactly while it is completed or its refund is requested, with at most one credit and one reversal |
| Contributions.UnderfundedReversalCreditsTwice | gamewake/billing/service.py:417-455 | a concrete run in which an underfunded refund and a second completion credit one contribution twice |
| Contributions.LateAttachCreditsTwice | gamewake/billing/service.py:128-141 | a concrete run in which the attach loop reopens a credited contribution and it is credited twice |
| Contributions.RefundedAttachCreditsTwice | gamewake/billing/service.py:128-141 | a concrete run in which the attach loop reopens a refunded contribution and it is credited a second time, while the net still agrees at every step |
| Idempotency.RepeatChangesNothing | gamewake/billing/service.py:457-1188 | a saved command with a key, event, usage or reservation of its own, repeated after any run of other commands, changes nothing |
| Idempotency.BudgetRepeatsExactly | gamewake/billing/service.py:530-573 | setting a budget again is free exactly while its key is on record |
| Idempotency.OldBudgetKeyReturns | gamewake/billing/service.py:530-573 | a concrete run in which an old budget key brings the old limit back |
| Postings.CommandPosts | gamewake/billing/service.py:605-1188 | the change of balance of every command, with charges as the nearest cent, a guarantee equal to its charge, and an availability credit for its outage at the usage's rate, never above the usage |
| Postings.HoldsMove | gamewake/billing/service.py:685-1188 | the change of active holds of every command: its own amount in, the whole hold out |
| WorldModel.WorldRepository.BeginOperation | gamewake/worlds/in_memory.py:53-80 | a known key, then a live operation, then the version decide, and all four dictionaries change together |
| WorldModel.WorldRepository.SaveOp | gamewake/worlds/in_memory.py:99-121 | operation and World are written together or not at all, and the active entry goes exactly with a finished operation that owns it |
| WorldModel.WorldRepository.Save | gamewake/worlds/in_memory.py:26-31 | a World is replaced only from its current version |
| WorldModel.WorldRepository.AppendConfiguration | gamewake/worlds/in_memory.py:134-153 | revision, World and key are written together, once per key |
| WorldModel.WorldRepository.DeleteWorld | gamewake/worlds/in_memory.py:33-51 | the World goes with its operations, revisions and active entry; the key indexes stay |
| WorldLaws.BeginConsistent | gamewake/worlds/in_memory.py:53-80 | beginning an operation keeps every World coupled to at most one live operation and the index exact |
| WorldLaws.SaveConsistent | gamewake/worlds/in_memory.py:99-121 | saving an operation, alone or with its World, keeps the same |
| WorldLaws.TouchConsistent | gamewake/worlds/data.py:74-206 | saving a World alone, between statuses without a live operation, keeps the same |
| WorldLaws.DeleteConsistent | gamewake/worlds/in_memory.py:33-51 | deleting a World keeps the same |
| WorldLaws.StatusTellsOperation | gamewake/persistence/postgres.py:473-484 | with a live operation there is no second one, and the World is WAKING, or GOING_TO_SLEEP for a sleep |
| WorldLaws.QuietStatuses | gamewake/worlds/service.py:409-497 | an ONLINE, SLEEPING, NEEDS_ATTENTION or PENDING_DELETION World has no live operation, and WAKING without one follows a failed recovery |
| WorldProtocol.ActKeeps | gamewake/worlds/service.py:290-497 | every service, worker, monitor and data action, on records read at any earlier time, keeps the invariant and moves versions forward |
| WorldProtocol.RunKeeps | gamewake/worlds/in_memory.py:53-121 | over every interleaving of any number of clients with stale reads: one live operation per World at most, statuses coupled to it, and the active index equal to the scan of live operations |
| WorldProtocol.NewWorldsConsistent | gamewake/worlds/service.py:76-93 | new Worlds satisfy the invariant |
| Endings.WorldStaysExactly | gamewake/worlds/data.py:208-228 | after any action a World is there if and only if it was and the action is not a purge by a client that remembers it pending with a date not after its clock, whatever the World is by now |
| Endings.RunWorldStaysExactly | gamewake/worlds/data.py:208-228 | over every run a World is there at the end if and only if no action purged it |
| Endings.CancelledStaysExactly | gamewake/worlds/data.py:182-228 | a committed cancellation leaves the World Sleeping without a date, and after any further actions it is still there if and only if none of them was a purge by a client that remembered it pending and due |
| Endings.FreshPurgeSpares | gamewake/worlds/data.py:208-228 | a purge that read the World as it is, and not pending, deletes nothing |
| Endings.LiveStaysExactly | gamewake/worlds/service.py:382-407 | a live operation is live after an action if and only if the action is none of: a preflight failure, a giving up or a last step by a client that remembers operation and World as they are; a purge of its World |
| Endings.RunLiveExactly | gamewake/worlds/service.py:382-407 | over every run a live operation is live at the end if and only if no action ended it |
| Outcomes.ActionExactly | gamewake/worlds/worker.py:132-558 | one event of any client on whatever it remembers: a live operation takes exactly the step of a table over kind, phase and answer, or gets its session, or stays as it is; the table gives every field of the operation and of the World that is written, health and player answers included |
| Outcomes.StatusExactly | gamewake/worlds/worker.py:226-518 | an operation becomes SUCCEEDED if and only if a wake's or recovery's health check was answered healthy or a sleep released its runtime; CANCELLED if and only if an unforced sleep found players; FAILED if and only if its preflight failed or its first or second recovery was answered unhealthy; NEEDS_ATTENTION if and only if it was given up, a failed wake was released, a state did not validate, or a third recovery was answered unhealthy |
| Outcomes.EndShows | gamewake/worlds/worker.py:226-518 | what its World shows in that moment: ONLINE, SLEEPING with the persisted state, WAKING after a failed recovery, NEEDS_ATTENTION, and whether runtime and session are kept |
| Outcomes.RunEndsExactly | gamewake/worlds/worker.py:132-518 | over every run an operation that was live has a final status if and only if one action of the run ended it so |
| Outcomes.EffectsExactly | gamewake/worlds/worker.py:152-500 | what the worker does outside at each phase, in order, with the runtime, revision and word it uses |
| Outcomes.SessionStays | gamewake/worlds/worker.py:152-181 | once provisioned, an operation keeps runtime, start and session whatever anybody does |
| WorldDecisions.WakeAskedExactly | gamewake/worlds/service.py:290-330 | a wake begins if and only if it is permitted and storage is open, whatever the World shows, without runtime and session |
| WorldDecisions.SleepAskedExactly | gamewake/worlds/service.py:409-454 | a sleep begins if and only if it is permitted and the World ONLINE, and takes over runtime, session and start |
| WorldDecisions.RecoveryAskedExactly | gamewake/worlds/service.py:456-497 | a recovery begins if and only if at most two were created in the last fifteen minutes and the World is ONLINE or WAKING, numbered one more than those |
| WorldDecisions.ObservedExactly | gamewake/worlds/worker.py:61-130 | an observation begins a sleep if and only if the guard asks for it, then by force, or nobody has played for the limit, and otherwise moves the mark if and only if it must |
| WorldDecisions.SettingsChangedExactly | gamewake/worlds/service.py:129-153 | only off, 10, 20, 30 and 60 minutes, only with the permission |
| WorldDecisions.RestoredExactly | gamewake/worlds/data.py:74-118 | a restore writes if and only if it is permitted, the World sleeps with a state, the backup is its own and the key is new |
| WorldDecisions.DeletionExactly | gamewake/worlds/data.py:147-228 | scheduling needs permission, confirmation, a sleeping World and a state, and waits for seven days; cancelling needs permission and a pending World; a purge removes if and only if the World it read is pending and due |
| WorldDecisions.ConfiguredExactly | gamewake/worlds/service.py:214-288 | an update appends if and only if it is permitted, every changed value is accepted, and the merged entries are complete and accepted; the revision holds them normalized, numbered one more than its base |
| WorldProtocol.AdvanceLegal | gamewake/worlds/worker.py:132-518 | on every reachable live operation an advance asks for a save, never stops for an unsupported phase, a missing runtime or a missing state, and lowers the rank |
| WorldProtocol.EndingsLegal | gamewake/worlds/worker.py:295-348 | giving an operation up, or failing its preflight, always has a legal write |
| RecoveryWindow.RunLimited | gamewake/worlds/service.py:456-497 | over every interleaving no closed fifteen minutes contain the creation of more than three recoveries of one World, and attempts are numbered one to three |
| RecoveryWindow.RunContinues | gamewake/worlds/in_memory.py:93-121 | without a purge operations stay; finished ones never change status or phase; live ones only fall in rank |
| WorldWorker.WorldOperationWorker.Advance | gamewake/worlds/worker.py:132-293 | one advance, whatever the operation's kind and phase, with or without a recorder and a backup store: its effects up to the one that raises and then no write; or all of them and the plan's write on what other clients made of the repository meanwhile |
| WorldWorker.WorldOperationWorker.AdvanceSleep | gamewake/worlds/worker.py:350-473 | the same for a sleep |
| WorldWorker.WorldOperationWorker.AdvanceRecovery | gamewake/worlds/worker.py:475-518 | the same for a recovery |
| WorldWorker.WorldOperationWorker.MarkNeedsAttention | gamewake/worlds/worker.py:295-348 | cleanup effects up to one that raises, or all of them and the write that gives an operation up |
| WorldWorker.WorldOperationWorker.RunToCompletion | gamewake/worlds/worker.py:45-59 | among other clients that keep the invariant and continue the operation, writing between rounds and within them, and with effects that may raise: the loop returns the finished operation or raises in a round that wrote nothing, within the operation's rank of rounds, and keeps the repository consistent |
| WorldWorker.RankBounds | gamewake/worlds/worker.py:45-59 | the rank is at most eight for a wake, seven for a sleep and three for a recovery, and zero exactly when finished |
| WorldWorker.OneAdvance | gamewake/worlds/worker.py:132-518 | an advance on current records always commits, lowers the rank and keeps the invariant |
| WorldWorker.RoundKeeps | gamewake/worlds/worker.py:132-518 | a round that read current records and writes after others did commits and lowers the rank, or is refused and changes nothing; either way the invariant holds |
| WorldWorker.WorldOperationWorker.MonitorSession | gamewake/worlds/worker.py:61-130 | what an observation writes: a mark, a sleep, or nothing |
| SafeSleep.RunsSafely | gamewake/worlds/worker.py:295-473 | over every run of one worker that may crash within any effect and before any commit and may give operations up, among any other clients, the effects of each sleep are ordered save, stop, persist, backup, release and match what is committed |
| SafeSleep.EveryRunIsSafe | gamewake/worlds/worker.py:350-473 | the same from any repository of new Worlds |
| SafeSleep.ReleaseIsBackedUp | gamewake/worlds/worker.py:434-447 | a sleep releases its runtime only after a validated state and a backup of that state are committed on the operation |
| SafeSleep.SleepKeepsTheWorld | gamewake/worlds/worker.py:448-471 | the turn in which a sleep succeeds leaves the World asleep with exactly the state that was persisted, validated and backed up, the runtime released and the session closed as one that was online |
| SafeWake.WakesRunSafely | gamewake/worlds/worker.py:132-348 | over the same runs, from the trace and the operations alone: wakes, recoveries and giving up are safe, which the next rows read off |
| SafeWake.EveryWakeIsSafe | gamewake/worlds/worker.py:132-348 | the same from any repository of new Worlds |
| SafeWake.ClosedRightly | gamewake/worlds/worker.py:258-269 | every session closed, done or only begun, by an advance or by giving up, was closed as never online for a wake and as online for a sleep, and never for a recovery |
| SafeWake.WakeInOrder | gamewake/worlds/worker.py:152-293 | the effects of a wake come in the order provision, restore, configure, start, and on failure stop, then release and close: none before its predecessor, none after a later one |
| SafeWake.SucceededWake | gamewake/worlds/worker.py:152-249 | a wake that succeeded was provisioned with the runtime it carries, restored, configured and started, and no advance stopped, released or closed it |
| SafeWake.ReleasedWake | gamewake/worlds/worker.py:250-293 | a wake whose advances ended in NEEDS_ATTENTION was started, stopped, its runtime released, and its session closed as never online |
| SafeWake.GivenUpWake | gamewake/worlds/worker.py:295-348 | when the worker commits that it gave a wake up, its runtime is released and its session closed as never online, or cancelled where there was no runtime |
| SafeWake.RecoveryRestarts | gamewake/worlds/worker.py:475-518 | a recovery only starts the game, and checks its health and succeeds only after that |
| SafeWake.InterruptedCloseSucceeds | gamewake/worlds/worker.py:295-348 | from every state with a wake before its health check, a giving up that breaks off before its commit and then a healthy answer leave a SUCCEEDED wake, its World ONLINE, with runtime released and session closed as never online |
| ClosedSessions.ClosedWakeIsFree | gamewake/billing/runtime.py:39-67 | the closings of a wake in the trace, applied to the wallet with the word the worker gave and with any crashes and repetitions, leave the balance as it was and the hold free, once one of them is done |
| ClosedSessions.ReleasedWakeIsFree | gamewake/worlds/worker.py:250-293 | so for every wake whose advances ended in NEEDS_ATTENTION |
| ClosedSessions.ClosedSleepIsCharged | gamewake/billing/runtime.py:39-67 | the closings of a sleep charge its usage once and give nothing back |
| IdleSleep.RunMarked | gamewake/worlds/worker.py:81-97 | over every run the empty mark of a World is the start of an unbroken row of empty observations in its present session |
| IdleSleep.IdleSleepIsEarned | gamewake/worlds/worker.py:69-130 | a sleep begun for idleness follows a row of observations without players at least as long as the limit; with times that never go back every counted observation since saw nobody |
| IdleSleep.SessionsStartUnmarked | gamewake/worlds/service.py:321-330 | no mark survives a new wake, a wake or sleep that succeeds, or a cancelled sleep |
| ConfigurationFold.ProposalOverrides | gamewake/worlds/service.py:214-243 | a proposal is the base entries overridden by the normalized change, in normal form again |
| ConfigurationFold.RunFaithful | gamewake/worlds/service.py:246-288 | over every run whose committed updates previewed a revision that was still effective at their writes, among all other actions, revisions are numbered one to n, the effective one is the nth and its entries are the defaults overridden by all accepted changes in order |
| ConfigurationFold.NumberingKeptExactly | gamewake/worlds/service.py:255-288 | the commit of an update keeps the numbering if and only if the effective revision it previewed is still the effective one of the World it writes |
| ConfigurationFold.RunFaithfulExactly | gamewake/worlds/service.py:246-288 | over every run, while the World exists, its history is numbered and folded as promised if and only if every committed update previewed a still effective revision; after one that did not, some number stays wrong |
| ConfigurationFold.StalePreviewRepeatsNumber | gamewake/worlds/service.py:255-288 | two updates from one preview both commit, share a number, and the second undoes the first |
| ConfigurationFold.ConfigurationWasApplied | gamewake/worlds/worker.py:190-216 | the current revision only becomes one that apply_configuration was called with |
| ConfigurationFold.RunApplied | gamewake/worlds/worker.py:190-216 | over every run the current revision of a World is the one it started with or one that some advance called apply_configuration with |
| WorldService.Worlds.RequestWake | gamewake/worlds/service.py:290-330 | permission, storage, then one begin; a consistent repository stays consistent, and the operation answered is the stored one, which its World shows and which is its only live one while it lives |
| WorldService.Worlds.RequestSleep | gamewake/worlds/service.py:409-454 | only an ONLINE World begins a sleep; consistency and the answered operation as for a wake |
| WorldService.Worlds.RequestAutomaticRecovery | gamewake/worlds/service.py:456-497 | counts the World's recoveries of the last fifteen minutes and begins, refuses or declines; consistency and the answered operation as for a wake |
| WorldService.Worlds.AttachBillingSession | gamewake/worlds/service.py:332-380 | attaches once, with rivals between read and write; a write lost to the same session still answers it; whoever is answered finds the session on the stored operation, shown by its World while it lives |
| WorldService.OutcomeShown | gamewake/worlds/service.py:355-380 | that last part for every state rivals may have left |
| WorldService.Worlds.FailWakePreflight | gamewake/worlds/service.py:382-407 | fails a live wake and leaves its World asleep with nothing at work on it; a finished one is returned |
| WorldService.Worlds.UpdateRuntimeSettings | gamewake/worlds/service.py:129-153 | only off, 10, 20, 30 or 60 minutes are written; no operation is touched and consistency is kept |
| WorldService.Worlds.UpdateConfiguration | gamewake/worlds/service.py:246-288 | previews on one read and writes on a second, with rivals between, and keeps the repository consistent if they do |
| WorldService.WakeIsIdempotent | gamewake/worlds/service.py:307-330 | a second wake under a key changes nothing and answers the first operation, whatever was written in between |
| WorldService.WorldData.RestoreBackup | gamewake/worlds/data.py:74-118 | once per key a Sleeping World gets the validated state of one of its own backups, and the state it replaces is in the archive as a restore point; a state that did not validate changes no World |
| WorldService.WorldData.ScheduleDeletion | gamewake/worlds/data.py:147-180 | a World at rest with a stored state becomes pending, due in seven days, with its final backup in the archive |
| WorldService.WorldData.CancelDeletion | gamewake/worlds/data.py:182-206 | exactly a pending World goes back to sleep, with nothing at work on it and no date or final backup |
| WorldService.WorldData.PurgeDueDeletion | gamewake/worlds/data.py:208-228 | decides on its read, whatever rivals then make of the World: read as pending and due it goes from both stores, with every record, operation and backup, and every other backup stays; else nothing changes |
| WorldService.CancelledIsPurged | gamewake/worlds/data.py:182-228 | the race: cancelling makes the World an ordinary Sleeping one that no fresh purge would touch, and a purge that read it before deletes it |
| WakeSaga.GameWakeApplication.RequestWake | gamewake/control_plane/application.py:503-567 | the imperative call, compensation included, has exactly the effect of the function Saga on both stores |
| WakeSaga.AttachExactly | gamewake/worlds/service.py:332-380 | attaching to a wake on file succeeds if and only if it carries this session, or none in its first phase; its status and its World's are not asked and do not change |
| WakeSaga.SuccessAttaches | gamewake/control_plane/application.py:537-562 | a priced wake that succeeds leaves operation and World with the same quote and reservation, under the call's keys; a quote it made carries the asked rate, and a hold it made is active and covers twenty-five minutes of it; the operation lives and its World is waking if and only if the key was not that of a wake that is over |
| WakeSaga.WokenExactly | gamewake/control_plane/application.py:511-567 | a call under its own key, struck by nothing, succeeds if and only if the World has no price, or the wake it begins or finds has its session, or that wake is in its first phase, the rate is positive, the quote has not expired, and the reservation exists or wallet and budget can pay it |
| WakeSaga.DispatchedExactly | gamewake/control_plane/application.py:503-567 | what the dispatcher is told: a woken operation exactly when it is free or carries a session, nothing about a refused call or failed billing; permission refuses before storage, storage before a missing World, and a refusal changes neither store |
| WakeSaga.SuccessLivesExactly | gamewake/control_plane/application.py:511-567 | every success under a call's own key, paid, paid before or free, is dispatched, and the operation answered lives if and only if the key is not that of a wake that is over |
| WakeSaga.DeadSessionIsAnswered | gamewake/control_plane/application.py:511-567 | a retry of a wake that is over with its session changes nothing and is answered success |
| WakeSaga.DeadWakeTakesMoney | gamewake/control_plane/application.py:537-562 | for every wake that is over in its first phase without a session: a retry the wallet can pay is answered success and dispatched, with an ACTIVE hold on an operation that stays over |
| WakeSaga.FailureUndoes | gamewake/control_plane/application.py:557-561 | a wake whose billing fails ends FAILED with its World asleep, unless the reservation the call reached was captured, when a live one stays live; an ACTIVE reservation is left under its key if and only if one was there and the call missed it: quote expired, or failure before reserving |
| WakeExamples.AbandonedArises | gamewake/worlds/worker.py:296-347 | a wake given up before its first step is over and still in its first phase |
| WakeExamples.AbandonedWakeTakesMoney | gamewake/control_plane/application.py:537-562 | a concrete retry of that wake: the wallet pays, the caller is told it succeeded, the World stays NEEDS_ATTENTION |
| WakeExamples.ExpiredQuoteLeavesHold | gamewake/control_plane/application.py:557-561 | a concrete retry after its quote expired: the operation ends FAILED and the earlier reservation stays ACTIVE |
| WakeExamples.CapturedHoldKeepsWake | gamewake/control_plane/application.py:557-561 | a concrete call that reaches a captured reservation and then fails: its release is refused and the operation stays live |
| WakeSaga.RepeatChangesNothing | gamewake/control_plane/application.py:511-536 | repeating a successful call under its key changes neither store and answers the same operation |
| WakeRace.RaceAgrees | gamewake/control_plane/application.py:537-567 | any number of callers under one key, each asking, pricing, reserving, attaching, looking again or raising, giving back and failing the wake, among all other clients and commands, keep agreeing with both stores |
| WakeRace.OneOfEach | gamewake/billing/service.py:469-528 | agreeing callers hold one operation, one quote and one reservation, the stores hold no second one, and every caller that finishes is answered the one session of that quote and reservation, which the stored operation carries |
| RaceOutcome.TurnActiveExactly | gamewake/control_plane/application.py:557-561 | the hold all callers share is active after a turn if and only if it was and the turn is neither a failing caller's giving it back nor another command that closes it |
| RaceOutcome.RaceActiveExactly | gamewake/control_plane/application.py:557-561 | over every race an active hold is active at the end if and only if no turn closed it |
| RaceOutcome.TurnLiveExactly | gamewake/control_plane/application.py:557-563 | a live operation is live after a turn if and only if the turn is neither a failing caller's fail_wake_preflight on current records nor another client's ending of it |
| RaceOutcome.RaceLiveExactly | gamewake/control_plane/application.py:557-563 | over every race a live operation is live at the end if and only if no turn ended it |
| RaceOutcome.FailedDuplicateUndoesWinner | gamewake/control_plane/application.py:557-564 | the end state of a failing caller's undoing beside a finished one: the finished caller keeps its answer, its hold is not active, its operation is FAILED with its session, its World SLEEPING without one |
| RaceOutcome.DuplicateUndoesWinner | gamewake/control_plane/application.py:537-564 | from every agreeing state with a finished caller whose hold is active and whose wake lives, a second call that prices, reserves before the quote expires, and is struck before it attaches does that |
| RaceExample.FinishedCallerLosesAll | gamewake/control_plane/application.py:537-564 | twenty-one literal turns with every service up: the second of two callers loses its save to a change of settings and gives the hold back, the first attaches and is answered a released hold, and the second then fails the wake |
| Archive.ByAgeSorts | gamewake/worlds/archive.py:68-78 | the listing is a permutation of the backups, oldest first, and stable |
| Archive.WorldArchiveStore.Create | gamewake/worlds/archive.py:189-213 | one backup per key, from a validated state only |
| Archive.WorldArchiveStore.DeleteWorldData | gamewake/worlds/archive.py:126-138 | no backup of the World remains and every other one stays in its place; the account's usage falls by the removed sizes if the World was counted, and no other account's usage moves |
| Archive.WorldArchiveStore.PruneOldestAutomatic | gamewake/worlds/archive.py:159-187 | removes exactly the shortest oldest-first prefix of the automatic backups that frees the target, or all of them, and nothing of another kind, account or pending World; usage falls by their sizes |
| Archive.ExactPrefixUnique | gamewake/worlds/archive.py:180-186 | there is only one such prefix |
| Archive.PruningSpares | gamewake/worlds/archive.py:167-187 | no other backup is touched, what stays is no older, and a missed target means nothing prunable is left |
| Archive.PrunesOnlyAutomatic | gamewake/worlds/archive.py:159-187 | told by kind, account and World: every pruned backup is an AUTOMATIC one of the account in a listed World that is not pending deletion; every MANUAL, RESTORE_POINT and FINAL backup stays; when the target is missed no such automatic backup is left |
| Archive.UsageCounts | gamewake/worlds/archive.py:143-157 | usage counts exactly the account's backups and the stored states of listed Worlds that are not pending deletion |
| Storage.StoragePolicyService.Evaluate | gamewake/worlds/storage.py:119-164 | grace starts, runs and ends as promised, and the status says when; only automatic backups of Worlds not pending deletion ever go, told by identifier; past grace either usage fits and grace is lifted, or waking is blocked and no automatic backup is left to prune; afterwards the waking gate is closed if and only if usage neither fits, nor is paid for, nor is in its grace period |
| Storage.StoragePolicyService.PastGrace | gamewake/worlds/storage.py:141-164 | the pruning half of the same |
| Storage.StoragePolicyRepository.Save | gamewake/worlds/storage.py:78-88 | a grace state is written only from its current version |
| Storage.StoragePolicyRepository.Clear | gamewake/worlds/storage.py:90-96 | a grace state is cleared only from its current version |
| AccountLaws.AttemptGood | gamewake/accounts/service.py:382-811 | every command keeps an account-wide Owner, one membership per user, existing roles and no invitation to ownership, and undoes nothing final |
| AccountLaws.InterleavingsGoverned | gamewake/accounts/in_memory.py:57-74 | the same in every state any interleaving of clients reaches, and no invitation is accepted twice |
| AccountLaws.AcceptGood | gamewake/accounts/service.py:682-731 | accepting makes one membership of the invited user, never an Owner, and marks its invitation |
| AccountLaws.AuthorizeNeverFails | gamewake/accounts/policy.py:64-81 | looking up permissions never misses a custom role |
| AccountDecisions.SingleRoleGrants | gamewake/accounts/policy.py:39-81 | one assignment, every set written out: outside its scope nothing; an Owner everything; a Player viewing, waking and sleeping an empty World; a Manager those and seven more; a custom role exactly its own permissions |
| AccountDecisions.GrantedExactly | gamewake/accounts/policy.py:64-81 | any assignments: everything for an Owner of the whole account, otherwise what the newest one's role allows in its scope |
| AccountDecisions.CommandExactly | gamewake/accounts/service.py:234-811 | every command saves if and only if the records, the caller's permissions and the clock say so, and leaves exactly the records it names changed; the last Owner is the only member that owns the whole account |
| AccountLaws.SomebodyMayEverything | gamewake/accounts/service.py:836-852 | some member holds every permission in every World |
| AccountLaws.EffectiveIsOne | gamewake/accounts/model.py:91-109 | the effective assignment is one of the membership's, an account-wide Owner if there is any |
| AccountLaws.NewIsGoverned | gamewake/accounts/service.py:200-228 | a new account starts in order |
| AccountService.AccountRepository.Create | gamewake/accounts/in_memory.py:20-35 | a new account never takes a linked guild |
| AccountService.AccountRepository.Save | gamewake/accounts/in_memory.py:57-74 | accepted exactly from the current version and without another account's guild |
| AccountService.Accounts.AssignCustomRole | gamewake/accounts/service.py:416-460 | permission, confirmation, role, member, last Owner, in this order; one save |
| AccountService.Accounts.AssignPredefinedRole | gamewake/accounts/service.py:462-505 | the same for a predefined role |
| AccountService.Accounts.RemoveRoleAssignment | gamewake/accounts/service.py:507-567 | removes the active assignment unless it is the last Owner's |
| AccountService.Accounts.CreateCustomRole | gamewake/accounts/service.py:382-414 | adds a role for somebody who may manage roles and has confirmed |
| AccountService.Accounts.CreateInvitationLink | gamewake/accounts/service.py:608-667 | a link grants exactly one existing role, never ownership, and more than playing only from somebody who may manage roles |
| AccountService.Accounts.InviteMembers | gamewake/accounts/service.py:569-606 | invites only users who are not members |
| AccountService.Accounts.AcceptInvitation | gamewake/accounts/service.py:682-731 | accepts a pending, unexpired invitation of this user once |
| AccountService.Accounts.RemoveMembership | gamewake/accounts/service.py:757-811 | removes a member unless the last Owner would go |
| AccountService.Accounts.ConfigureDiscordGuild | gamewake/accounts/service.py:234-264 | links a guild that no other account holds, and keeps guilds unique |
| AccountProtocol.RunOrdered | gamewake/accounts/in_memory.py:20-74 | over every interleaving of clients with stale snapshots over many accounts, every account is governed and no two accounts hold one guild |
| AccountProtocol.EveryRepositoryOrdered | gamewake/accounts/in_memory.py:20-74 | the same from an empty repository |
| AccountProtocol.LinkTakesExactly | gamewake/accounts/service.py:234-264 | a link of a new guild takes effect if and only if it was permitted, the client saw the guild free, its snapshot is current, and the guild is free at its save |
| Codec.RoundTrip | gamewake/persistence/codec.py:46-123 | every tree of domain values comes back from its encoding |
| Codec.EncodeIsInjective | gamewake/persistence/codec.py:46-71 | no two values share an encoding |
| Codec.EncodeEmits | gamewake/persistence/codec.py:46-71 | every emitted object carries exactly one tag, and untagged objects are only ever a record's fields |
| Codec.RecordsComeBackTyped | gamewake/persistence/codec.py:117-123 | a record decodes under its own type and under no other |
| Codec.StoredForm | gamewake/persistence/codec.py:46-71 | the stored form of every kind of value, tag by tag, containers in order, a set in the order of its sorting |
| Codec.Refused | gamewake/persistence/codec.py:84-114 | an array on its own, an object without a tag and a text that does not parse are refused |
| Codec.RefusedRecords | gamewake/persistence/codec.py:77-106 | an enumeration member or a record is read only when its type is registered and the name or the fields are its own |

## Left out

- FailedWake.FailedWakeCostsNothing: others are taken not to close this session's reservation and not to use its usage key, which no other operation derives (UsageRecorder.UsageKeysDiffer).
- WorldWorker.WorldOperationWorker.Advance: an effect that raises counts as not done; what it did before it raised is its provider's.
- SafeSleep.RunsSafely: one worker at a time advances operations; other clients may end an operation but not advance it. The same holds for SafeWake.WakesRunSafely.
- ClosedSessions.ClosedWakeIsFree: the calls of one operation's closings follow one another on the wallet; what others do in between is the subject of FailedWake.FailedWakeCostsNothing.
- Archive.WorldArchiveStore.Create: exports and the clock's time zone are not modelled, and a backup always has a creation time.
- Storage.StoragePolicyService.Evaluate: the account's Worlds are a parameter, in the order the repository lists them.
- AccountService.Accounts.ConfigureDiscordGuild: whether the guild identifier is all digits is a parameter.
- Codec.RoundTrip: the texts of decimals and dates are taken to parse back to the same value, JSON text itself is not modelled, and a container tag over something other than an array, or a bare array, is refused where the source would iterate it.
- Creating Worlds while other clients act: histories start from any number of Worlds.
- Creating, listing and exporting World data, manual backups, and the listing and status calls of every service: they only read or repeat a covered write.
- Owner recovery codes, linked identities and security notices: foreign secrets and messages; the activity entry of a recovery is modelled.
- Payment, cloud, chat, sign-in and storage providers, SQL text, HTTP routing, the web tree and the game's settings file: foreign calls and plumbing. A game's configuration check is any function that accepts and normalizes or refuses.
- Wallet.GuardDecision: remaining minutes and both kinds of threshold are compared exactly, where the source divides by a rate per minute, or by the limit, to twenty-eight digits; at exact equality the minute count or a threshold can fall on the other side.
- AccountProtocol.RunOrdered: what a client established about its permission, and whether it saw a guild taken, are parameters of its command.
- Looking a contribution up across accounts, and the format check of a billing month.
- Decimal quotients to twenty-eight digits: amounts below about ten to the twentieth cents round the same.
- Two-store crashes inside one repository call: each call is atomic.
