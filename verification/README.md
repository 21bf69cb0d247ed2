# Core store: the budget ledger, its admission and its small algorithms

The core store keeps the money of an API gateway in SQLite. Every public operation is one IMMEDIATE
transaction behind a mutex, so it is one atomic step: it commits, or it leaves everything as it was. This
project models those transactions on in-memory tables and proves what they keep over every run.

**The V2 budget ledger** is the main part. A step's credits are held on a Key account and, when there is one,
on the owner's cap account. The authorization may be refreshed any number of times; the step is dispatched at
most once, and then settled by a receipt, released, or frozen in conflict. The repository carries its own
specification of a sound event group, the check `validate_v2_quota_event_group`; it is modelled as a
predicate (`EventGroup`) and as the loops over version tables that the source runs (`Validator`), proved
equal. Every transaction is a function on the tables (`Billing`, `Settling`, `Grants`) and a method of a class
that updates the tables in the source's order (`Store`), proved to compute that function. The invariant behind
the check (`Invariant`) is kept by every transaction (`Preservation`, `RefreshPreservation`,
`AdmissionPreservation`, `ReceiptPreservation`, `GrantPreservation`, with the frames in `Frame`) and so holds in
every state of every run (`Runs`). One clause of the check is about the task of a settled video, and one
transaction can break it: `Integrity` says exactly when, and proves every other run valid throughout. On top of
the invariant stand the telescoping of event groups (`Telescoping`), what each transaction does to every account
(`Effects`), finality (`Finality`, `Verdicts`, with the frames in `Tables`), the Key slots (`Slots`), the
admission gate (`Admission`), and receipts delivered in any order, replayed after a crash, or delivered again at any
later time (`Receipts`, `Redelivery`). Besides grants, administrators give Keys a share of a user's pool and delete
them (`Grants`, `Pools`).

What the check demands, and when each transaction takes effect, is answered as a duplicate, and what it leaves, is
also written out over the tables, without the guards of the model and as an if and only if: `GroupRows` for the check,
`Admitted`, `Dispatching`, `Refreshing`, `Executing` and `Accepting` for the transactions, `Granting` for the grants.
In a state of the invariant much need not be asked: a step that was not dispatched always has a sound group.

**All billing on shared accounts.** One Key account and one ledger also serve V1 billing, which holds a Key's
whole balance for an operation or a fixed amount for a quoted request (`Controlled`, `Quotes`,
`ControlledStore`, `ControlledRuns`), and requests that neither bills: a preflight holds credits, and the
request's outcome, its upstream lease or a cancelation settles the hold (`Plain`, `PlainStore`, `PlainMoves`,
`LeaseBilling`). Each of those transactions takes one hold, closes one, suspends one, or none of it (`Holds`,
`ForeignMoves`), and the V2 transactions leave such holds alone (`Foreign`). `JointRuns` interleaves all of them;
a joint run is one of the V2 ledger's own runs with the rest as other work (`JointMoney.CoreRun`), so what holds
of those holds here. Conservation, the overdraft bound and the upstream ceiling are proved over joint runs
(`Money`, `Solvency`, `JointMoney`), as is that what V1 settled was charged (`JointCharges`). When V1 billing and
plain requests take effect is written out in `ControlledAnswers` and `PlainAnswers`. `Witness` and
`BilledWitness` write out runs that pass every guard on the way and reach the bound, or the failures below.

**Scheduling and upkeep**: the fair video queue (`VideoQueue`), leases on upstream accounts
(`UpstreamLeases`, `UpstreamSlots`, and `UpstreamChoice` for the account chosen), headerless retries
(`ImplicitRetry`), and the resumable integrity sweep with its check of both kinds of holds and the accounts it
quarantines (`Reconcile`, `Sweep`, `Reconciler`, `Quarantine`, `Owners`).

**Algorithms**: the star-backtracking matcher (`Glob`), the canonical JSON writer (`CanonicalJson`) with
a reader written from the grammar (`JsonReader`), the fixed-point credit parser and printer (`Credits`).

A run starts from an empty database and interleaves the transactions above with any other work of the core store
that keeps what its schema and its code keep: no row is changed or deleted that is not its own, identities stay,
and account versions do not fall. `now` is a parameter, new ids are fresh, and SHA-256 is an injective constructor. An
error leaves the tables alone.

Seven statements one would like are false of the code. Each has its exact condition here, and an input:

- The integrity check survives every transaction except a task bound to a video that a receipt settled without
  charge, which the code does not refuse (`Integrity.BindValidIff`; `Witness.LateBindFails` is a run that ends so).
  Only the check itself and what is concluded from it exclude that one step (`NoLateBind`).
- A receipt that is delivered again changes nothing, unless such a bind came in between (`Redelivery.RedeliveryIff`;
  `Witness.ReplayFreezes` is a run that ends so); money it never moves.
- Credits are conserved on an account exactly as long as no hold charged to it is closed or suspended once more after
  it was closed (`JointMoney.BalancedIff`), and otherwise the account has exactly the amounts of those holds too much
  (`JointMoney.ReachableConservation`). The outcome of a lease does not ask whether the hold is open, and neither does a
  V1 receipt, whose hold an ordinary settlement can have closed: `BilledWitness.ReopenedHoldCountsTwice` is a run after
  which a Key that was granted 100 credits has 200. No other account is affected.
- The integrity sweep quarantines nothing on a healthy ledger, if all holds are those of steps. A hold of V1 billing
  or of a plain request passes exactly while its accounts have the version they had when it was entered, its
  outcome is known, it was charged no more than it held, and it was closed once (`Quarantine.RowSoundIff`); a grant
  makes it fail (`Quarantine.GrantUnsettlesHolds`).
- The matcher agrees with the meaning of every pattern on exactly the values that have no `*` before their
  last byte (`Glob.DecidesIff`), and with the meaning of a pattern on every value exactly when the pattern has no
  star (`Glob.PatternDecidesIff`), because it compares bytes before it looks for a star.
- A V1 conflict is left by one more new receipt while the operation is open (`ControlledRuns.ConflictLeftIff`, and
  `BilledWitness.ConflictComesAndGoes` for a run); a V2 conflict never is (`Verdicts.ConflictIsSticky`).
- A headerless retry inside the window is coalesced unless all that speaks for the earlier request is legacy
  evidence observed before the window (`ImplicitRetry.ReusableWithinWindowIff`, with the input in
  `ImplicitRetry.StaleEvidenceForgets`); the store accepts evidence that is older than its request.

An upstream lease whose outcome stays unknown past its reconciliation window keeps its slot for good
(`UpstreamSlots.StrandedForGood`): no transaction releases it.

`dafny verify dfyconfig.toml` checks the whole project.

## Model

| member | source | states |
|---|---|---|
| `Validator.ValidateGroup` | src-core/src/quota.rs:1461-2030 | the passes of the check, in order, accept a loaded event group exactly when it meets the specification `ViewValid` |
| `Validator.ValidateEvents` | src-core/src/quota.rs:1750-1843 | the entry loop over the three version tables and the account loop accept exactly the ledgers in which every account has one fitting entry per slot of the history and versions follow one another |
| `Validator.FillTables` | src-core/src/quota.rs:1750-1821 | the entry loop succeeds exactly when every entry fits its slot and no two share an account and a slot, and then the tables hold every entry's version |
| `Validator.CheckAccounts` | src-core/src/quota.rs:1822-1843 | the account loop succeeds exactly when on every account the versions of reserve, adoptions and closing entry are all there and ordered |
| `Validator.ValidateEvidence` | src-core/src/quota.rs:1886-2028 | the evidence loop accepts exactly the evidence that reproduces its hashes, agrees with the settlement, and has a conflict row exactly when the step is in conflict |
| `GroupRows.CheckDemands` | src-core/src/quota.rs:1461-2030 | the check accepts a reservation exactly when its step, requests, history, accounts, states, settlement and evidence say, column by column, what is written out for them, and the ledger holds for it, in whatever order, one entry for each round on each account |
| `GroupRows.LedgerPartIff` | src-core/src/quota.rs:1670-1843 | account lookup through the reserve entries, entry loop and version loop together accept exactly the ledgers whose entries are, in some order, those the history prescribes, on accounts of the right scope and owner, with versions that rise |
| `Invariant.SoundIsValid` | src-core/src/quota.rs:1461-2030 | a group built up in slot order, as the transactions build it, meets every clause of the check, whatever order the check reads it in, if and only if its task agrees with its evidence |
| `Invariant.InvIsValid` | src-core/src/quota.rs:1461-2030 | in every state of the invariant the check accepts a step's reservation exactly when the step's task agrees with its evidence |
| `Preservation.DispatchKeepsInv` | src-core/src/budget_billing.rs:431-597 | dispatch keeps the invariant |
| `Preservation.ReleaseKeepsInv` | src-core/src/budget_billing.rs:599-702 | release keeps the invariant |
| `AdmissionPreservation.BeginKeepsInv` | src-core/src/budget_billing.rs:1991-2272 | beginning an operation keeps the invariant |
| `AdmissionPreservation.AddKeepsInv` | src-core/src/budget_billing.rs:704-940 | adding a step keeps the invariant |
| `RefreshPreservation.RefreshKeepsInv` | src-core/src/budget_billing.rs:2278-2540 | adopting a refreshed authorization keeps the invariant: one more revision, one more entry and version per account |
| `Preservation.BindKeepsInv` | src-core/src/budget_billing.rs:942-993 | binding a task keeps the invariant, of a settled step too |
| `Preservation.MarkExecutionKeepsInv` | src-core/src/budget_billing.rs:995-1073 | marking a step's execution keeps the invariant |
| `Preservation.FinishKeepsInv` | src-core/src/budget_billing.rs:1085-1154 | finishing an operation keeps the invariant |
| `ReceiptPreservation.ApplyReceiptKeepsInv` | src-core/src/budget_billing.rs:1291-1681 | every course a receipt can take keeps the invariant |
| `ReceiptPreservation.MarkConflictKeepsInv` | src-core/src/budget_billing.rs:1156-1289 | a reported conflict keeps the invariant |
| `GrantPreservation.GrantKeyKeepsInv` | src-core/src/quota.rs:658-729 | a Key grant keeps the invariant |
| `GrantPreservation.GrantPoolKeepsInv` | src-core/src/quota.rs:345-416 | a pool grant keeps the invariant |
| `GrantPreservation.AllocateKeepsInv` | src-core/src/quota.rs:569-656 | an allocation out of the upstream balance keeps the invariant |
| `GrantPreservation.AllocateFromPoolKeepsInv` | src-core/src/quota.rs:430-567 | an allocation out of a user's pool keeps the invariant |
| `GrantPreservation.DeleteKeyKeepsInv` | src-core/src/store.rs:2219-2397 | deleting a Key keeps the invariant |
| `Runs.ReachableInv` | src-core/src/quota.rs:1461-2030 | the invariant holds in every state of every run, whatever else is billed on the same accounts, whenever tasks are bound and however Keys are updated |
| `Integrity.ReachableValid` | src-core/src/quota.rs:1461-2030 | in every state of every run without a late bind, the check accepts every reservation that a step holds |
| `JointMoney.ReachableValid` | src-core/src/quota.rs:1461-2030 | the same in runs that V1 billing, quotes, plain requests and leases share with the V2 ledger |
| `Integrity.PassesIffTaskFits` | src-core/src/quota.rs:1965-1970 | in every state of the invariant a step fails the check only as a video that was settled without charge and has a task |
| `Integrity.SettledBindTakesEffect` | src-core/src/budget_billing.rs:968-987 | a bind takes effect on a settled step exactly when the step is a dispatched video without a task whose execution has not failed or been canceled |
| `Integrity.BindValidIff` | src-core/src/budget_billing.rs:942-993 | after a bind the step's group passes the check if and only if it passed before and no task was bound to a settled step, a condition read off the tables before the call |
| `Integrity.BoundAfterNoCharge` | src-core/src/quota.rs:1965-1970 | binding a task to a settled step always makes its group fail the check |
| `Witness.LateBindFails` | src-core/src/budget_billing.rs:968-987 | a run from empty books that ends by binding a task to a video settled without charge, and with a group that fails the check |
| `Integrity.NeverRefusedForIntegrity` | src-core/src/budget_billing.rs:480-491 | in no reachable state is a dispatch refused for the integrity of the ledger, whatever else is billed beside it |
| `Store.CoreStore.MarkBudgetStepDispatched` | src-core/src/budget_billing.rs:431-597 | the transaction leaves the tables and gives the reply of the specification `Billing.Dispatch`, rolled back on every error |
| `Dispatching.DispatchAnswers` | src-core/src/budget_billing.rs:431-597 | in every state of the invariant a dispatch is applied if and only if the step is ready, held and undispatched under the expected and unexpired authorization, its operation is ready or running, its Key is active, not blocked and without a step in conflict, its accounts are in use and not overdrawn, and its request is in one of the four states before dispatched; and is a duplicate exactly while the step runs or is in doubt, its rows are sound and its accounts in use |
| `Dispatching.DispatchLeaves` | src-core/src/budget_billing.rs:570-596 | a dispatch leaves the step dispatched and running, its operation running and its request dispatched, and nothing else |
| `Dispatching.UndispatchedPasses` | src-core/src/budget_billing.rs:472-491 | the integrity check accepts the group of every step that was not dispatched, so the dispatch never fails on it |
| `Store.CoreStore.ReleaseUnattemptedBudgetStep` | src-core/src/budget_billing.rs:599-702 | the transaction computes `Billing.Release` |
| `Dispatching.ReleaseAnswers` | src-core/src/budget_billing.rs:599-702 | in every state of the invariant a release is applied if and only if a reason is given for an undispatched, held step that is ready, failed or canceled, and the request of a ready assist is not over; and is a duplicate exactly for the reason on record |
| `Dispatching.ReleaseLeaves` | src-core/src/budget_billing.rs:655-700 | a release leaves the hold released with one entry for all of it on each account, the step released for the trimmed reason and canceled if it was ready, and the request of such an assist canceled |
| `Store.CoreStore.AddBudgetStep` | src-core/src/budget_billing.rs:704-940 | the transaction computes `Billing.Add` |
| `Admitted.AddAnswers` | src-core/src/budget_billing.rs:704-940 | a further step is added exactly when the listed columns of its operation, request, Key, steps and revisions allow it and the accounts cover its hold; the same call again is a duplicate; any other changes nothing |
| `Admitted.AddLeaves` | src-core/src/budget_billing.rs:870-936 | an added step leaves one hold on the accounts that fund it, its entries, a ready and held step and its first revision, and nothing else |
| `Store.CoreStore.BeginBudgetOperation` | src-core/src/budget_billing.rs:1991-2272 | the transaction computes `Billing.Begin` |
| `Admitted.BeginAnswers` | src-core/src/budget_billing.rs:1991-2272 | a new operation is applied exactly when the listed columns of request, preparation, Key, steps, revisions and reservations allow it, fewer executions of the Key are under way than its limit, and the accounts cover the hold; it is refused for concurrency exactly when the columns allow it and the limit is reached, whatever the accounts hold; the same call again is a duplicate |
| `Admitted.CountIsUnderWay` | src-core/src/budget_billing.rs:2688-2763 | the admission count is the number of a Key's active operations, of its requests without an operation that have started, and of its received ones that came earlier by (created_at, id) |
| `Admitted.BegunWithinLimit` | src-core/src/budget_billing.rs:2128-2144 | after an applied begin all that is under way for the Key, the new operation included, is within its limit |
| `Admitted.BeginLeaves` | src-core/src/budget_billing.rs:2146-2268 | a new operation leaves its row, the parent reserved, the preparation of an assist admitted, and its first step with hold, entries and revision |
| `Store.CoreStore.RefreshBudgetAuthorization` | src-core/src/budget_billing.rs:2278-2540 | the transaction, with its loop over the accounts of the hold, computes `Settling.Refresh` |
| `Refreshing.RefreshAnswers` | src-core/src/budget_billing.rs:2278-2540 | in every state of the invariant a refresh is applied if and only if the step is ready, held and undispatched under the old budget, the replacement is for the same step under a new budget and unexpired, the old budget is proved canceled, operation, parent and Key are open, and the accounts are in use, cover the difference and can take a version; and is a duplicate exactly when the history holds this adoption |
| `Refreshing.RefreshLeaves` | src-core/src/budget_billing.rs:2463-2540 | a refresh leaves the replacement in force as the next revision with the replaced budget and the proof, the hold with its amount and expiry, and on each account the next version and one entry for the difference |
| `Store.CoreStore.BindBudgetVideoTask` | src-core/src/budget_billing.rs:942-993 | the transaction computes `Billing.Bind` |
| `Executing.BindAnswers` | src-core/src/budget_billing.rs:942-993 | a dispatched video without a task that has not failed or been canceled is given its task, once, and nothing else changes |
| `Store.CoreStore.MarkBudgetStepExecution` | src-core/src/budget_billing.rs:995-1073 | the transaction computes `Billing.MarkExecution` |
| `Executing.MarkAnswers` | src-core/src/budget_billing.rs:995-1073 | a report is applied exactly on an open step whose dispatch allows it, with a task for a successful video and a request that can end so for a finished assist; it leaves the step as reported, the operation running or in doubt, and the request of the assist at the outcome |
| `Store.CoreStore.FinishBudgetExecution` | src-core/src/budget_billing.rs:1085-1154 | the transaction computes `Billing.Finish` |
| `Executing.FinishAnswers` | src-core/src/budget_billing.rs:1085-1154 | an operation is finished exactly when it is open, has steps and all have ended, and its request can end so; operation and request then say the outcome |
| `Store.CoreStore.ApplyBudgetReceipt` | src-core/src/budget_billing.rs:1291-1681 | the transaction computes `Settling.ApplyReceipt` |
| `Accepting.ReceiptRefusedIff` | src-core/src/budget_billing.rs:1296-1432 | in every state of the invariant a receipt is refused if and only if a listed column of it is missing or malformed for its status, or it is not about a dispatched step under its budget, account and bridge, or is the final one of a video without a task; it then changes nothing |
| `Accepting.PendingLeaves` | src-core/src/budget_billing.rs:1563-1588 | a pending, unknown or unverified receipt for a step that awaits one puts hold and step in doubt, is stored as evidence and answered as pending; the same again is a duplicate |
| `Accepting.FinalLeaves` | src-core/src/budget_billing.rs:1598-1681 | a final or no-charge receipt for such a step, not at odds with its task, commits the hold, charges the amount on each account and returns the rest, stores evidence and settlement, and reports debt exactly when an account of the hold is overdrawn |
| `Accepting.AtOddsLeaves` | src-core/src/budget_billing.rs:1467-1496 | one at odds with the task of the video is stored as a conflict, freezes the step and blocks its Key, and moves no money |
| `Accepting.LatePendingLeaves` | src-core/src/budget_billing.rs:1497-1559 | after settlement a receipt that is not final is kept as evidence, once, and answered as a duplicate |
| `Accepting.FrozenTakesNothing` | src-core/src/budget_billing.rs:1560-1562 | a step frozen before it was settled is changed by no receipt that is not at odds with its task |
| `Accepting.HashSays` | src-core/src/budget_billing.rs:1314-1327 | two receipts have the same evidence hash exactly when they differ in the time of observation at most |
| `Store.CoreStore.MarkBudgetReceiptConflict` | src-core/src/budget_billing.rs:1156-1289 | the transaction computes `Settling.MarkConflict` |
| `Accepting.ReportAnswers` | src-core/src/budget_billing.rs:1156-1289 | in every state of the invariant a reported conflict is applied if and only if it is complete, about a dispatched step under its budget, account and bridge, and its hash is new; it leaves the step frozen, its Key blocked and the report on record |
| `Store.CoreStore.GrantKeyQuota` | src-core/src/quota.rs:658-729 | the transaction computes `Grants.GrantKey` |
| `Granting.GrantKeyAnswers` | src-core/src/quota.rs:658-729 | a grant is applied exactly on an active Key whose first account, if any, is its owner's, in use and can take a version; it leaves one entry of the amount under the account's next version, or on a new account |
| `Store.CoreStore.GrantQuotaPool` | src-core/src/quota.rs:345-416 | the transaction computes `Grants.GrantPool` |
| `Granting.GrantPoolAnswers` | src-core/src/quota.rs:345-416 | the same of a user's first cap account, which becomes ready if it was left over from before there were grants |
| `Store.CoreStore.AllocateFromUpstream` | src-core/src/quota.rs:569-656 | the transaction computes `Grants.Allocate` |
| `Granting.AllocateAnswers` | src-core/src/quota.rs:569-656 | an allocation is a grant, applied exactly when the grant is, the snapshot is at most five minutes old, and all commitments with the amount are within its total |
| `Store.CoreStore.AllocateKeyFromPool` | src-core/src/quota.rs:430-567 | the transaction computes `Grants.AllocateFromPool`, rolled back with the promotion of the pool account when the grant fails |
| `Granting.AllocateFromPoolAnswers` | src-core/src/quota.rs:430-567 | an allocation from the pool is a grant, applied exactly when the grant is, the cap is in use, and the amount is within what the Keys of the user leave of it |
| `Store.CoreStore.AllocatedKeyQuota` | src-core/src/quota.rs:2448-2480 | the checked fold over the Keys that draw on a pool yields their sum, or an error exactly when some prefix leaves i64 |
| `Store.CoreStore.DeleteApiKey` | src-core/src/store.rs:2219-2397 | the transaction computes `Grants.DeleteKey` |
| `Granting.DeleteKeyAnswers` | src-core/src/store.rs:2219-2397 | a Key that is no administrator's is deleted exactly when no request, hold or account of it is open or waits for reconciliation; it is switched off and the rest of its account given back |
| `Pools.PoolCovers` | src-core/src/quota.rs:489-507 | an allocation that succeeds leaves the Keys of the user together within what the pool has available, and the pool as it was |
| `Pools.DeletionReturnsRest` | src-core/src/store.rs:2335-2376 | deleting a Key takes back exactly what is left on its account and touches no other; the Key then holds nothing and commits nothing |
| `Store.CoreStore.CommittedCapacity` | src-core/src/quota.rs:2498-2537 | the checked fold over the Key accounts yields the sum of max(0, available + held), or an error exactly when some step of it leaves i64 |
| `Store.CoreStore.GroupIntact` | src-core/src/quota.rs:1461-2030 | loading a group and running the check answers whether the reservation's group is valid |
| `Store.Transaction.ReserveDual` | src-core/src/quota.rs:3684-3813 | the hold and its entries are inserted exactly when both accounts are ready and cover the amount |
| `Admitted.HoldAnswers` | src-core/src/quota.rs:3684-3813 | a hold is taken exactly when the request has none and the Key's first account and the owner's first cap, if any, are in use and cover the amount; it is on these accounts |
| `Store.Transaction.FinishParentRequest` | src-core/src/budget_billing.rs:1759-1823 | the walk through the state table ends at the outcome of the operation, or fails, exactly as the one-step table `FinishParent` says |
| `Executing.ParentEnds` | src-core/src/budget_billing.rs:1759-1823 | a parent request ends with its operation from the listed states exactly, and at the outcome |
| `Store.Transaction.SyncAssistRequest` | src-core/src/budget_billing.rs:1825-1878 | the walk of an assist request ends where, and fails when, the one-step table `SyncAssist` says |
| `Executing.AssistEnds` | src-core/src/budget_billing.rs:1825-1878 | an assist request ends with its step from the listed states exactly, and at the outcome |
| `Store.Transaction.AdvanceRequestToDispatched` | src-core/src/budget_billing.rs:1880-1915 | the walk reaches `dispatched` exactly from the four states before it |
| `Store.Transaction.AdjustHold` | src-core/src/budget_billing.rs:2487-2526 | the loop gives every account of the hold its next version and one adjust entry under it |
| `Telescoping.GroupTelescopes` | src-core/src/quota.rs:1690-1843 | on each of its accounts a valid group sums to minus its current hold while open, to zero once released, to minus the actual amount once committed |
| `Money.GroupNets` | src-core/src/quota.rs:3949-4027 | entries and commits of a valid group net to minus the share still held on the account |
| `Money.GroupAccounted` | src-core/src/quota.rs:3949-4027 | on every account the entries of a valid group leave what the reservation's state says: minus the hold, nothing, or minus the charge, with the overrun of the charge |
| `Money.ExcessByHolds` | src-core/src/quota.rs:2653-2690 | on every account, available + held + settled less what was granted is the sum over all holds of what their entries leave with the hold added back: no entry is lost or counted twice |
| `Money.Conservation` | src-core/src/quota.rs:2653-2690 | where the entries of every hold leave what its state says, available + held + settled equals what was granted, on every account |
| `Foreign.NextForeign` | src-core/src/budget_billing.rs:1598-1681 | no V2 transaction touches a hold that no step owns, nor its entries |
| `PlainMoves.ActionEffected` | src-core/src/quota.rs:3867-3947 | every transaction on a plain request takes one hold, closes one, suspends one, or none of it, and reaches a closed hold exactly when the outcome of a lease is accepted for one |
| `ControlledRuns.ActionEffect` | src-core/src/controlled_billing.rs:829-890 | so does every V1 transaction, and reaches a closed hold exactly when a recorded receipt suspends an operation whose hold was closed elsewhere |
| `ForeignMoves.EffectKeepsBooked` | src-core/src/quota.rs:3949-4027 | as long as a hold is not reached for once it is closed, its entries are its reserve round and, once closed, its one closing round, whatever happens to other holds |
| `JointRuns.StepMoves` | src-core/src/quota.rs:3949-4027 | every step of a joint run moves the ledger by nothing, by one entry on each account of one hold, or by one grant, and only as its guards allow |
| `JointMoney.CoreRun` | src-core/src/quota.rs:3881-3894 | every joint run, seen from the V2 ledger, is one of its own runs, so finality, slots, histories and conflicts hold of it as well |
| `JointRuns.StepExcess` | src-core/src/quota.rs:3867-3947 | every step of a joint run changes available + held + settled less granted, on every account, by the amount of the closed hold it reaches for if that is charged to the account, and by nothing otherwise |
| `JointMoney.ReachableConservation` | src-core/src/admin_summary.rs:24-36 | in every state of every joint run and on every account, available + held + settled equals what was granted plus the amounts of the closed holds charged to the account and reached for so far |
| `JointMoney.BalancedIff` | src-core/src/quota.rs:3867-3947 | in every reachable state an account is in balance if and only if no closed hold charged to it was ever reached for |
| `ForeignMoves.EffectExcess` | src-core/src/controlled_billing.rs:884-890 | an effect on a closed hold leaves exactly its amount in excess on each account it is charged to, and any other effect nothing |
| `BilledWitness.ReopenedHoldCountsTwice` | src-core/src/controlled_billing.rs:884-890 | a run from empty books after which a Key that was granted 100 credits has 200 available and held |
| `Money.Overruns` | src-core/src/budget_billing.rs:1606-1609 | the overruns on the ledger are at most the sum of max(0, charge - hold) over the reservations of the account |
| `JointMoney.AllocatedIsGranted` | src-core/src/admin_summary.rs:24-36 | the summary's allocated credits, available + held + settled over the Key accounts, are what was granted to Keys plus what was reached for again on their accounts, in every joint run |
| `JointMoney.ReachableSolvent` | src-core/src/quota.rs:3737-3742 | in every state of every joint run available is at least minus what the commit entries on the account charged beyond their holds |
| `JointMoney.OverdraftBound` | src-core/src/quota.rs:3737-3742 | and at least minus the sum of max(0, charge - hold) over the reservations charged to the account |
| `Witness.BoundIsReached` | src-core/src/budget_billing.rs:1641-1652 | the bound is reached: a run in which one step of hold 100 is charged 120 and the Key account ends at -20 |
| `Witness.SentIsOpen` | src-core/src/budget_billing.rs:578-586 | a run reaches a dispatched step that waits for its receipt |
| `Solvency.OnlyCommitsOverdraw` | src-core/src/budget_billing.rs:2485-2492 | of all moves on the ledger only a commit beyond its hold can take an account below zero |
| `JointMoney.DebtHasCause` | src-core/src/budget_billing.rs:1606-1609 | in every joint run an account below zero has a reservation charged beyond its hold; it is committed unless it was reached for after it was closed, and where it is a step's the settlement says the charge |
| `JointMoney.DebtReported` | src-core/src/budget_billing.rs:1641-1652 | in every joint run, when a settlement reports debt some reservation on an account of its hold was charged beyond its hold |
| `Solvency.NextMoves` | src-core/src/quota.rs:3949-4027 | every V2 transaction moves the ledger by nothing, by one entry on each account of one hold, or by one grant, and only as its guards allow |
| `Effects.BeginTakesHold` | src-core/src/budget_billing.rs:1991-2272 | beginning an operation moves exactly the authorized hold from available to held on the accounts that cover it, and changes no other account |
| `Effects.AddTakesHold` | src-core/src/budget_billing.rs:704-940 | adding a step does the same |
| `Effects.RefreshMovesDifference` | src-core/src/budget_billing.rs:2487-2526 | a refresh moves exactly the difference of the old and the new hold |
| `Effects.ReleaseReturnsHold` | src-core/src/budget_billing.rs:599-702 | a release returns the whole hold |
| `Effects.ReceiptChargesActual` | src-core/src/budget_billing.rs:1598-1681 | a settling receipt charges its actual amount, returns the rest of the hold, and reports debt exactly when an account of the hold is below zero |
| `Effects.ReleaseUndoesBegin` | src-core/src/budget_billing.rs:599-702 | releasing the step of a new operation restores available, held and settled on every account |
| `Solvency.AllocationWithinCeiling` | src-core/src/quota.rs:589-632 | in every state of the invariant a successful allocation leaves the commitments of all Key accounts within the snapshot's total, whether or not the accounts are in balance |
| `JointMoney.AllocationFits` | src-core/src/quota.rs:589-632 | so it does in every state of every joint run |
| `JointMoney.OnlyGrantsCommit` | src-core/src/admin_summary.rs:46-59 | no step of a joint run but a grant raises the sum of the commitments, except that one which reaches for a closed hold raises it by no more than its amount |
| `JointMoney.CeilingHolds` | src-core/src/quota.rs:2498-2537 | from any reachable state to the next grant, commitments stay under a ceiling they were under plus the amounts of the closed holds reached for in between |
| `JointMoney.DeletedKeyIsSpent` | src-core/src/store.rs:2335-2376 | in every joint run, what a deleted Key was granted less what it gave back is what it settled, up to its debt and its reopened holds |
| `Verdicts.DispatchTakesLatest` | src-core/src/budget_billing.rs:472-513 | a dispatch takes effect only under the last entry of the history: budget id, authorization and hold agree, and it adds no revision |
| `Verdicts.DispatchedOnce` | src-core/src/budget_billing.rs:578-586 | in a run a step is dispatched at most once |
| `Verdicts.DispatchFixesAuthorization` | src-core/src/budget_billing.rs:2297-2347 | from its dispatch on a step keeps its authorization and its history never grows |
| `Verdicts.HistoryIsChain` | src-core/src/budget_billing.rs:2379-2435 | every history is numbered without gaps from 1, each row naming the budget it replaces with its cancellation proof, the last row is in force, and no budget id is adopted twice |
| `Finality.RunAdvances` | src-core/src/budget_billing.rs:1719-1757 | no earlier record is taken back: histories, ledger, evidence and settlements only grow, and states only move on |
| `Verdicts.SettlementIsFinal` | src-core/src/budget_billing.rs:1590-1681 | after a settlement its row, the reservation, the charge and the group's ledger entries never change and no entry joins the group |
| `Verdicts.LateFinalReceipt` | src-core/src/budget_billing.rs:1511-1562 | a final receipt for a settled step moves no money, and makes the step a conflict exactly when it is not the receipt that settled it or contradicts a task bound since |
| `Verdicts.ConflictIsSticky` | src-core/src/budget_billing.rs:1269-1286 | a conflict is forever, and an unsettled step in conflict is never committed nor released |
| `Verdicts.ConflictStopsKey` | src-core/src/budget_billing.rs:2441-2451 | from the first conflict of a Key on, no step of it newly reserves, refreshes or dispatches |
| `Receipts.DeliverAll` | src-core/src/budget_billing.rs:1415-1467 | what a batch of receipts with at most one final content leaves is a function of the set of its contents |
| `Receipts.OrderInsensitive` | src-core/src/budget_billing.rs:1497-1589 | two batches with the same contents, in any order and with any repetition, leave the same ledger, reservation, step, evidence and settlement, up to recording times |
| `Receipts.ChargedOnce` | src-core/src/budget_billing.rs:1590-1681 | a batch charges its final receipt's amount once, and nothing when it has none |
| `Receipts.ApplyTwice` | src-core/src/budget_billing.rs:1415-1467 | in every state of the invariant, applying any receipt twice in a row leaves exactly what applying it once leaves |
| `Receipts.ReplayIsExactlyOnce` | src-core/src/budget_billing.rs:2621-2643 | whatever receipts of whatever steps the feed holds, a poller that crashes any number of times between a receipt's commit and its cursor's, and reaches the end, leaves exactly what delivering each receipt once, in order, leaves |
| `Receipts.ReplayAtAnyTime` | src-core/src/budget_billing.rs:2621-2643 | for the receipts of one open step the times of delivery do not matter either |
| `Redelivery.RedeliveryIff` | src-core/src/budget_billing.rs:1415-1467 | whatever the V2 ledger does between a delivery that was answered and the next one of the same receipt, the second changes nothing if and only if it is not newly at odds with the task of the step, which it can only become when a video it says was not charged was given a task in between; and it moves no money |
| `Redelivery.ReplayedIff` | src-core/src/budget_billing.rs:2621-2643 | so it is between any two deliveries of one receipt in every run |
| `Witness.ReplayFreezes` | src-core/src/budget_billing.rs:1511-1562 | a run from empty books in which a receipt that settled a video comes again after a late bind and freezes the step |
| `Slots.AdmittedWithinLimit` | src-core/src/budget_billing.rs:2128-2144 | the concurrency gate leaves a slot for the operation it admits |
| `Slots.SlotSafety` | src-core/src/budget_billing.rs:2688-2763 | in every run in which no limit is lowered, a Key's active operations outside assist chains never exceed its limit |
| `Slots.FinishedForGood` | src-core/src/budget_billing.rs:1121-1142 | a terminal operation stays as it is, and every step it ever has from then on is terminal |
| `Admission.FirstCount` | src-core/src/budget_billing.rs:2688-2763 | the first `limit` requests by (created_at, id) are exactly `limit` many, or all |
| `Admission.GateIsRank` | src-core/src/budget_billing.rs:2688-2763 | with only such requests admitted so far, the gate passes a request exactly when it is one of the first `limit` |
| `Admission.AdmissionIsDeterministic` | src-core/src/budget_billing.rs:2128-2144 | in whatever order received requests of one Key attempt to begin, exactly the first max_concurrency of them pass the gate |
| `ControlledStore.Store.BeginOperation` | src-core/src/controlled_billing.rs:219-382 | the transaction computes `Controlled.Begin` |
| `ControlledAnswers.BeginAnswers` | src-core/src/controlled_billing.rs:219-382 | a V1 operation begins exactly when the upstream balance covers all commitments, the request is received, the Key is open, has a slot and no other open operation, and its account has something to spend that its cap covers |
| `ControlledStore.Store.MarkDispatched` | src-core/src/controlled_billing.rs:625-681 | the transaction computes `Controlled.Dispatch` |
| `ControlledAnswers.DispatchAnswers` | src-core/src/controlled_billing.rs:625-681 | a step is submitted exactly once per request and per kind, for a request of an open operation |
| `ControlledStore.Store.RecordStep` | src-core/src/controlled_billing.rs:683-893 | the transaction computes `Controlled.Record` |
| `ControlledAnswers.RecordAnswers` | src-core/src/controlled_billing.rs:683-893 | a receipt is accepted exactly when its columns are whole, it is of the operation, and it is the last one again, or new and of a step that is there or may be; the last one again changes nothing |
| `ControlledStore.Store.TallySteps` | src-core/src/controlled_billing.rs:468-507 | the loop over the operation's steps yields the tally, or the error of the first step that stops it |
| `ControlledStore.Store.FinishOperation` | src-core/src/controlled_billing.rs:388-619 | the transaction computes `Controlled.Finish`, rolled back when the request cannot settle |
| `ControlledAnswers.FinishAnswers` | src-core/src/controlled_billing.rs:388-619 | an open operation settles exactly when each of its steps is verified by a stored final receipt, the sums fit, the kinds of steps go together and with the outcome given, its hold is open and its request can end so from the listed states |
| `ControlledStore.Store.BindTask` | src-core/src/controlled_billing.rs:199-216 | the transaction computes `Controlled.Bind` |
| `ControlledStore.Store.SettleRequest` | src-core/src/quota.rs:4120-4191 | the walk to `settled` succeeds exactly from the states that lead to the outcome |
| `ControlledStore.Store.ReserveCreditQuote` | src-core/src/quota.rs:2927-3149 | the transaction computes `Quotes.ReserveQuote` |
| `ControlledAnswers.ReserveQuoteAnswers` | src-core/src/quota.rs:2927-3149 | a quote is reserved exactly once, for a received request it fits, on an open Key with a slot and accounts that cover its maximum; the same quote again is answered with its hold |
| `ControlledStore.Store.ApplyCreditReceipt` | src-core/src/quota.rs:3154-3484 | the transaction computes `Quotes.ApplyCredit` |
| `ControlledAnswers.ChargeAnswers` | src-core/src/quota.rs:3154-3484 | a receipt charges a quote exactly when it is new and final in credits, the quoted hold is open and the request can end so; it charges the amount it says |
| `JointMoney.ReachableBooks` | src-core/src/controlled_billing.rs:267-286 | in every state of every joint run a Key has one active V1 operation at most, every operation and quote has its hold, and every verified step the final receipt that says its amount |
| `JointCharges.ReachableCharge` | src-core/src/controlled_billing.rs:538-575 | in every joint run, what a settled V1 operation records as charged is what the ledger charged its hold, unless that very hold was reached for after it was closed |
| `JointCharges.ReachableQuoteCharge` | src-core/src/quota.rs:3366-3453 | so it is of every settled quote |
| `ControlledRuns.BeginTakesAll` | src-core/src/controlled_billing.rs:302-347 | beginning an operation leaves exactly nothing to spend on the Key account and no debt on the cap |
| `ControlledRuns.FinishChargesReceipts` | src-core/src/controlled_billing.rs:538-575 | a settled operation is charged the sum of its steps on both accounts, each step verified by a stored final receipt of its own amount, and going over the hold blocks the Key |
| `ControlledRuns.UnverifiedStopsFinish` | src-core/src/controlled_billing.rs:477-486 | while one step is unverified nothing is settled: it is never counted as zero |
| `JointMoney.SettledForGood` | src-core/src/controlled_billing.rs:425-441 | settled operations and quotes stay as settled, and blocked Keys stay blocked, over every joint run |
| `ControlledRuns.BlockedBeginsNothing` | src-core/src/controlled_billing.rs:267-286 | no operation begins on a blocked Key |
| `ControlledRuns.ConflictLeftIff` | src-core/src/controlled_billing.rs:808-879 | recording moves a step out of conflict if and only if its operation is open and the receipt is acceptable and new |
| `BilledWitness.ConflictComesAndGoes` | src-core/src/controlled_billing.rs:808-879 | a run from empty books in which a second receipt puts a verified step in conflict and a third takes it out |
| `ControlledRuns.DisputeBlocks` | src-core/src/controlled_billing.rs:812-853 | a contradicting receipt blocks the Key, moves no money, leaves a settled operation as it is, and puts any other in doubt with its hold |
| `ControlledRuns.DoubtSuspends` | src-core/src/controlled_billing.rs:855-892 | a receipt that settles nothing puts the operation and its hold in doubt and moves no money |
| `ControlledRuns.PendingSuspends` | src-core/src/quota.rs:3336-3364 | a receipt that settles nothing leaves a quoted hold open and in doubt, and its request unknown |
| `ControlledRuns.CreditChargesReceipt` | src-core/src/quota.rs:3366-3453 | the receipt that settles a quote is final and the first, and charges its own amount on both accounts |
| `ControlledRuns.LateCredit` | src-core/src/quota.rs:3270-3324 | a receipt for a settled quote moves no money, and is a conflict exactly when it is new, final and says another amount; then the Key is blocked |
| `ControlledRuns.ApplyIdempotent` | src-core/src/quota.rs:3187-3200 | applying a receipt twice leaves what applying it once leaves |
| `PlainStore.Store.PreflightReserve` | src-core/src/requests.rs:1575-1720 | the transaction computes `Plain.PreflightFor`: the answer of a client key that is known, or a new request and its hold, or nothing |
| `PlainAnswers.PreflightAnswers` | src-core/src/requests.rs:1575-1720 | a new client key is answered with a new request and hold exactly when the Key is active, has a slot and its accounts cover the amount; a known one with its request, or with a conflict for another content |
| `PlainMoves.ClientKeyAnswers` | src-core/src/requests.rs:1600-1620 | however often and in whatever later state it is asked again, a client key is answered with the request it was first given, or with a conflict for another content, and no second hold is taken |
| `PlainStore.Store.SettleRequest` | src-core/src/quota.rs:4120-4191 | the walk to `settled` changes the state step by step, and succeeds exactly where the one-step table says |
| `PlainStore.Store.ApplySettlement` | src-core/src/quota.rs:3867-3947 | the hold and its entries are written as `OutcomeEffect` says, or the outcome is refused |
| `PlainStore.Store.SettleReservation` | src-core/src/quota.rs:3516-3617 | settling a reservation, with or without its request, computes `Plain.Settle` |
| `PlainAnswers.SettleAnswers` | src-core/src/quota.rs:3516-3617 | an open hold is settled exactly for its owner, within its amount, when no step holds it and its request can end so; the hold then says the outcome |
| `PlainStore.Store.SettleLeaseHold` | src-core/src/requests.rs:672-706 | the billing half of settling a lease computes `Plain.SettleLease` |
| `PlainStore.Store.RecoverLeaseHold` | src-core/src/requests.rs:770-796 | the billing half of recovering an expired lease computes `Plain.RecoverLease` |
| `PlainStore.Store.CancelQueuedRequest` | src-core/src/jobs.rs:938-1020 | canceling a request that no attempt has taken up computes `Plain.CancelQueued` |
| `PlainMoves.LateSettlement` | src-core/src/quota.rs:4029-4060 | settling a hold that is no longer held, and was not reached for after it was closed, changes nothing, and is answered exactly when it says what the hold was settled with, to the amount of the charge |
| `PlainMoves.SettledOnce` | src-core/src/quota.rs:4029-4060 | after a settlement every further one changes nothing and is answered exactly when it says the same outcome |
| `VideoQueue.DispatchQueue.ClaimNext` | src-core/src/jobs.rs:354-399 | a claim takes the first job of the user chosen beyond the cursor, or from the start, removes it and moves the cursor to its user |
| `VideoQueue.ClaimedLeast` | src-core/src/jobs.rs:1413-1441 | the claimed job is the least by (created_at, user, id) of those beyond the cursor |
| `VideoQueue.ClaimAnswers` | src-core/src/jobs.rs:354-399 | a claim is answered while a job is queued, with the first by (created_at, user, id) of the jobs of users beyond the cursor, or of all jobs when there are none |
| `VideoQueue.ClaimBringsNearer` | src-core/src/jobs.rs:558-565 | every claim strictly lowers a waiting job's distance |
| `VideoQueue.BoundedWaiting` | src-core/src/jobs.rs:341-590 | with later arrivals only, a job with k jobs at or before it is claimed within k times the number of users claims |
| `UpstreamLeases.LeaseStore.SelectCandidate` | src-core/src/requests.rs:1941-2008 | one pass over the accounts finds the best eligible account, or the error of the furthest stage any account reached |
| `UpstreamSlots.SelectsBest` | src-core/src/requests.rs:1992-2008 | every other eligible account comes after the chosen one in the strategy's order |
| `UpstreamChoice.ChosenIsFirst` | src-core/src/requests.rs:1998-2002 | no eligible account has more whole units than the chosen one, or fewer held, active and unknown leases, as the strategy asks, and of those that tie it has the least id; eligibility is spelled out |
| `UpstreamChoice.SelectAnswers` | src-core/src/requests.rs:1992-2008 | an account is chosen exactly when one is eligible, and each error says exactly how far the accounts got |
| `UpstreamLeases.LeaseStore.Acquire` | src-core/src/requests.rs:458-499 | a grant appends one lease on the selected account, or changes nothing |
| `UpstreamChoice.GrantAnswers` | src-core/src/requests.rs:458-499 | a lease is granted exactly on a valid query with an eligible account, once per request and kind, on the chosen account and with the expiries the query asks for |
| `UpstreamLeases.LeaseStore.ClaimLease` | src-core/src/jobs.rs:416-558 | a claim activates the job's held lease, or is granted one and activates it |
| `UpstreamChoice.ClaimAnswers` | src-core/src/jobs.rs:416-470 | a queued job's lease is claimed exactly when it is this request's and still held |
| `UpstreamLeases.LeaseStore.RenewLease` | src-core/src/requests.rs:525-543 | a heartbeat renews a live lease and leaves every other one alone |
| `UpstreamChoice.HeartbeatAnswers` | src-core/src/requests.rs:525-543 | a heartbeat makes a held or active lease active until ttl from now and leaves any other lease alone |
| `UpstreamLeases.LeaseStore.SettleLease` | src-core/src/requests.rs:630-752 | settling computes the lease's next state and window, or refuses, given what the request and the reservation say |
| `UpstreamChoice.SettleAnswers` | src-core/src/requests.rs:630-752 | an accepted outcome ends a held or active lease in the state it leads to, and an unknown one can be reconciled until its window or for ten minutes |
| `UpstreamChoice.ReconcileAnswers` | src-core/src/requests.rs:604-665 | an unknown lease is reconciled exactly on terminal evidence, within its window, when the outcome is accepted |
| `LeaseBilling.Desks.SettleLease` | src-core/src/requests.rs:630-752 | the whole transaction: the outcome is applied to lease, request and hold, or to none of them, and what the request and the hold accept is computed from the tables |
| `UpstreamLeases.LeaseStore.RecoverExpired` | src-core/src/requests.rs:754-818 | the recovery loop makes every expired live lease unknown, or rolls back when a request refuses |
| `UpstreamChoice.RecoverAnswers` | src-core/src/requests.rs:754-796 | recovery makes exactly the expired held or active leases without a budget unknown, for ten minutes |
| `LeaseBilling.Desks.RecoverExpired` | src-core/src/requests.rs:754-818 | the whole transaction: every expired lease with its request and its hold, in order, or none of them |
| `LeaseBilling.AppliedTogether` | src-core/src/requests.rs:672-740 | an applied outcome leaves lease, hold and request saying the same of it; any other leaves all three as they were |
| `PlainAnswers.LeaseAnswers` | src-core/src/requests.rs:672-706 | request and hold accept a lease's outcome exactly when the hold is its owner's and no step's, the outcome is within its amount and the request can go there from the listed states; the hold then says the outcome |
| `UpstreamSlots.NeverOverbooked` | src-core/src/requests.rs:1986-1992 | in every run in which no limit is lowered, held, active and unknown leases of an account never exceed its limit |
| `UpstreamSlots.RunAdvances` | src-core/src/requests.rs:707-722 | a lease keeps its request and account, only moves on, and once succeeded or failed never changes |
| `UpstreamSlots.SettlingFreesIff` | src-core/src/requests.rs:672-722 | settling a live lease gives back its one slot exactly when the outcome is known, and makes it succeeded exactly on success |
| `UpstreamSlots.UnknownEndsIff` | src-core/src/requests.rs:604-665 | an unknown lease ends exactly by an accepted reconciliation with terminal evidence within its window |
| `UpstreamSlots.StrandedForGood` | src-core/src/requests.rs:658-665 | once its window has passed, an unknown lease occupies its slot in every later state |
| `UpstreamSlots.RecoveryIsComplete` | src-core/src/requests.rs:754-796 | recovery leaves no expired lease and gives back no slot |
| `ImplicitRetry.RequestStore.Begin` | src-core/src/requests.rs:1336-1388 | the transaction computes `BeginAt`: coalesce, replay, conflict, or create |
| `ImplicitRetry.RequestStore.BeginImplicitVideo` | src-core/src/requests.rs:947-959 | only videos are coalesced, under a reserved client key |
| `ImplicitRetry.RetryAnswers` | src-core/src/requests.rs:29-67 | a retry is answered with the latest request it coalesces with, in use within two minutes by the listed columns, and creates one exactly when there is none and its key is new |
| `ImplicitRetry.ClientKeyIsKept` | src-core/src/requests.rs:1369-1413 | a client key answers the same content with the same request, and any other content with a conflict |
| `ImplicitRetry.ReusableWithinWindowIff` | src-core/src/requests.rs:29-49 | a request created within the window escapes the lookup if and only if all that speaks for it is stale evidence |
| `ImplicitRetry.ActiveIsReused` | src-core/src/requests.rs:38-39 | while a request is worked on, whatever its age, a retry creates nothing and is answered with it or a later one |
| `ImplicitRetry.CreatedFarApart` | src-core/src/requests.rs:51-67 | a created retry finds no earlier one still worked on, and is more than the window younger than each that has more than stale evidence |
| `ImplicitRetry.RetriesCoalesce` | src-core/src/requests.rs:1351-1388 | in every run with a forward clock and evidence not older than its request, two implicit requests of one intent are more than 120000 ms apart and no client key names two requests |
| `ImplicitRetry.StaleEvidenceForgets` | src-core/src/requests.rs:44 | a request with evidence from before it was created is doubled a minute later |
| `Reconciler.ReconcileStore.ReconcileBatch` | src-core/src/quota.rs:840-1146 | one batch, with its loops over rows and accounts, computes `Reconcile.Batch`, rolled back when its last id is malformed |
| `Reconciler.ReconcileStore.ReconcileEventGroups` | src-core/src/quota.rs:799-825 | the driver ends, and on success has done one pass over the whole ordered table and counted its unsound rows; on a table with well-formed distinct ids it always succeeds |
| `Reconciler.ReconcileStore.MarkAccounts` | src-core/src/quota.rs:1073-1081 | the loop marks exactly the owners and reports whether any was not marked before |
| `Sweep.BatchStep` | src-core/src/quota.rs:1112-1134 | a batch on an accepted cursor is never refused, and the cursor it hands out is accepted next |
| `Sweep.BatchesAreOnePass` | src-core/src/quota.rs:994-1146 | any sequence of limits in 1..=500 checks the rows of the ordered listing once each and leaves what one pass over them leaves, with the same invalid count |
| `Sweep.ListingAscends` | src-core/src/quota.rs:1000-1032 | rows are scanned from the earliest to the latest and, of one time, by their ids |
| `Sweep.BatchAnswers` | src-core/src/quota.rs:840-992 | a batch is refused exactly for a limit outside 1..=500 or a cursor that is of another database or does not stand at a row before the one it goes up to |
| `Sweep.SweepTerminates` | src-core/src/quota.rs:811-825 | more batches than rows always complete, whatever their limits |
| `Sweep.WholeIsEveryRow` | src-core/src/quota.rs:925-952 | the listing up to the watermark contains every row exactly once |
| `Sweep.PassEffect` | src-core/src/quota.rs:1051-1105 | a pass quarantines exactly the owners of unsound rows and audits exactly the unsound rows |
| `Owners.PassQuarantines` | src-core/src/quota.rs:1051-1081 | a pass marks exactly the accounts that own an unsound row: those its reserve entries name for the Key of the request, the Key's own where they name none, and outside V2 context those the reservation names |
| `Owners.OwnersAre` | src-core/src/quota.rs:1260-1327 | the owners found for a row are those accounts |
| `Sweep.ReplayChangesNothing` | src-core/src/quota.rs:827-830 | replaying an old cursor at any later time gives the same report and changes nothing |
| `Sweep.SilentIffSound` | src-core/src/quota.rs:994-1146 | a sweep over a well-formed table finds and changes nothing if and only if every row passes the check |
| `Sweep.ReachableNeverQuarantined` | src-core/src/quota.rs:792-798 | in every reachable state of the V2 ledger the sweep finds nothing in the rows of steps |
| `Owners.PlainDemands` | src-core/src/quota.rs:1329-1459 | the check of V1 and plain holds accepts exactly the holds whose accounts have the right scopes and whose entries are, on each account, one that takes it and, once it is closed, one that closes it as its state says, all of the current version |
| `Quarantine.PlainValidIff` | src-core/src/quota.rs:1329-1459 | the check accepts a hold of V1 billing or of a plain request that was closed at most once exactly when its accounts have the right scopes, its outcome is known, its charge is within its hold, and every entry is of the current version of its account |
| `Quarantine.SpoiledFails` | src-core/src/quota.rs:1329-1459 | and never one that was reached for after it was closed |
| `Quarantine.RowSoundIff` | src-core/src/quota.rs:1329-1459 | in every state of every joint run a row passes exactly when, in V2 context, a step holds it whose task agrees with its settlement, and anywhere else its versions are current, its outcome known, its charge within its hold, and it was not reached for after it was closed |
| `Quarantine.SilentSweepIff` | src-core/src/quota.rs:792-798 | so a sweep over a table of any holds finds and quarantines nothing if and only if each of them is as said |
| `Quarantine.GrantUnsettlesHolds` | src-core/src/quota.rs:658-729 | a grant on a Key makes every V1 or plain hold on its account that passed the check fail it |
| `Reconcile.RowIgnoresModes` | src-core/src/quota.rs:1051-1072 | neither the check of either kind of hold nor the accounts it would quarantine depend on any account's mode |
| `Glob.GlobMatches` | src-core/src/cost.rs:49-78 | terminates; true implies a match for all inputs; for values without a star before their last byte it decides matching |
| `Glob.ScanFrom` | src-core/src/cost.rs:56-72 | backtracking to the last star alone loses no match of such a value |
| `Glob.DecidesIff` | src-core/src/cost.rs:56-72 | every pattern is decided correctly on a value if and only if the value has no star before its last byte |
| `Glob.PatternDecidesIff` | src-core/src/cost.rs:49-78 | a pattern is decided correctly on every value if and only if it has no star |
| `Glob.LiteralPatternDecides` | src-core/src/cost.rs:49-78 | a pattern without stars is decided correctly on every value |
| `CanonicalJson.WriteCanonicalJson` | src-core/src/requests.rs:2019-2050 | the recursive writer appends exactly the canonical text of the value |
| `JsonReader.CanonicalIsRead` | src-core/src/requests.rs:2019-2050 | a reader written from the grammar of RFC 8259 reads the canonical text back as the value, and finds the members of every object in strictly ascending order |
| `JsonReader.CharsAreRead` | src-core/src/requests.rs:2024 | and every string literal as the string it was written for, by the escapes of section 7 |
| `CanonicalJson.CanonicalIsInjective` | src-core/src/requests.rs:2019-2050 | two values have the same canonical text if and only if they are equal with objects read as maps |
| `CanonicalJson.QuotedUnambiguous` | src-core/src/requests.rs:2024 | string literals, escaped as section 7 of RFC 8259 requires, can be read back without knowing where they end |
| `CanonicalJson.FingerprintsAgree` | src-core/src/requests.rs:2011-2017 | two request fingerprints are taken of the same text if and only if endpoint, model and body agree |
| `Text.LessIff` | src-core/src/requests.rs:2037 | the order of keys and ids is that of the first code point in which they differ, a prefix before what it begins |
| `Text.TrimmedBetween` | src-core/src/budget_billing.rs:610 | trimming leaves what stands between white space and neither begins nor ends with any |
| `Credits.Parse` | src-core/src/credits.rs:13-56 | the loops accept exactly the trimmed, well-formed decimals of at most 64 bytes and 6 decimals whose millionths fit i64, and yield them |
| `Credits.ParseExact` | src-core/src/credits.rs:13-56 | an accepted text denotes exactly a millionth of the amount: nothing is rounded |
| `Credits.ParseAgrees` | src-core/src/credits.rs:13-56 | two accepted texts yield the same amount if and only if they denote the same decimal number |
| `Credits.PrintParse` | src-core/src/credits.rs:78-80 | whatever amount is printed reads back as itself, for every non-negative i64 |
| `Credits.CheckedAdd` | src-core/src/credits.rs:66-74 | addition answers exactly when the sum fits, and subtraction undoes it |

## Left out

- Integrity.ReachableValid: asks for no late bind, as do JointMoney.ReachableValid and Integrity.NeverRefusedForIntegrity; `Integrity.BindValidIff` says why they must.
- JointMoney.CeilingHolds: holds until the next grant; a grant by an administrator is not bounded by the snapshot in the source.
- Slots.SlotSafety: asks that no limit is lowered, which an administrator may do under running operations; it counts V2 operations.
- UpstreamSlots.NeverOverbooked: asks the same of upstream accounts.
- UpstreamLeases.LeaseStore.SettleLease: takes what the request and the reservation say as a parameter; `LeaseBilling.Desks.SettleLease` computes it.
- UpstreamLeases.LeaseStore.RecoverExpired: likewise; `LeaseBilling.Desks.RecoverExpired` computes it.
- Sweep.ReachableNeverQuarantined: speaks of the rows of steps; `Quarantine.SilentSweepIff` covers tables of any holds.
- Admission.AdmissionIsDeterministic: speaks of the concurrency gate; an attempt can still fail at another guard.
- Receipts.OrderInsensitive: compares up to recording and observation times, which the source takes from whichever delivery came first; a video step's task is bound beforehand for a final receipt and never for a no-charge one.
- VideoQueue.BoundedWaiting: counts successful claims; a claim that finds no upstream account changes nothing.
- ImplicitRetry.RetriesCoalesce: callers that bring their own client key do not use the reserved prefix; assist children and preparations are not part of this model.
- Glob.GlobMatches: bytes, as in the source; the policy rows it selects among are not modelled.
- Sweep.BatchesAreOnePass: over an unchanged table, as the source's cursor contract has it; rows inserted between batches are not modelled.
- ControlledRuns.LateCredit: a replay is recognised by its hash, so a receipt that differs only in its observation time is a new one, as in the source.
- PlainStore.Store.PreflightReserve: the count of active executions is a parameter where the caller limits it, so runs cover every count; media rows, the job and the lease a preflight may create beside the hold are not part of it.
- Store.CoreStore.DeleteApiKey: the Key's deletion mark, its owner's role, and its jobs, attempts and settlements that await reconciliation are a parameter.
- PlainStore.Store.CancelQueuedRequest: the request and its hold only; the job, attempt and lease rows it also ends are left out.
- LeaseBilling.Desks.RecoverExpired: one transaction; in a joint run a recovered batch is as many steps as it has leases.
- Settlement and ledger amounts are unbounded integers except where the source checks them; the overflow of an SQL SUM is not modelled.
- Ledger rows are kept in insertion order and written with their revision tag at once; the source orders them by random entry ids and tags them after inserting.
- Ids are row numbers for accounts, reservations, ledger rows and leases; that new ids are fresh is taken for granted.
- The text encoding of hashes and of stored authorizations is identified with the hashed or stored value.
- JsonReader.CanonicalIsRead: the reader takes texts without insignificant white space, as the writer writes them, the longest run of number characters as a number, and no escaped surrogate pairs, which the writer never writes.
- Admitted.BeginAnswers: says for each input whether it is applied, a duplicate, or refused for concurrency; which of the other errors comes first is computed by `Billing.Begin` and stated there only, and so for the other transactions.
- PlainAnswers.SettleAnswers: of a hold whose accounts exist, as those of every hold do in every joint run.
- ControlledAnswers.RecordAnswers: says which receipts are accepted; `ControlledRuns` says what each leaves.
- JSON numbers are the tokens the writer prints; -0.0 and 0.0 are two values because they print differently.
- The errors of an account that is not ready are one error; the texts of errors, actors, reasons and audit payloads are left out.
- `updated_at_ms`, elapsed-time and lock-wait fields, and media and work-version rows, are left out.
- The resource kind is always credits on budget accounts; grants, reserves and settlements on the old single ledger, and the transactions that move it onto accounts, are not part of this model.
- Assist preparation and abandonment, and the recovery inventories, appear only as other work that moves request states.
- V1 transactions take the admission count as a parameter, so runs cover every count; rows of legacy execution evidence are absent from the V2 count.
- Cost estimates, health and cooldown tables, administration, sessions, routing, encryption and usage reports are left out: thin or easy.
- Job and attempt rows beside a lease are left out; the queue keeps only what its order needs.
