# Shadowfiend billing, verified

Shadowfiend bills cloud projects. A ledger of accounts, projects, user-project
relations and charges is changed by small database transactions; any number of
processors debit each project one period at a time; a keystone middleware keeps
the payer of a project in step with a keystone role. This project models those
parts and proves what they keep. `dafny verify dfyconfig.toml` checks it.

Money in the ledger is a whole number of units of 0.0001, a metered cost is a
real number, time is whole seconds, ids are strings. The source is Python 2
code, and its comparisons are modelled as Python 2 makes them (a number is never
less than None).

## How it is built

- `Money`, `Tables`: rounding, the four tables, and the meaning of every ledger
  call as one atomic change (`Apply`, `Step`, `Run`).
- `Ledger` (module `Ledgers`): the same calls as methods that update the rows in place and roll
  back when a row is missing, proved equal to their meaning.
- `LedgerLaws`, `RowLaws`, `Grace`: double entry, conservation, integrity, the
  owed flag, the origin of each column and the grace period over all sequences of
  calls.
- `Transactions`, `TransactionLaws`, `RetryLaws`: `update_account` statement by
  statement, with stale reads, conditional updates, row locks, rollback and
  retries, beside all other calls; every interleaving is serializable, and calls
  get through unless they are given up for a reason.
- `StateStore`, `Billing`, `Protocol`, `ProtocolLaws`, `Rounds`, `Traces`,
  `FirstRun`: the distributed billing protocol as a step relation over the ledger,
  with exceptions and crashes between any two steps. A settlement is one step there,
  which is what the serializability of `TransactionLaws` allows.
- `Plans`, `PrimaryPeriod`: the same loop for one processor, pass by pass and in
  place: what it pays, when it ends, and what a failed run leaves behind.
- `PayerAgreement`, `PayerDebits`, `RolePaths`: the middleware's role requests
  with failures, whom a debit then falls on, and the paths it recognises.
- `ChargePaging`, `Markers`: offset paging of charges, marker paging of bills.
- `Doubles`, `Estimate`, `Synchronize`: rounding to floats, the remaining-days
  estimate made with them, and the database reconciliation.
- `Wrappers`, `Collections`, `Sums`: optional values, small views of the built-in
  collections, sums over maps.

## What the proofs say about the code

Some things one would expect hold only under a condition; each is proved with
its exact condition.

- **First run.** Without historical expenses the first period billed is the
  current full hour. The schedule is gap-free in all failure-free runs if and
  only if `cloudkitty_period` divides 3600 (`FirstRun.ScheduleIff`).
- **Crashes.** A run that stops between its debit and its state write makes the
  period be debited again; the number of debits is exactly one plus the number
  of such runs (`ProtocolLaws.NoPeriodLeftUndebited`), and there is no bound on
  it (`FirstRun.DebitedAgain`).
- **Locks after a failure.** A run that raises keeps the lock of the project it was
  serving. The loop never takes that project off its list again: it ends if and
  only if no listed project's lock is held, or it raises for another project
  (`PrimaryPeriod.EndsIff`). After a failed run no later run over the same
  projects ends well, whatever is repaired in between, until the lock is freed
  (`PrimaryPeriod.FailureBlocks`, `PrimaryPeriod.RepairIsNotEnough`).
- **First record.** With historical expenses the first period billed is the one
  after cloudkitty's first record; that record's own period is in no plan
  (`PrimaryPeriod.CaughtUp`).
- **Double entry.** Every balance is what was opened and charged less what was
  spent, up to what new projects carried in and what deletions wrote off
  (`LedgerLaws.DoubleEntry`). For a user id that was given one account it holds
  outright exactly when the user's projects carried nothing in
  (`LedgerLaws.DoubleEntryIff`).
- **Conservation.** A project has consumed what its payers' relations show plus
  the shares that went with deleted accounts; for a project id given out once
  the two are equal exactly when no share has gone
  (`LedgerLaws.ProjectConservation`, `LedgerLaws.ProjectConservationIff`).
- **Owed flag.** A negative charge breaks "owed means in debt" exactly when it
  takes a balance from zero or more to below zero (`LedgerLaws.ChargeKeepsFlagIff`).
- **Remaining days.** The estimate divides floats. Below 2^51 units the answer is
  the exact quotient or, when the balance is a whole number of days, possibly one
  less (`Estimate.DaysCovered`, `Estimate.CoversIff`). At a balance of 7.2 and a
  price of 0.1 an hour it is 2 where 7.2 / 2.4 is 3, and after 72 settlements the
  balance is 0 and the account not owed (`Estimate.OneDayLess`). A larger balance
  can be answered a day too many (`Estimate.OneDayMore`).
- **PUT answered with a body.** The middleware takes any body for a refusal. If
  keystone grants the role with one, the answer is a success and the ledger's
  payer stays (`PayerAgreement.GrantedWithBody`).
- **Billing owner API.** The public `billing_owner` call changes the ledger and
  not keystone; the two agree afterwards exactly when the call fails or names a
  holder of the role (`PayerAgreement.DirectOwnerIff`).
- **Marker paging** never delivers the first item of a list longer than a page
  and always ends in a failure with items left (`Markers.FollowingMarkers`).
- **Synchronizing** fails exactly when a missing project still has a relation to
  the billing admin, and then at the first such project; that relation is what deleting the account of a later payer leaves behind
  (`Synchronize.SynchronizesIff`, `Synchronize.LeftoverAfterDeletion`). A run that
  dies between opening an account and charging its bonus loses that bonus for good
  (`Synchronize.BonusLostIff`).

## Assumptions

Admin context. Metered costs are not negative. Charge values have at most four
decimals, although the API takes a float: `Decimal(0.3)` is a little less than
0.3, so charging 0.3 to a balance of -0.3 leaves `owed` set while 0.0000 is
stored. An account is created with `owed` unset and without `owed_at`, although
the API passes on both if a caller sets them. The lock service gives a lock to one holder at a time and frees the
locks of a processor that dies. The metric store returns what was written to it,
by buckets of one period. `period > 0`. Where a single processor runs
(`PrimaryPeriod`), locks that are held when it starts stay held while it runs,
and a first full hour is zero or at least one period after the epoch, since its
state would otherwise read as zero.

## Model

| member | source | states |
|---|---|---|
| Money.QuantizeIsHalfUp | shadowfiend/common/utils.py:23-27 | rounding gives the nearest unit, ties away from zero, and is the only function that does |
| Money.QuantizeMonotone | shadowfiend/common/utils.py:23-27 | a larger cost never rounds to less |
| Money.QuantizeOdd | shadowfiend/common/utils.py:23-27 | rounding is symmetric around zero |
| Money.QuantizeIdempotent | shadowfiend/common/utils.py:23-27 | a rounded amount is not moved by rounding again |
| Money.RoundingErrorBound | shadowfiend/db/sqlalchemy/api.py:495-532 | n rounded settlements are within n half units of the exact metered total |
| Ledgers.Ledger.CreateAccount | shadowfiend/db/sqlalchemy/api.py:337-344 | the in-place insert has exactly the effect of the call, and a second account for a user id is refused |
| Ledgers.Ledger.ChargeAccount | shadowfiend/db/sqlalchemy/api.py:447-482 | balance, owed flag and charge row change as one call, or nothing does |
| Ledgers.Ledger.UpdateAccount | shadowfiend/db/sqlalchemy/api.py:484-541 | account, project and relation rows are settled together; a missing row rolls back the rows already written |
| Ledgers.Ledger.CreateProject | shadowfiend/db/sqlalchemy/api.py:596-605 | project and relation are inserted together or not at all |
| Ledgers.Ledger.ChangeBillingOwner | shadowfiend/db/sqlalchemy/api.py:690-743 | payer changes and the new payer's relation is kept or added at zero |
| Ledgers.Ledger.ChangeAccountLevel | shadowfiend/db/sqlalchemy/api.py:428-445 | only the level of one account changes |
| Ledgers.Ledger.DeleteAccount | shadowfiend/db/sqlalchemy/api.py:361-386 | account, the projects it pays and its own relations go, nothing else does |
| LedgerLaws.DoubleEntryStep | shadowfiend/db/sqlalchemy/api.py:337-541 | any call moves balance plus spending less charges of a user by exactly what it opens, carries in with a new project, or writes off with a deletion |
| LedgerLaws.DoubleEntryRun | shadowfiend/db/sqlalchemy/api.py:337-541 | the same over any sequence of calls |
| LedgerLaws.DoubleEntry | shadowfiend/db/sqlalchemy/api.py:337-541 | from an empty database, after any calls, a balance is openings plus charges less the relations' consumptions, plus what was carried in, less what deletions wrote off; nothing was written off for a live account opened once |
| LedgerLaws.DoubleEntryIff | shadowfiend/db/sqlalchemy/api.py:596-605 | the books of a live account opened once balance outright exactly when nothing was carried in |
| LedgerLaws.ProjectGapStep | shadowfiend/db/sqlalchemy/api.py:361-541 | any call moves a project's consumption and its payers' shares together, except for the share a deletion forgets and the project it removes |
| LedgerLaws.ProjectConservation | shadowfiend/db/sqlalchemy/api.py:361-541 | after any calls a project has consumed exactly what its payers paid and what deleted accounts had paid, less what removed projects of its id had consumed |
| LedgerLaws.ProjectConservationIff | shadowfiend/db/sqlalchemy/api.py:373-386 | a project whose id was given out once has consumed what its payers' relations show exactly when no share of it was deleted, and never less |
| LedgerLaws.IntegrityStep | shadowfiend/db/sqlalchemy/api.py:361-386 | every call keeps referential integrity except creating a project for a user without an account |
| LedgerLaws.PayerCanBeDebited | shadowfiend/db/sqlalchemy/api.py:489-529 | in every reachable ledger all three lookups of a settlement succeed for a project's current payer |
| LedgerLaws.OwedImpliesDebt | shadowfiend/db/sqlalchemy/api.py:457-460 | owed implies a negative balance after any calls with non-negative costs |
| LedgerLaws.OwedMeansDebt | shadowfiend/db/sqlalchemy/api.py:495-507 | without negative charges owed is equivalent to a negative balance |
| LedgerLaws.ConsumptionIsSettlements | shadowfiend/db/sqlalchemy/api.py:508-522 | a project's consumption grows by exactly the settlements made on it |
| LedgerLaws.SettlementsStayTogether | shadowfiend/db/sqlalchemy/api.py:495-532 | after n settlements account, project and relation have moved by the same total |
| RowLaws.AccountColumns | shadowfiend/db/sqlalchemy/api.py:496-507 | a live account shows the amount of its last settlement, not their sum, its time, and the level last given; no other call touches these |
| RowLaws.ConsumptionIsLastCost | shadowfiend/db/sqlalchemy/api.py:495-507 | after a settlement with none and no deletion since, the consumption is its rounded cost |
| RowLaws.ProjectColumns | shadowfiend/db/sqlalchemy/api.py:508-522 | a project's payer is the last one named and its time that of its creation or last settlement |
| RowLaws.RelationColumns | shadowfiend/db/sqlalchemy/api.py:720-743 | a relation's time is that of the last settlement, owner change or creation that wrote it |
| RowLaws.ChargesAreCalls | shadowfiend/db/sqlalchemy/api.py:462-479 | the charge rows are the successful charges in order, dated as given or else now, and numbered on |
| RowLaws.CallFrame | shadowfiend/db/sqlalchemy/api.py:337-743 | a call touches only its user's account and relations and its own project |
| RowLaws.FailsIff | shadowfiend/db/sqlalchemy/api.py:484-529 | which call fails with which error |
| Grace.OwedSince | shadowfiend/db/sqlalchemy/api.py:495-507 | an owed account was in debt in every state since owed_at and no settlement touched it since |
| Grace.OwedHasTime | shadowfiend/db/sqlalchemy/api.py:499-500 | an owed account always carries owed_at |
| Grace.DropOnlyAfterGrace | shadowfiend/processor/service/service.py:185-192 | resources are dropped only after more than level days of unbroken, unsettled debt, level not 9 and the option on |
| Grace.DropIff | shadowfiend/processor/service/service.py:185-192 | resources are dropped if and only if the account has been in unsettled debt for more than its level in days, the level is not 9 and the option is on |
| TransactionLaws.CommitShows | shadowfiend/db/sqlalchemy/api.py:484-541 | a commit is one settlement on top of whatever was committed meanwhile |
| TransactionLaws.ServeView | shadowfiend/db/sqlalchemy/api.py:361-482 | another call on unlocked rows does to the committed state what it does to the rows |
| TransactionLaws.RollbackView | shadowfiend/db/sqlalchemy/api.py:316-319 | undoing an attempt leaves the committed state as it was |
| TransactionLaws.Serializable | shadowfiend/db/sqlalchemy/api.py:484-541 | every interleaving, with reads of any age, equals the committed calls in commit order; with no call under way so do the rows themselves |
| TransactionLaws.CommittedExactlyOnce | shadowfiend/db/sqlalchemy/api.py:484-541 | a call is logged once if it committed and not at all otherwise, with the user, project and cost it was begun with; every logged settlement takes its amount from the account and adds it to project and relation as committed just before it |
| TransactionLaws.ConflictMeansCommit | shadowfiend/db/sqlalchemy/api.py:308-319 | a filter that finds no row means another call committed a change to the row after the read, whichever of the committed states it was made from |
| RetryLaws.GivenUpIff | shadowfiend/db/sqlalchemy/api.py:316-319 | a call is given up if and only if its process died, a row was missing where it looked, or it met six conflicts or deadlocks; until then each starts it again with a new clock reading |
| RetryLaws.AttemptCommits | shadowfiend/db/sqlalchemy/api.py:484-541 | a call that starts, first or again, with its rows there and free commits, and appends exactly its settlement |
| RetryLaws.SettlementCommits | shadowfiend/db/sqlalchemy/api.py:484-541 | from any reachable state a new call whose rows are there and free commits |
| RetryLaws.RestServes | shadowfiend/db/sqlalchemy/api.py:337-482 | any other call is served when nobody holds a row |
| RetryLaws.AccountFilter | shadowfiend/db/sqlalchemy/api.py:495-507 | which changes between read and write an account's filter notices: any settlement at another time, a charge that moves balance or flag, no change of level |
| StateStore.WriteThenRead | shadowfiend/processor/service/fetcher.py:114-182 | get_state top returns what set_state last wrote, for begins on the grid of the period |
| Billing.ReadStateAligned | shadowfiend/processor/service/service.py:107-121 | the check resumes from the persisted state or starts on the grid |
| Billing.FirstRunIsThisHour | shadowfiend/processor/service/service.py:116-121 | a first run without historical expenses starts at the full hour the clock is in |
| Billing.FirstRunIsAfterFirstRecord | shadowfiend/processor/service/service.py:111-128 | with them it starts one period after the bucket of cloudkitty's first record, if that is due |
| Billing.LaterRunIsNext | shadowfiend/processor/service/service.py:107-128 | a later run bills the period after the last one persisted, if that ends before cloudkitty's last bucket |
| Protocol.PhaseStep | shadowfiend/processor/service/service.py:138-147 | mutual exclusion: only the holder of a project's lock moves it on |
| Protocol.OnScheduleStep | shadowfiend/processor/service/service.py:107-151 | a period under way is always the one after the persisted state |
| Protocol.AccountedStep | shadowfiend/processor/service/service.py:167-198 | each debit is a recorded period, one in flight, or the trace of a run that stopped |
| Protocol.AlwaysSafe | shadowfiend/processor/service/service.py:131-198 | the three above hold in every reachable state, crashes and exceptions included |
| ProtocolLaws.NoPeriodLeftUndebited | shadowfiend/processor/service/service.py:193-198 | no period from the first to the current state is undebited, and a period's debits are exactly one plus the runs that stopped after debiting it |
| ProtocolLaws.BilledInOrder | shadowfiend/processor/service/service.py:131-198 | without failures debits form a gap-free, duplicate-free progression and only the lock holder is ahead of the state, by one period |
| ProtocolLaws.LedgerIsRun | shadowfiend/processor/service/service.py:193-198 | under the protocol the ledger is the run of the calls made to it and the debit log lists its settlements |
| ProtocolLaws.PaysPerDebit | shadowfiend/processor/service/service.py:193-198 | with failures anywhere a project's consumption grows by exactly the rounded costs of its debits |
| ProtocolLaws.BooksStayBalanced | shadowfiend/processor/service/service.py:193-198 | with failures anywhere double entry holds for every user |
| ProtocolLaws.PaysOncePerPeriod | shadowfiend/processor/service/service.py:167-198 | a project's consumption grows by the rounded cost of each consecutive period once |
| ProtocolLaws.DropsRespectGrace | shadowfiend/processor/service/service.py:178-192 | whatever processors, clients and failures do, every drop respected the grace period |
| ProtocolLaws.DropsExactly | shadowfiend/processor/service/service.py:185-192 | a processor that has read an account drops the project at that moment exactly if the grace period is over |
| ProtocolLaws.NeverAhead | shadowfiend/processor/service/service.py:111-128 | with historical expenses only periods strictly below cloudkitty's top are ever worked on or debited |
| Rounds.RoundCompletes | shadowfiend/processor/service/service.py:138-198 | a free project whose check answers a period and whose settlement would succeed is billed by any idle processor: debited once as read, recorded, and free again |
| Rounds.StopsAreClean | shadowfiend/processor/service/service.py:138-147 | a run that stops changes no store; an exception keeps every lock, a death frees exactly its own |
| Traces.FirstDebit | shadowfiend/processor/service/service.py:107-128 | whatever fails, a project's first debit is the full hour of the clock a check read, or the period after cloudkitty's first record at that time |
| Traces.DebitsAsRead | shadowfiend/processor/service/service.py:167-198 | every debit is of the cost metered for its period and from the payer listed, as its processor read them |
| FirstRun.ScheduleIff | shadowfiend/processor/service/service.py:116-121 | all failure-free runs keep the schedule if and only if the period divides the hour or historical expenses are on |
| FirstRun.DebitedAgain | shadowfiend/processor/service/service.py:193-198 | under any options and for every n a period can be debited n + 1 times, by n runs that stopped after their debit and one that did not |
| Plans.PlanStep | shadowfiend/processor/service/service.py:107-128 | the check hands out the planned periods one by one and zero at the end |
| Plans.BeginsExact | shadowfiend/processor/service/service.py:123-128 | the plan steps by the period and stops at the last step strictly below cloudkitty's top |
| PrimaryPeriod.Processor.Work | shadowfiend/processor/service/service.py:167-198 | the project is dropped exactly when its payer is owed for more than its level in days, level not 9 and the option on, even if the debit then fails; debit then state write, or neither when the payer, account or a row is missing |
| PrimaryPeriod.DropsIff | shadowfiend/processor/service/service.py:185-192 | a project is dropped exactly when its payer has been in unsettled debt for longer than its level in days, level not 9 and the option on |
| PrimaryPeriod.VisitProgress | shadowfiend/processor/service/service.py:137-147 | a visit to a free project raises exactly if it cannot be checked or settled, and else brings the end one step closer; a held one is passed over |
| PrimaryPeriod.HeldStay | shadowfiend/processor/service/service.py:135-147 | after any number of passes a listed project whose lock is held is still in the list, and after enough no other is and none has a period left |
| PrimaryPeriod.EndsIff | shadowfiend/processor/service/service.py:135-151 | the loop ends if and only if no listed project's lock is held or a free one cannot be billed, and it raises exactly in the second case |
| PrimaryPeriod.FailureBlocks | shadowfiend/processor/service/service.py:139-146 | a failed run leaves the lock of an unbillable listed project held, and the next run over the list ends only by raising for another one |
| PrimaryPeriod.RepairIsNotEnough | shadowfiend/processor/service/service.py:139-146 | a project without a payer: the run fails, and no later run ends even with a payer |
| PrimaryPeriod.MoneyFollowsPayments | shadowfiend/processor/service/service.py:193-198 | however far a run has come, balances, consumptions and shares have moved by exactly the rounded costs of the paid periods, and only for projects that could be settled |
| PrimaryPeriod.Processor.Visit | shadowfiend/processor/service/service.py:138-147 | one project of a pass in place: passed over if its lock is held, else billed or taken off; a failure leaves its lock behind |
| PrimaryPeriod.Processor.PrimaryPeriod | shadowfiend/processor/service/service.py:132-151 | the loop in place ends whenever it can; the ledger is the run of the payments made, all for billable projects and the first periods of their plans; it raises only for a project that cannot be billed, and drops only projects that were due when it started |
| PrimaryPeriod.CaughtUp | shadowfiend/processor/service/service.py:107-151 | a project with nothing left has been billed its whole plan from the right period on, by a payer with an account, and stands at the last step below cloudkitty's top |
| PrimaryPeriod.DuesPaid | shadowfiend/processor/service/service.py:132-151 | after a run that ends well each balance has fallen by the whole dues of its user's projects |
| PayerAgreement.AgreesStep | shadowfiend/middleware/mid_keystone.py:277-304 | no role request, wherever it fails, takes the role from the ledger's payer |
| PayerAgreement.DeleteExact | shadowfiend/middleware/mid_keystone.py:290-304 | a DELETE of the billing owner role is refused exactly for the payer of a known project, else takes the role from its user alone when keystone grants it, and never touches the ledger |
| PayerAgreement.PayerAlwaysHolds | shadowfiend/middleware/mid_keystone.py:277-304 | from the first successful PUT on the payer always holds the role |
| PayerAgreement.DirectOwnerIff | shadowfiend/api/controllers/v1/project.py:42-48 | the public owner change keeps the agreement exactly when it fails or names a holder |
| PayerAgreement.RateUserIff | shadowfiend/processor/service/fetcher.py:93-102 | a processor finds the payer in every listing exactly when nobody else holds the role |
| PayerAgreement.RateUserAfterPut | shadowfiend/processor/service/fetcher.py:93-102 | right after a successful PUT the payer found is the ledger's |
| PayerAgreement.GrantedWithBody | shadowfiend/middleware/mid_keystone.py:277-289 | a PUT granted with a body leaves the ledger as it was, and processors find its payer in every listing exactly when the new holder already was the payer and the only one |
| PayerDebits.DebitFallsOnPayerIff | shadowfiend/processor/service/service.py:167-198 | a debit succeeds and falls on the ledger's payer, in whatever order keystone lists the holders, exactly when the payer is the only holder |
| PayerAgreement.Middleware.AddRole | shadowfiend/middleware/mid_keystone.py:343-361 | the owner change and the removal loop have the stated effect and succeed exactly when no call of theirs fails |
| PayerAgreement.Middleware.Put | shadowfiend/middleware/mid_keystone.py:277-289 | a PUT assigns, changes the owner and cleans up in that order, stops after keystone's answer if that is a refusal or has a body, and succeeds exactly when no call fails, with its user the only holder |
| PayerAgreement.Middleware.Delete | shadowfiend/middleware/mid_keystone.py:290-304 | a DELETE of the billing owner role answers 403 exactly for the payer of a known project; granted, it takes the role from its user and nobody else, and otherwise nothing changes |
| RolePaths.RoundTrip | shadowfiend/middleware/mid_keystone.py:57-62 | a printed role path parses back to the same ids, keyword, roles form and extension, and yields its user, project and role |
| RolePaths.ParseSound | shadowfiend/middleware/mid_keystone.py:123-127 | only printed role paths parse |
| RolePaths.Unambiguous | shadowfiend/middleware/mid_keystone.py:226-232 | a path matches the role expression in at most one way |
| RolePaths.ActsIff | shadowfiend/middleware/mid_keystone.py:104-160 | each action is recognised by its method and the exact form of the whole path |
| RolePaths.DashedForm | shadowfiend/middleware/mid_keystone.py:57-58 | a dashed id is five groups of 8, 4, 4, 4 and 12 digits or small letters |
| RolePaths.HexForm | shadowfiend/middleware/mid_keystone.py:57-58 | any other id is 32 or 64 hexadecimal digits |
| RolePaths.AtMostOneAction | shadowfiend/middleware/mid_keystone.py:132-160 | at most one of the six action predicates holds of a request |
| ChargePaging.BuildSortKeys | shadowfiend/db/sqlalchemy/api.py:123-131 | the insertion loop computes the sort keys |
| ChargePaging.SortKeysEndInId | shadowfiend/db/sqlalchemy/api.py:123-131 | id comes last, no key twice, every requested key is there |
| ChargePaging.SortKeysReverse | shadowfiend/db/sqlalchemy/api.py:123-131 | of several requested keys the last one decides first, and id last |
| ChargePaging.OrderingIff | shadowfiend/db/sqlalchemy/api.py:146-170 | a query is refused exactly for an unknown direction or a requested key that is no column, and is descending unless ascending is asked for |
| ChargePaging.FirstDifference | shadowfiend/db/sqlalchemy/api.py:156-170 | the first column two rows differ in decides, the lower value first when ascending |
| ChargePaging.SelectedIff | shadowfiend/db/sqlalchemy/api.py:543-560 | a charge is listed, as often as it is there, exactly if it fits every filter that is set |
| ChargePaging.UserTotal | shadowfiend/db/sqlalchemy/api.py:573-594 | the price reported for a user is what the books count as charged to the account |
| ChargePaging.OrderIsStrictTotal | shadowfiend/db/sqlalchemy/api.py:156-170 | every requested order is a strict total order on rows with distinct ids |
| ChargePaging.ListingUnique | shadowfiend/db/sqlalchemy/api.py:156-170 | rows can be listed in order in one way only |
| ChargePaging.ListingExists | shadowfiend/db/sqlalchemy/api.py:156-170 | and there is one |
| ChargePaging.PagesPartition | shadowfiend/db/sqlalchemy/api.py:543-594 | pages answered independently partition the matching charges and add up to the reported sum and count |
| ChargePaging.ReachableIdsDistinct | shadowfiend/db/sqlalchemy/api.py:468-479 | charge ids are distinct in every reachable ledger |
| Markers.Pagination | shadowfiend/processor/service/fetcher.py:291-309 | the walk computes the answer the laws below are about: a page exactly when all fits or an item follows a full page, and which page |
| Markers.PageShape | shadowfiend/processor/service/fetcher.py:297-307 | a page with a next one is full, marked by its last item and starts after its marker |
| Markers.WalkIsSlices | shadowfiend/processor/service/fetcher.py:291-309 | following markers yields adjacent slices |
| Markers.FollowingMarkers | shadowfiend/processor/service/fetcher.py:291-309 | nothing is repeated or skipped between pages, but the first item and a last part are never delivered |
| Markers.AllDeliveredIff | shadowfiend/processor/service/fetcher.py:291-309 | everything is delivered exactly when the list fits on a page |
| Markers.AnswersIff | shadowfiend/processor/service/fetcher.py:309-340 | when get_bills without a marker answers at all, for any limit or none |
| Markers.BillsExact | shadowfiend/processor/service/fetcher.py:291-340 | what an answer holds, for any limit and marker |
| Markers.KeepExact | shadowfiend/processor/service/fetcher.py:316-323 | resources with measures stay, in their order, and no others |
| Estimate.NoDays | shadowfiend/api/controllers/v1/account.py:192-199 | -1 without a price, -2 with a debt, no answer for a negative price |
| Estimate.DaysBound | shadowfiend/api/controllers/v1/account.py:197-202 | for any balance the answer d is such that d days cost no more and d + 1 days no less than the balance, but for two roundings on each side |
| Estimate.DaysCovered | shadowfiend/api/controllers/v1/account.py:197-202 | below 2^51 units d days are paid for and d + 1 days cost no less than the balance, exactly |
| Estimate.CoversIff | shadowfiend/api/controllers/v1/account.py:200-202 | such an answer is the exact quotient, or one less when the balance is a whole number of days |
| Estimate.EstimateIsRight | shadowfiend/api/controllers/v1/account.py:192-203 | the account is not in debt after 24 d settlements and owed after more than 24 (d + 1); unless the balance is a whole number of days d is the exact quotient and it is owed after 24 (d + 1) too |
| Estimate.OneDayLess | shadowfiend/api/controllers/v1/account.py:201-202 | a balance of 7.2 at 0.1 an hour is answered as 2 days, though it pays for 3 |
| Estimate.OneDayMore | shadowfiend/api/controllers/v1/account.py:201-202 | a balance one unit short of 2^36 days at 1.0 an hour is answered as 2^36 days |
| Doubles.RelativeError | shadowfiend/api/controllers/v1/account.py:201-202 | a float result is within one part in 2^53 of the exact one |
| Synchronize.SynchronizesIff | shadowfiend/cmd/db_manage.py:72-90 | all calls succeed exactly when no missing project has a relation to the admin left |
| Synchronize.LeftoverAfterDeletion | shadowfiend/db/sqlalchemy/api.py:373-386 | deleting the account of a later payer leaves such a relation |
| Synchronize.SynchronizeOnceIsEnough | shadowfiend/cmd/db_manage.py:53-91 | exactly the missing rows are added with one bonus each, and a second run makes no call |
| Synchronize.SynchronizeKeepsIntegrityIff | shadowfiend/cmd/db_manage.py:68-79 | integrity is kept exactly when the admin ends with an account or took nothing over |
| Synchronize.BonusLostIff | shadowfiend/cmd/db_manage.py:80-90 | after a run that died and one that did not, the new accounts without a bonus are exactly the one opened by the last call before the death, and a third run makes no call |
| Synchronize.SynchronizeDatabase | shadowfiend/cmd/db_manage.py:53-91 | the loops do exactly that; on failure they stopped at the first missing project with such a relation, with the missing projects before it created and nothing else changed; on death exactly the calls up to it have been made |

## Left out

- Concurrent `charge_account`, `delete_account` and `change_billing_owner`: each is one step in `Transactions`; the source reads and writes the charged balance without comparing it, so two charges at once can lose one.
- Concurrent role requests on one project: the middleware does not guard them; `PayerAgreement` serves them one at a time.
- Clock readings: the two to four readings of one database call are one; in `PrimaryPeriod` all debits carry one.
- Decimal precision limits, and the printing of a float as a decimal before it is rounded: a cost is the real number that is rounded.
- Estimate.EstimateIsRight: for prices of whole units an hour, as a settlement rounds them, and balances below 2^51 units; above, `OneDayMore` shows it false and `DaysBound` says what is left.
- Overflow, underflow and the sign of zero of floats: an exponent has no bounds in `Doubles`. Answers other than the estimate are not rounded to floats.
- Time zones and datetime formatting.
- `deleted`, `domain_id` and other descriptive columns; no call modelled here sets `deleted`.
- Expiry of measures in the metric store, its back window, and the day-granularity fallback of `get_current_consume`.
- Expiry of locks when heartbeats are late.
- The drop of a single resource, which is a call into another service.
- Creation of users and projects through the middleware: it only makes the calls `create_account`, `charge_account` and `create_project`.
- The `project_id` filter of `get_charges`, which names a column the table does not have and which no caller passes.
- Assignments of the role to groups, and keystone deleting a user together with its roles.
- Prices and roundings of single bills, `get_summary`, `get_relation`, reports and the name cache of the charge listing.
- REST plumbing, policies, RPC, clients and token handling.
