# The panel's subscription lifecycle, verified

A control panel sells subscriptions. Its SQLite rows are one party, the tenants that live on remote
nodes are the other, and no transaction spans the two: every guarantee comes from the order of steps,
from compensation and from single-statement updates. This project models both parties, the handlers
that drive them, the usage collector that folds node samples into rows, the webhook dispatcher that
delivers the events, and the code that loads and upgrades the database, and proves what the
source's comments promise.

## How it is built

- `Domain`, `Threshold`, `Database`: rows, tenants and plans as values; the notification level in
  64-bit arithmetic; the store's SQL statements as functions on the rows.
- `Protocol`: the step machine. A handler is a thread that executes one store statement or one node
  call per step. Any number of handlers, the collector's updates, the nodes' own enforcement and
  the clock interleave in any order, from an empty installation. Each step meets a `Fate`: the
  database carries out the statement or reports an error, and a node call is done, refused without
  effect, or carried out while the caller sees an error (`Lost`). Handlers are split where the
  source makes a separate statement: the increment of a top-up and the read of the resulting quota
  are two steps. `Book` is bookkeeping that no step looks at.
- `Structure`: the invariant that every other proof rests on (foreign keys, fresh ids, one owner per
  tenant, snapshots that keep the fixed columns).
- `Overlap`: what it means that the handlers that write one subscription's quota or expiry do not
  overlap, and that all other threads leave that subscription alone. `Scenarios`: concrete runs from
  an empty installation, for the situations in which a promise fails.
- `Orphans`, `Conservation`, `NodeQuota`, `Periods`, `Expiry`, `Agreement`, `Notifications`,
  `Coverage`: one property each, over whole runs.
- `Scope`: in every interleaving a handler's step touches only what it was asked about.
- `Outcomes`: what each request leaves in the rows, on the nodes and as its answer, column by column,
  from the state before it and the fates of its steps, without naming any step of the machine.
- `Store`, `Panel`: the store, the node agents and the handlers as classes and methods in the
  source's own order of statements and early returns. Every handler is proved to be a run of the
  step machine under the very fates it was given (`Panel.Serves`), so what holds in every
  reachable state holds after every handler (`Panel.ServingStaysReachable`), and to leave exactly what
  `Outcomes` says.
- `Collector`: one pass over the unordered active list, row by row as a value and with its loop and
  client cache as a method. Every read of a node's row may succeed or fail on its own.
- `Courier`, `Dispatcher`, `EventFilter`, `Text`: the bounded queue and its worker as a machine, the
  same as a class with its loops, and the event filter over the string functions it uses.
- `Schema`, `Migration`: comment stripping and statement splitting against a one-pass scan, and the
  upgrade of legacy databases.

`dafny verify dfyconfig.toml` checks the whole project.

## Where a promise does not hold as stated

- The comment at `internal/webhook/dispatcher.go:62-63` says that the oldest events are dropped. The
  code at lines 103-107 drops the incoming one, and the model follows the code.
- A tenant can be stranded by a customer's cascade when a create stores its row between the listing
  of `deleteCustomer` and its cascade, though every call and statement succeeds
  (`Orphans.TheRaceStrands`, reachable by `Orphans.TheRaceIsReachable`), and
  `Orphans.UnracedRunsSweepNothing` removes that case under the stated premise. Tenants whose
  creating call took effect and reported an error, and tenants whose rollback delete failed and
  whose row was never stored or has been removed, are the other two cases:
  `Orphans.AdriftExactlyWhenGivenUp` gives the exact set of stranded tenants.
- A failed top-up keeps its increment on the panel exactly when the increment was executed and then
  could not be read back or could not be taken back (`Panel.API.TopupQuota`, `Outcomes.KeepsIncrement`):
  the handler returns on a failed read without a rollback.
- Panel and node can disagree about one subscription after overlapping top-ups
  (`Agreement.OverlappingTopupsDisagree`) and after steps that break off badly. A top-up that runs
  alone on an agreed subscription ends in disagreement exactly when its increment was executed and
  could not be read back, or was refused by the node and could not be taken back, or was taken by
  the node with a lost reply and then taken back (`Outcomes.TopupSplits`). A renewal does exactly when,
  after its reset, the node took a new expiry that the panel did not record
  (`Outcomes.RenewalSplits`). Both conditions are in the contracts of `Panel.API.TopupQuota` and
  `Panel.API.RenewSubscription`; `Agreement.AgreementEndsWithDiscipline` states them for interleaved
  runs and `Agreement.DisagreementsAreReachable` reaches the situations.
- The 30-day fallback of a renewal is not dead code: foreign keys keep the plan, but a failed read of
  it falls back as well (`Expiry.FallbackNeedsAnError`). An expiry that was granted that way overruns
  a plan of fewer than 30 days and can shorten a longer one, and a later renewal that reads the plan
  can shorten it in turn: `Expiry.RenewalMovesExpiry` says exactly when, and `Expiry.GuessesMislead`
  and `Expiry.ReplacedGuessShortens` reach these cases. `Expiry.ExpiryIsBounded` is wider only while
  the expiry on record is such a guess.
- A renewal can shorten a subscription when a later one has overtaken it, though nothing fails
  (`Expiry.OverlappingRenewalsShorten`, reachable by `Expiry.OutdatedIsReachable`).
  `Expiry.RenewalsNeverShorten` holds for every run without such an overlap, over any stretch in
  which the expiry on record is not a guess.
- A re-arm can leave notified_threshold below the level of the row. That takes another top-up that
  is taken back after the first one has counted its bytes, or a poll between the first one's read of
  the row and its re-arm. A renewal there can make the re-arm raise the threshold instead.
  `Coverage.OverlappingTopupsUncover`, `Coverage.PollsInsideTopupsUncover` and
  `Coverage.RenewalsInsideTopupsRaise` say exactly when, and `Coverage.UncoveringIsReachable` reaches
  all three.
- A usage event is repeated by the next pass exactly when its notified_threshold could not be stored
  and the row has stayed active (`Notifications.LostWriteRepeats`), and a status event exactly when
  its status could not be stored (`Notifications.LostStatusRepeats`).
- Past `(2^63-1)/100` bytes the percentage wraps around. For every 64-bit usage and positive quota
  the level is still right exactly when the true ratio is below 80 percent or the wrapped product is
  at least a hundred times the quota (`Threshold.LevelIsRightExactly`).
- The collector's client cache makes a difference exactly when reads of one node's row vary within a
  pass: then rows are polled that a pass without cache would skip (`Collector.CacheIsInvisibleExactly`,
  `Collector.CachePollsNoLess`).
- A rebuild of the sample table that stops after one to three of its five statements does not come
  back when the database is opened again (`Migration.InterruptedRebuild`).

## Model

| member | source | states |
|---|---|---|
| Orphans.NoTenantIsStranded | internal/api/subscriptions.go:69-113 | in every reachable state of every interleaving of create, delete, deleteCustomer and deleteNode, a live tenant has a row on its node, or its create is in flight, or it is in the set of failed rollbacks, lost creates or swept rows |
| Orphans.AdriftExactlyWhenGivenUp | internal/api/subscriptions.go:80-113 | a live tenant is without row and without create if and only if its create was reported as failed, or a cascade removed its row, or its rollback delete reported an error and its row was never stored or has been removed |
| Orphans.AbandonedKeepsItsRow | internal/api/subscriptions.go:80-113 | a tenant whose rollback delete failed still has a row only while that rollback goes on or when the row could not be removed |
| Orphans.CascadeSweepsLateRows | internal/api/lifecycle.go:32-57 | the final delete of a customer strands a live tenant if and only if a row of that customer points to it that was not on the listing |
| Orphans.UnracedRunsSweepNothing | internal/api/lifecycle.go:20-26 | when no create stores a row for a customer whose deletion is listing or evicting, no cascade ever strands a tenant |
| Orphans.TheRaceStrands | internal/api/lifecycle.go:32-57 | whenever a create is about to store a row for a customer whose purge has finished its loop, finishing both strands the tenant although nothing fails |
| Orphans.TheRaceIsReachable | internal/api/lifecycle.go:32-57 | an installation with one customer, one plan and one node reaches that situation |
| Structure.ApplyKeeps | internal/store/schema.sql:29-46 | every event keeps the foreign keys, fresh ids, one owner per tenant, and snapshots that agree with their rows on the fixed columns |
| Structure.RunIsSound | internal/store/schema.sql:29-46 | these hold in every state that an installation can reach |
| Scope.StepsTouchTheirOwnTenants | internal/api/lifecycle.go:32-53 | in every interleaving a step of a handler changes or removes only a tenant that its create has not published yet, or whose row was at some moment of the run that of the subscription, or of a subscription of the customer, that the handler was asked about |
| Scope.StepsTouchTheirOwnRows | internal/api/lifecycle.go:20-59 | and it changes or removes only the rows of that subscription or customer |
| Conservation.QuotaIsConserved | internal/store/subscriptions.go:127-150 | in every reachable state a row's quota is its plan's quota plus the bytes of all top-ups incremented and not taken back, never below the plan's quota |
| Conservation.RollbackIsExact | internal/api/subscriptions.go:276-283 | taking an increment back subtracts exactly its bytes from its row and from no other: the clamp at zero never fires |
| Conservation.UnbuyBalances | internal/store/subscriptions.go:140-142 | a rollback keeps the balance of quotas and executed increments |
| Conservation.BuyBalances | internal/store/subscriptions.go:140-142 | an increment keeps the balance, whatever other top-ups are under way |
| NodeQuota.NodeQuotaIsNeverInvented | internal/api/subscriptions.go:265-275 | in every interleaving the quota that a live tenant holds is one that its row had, or its create asked for, after some part of the very run, and it lies between the creation quota and that plus everything ever bought |
| Periods.PeriodsAreInLockstep | internal/api/subscriptions.go:379-396 | a tenant's resets are the row's period minus one plus the renewals past their reset plus those that broke off after it, so the panel's period never runs ahead |
| Expiry.ExpiryIsBounded | internal/api/subscriptions.go:61-62 | in every interleaving the plan of a row exists and end_at is at most now plus its days, or plus 30 days while the end_at on record was written by a renewal that could not read the plan |
| Expiry.FallbackNeedsAnError | internal/api/subscriptions.go:370-374 | a renewal grants the plan's days when the plan can be read and 30 days when the read fails, so it stays within the plan's days if and only if the read succeeds or the plan has at least 30 days |
| Expiry.RenewalsNeverShorten | internal/api/subscriptions.go:370-396 | in every run whose renewals of a subscription do not overlap one another, its end_at never decreases over any stretch in which the one on record was not granted without the plan, whatever else interleaves or fails |
| Expiry.RenewalMovesExpiry | internal/api/subscriptions.go:370-374 | a renewal that runs alone shortens a subscription if and only if more is left of it than is granted now, and overruns the plan if and only if it cannot read a plan of fewer than 30 days |
| Expiry.GuessesMislead | internal/api/subscriptions.go:370-374 | both happen in reachable states with no other request under way |
| Expiry.ReplacedGuessShortens | internal/api/subscriptions.go:370-374 | once such an expiry is on record, a renewal that reads the plan can shorten it |
| Expiry.OverlappingRenewalsShorten | internal/api/subscriptions.go:370-396 | when two renewals are about to write, the one that read the clock first may write last and end_at falls, though nothing fails |
| Expiry.OutdatedIsReachable | internal/api/subscriptions.go:364-396 | that situation is reached from an empty installation without any failure |
| Expiry.OnlyRenewalsMoveExpiry | internal/store/mutations.go:47-58 | the end_at of a stored row changes only by the final write of a renewal, to that renewal's value |
| Agreement.PanelAndNodeAgree | internal/api/subscriptions.go:249-292 | when the top-ups and renewals of one subscription do not overlap and none meets a failed read-back, a take-back that fails after a refusal or succeeds after the node took the quota, a lost reply to the renewed expiry or a failed last write, node and row have the same quota, credit limit and expiry between handlers, whatever befalls other subscriptions and every other step |
| Agreement.AgreementEndsWithDiscipline | internal/api/subscriptions.go:249-292 | when, after such a run, the last step of a top-up or renewal leaves the tenant live, the two sides agree if and only if that step meets none of those failures, or the renewal had not moved the expiry |
| Agreement.OverlappingTopupsDisagree | internal/api/subscriptions.go:265-275 | two SetQuota calls delivered in the other order leave the node below the panel although nothing fails |
| Agreement.LostReplyDisagrees | internal/api/subscriptions.go:271-283 | a SetQuota that takes effect and reports an error leaves the node above the panel by the bytes taken back, and level with it if taking back fails |
| Agreement.DisagreementsAreReachable | internal/api/subscriptions.go:249-283 | both situations are reached from an empty installation without any failure |
| Overlap.RunStaysApart | internal/api/subscriptions.go:249-292 | if handlers of a kind begin on a subscription only while none is at work on it, no two are ever at work on it together |
| Overlap.OthersLeaveAlone | internal/api/subscriptions.go:249-292 | no thread but a top-up or renewal of a subscription changes the quota, credit limit or expiry of its row or of its live tenant |
| Notifications.HighWaterMark | internal/api/collector.go:92-118 | when every poll of a subscription decides on its stored threshold and stores a level it announces, then between re-arms notified_threshold is the maximum of the re-arm level and all levels seen, sent levels strictly increase up to it, at most three usage events go out and at most one is over_quota |
| Notifications.ObserveKeepsLevels | internal/api/collector.go:92-118 | a poll that decides on the stored threshold keeps notified_threshold at the high-water mark if and only if it stores a level it announces |
| Notifications.LostWriteRepeats | internal/api/collector.go:112-117 | the next pass announces the same level again if and only if the write of notified_threshold failed and the row has stayed active |
| Notifications.StatusNoticesAlternate | internal/api/collector.go:82-86 | when every poll of a subscription is of its active row and stores a status it announces, the collector never announces a resumption for it, and between two of its status notices a handler has made the row active |
| Notifications.ObserveKeepsStatuses | internal/api/collector.go:82-86 | a poll of an active row keeps the alternation of notices and activations if and only if it stores a status it announces |
| Notifications.LostStatusRepeats | internal/api/collector.go:82-86 | the next pass announces the same status again if and only if the write of the status failed |
| Coverage.NoLevelGoesUnnoticed | internal/api/subscriptions.go:284-288 | when the top-ups of a subscription do not overlap one another and its own polls decide on its quota and threshold as they are, do not come between a top-up's read of the row and its re-arm, and store a level they announce, notified_threshold is never below the level of the row's own usage and quota, at any usage, whatever renewals interleave and whatever statements and calls fail |
| Coverage.RearmNeverRaises | internal/api/subscriptions.go:287-288 | when renewals do not overlap top-ups either, a top-up's re-arm never raises notified_threshold, and sets it to the level of the row as it is if and only if it is stored |
| Coverage.ObserveCovers | internal/api/collector.go:69-118 | a poll that decides on the quota and threshold of a covered row as they are leaves it covered if and only if it stores the level it announces along with the usage |
| Coverage.OverlappingTopupsUncover | internal/api/subscriptions.go:265-288 | when a second top-up's quota is refused after the first one has re-armed, the row is left uncovered if and only if its level is higher at the smaller quota than the first one's re-arm |
| Coverage.PollsInsideTopupsUncover | internal/api/subscriptions.go:284-288 | a poll just before a re-arm leaves the row uncovered if and only if the polled level is higher than that of the usage and quota which the top-up found |
| Coverage.RenewalsInsideTopupsRaise | internal/api/subscriptions.go:287-288 | a re-arm raises the threshold if and only if the level of the usage and quota which the top-up found is higher |
| Coverage.UncoveringIsReachable | internal/api/subscriptions.go:249-288 | all three situations are reached from an empty installation without any failure |
| Threshold.LevelIsExact | internal/api/collector.go:137-155 | while 100 times the usage fits in 64 bits, level t is reached if and only if 100*used >= t*quota, and without a quota if and only if anything was used |
| Threshold.LevelIsMonotone | internal/api/collector.go:137-155 | the level never falls with more usage and never rises with more quota, empty quotas included |
| Threshold.LevelIsAntitone | internal/api/collector.go:137-155 | the level never rises with more quota at any usage whatever, however often the product wraps around |
| Threshold.LevelIsRightExactly | internal/api/collector.go:137-155 | for every 64-bit usage and positive quota each level is reached as the true ratio says if and only if 100 times the usage fits in 64 bits, or the true ratio is below 80 percent, or the wrapped product is at least 100 times the quota |
| Reachability.SoloRunIsARun | internal/api/subscriptions.go:202-228 | the steps of one handler alone are a run of the whole system |
| Reachability.ServingIsReachable | internal/api/subscriptions.go:202-228 | serving a request to its end leads from a reachable state to a reachable state |
| Reachability.WitnessingIsReachable | internal/store/nodes.go:15-34 | adding a customer, a plan or a node leads from a reachable state to a reachable state |
| Panel.ServingStaysReachable | internal/api/subscriptions.go:36-121 | what every handler's contract promises implies that reachable worlds stay reachable |
| Panel.API.constructor | internal/store/store.go:25-56 | a new installation has no rows and no tenants |
| Panel.API.CreateCustomer | internal/api/handlers.go:15-33 | the reachable step that adds one active customer under a fresh id, or nothing when the statement fails |
| Panel.API.CreatePlan | internal/api/handlers.go:52-75 | the reachable step that adds one plan under a fresh id; a plan without positive quota and days, or a failed statement, adds nothing |
| Panel.API.CreateNode | internal/store/nodes.go:15-34 | the reachable step that adds one node under a fresh id, or nothing when the statement fails |
| Panel.API.CreateSubscription | internal/api/subscriptions.go:45-121 | is the machine's create; for every combination of failures it says what is left of row, key and tenant: on success an active row of period 1 from now for the plan's days with the plan's quota, its key, and a tenant with the same terms; a refused or failed step leaves only what the rollback could not remove |
| Panel.API.Enroll | internal/api/subscriptions.go:69-113 | the tenant is created first; row, key and tenant all stay, or what could not be taken back |
| Panel.API.Persist | internal/api/subscriptions.go:103-113 | storing the row and then the key; if either fails the tenant is deleted again and the row removed as far as those steps succeed |
| Panel.API.RollbackTenant | internal/api/subscriptions.go:80-88 | the compensation deletes the tenant, and a failed delete is remembered as given up |
| Panel.API.DeleteSubscription | internal/api/subscriptions.go:333-360 | is the machine's delete; the node's delete comes first, only its confirmed success lets the row go, and nothing else changes |
| Panel.API.LoadSubAndNode | internal/api/subscriptions.go:230-243 | loads the snapshot that a handler decides on if and only if row and node can be read |
| Panel.API.SubscriptionLifecycle | internal/api/subscriptions.go:202-228 | is the machine's suspend or resume; the tenant gets the target status unless the node refuses, the row only after a confirmed call, and the status event goes out if and only if both succeeded |
| Panel.API.TopupQuota | internal/api/subscriptions.go:249-292 | is the machine's top-up; for every combination of failures it gives quota, status and threshold of the row and quota, terms and status of the tenant: success raises both quotas by the bytes, makes tenant and row active as far as those steps succeed and re-arms; a failure changes the rows if and only if the increment could not be read back or taken back; an agreed subscription ends agreed if and only if the top-up does not split in one of the three ways |
| Panel.API.ShareQuota | internal/api/subscriptions.go:271-283 | the node is given the quota read back, or the increment is taken back |
| Panel.API.GiveQuota | internal/api/subscriptions.go:271-283 | the increment stands only if the node confirms the quota |
| Panel.API.Reactivate | internal/api/subscriptions.go:284-288 | the tenant is resumed, the row made active and notified_threshold set to the level of the usage found at the new quota, each unless its own step fails |
| Panel.API.RenewSubscription | internal/api/subscriptions.go:364-399 | is the machine's renewal; for every combination of failures it gives the row and the tenant: success zeroes usage and threshold, adds one period, reactivates and sets the new expiry on both sides; any failure leaves the rows; an agreed subscription ends agreed if and only if the node did not keep a new expiry that the panel failed to record |
| Panel.API.GrantPeriod | internal/api/subscriptions.go:370-375 | the new expiry counts the days of the plan, or 30 if it cannot be read |
| Panel.API.StartPeriod | internal/api/subscriptions.go:379-396 | reset, SetQuota and the final write follow in order; the two sides stay agreed if and only if the node did not keep a new expiry that the panel failed to record |
| Panel.API.DeleteCustomer | internal/api/lifecycle.go:27-59 | is the machine's purge; it removes exactly the tenants of this customer that it reached and no other tenant; it succeeds if and only if every delete was confirmed and the customer could be removed, and then just the customer, its subscriptions and its keys are gone; any failure leaves every row |
| Panel.API.ToggleCustomer | internal/api/lifecycle.go:66-101 | is the machine's toggle, up to the final read of the customer; each of this customer's rows and tenants gets "active" when enabling and "suspended" when disabling exactly if its own steps succeed, no other column, row or tenant changes, and success means that the customer is "active" or "disabled" |
| Panel.API.DeletePlan | internal/api/lifecycle.go:12-18 | succeeds if and only if the statement runs, the plan is there and no subscription refers to it, and removes just that plan |
| Panel.API.DeleteNode | internal/api/nodes.go:337-356 | fails closed: succeeds if and only if both statements run, the node is there and no subscription refers to it, and removes just that node |
| Store.Store.CreateSubscription | internal/store/subscriptions.go:17-40 | inserts the row if and only if the statement is executed and the foreign keys allow it |
| Store.Store.AddQuota | internal/store/subscriptions.go:140-144 | one statement adds to the stored quota, clamped at zero |
| Store.Store.RenewSubscription | internal/store/mutations.go:47-58 | zeroes usage and notified_threshold, adds one to the period, reactivates and sets end_at, or reports a missing row |
| Store.Store.DeleteCustomer | internal/store/mutations.go:17-21 | exactly the customer's subscriptions and keys go with it, those of others stay as they are, or a missing row is reported |
| Store.Store.DeletePlan | internal/store/mutations.go:12-15 | refused by the foreign key while a subscription refers to the plan |
| Store.Store.DeleteNode | internal/store/mutations.go:7-10 | refused by the foreign key while a subscription refers to the node |
| Store.Store.CountSubscriptionsByNode | internal/store/subscriptions.go:187-192 | the count is zero if and only if no subscription refers to the node |
| Store.Store.Query | internal/store/subscriptions.go:89-105 | a query's rows come each once, in some order |
| Store.Store.ListSubscriptionsByCustomer | internal/store/subscriptions.go:79-81 | lists the rows with this customer id and no others |
| Store.Store.ListActiveSubscriptions | internal/store/subscriptions.go:83-87 | lists the rows with a tenant id and the status "active" and no others |
| Collector.PassIsUpdate | internal/api/collector.go:44-88 | an uncached pass in any order leaves every listed row whose node answered folded once, and all others untouched |
| Collector.OrderDoesNotMatter | internal/store/subscriptions.go:83-87 | any two orders of the unordered active list leave the same rows and, for each subscription, the same notices |
| Collector.SecondPassIsSilent | internal/api/collector.go:44-118 | with the same answers and all of the rows' writes stored, a second pass over what is still active changes no row and sends no event, whatever becomes of the samples |
| Collector.SecondPassSparesRow | internal/api/collector.go:44-118 | if one row's usage, threshold and status were stored, a second pass with the same answer leaves that row and sends nothing for it, whatever fails elsewhere |
| Collector.PassIsARun | internal/api/collector.go:44-88 | a pass is a run of the step machine |
| Collector.PassesAreAttentive | internal/api/collector.go:44-88 | an uninterrupted pass, in any order, meets each premise of the notification theorems for every subscription whose own write of that kind is stored |
| Collector.PassesAreCalm | internal/api/collector.go:44-88 | and that of the coverage theorems for every subscription that no top-up has read and whose announced level is stored |
| Collector.CacheIsInvisibleExactly | internal/api/collector.go:50-62 | in every order the cache polls just the rows that an uncached pass polls if and only if reads of one node's row do not vary within the pass |
| Collector.CachePollsNoLess | internal/api/collector.go:50-62 | the cache never keeps a row from being polled |
| Collector.InvisibleCacheUpdatesAlike | internal/api/collector.go:50-62 | when those reads do not vary, the pass with its cache leaves the rows of the uncached one, in any order |
| Collector.UsageCollector.CollectUsageOnce | internal/api/collector.go:44-88 | the pass with its client cache equals the uncached update over the rows it reaches; every active row with a tenant whose node could be read, for it or for an earlier row, and which answered has taken in usage, new threshold and status as far as each write succeeds, with its level, its events and its sample; every other row is unchanged and unannounced; nothing happens when the listing fails |
| Collector.PassCollects | internal/api/collector.go:44-134 | the same for the pass as a value |
| Collector.UsageCollector.Poll | internal/api/collector.go:63-86 | each row is polled through its own node's client |
| Collector.UsageCollector.Fold | internal/api/collector.go:69-86 | usage, sample, notification and status are written in order, each failure ignored; a row that is gone stays gone |
| Collector.UsageCollector.EmitUsageEvents | internal/api/collector.go:92-118 | an event goes out and the level is recorded if and only if it exceeds the listed one |
| Collector.UsageCollector.EmitStatusEvent | internal/api/collector.go:120-134 | only suspended, active and expired are announced |
| Courier.EventsAreConserved | internal/webhook/dispatcher.go:64-116 | in every interleaving of emitters and worker the accepted events are, in order, those dispatched, the one in hand and those queued; every emission is offered once; at most 512 wait |
| Courier.DropsOnlyWhenFull | internal/webhook/dispatcher.go:103-107 | an emission is dropped if and only if 512 events wait, and the queue is then left as it is |
| Courier.DeliveriesAreAFilter | internal/webhook/dispatcher.go:120-137 | in every state and for every registration in the run, what was delivered to its endpoint, followed by the event still on its way, is once each and in order what that registration's own list asks for among the events begun since, with faithful attempt records |
| Courier.EveryEndpointRegistered | internal/store/webhooks.go:11-30 | every endpoint comes from just such a registration |
| Courier.AttemptsAreFaithful | internal/webhook/dispatcher.go:142-157 | one to three attempts, delivered only by the last, and fewer than three failed ones only if the budget expired |
| Courier.DeliverWithRetry | internal/webhook/dispatcher.go:144-157 | the retry loop makes just those attempts and returns the last one's status |
| Dispatcher.Dispatcher.Emit | internal/webhook/dispatcher.go:95-108 | never waits: queues the event, or drops it when the queue is full |
| Dispatcher.Dispatcher.Receive | internal/webhook/dispatcher.go:112-116 | the worker takes the oldest event |
| Dispatcher.Dispatcher.Dispatch | internal/webhook/dispatcher.go:120-137 | one delivery per subscribed endpoint in listing order, none when the listing fails; a run of the machine |
| Dispatcher.Dispatcher.Drain | internal/webhook/dispatcher.go:110-116 | the worker takes and dispatches everything that waits, each event once and in order, as a run of the machine |
| Dispatcher.Dispatcher.Serve | internal/webhook/dispatcher.go:126-136 | one endpoint's turn: if its list asks for the event it is delivered with retries and the log row names endpoint, event, payload, final status and attempts; otherwise nothing is recorded |
| Dispatcher.Dispatcher.CreateWebhook | internal/store/webhooks.go:11-30 | the endpoint asks for just the events that the given list asks for, an empty one for all; a failed insertion registers nothing, and other endpoints stay |
| Dispatcher.Dispatcher.RecordWebhookDelivery | internal/store/webhooks.go:71-78 | the table holds the deliveries whose insertion succeeded, in order |
| EventFilter.Subscribes | internal/webhook/dispatcher.go:186-197 | the loop decides whether the event is asked for |
| EventFilter.ParsingUndoesPrinting | internal/webhook/dispatcher.go:186-197 | a non-empty list of comma-free, trimmed, non-empty names, joined with commas and arbitrary white space, matches exactly its names, except that a sole star matches everything |
| EventFilter.MatchesEverything | internal/webhook/dispatcher.go:187-190 | every event is asked for if and only if the list is blank or a lone star |
| EventFilter.NamesOfTrimmed | internal/webhook/dispatcher.go:187-194 | trimming the whole list first changes no name |
| Schema.LoadingIsOneScan | internal/store/store.go:156-179 | for every input, stripping line by line, splitting on semicolons and trimming gives the statements of one scan with a code-or-comment state |
| Schema.LoadingUndoesPrinting | internal/store/store.go:156-167 | statements printed one after another, each with a semicolon after it and any white space around it, are just those executed, in order |
| Schema.StripSQLComments | internal/store/store.go:169-179 | the loop cuts every line at its first pair of dashes |
| Schema.ApplySchema | internal/store/store.go:156-167 | executes the statements in order and stops at the first refused one |
| Schema.IndexOfDashes | internal/store/store.go:173-175 | the first pair of dashes of a line, or none |
| Schema.StripKeepsLines | internal/store/store.go:169-179 | the stripped text has the input's lines, each cut at its comment |
| Schema.StripLeavesNoComment | internal/store/store.go:169-179 | no pair of dashes is left |
| Schema.StripIsIdempotent | internal/store/store.go:169-179 | stripping twice is stripping once |
| Text.JoinOfSplit | internal/store/store.go:170-178 | joining the pieces of a split gives the string back, and no piece holds the separator |
| Text.SplitOfJoin | internal/store/store.go:170-178 | splitting a join of pieces without separator gives the pieces back |
| Text.SplitOfPrinted | internal/store/store.go:156-160 | splitting a printed list and trimming the pieces gives its items back |
| Text.TrimOfPadded | internal/webhook/dispatcher.go:187-194 | white space around a string makes no difference to its trimmed form |
| Migration.MigrationIsLossless | internal/store/store.go:58-97 | from any legacy database the migration succeeds if and only if the tables exist and no half-done rebuild blocks a needed one; every sample and every non-empty token is kept, and after success every token is non-empty and the foreign key to tenants is gone |
| Migration.MigrationUpgrades | internal/store/store.go:58-150 | table by table: the five named columns are added, the samples lose the foreign key and get their index, and exactly the NULL or empty tokens are replaced by one minted for their own row; it is refused if and only if a table is missing or a half-done rebuild is in the way, and then no token and no sample has changed |
| Migration.TokensDiffer | internal/store/store.go:75-95 | with distinct new tokens, all tokens differ afterwards |
| Migration.MigrationIsIdempotent | internal/store/store.go:58-97 | a second migration changes nothing |
| Migration.RebuildIsExact | internal/store/store.go:114-150 | the rebuild moves every sample into a table without the foreign key, or is refused because a half-done one is in the way |
| Migration.InterruptedRebuild | internal/store/store.go:125-148 | stopped after k statements, reopening restores every sample if and only if k is 0 or at least 4 |
| Migration.AddingColumns | internal/store/store.go:61-72 | adding columns succeeds if and only if the tables exist, ignores those already there, and adds just the listed ones |
| Migration.Installation.Migrate | internal/store/store.go:60-97 | the loops execute just that migration, stop at the first refused statement and leave that upgrade |
| Migration.Installation.MigrateUsageRecords | internal/store/store.go:114-150 | rebuilds only a table that still refers to tenants |
| Migration.Installation.Backfill | internal/store/store.go:76-95 | fills in exactly the missing tokens |

## Left out

- Routing, JSON, status codes, authentication, timeouts and request logging; a timeout is a node call that is refused or lost.
- Certificate pinning, request signing and the event payload, which is an opaque body.
- The node agent: only its contract is modelled (create, set quota, reset adds a period, suspend, resume, delete, usage), and it may change a tenant's usage and status on its own at any time. A delete of a tenant that is already gone may succeed.
- Node registration, configuration push, updates and health; addresses of nodes are fixed and tenants are keyed by node and tenant id.
- UUIDs are drawn from one counter, which stands for freshness; key hashes are treated the same way, and 0 stands for the empty string.
- Integers are unbounded except in the percentage of Threshold; sums of quotas are assumed to stay within 64 bits.
- SQLite itself: single statements are atomic, and no other process writes to the database.
- customerUsage, PruneHistory, the subscription page and other reads.
- The endless waiting of the worker and of the collector's ticker: the worker's loop is modelled while events wait, the collector for one pass, and the machines repeat both in any interleaving.
- Columns that no modelled decision reads: names, created_at, sub_token outside the migration, the stored api_key.
- The moments between the statements of one poll: in the step machine a subscription's usage, notified_threshold and status writes are one event, each with its own failure, and no other step comes between them. The handlers' statements are separate steps.
- The order of ListSubscriptionsByCustomer: deleteCustomer and toggleCustomer visit the rows in any order.
- The channel between EmitUsageEvents and the dispatcher: the collector's and the handlers' calls of Emit are recorded in a trail, and the queue is fed by arbitrary emitters.
- Notifications.HighWaterMark: only if the subscription's own polls are current and store a level they announce, because it is false otherwise (Notifications.LostWriteRepeats).
- Notifications.StatusNoticesAlternate: only if the subscription's own polls are of its active row and store a status they announce, because it is false otherwise (Notifications.LostStatusRepeats).
- Coverage.NoLevelGoesUnnoticed: not for overlapping top-ups, a poll inside a top-up or a poll that fails to store a level it announces, because it is false there (Coverage.OverlappingTopupsUncover, Coverage.PollsInsideTopupsUncover, Coverage.ObserveCovers).
- Coverage.RearmNeverRaises: not for a renewal inside a top-up either, because it is false there (Coverage.RenewalsInsideTopupsRaise).
- Agreement.PanelAndNodeAgree: not for overlapping top-ups and renewals of the same subscription, nor past one of the four failures that break the agreement, because it is false there.
- Expiry.RenewalsNeverShorten: not across an expiry that was granted without the plan, nor for overlapping renewals, because it is false there (Expiry.RenewalMovesExpiry, Expiry.OverlappingRenewalsShorten).
- Schema.ApplySchema: the text of the error is not modelled, only the statement it names.
- Migration.Installation.Execute: whether a table's definition mentions tenants is a flag, because SQLite's rendering of definitions is not part of this model.
