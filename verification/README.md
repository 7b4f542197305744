# Verified model of the platform's ledgers, caches, tokens and canonical forms

This project models five parts of the platform and proves what they promise. It has no dependencies; `dafny verify
dfyconfig.toml` checks all of it.

**Money and points** (`server/db.ts`). `Ledger` is the idempotency ledger as a machine whose steps are single SQL
statements of any number of concurrent runs: claim, read after a conflict, finalize, COMMIT, ROLLBACK, crash, and the
failed stamp that follows a rollback outside any transaction. `Settlement`, `Loyalty` and `Refunds` put the
statements of their transactions on top of it, with row locks, advisory locks and unique indexes; a transaction keeps
its writes to itself until it commits. The `..Safety` modules hold the invariants, the `..Results` modules what
follows over every run, the `..Progress` modules that no set of transactions waits for itself, and the `..Calls`
modules the whole effect of a call that nobody disturbs, and exactly when it succeeds. `Periods` is the
calendar of the settlement windows, `Variants` the traffic allocation, `Campaigns` the sends, which use the ledger
with no transaction at all, and `Audience` the loop over the pages of an audience.

**The hot cache** (`server/_core/hotCache.ts`) is the class `HotCache.HotCache` over a model of JavaScript's `Map`.
Its methods are proved to do what `CacheModel.Do` says, and `CacheModel` proves what that means over whole histories
of calls with a clock that does not go back. `Economics` and `ContractDefaults` are the two readers built on it, as
classes with their tables; `EconomicsRuns` and `ContractRuns` prove, by `Runs` and `Coherence`, that calls that do not
overlap cannot notice the caches or the sweeps of their timers, and `Staleness` says how stale an answer can be when calls do overlap.

**Account lifecycle tokens** (`server/_core/accountLifecycleStore.ts`) are the machine in `Tokens`, with the results over
every run in `TokenResults` and the whole effect of each call in `TokenCalls`. `Csv` holds the CSV writer and a reader for the grammar of RFC 4180, section 2.

**Canonical JSON** (`server/_core/developerApi.ts`, `server/_core/dataPortability.ts`). `JsonTree` and `JsonMeaning`
say what a tree means when the order of object members does not count, `JsonPrinter` prints, `JsonReader` reads by the
grammar of RFC 8259 and undoes the printers, `JsonCanonical` and `JsonIdentity` compare the two canonical forms.

**Dispatch ranking** (`server/_core/dispatchOptimizer.ts`) is in `Dispatch`.

## How the source is rendered

- A statement is one step. It reads the committed tables and the writes of its own transaction, and it is possible
  only when no other unfinished transaction holds a lock that it needs. A statement that throws, and a connection that
  dies, are steps of their own, possible at any point.
- A call is undisturbed when no other transaction is in progress; what the `..Calls` modules say of it is its sequential
  meaning, and what holds under every interleaving is in the other modules.
- What only records how a row came about (`past` in `Settlement`, the cause of an entry in `Loyalty`, the effects in
  `Tokens`, the counters `gets`, `overwritten` and `expired` in `CacheModel`) is read by no statement.
- Amounts and points are integers in minor units. Digests (`SHA-256`, `hashtext`) are taken to be injective.
- Strings that go through the CSV and JSON code are sequences of 16-bit code units; keys elsewhere are text.
- Clock readings, random ids, the outcome of a mail or of a worker-council check are parameters of the step or call.
- Where the documentation in the source promises more than the code does, the code is what is modelled:
  - "A retried trigger or a restarted pod can safely re-run the dispatch" (`server/db.ts:2119-2120`) holds in that nobody
    is sent to twice, but a member whose send failed or was interrupted is never sent to again under the same scope
    (`Campaigns.ClosedIsForEver`).
  - A completed idempotency key stops being replayable when the late failed stamp of a rolled-back run lands on it
    (`Ledger.LateStampSpoilsReplay`, `Ledger.LateStampHappens`); it stays replayable exactly as long as no rolled-back
    run still owes its stamp (`Ledger.CompletedSticks`, `Ledger.RetryIsNeverRefused`).
  - A settlement's base is what the driver had earned when the fees were summed; a later change of an order in the window
    is not made up for, and `SettlementResults.BaseIsEarnings` gives the exact difference.
  - "bonus equals the sum of the linked incentives" fails when an incentive changes between the SUM and the UPDATE that
    links (`SettlementDrift.DriftHappens`); `SettlementResults.Conservation` gives the exact difference.
  - "Write-through invalidation" leaves out the linking of a consultation to changed contract terms
    (`Staleness.UnannouncedWriteIsStale`); calls that do not overlap cannot notice (`ContractRuns.CacheCannotBeNoticed`).
  - Consecutive settlement months meet except where the next January crosses into or out of the years 0 to 99
    (`Periods.MonthsMeet`).
  - An operator's tenant is fixed once it is set, unless it is the empty string (`TokenResults.EmptyTenantIsReplaced`).
  - `canonicalJson` loses every key named `__proto__` and nothing else (`JsonIdentity.CanonicalDecidesMeaning`, with
    `JsonIdentity.ProtoIsLost` as an instance).

## Model

| member | source | states |
|---|---|---|
| Ledger.EffectOnce | server/db.ts:747-813 | over every interleaving of claims, rollbacks, crashes and late stamps, at most one run per key commits an effect |
| Ledger.ReplayIsFaithful | server/db.ts:787-789 | a replay returns the response stored by the one committed run, and only for the same payload |
| Ledger.RetryDecides | server/db.ts:771-791 | a retry that nobody interrupts is answered from the ledger exactly if the row is completed and holds the same payload, with the stored response; otherwise it is refused |
| Ledger.CompletedIsReplayed | server/db.ts:787-789 | so a retry of a completed call gets the response of the one committed run, and writes nothing |
| Ledger.RetryIsNeverRefused | server/db.ts:747-791 | under every interleaving such a retry never works again, is never refused and never waits, if no rolled-back run still owes its stamp |
| Ledger.FreeKeyCommits | server/db.ts:747-813 | a call under a free key does its work and leaves its response for every retry |
| Ledger.CrashLeavesNoTrace | server/db.ts:1054-1070 | a run that dies before its COMMIT leaves the rows as they were and its key free, and never stamps |
| Ledger.ConflictAlwaysHasRow | server/db.ts:771-781 | the branch for a conflict without a row is never taken |
| Ledger.MismatchIsInert | server/db.ts:783-785 | reuse of a key with another payload changes nothing, now or after any further steps of anyone |
| Ledger.CompletedSticks | server/db.ts:787-791 | a completed key stays replayable for ever if no rolled-back run still owes its stamp |
| Ledger.LateStampSpoilsReplay | server/db.ts:1057-1070 | if one does, its next step makes the key failed for good: the condition is exact |
| Ledger.LateStampHappens | server/db.ts:1057-1070 | such a run exists |
| Ledger.FailedIsFinal | server/db.ts:787-791 | a key stamped failed is refused for ever |
| LockOrder.SomeoneMoves | server/db.ts:965-1007 | sessions that take their locks in one order cannot all wait for each other |
| Periods.EqualOrDisjoint | server/db.ts:929-940 | two windows are the same or share no instant, and the same exactly for the same full month |
| Periods.MonthsMeet | server/db.ts:929-940 | consecutive months meet end to start, exactly except where January crosses into or out of the years 0 to 99 |
| Periods.MonthLength | server/db.ts:929-940 | a window is 28 to 31 days long, across year ends too |
| Periods.CalendarIsFixed | server/db.ts:929-940 | the first of January 1970 is day 0 and each month has its own number of days, leap years included: nothing else fits the calendar of the windows |
| Periods.WindowIsItsMonth | server/db.ts:929-940 | a window lasts exactly the days of its month |
| Periods.EveryInstantSettlesOnce | server/db.ts:929-940 | from year 100 on every instant lies in a window and in only one |
| SettlementSafety.DoKeepsInv | server/db.ts:942-1270 | every statement of every settlement transaction keeps the invariant |
| SettlementResults.OneSettlementPerWindow | server/db.ts:965-1041 | at most one settlement per driver and window, under every interleaving, with the advisory lock or with the unique index alone |
| SettlementResults.OrderSettledOnce | server/db.ts:989-1025 | an order that the SUM of one settlement found delivered by its driver in its window is found so by the SUM of no other |
| SettlementSafety.SumIsEarned | server/db.ts:989-997 | the SUM of the filtered rows is, order by order, the fees of the driver's deliveries in the window |
| SettlementResults.BaseIsEarnings | server/db.ts:989-1025 | the base of a settlement is what its driver had earned in its window when the fees were summed, and what later changes of orders add is the exact difference to what it is now |
| SettlementResults.OnlyOwnDeliveriesEarn | server/db.ts:989-997 | orders of other drivers, of other months or not delivered do not change what a driver has earned |
| SettlementResults.NothingForgotten | server/db.ts:1043-1052 | an approved, unlinked incentive of a settled driver and window was created or changed after the settlement linked its incentives |
| SettlementResults.ReadBackIsDefenceOnly | server/db.ts:965-1041 | with the advisory lock the read-back after an insert conflict is never reached |
| SettlementResults.Conservation | server/db.ts:1003-1052 | total = base + bonus, and the linked incentives sum to the bonus plus what changed between the SUM and the UPDATE |
| SettlementResults.QuietRunsConserve | server/db.ts:1003-1052 | if incentives do not change in between, and orders not after the SUM, every settlement's base is what its driver has earned in its window and its bonus the sum of its linked incentives |
| SettlementDrift.DriftHappens | server/db.ts:1003-1052 | a run in which an incentive appears in between, and is linked without being in the bonus |
| SettlementResults.PaidWhenCompleted | server/db.ts:1198-1258 | a linked incentive is paid exactly when its settlement is completed, and belongs to its driver and window |
| SettlementResults.HistoryIsFixed | server/db.ts:1138-1152 | statuses only advance pending, approved, completed; amounts, approver and payment reference never change once set |
| SettlementResults.PayoutEffectOnce | server/db.ts:942-1270 | the settlement machine is a run of the ledger, so at most one call per key commits |
| SettlementResults.CommittedRepliesAreTrue | server/db.ts:1172-1258 | what a committed call replied stays true of the settlements |
| SettlementResults.ReplayedRepliesAreTrue | server/db.ts:947-961 | and so does what a replay returns |
| SettlementResults.RetryIsReplayed | server/db.ts:947-961 | from every reachable state a retry of a completed call gets the reply of the call that committed, which is still true, and writes nothing |
| SettlementCalls.UndisturbedGenerate | server/db.ts:942-1056 | a generate call that nobody disturbs replies with the settlement there was, or makes one whose base, bonus, total and linked incentives are exactly those of the driver and month |
| SettlementCalls.UndisturbedApproval | server/db.ts:1090-1270 | an approval or payment that nobody disturbs succeeds exactly in the states it should, or when repeated alike, and then changes nothing but what it is for |
| SettlementProgress.NoDeadlock | server/db.ts:942-1276 | no reachable set of unfinished generate, approve and process transactions all wait for each other |
| SettlementProgress.SomeoneCanStep | server/db.ts:942-1276 | while one is unfinished, some unfinished one is blocked by nobody and can take its next step |
| LoyaltySafety.DoKeepsInv | server/db.ts:838-923 | every statement of award, redeem, apply, complete and expire keeps the invariant |
| LoyaltyResults.AccountsMatchJournal | server/db.ts:882-923 | balance is the sum of the journal, lifetime the sum of its awards, and tier, progress and threshold are the function of lifetime |
| LoyaltyResults.GradeIsBand | server/db.ts:850-880 | that function picks the highest tier reached, and the next one as threshold |
| LoyaltyResults.RedemptionsMatchJournal | server/db.ts:1586-1602 | the redemption rows and the spending entries of the journal agree |
| LoyaltyResults.BonusPaidWhenRewarded | server/db.ts:1800-1816 | a referral's bonus is in the journal exactly once if it is rewarded and not at all otherwise; its welcome points exactly once |
| LoyaltyResults.BonusGoesToReferrer | server/db.ts:1739-1808 | each such entry is of the user and amount that the referral names |
| LoyaltyResults.ReferrerOwnsCode | server/db.ts:1694-1730 | the referrer of a referral is a user who owned its code in some state of the run, never the referred user, and the owner if the code has had only one |
| LoyaltyResults.BonusGoesToOwner | server/db.ts:1800-1808 | so each referrer bonus went to somebody else, who owned the code that was applied |
| LoyaltyResults.RedemptionPaysTheCost | server/db.ts:1546-1602 | each redemption has spent what its reward cost in some state of the run in which it was active |
| LoyaltyResults.NeverNegative | server/db.ts:1561-1584 | with non-negative awards no balance is ever negative |
| LoyaltyResults.LoyaltyEffectOnce | server/db.ts:1524-1844 | at most one call per key commits |
| LoyaltyResults.RetryIsReplayed | server/db.ts:1529-1540 | from every reachable state a retry of a completed call gets the reply of the call that committed, and writes nothing |
| LoyaltyCalls.UndisturbedCall | server/db.ts:882-923 | an award, expiry, redemption, application or completion that nobody disturbs succeeds exactly under its conditions (reward active, affordable and within the tier; code known, somebody else's and the only one) and has exactly its effect on accounts, journal, redemptions and referrals |
| LoyaltyProgress.NoDeadlock | server/db.ts:1524-1844 | no reachable set of unfinished loyalty transactions all wait for each other, those whose next statement is going to throw included |
| LoyaltyProgress.SomeoneCanStep | server/_core/scheduledJobs.ts:68-148 | while one is unfinished, expiry included, some unfinished one is blocked by nobody and can take its next step |
| RefundSafety.OneRefundPerKey | server/db.ts:1318-1363 | at most one refund row per key, with the ledger alone or with the unique transaction id alone |
| RefundSafety.RefundIsAtomic | server/db.ts:1345-1397 | a committed refund row comes with its notification and a refunded order |
| RefundSafety.NoticeHasRefund | server/db.ts:1364-1397 | a notification comes with its refund |
| RefundCalls.RefundWasAskedFor | server/db.ts:1333-1344 | every refund row is of the order, amount and reason that one committed call asked for under its key |
| RefundCalls.RetryIsReplayed | server/db.ts:1318-1332 | from every reachable state a retry of a completed refund gets the reply of the call that committed, and refunds nothing |
| RefundCalls.UndisturbedRefund | server/db.ts:1312-1401 | a refund that nobody disturbs is made exactly if its order exists: the row asked for, the order refunded and one notice, or else the row that already has the transaction id |
| Variants.AllocationsBounded | server/db.ts:2660-2687 | under every interleaving of creation and reallocation each allocation is within 0..100 and a campaign's sum is at most 100 |
| Variants.StoredFits | scripts/init-local-postgres.sql:193-200 | rounding to the two stored decimals does not break the bound |
| Variants.StoredIsNearest | scripts/init-local-postgres.sql:193-200 | what is stored is the requested percentage to the nearest hundredth |
| Variants.UndisturbedCall | server/db.ts:2660-2687 | a call that nobody disturbs succeeds exactly if the sum of its campaign stays within 100, and stores what was asked for |
| Campaigns.DoKeepsInv | server/db.ts:1965-2095 | every statement of a send, with no transaction around it, keeps the invariant |
| Campaigns.EachKeySendsAtMostOnce | server/db.ts:1965-2095 | under any interleaving, interrupted anywhere, at most one message goes out for a key |
| Campaigns.EachMemberSentToAtMostOnce | server/db.ts:2156-2181 | a member is sent to at most once under one scope, however many runs there are and wherever they stop |
| Campaigns.ReplayMeansSent | server/db.ts:1987-1989 | a call answered from the ledger is told of a row whose message did go out, for the same request |
| Campaigns.RowTellsFate | server/db.ts:2028-2085 | the send row of a run is sent only if its message went out, failed only if the run ended without success, and pending while it is to be delivered |
| Campaigns.CountedWereSent | server/db.ts:2060-2066 | the send count counts only messages that went out |
| Campaigns.ClosedIsForEver | server/db.ts:1979-2095 | once the claiming call has ended, sent, failed or interrupted, no later call changes the entry or sends for the key |
| Audience.Dispatcher.SendCampaign | server/db.ts:1965-2095 | one uninterrupted call: who is sent to, when it succeeds, and what it leaves in the ledger |
| Audience.Dispatcher.SendToAudience | server/db.ts:2156-2181 | the page loop visits every member once, ends after floor(n/500) + 1 pages, sent + failed = n, and reaches exactly the members whose key is new |
| Audience.Dispatcher.DispatchCampaign | server/db.ts:2126-2191 | an inactive campaign is refused and changes nothing; otherwise total = sent + failed, under the caller's key or the campaign's own scope |
| Audience.ScopesAreApart | server/db.ts:2156 | without a caller's key two campaigns never share a scope |
| Audience.RerunReachesNewcomersOnly | server/db.ts:2156-2180 | a re-run under the same scope sends only to members no earlier run visited |
| Audience.RerunReachesTheUnsentOnly | server/db.ts:2156-2181 | after any runs, interrupted anywhere, the next one reaches only members to whom nothing has gone out under the scope |
| CacheModel.HitIsLastSet | server/_core/hotCache.ts:109-133 | a hit is the value of the last set of the key, less than one TTL old, with no later invalidation that covers it |
| CacheModel.LiveMissMeansPushedOut | server/_core/hotCache.ts:109-133 | a live, uninvalidated key misses only if at least maxEntries distinct other keys were set since |
| CacheModel.ExpiriesAscend | server/_core/hotCache.ts:125-133 | expiry times never decrease along the insertion order; never more than maxEntries entries; no key twice |
| CacheModel.EvictsLiveOnlyIfAllLive | server/_core/hotCache.ts:94-133 | a set evicts a live entry only when every entry is live, and never the key just set |
| CacheModel.CountersBalance | server/_core/hotCache.ts:70-162 | hits + misses = gets, and sets = live + overwritten + expired + evicted + invalidated |
| CacheModel.CountersCount | server/_core/hotCache.ts:70-168 | each counter counts what it is named for: answered gets, unanswered gets, sets, evicted and invalidated entries, sweeps |
| CacheModel.InvalidateRemovesKey | server/_core/hotCache.ts:135-156 | invalidating a key removes it even when it ends in an asterisk |
| HotCache.HotCache.constructor | server/_core/hotCache.ts:65-78 | an empty cache with the TTL and the size clamped to at least 1 |
| HotCache.HotCache.Get | server/_core/hotCache.ts:109-123 | refines CacheModel.Do and answers CacheModel.Lookup |
| HotCache.HotCache.EvictOldest | server/_core/hotCache.ts:94-102 | removes the entry at the head of the insertion order |
| HotCache.HotCache.Set | server/_core/hotCache.ts:125-133 | re-inserts at the tail and evicts down to maxEntries |
| HotCache.HotCache.Invalidate | server/_core/hotCache.ts:135-156 | removes what the pattern covers and returns how many |
| HotCache.HotCache.Clear | server/_core/hotCache.ts:158-162 | removes everything and counts it as invalidated |
| HotCache.HotCache.Sweep | server/_core/hotCache.ts:80-92 | removes exactly the expired entries and returns how many |
| HotCache.HotCache.Stats | server/_core/hotCache.ts:166-168 | the reported size is the number of entries |
| FareFloor.LawsFixRaw | server/_core/economicsPolicy.ts:112-125 | at the base indices the indexed cost is fuel times multiplier, it is proportional to each index, and a negative number makes it zero: only the code's formula obeys these laws |
| FareFloor.RawIsProportional | server/_core/economicsPolicy.ts:116-124 | the cost is proportional to fuel, to each index and to the multiplier |
| FareFloor.MissingIndexIsBase | server/_core/economicsPolicy.ts:86-105 | a stored index without cpi or maintenance is served as if that stood at its base |
| FareFloor.FloorIsLeastCoveringFare | server/_core/economicsPolicy.ts:112-125 | a whole fare is at or above the floor exactly when it covers the indexed cost up to the tolerance |
| FareFloor.WholeCostIsNotRoundedUp | server/_core/economicsPolicy.ts:120-124 | a whole cost is its own floor in spite of rounding error below the tolerance |
| FareFloor.ServedIsWritten | server/_core/economicsPolicy.ts:86-105 | the floor returned by an update is the one served from the stored index, for a negative fuel price too |
| FareFloor.FloorRises | server/_core/economicsPolicy.ts:112-125 | dearer fuel, higher indices or a higher multiplier never lower the floor |
| Economics.EconomicsPolicy.GetFareFloorPolicy | server/_core/economicsPolicy.ts:127-152 | reads through the floor cache, a missing policy included |
| Economics.EconomicsPolicy.GetLatestTakeRate | server/_core/economicsPolicy.ts:154-171 | reads through the rate cache |
| Economics.EconomicsPolicy.InvalidateCache | server/_core/economicsPolicy.ts:76-84 | drops both keys of a market, or everything |
| Economics.EconomicsPolicy.UpdateCostIndex | server/_core/economicsPolicy.ts:178-222 | writes the active row, or a new one with multiplier 1, and invalidates |
| Economics.EconomicsPolicy.PublishTakeRate | server/_core/economicsPolicy.ts:229-272 | appends the next version if the consultation is eligible and the rate allowed, and invalidates |
| Economics.EconomicsPolicy.CheckFareAgainstFloor | server/_core/economicsPolicy.ts:274-284 | allowed without a policy or at the served floor |
| Economics.EconomicsPolicy.RecordFloorOverride | server/_core/economicsPolicy.ts:291-329 | records the served floor with the override and invalidates |
| EconomicsRuns.CachesCannotBeNoticed | server/_core/economicsPolicy.ts:55-84 | any run of calls that do not overlap, with the timers sweeping both caches between and during them, gets the replies and the tables it would get without the caches |
| Runs.RunsAgree | server/_core/economicsPolicy.ts:55-84 | if every call looks the same from every coherent state, whole runs do |
| Coherence.ThroughIsTruth | server/_core/economicsPolicy.ts:127-171 | a read through a coherent cache, swept at any point, is what the tables say and leaves the cache coherent |
| EconomicsRuns.FloorOfLastIndex | server/_core/economicsPolicy.ts:127-222 | after any run the served floor is that of the cost index written last |
| EconomicsRuns.FareIsHeldToLastIndex | server/_core/economicsPolicy.ts:274-329 | after any run a fare is allowed exactly if it covers the cost of the index written last, and an override logs that same floor, which is the least fare allowed |
| EconomicsRuns.WritersReadTheirWrites | server/_core/economicsPolicy.ts:178-272 | what an update or a publication returns is what the next read gives; a refused one changes nothing |
| EconomicsRuns.RateOfLastPublication | server/_core/economicsPolicy.ts:154-272 | after any run the served rate is the one published last, and versions count publications |
| EconomicsRuns.VersionsStayUnique | drizzle/0084_fare_floor_take_rate.sql:23-34 | calls that do not overlap never meet the unique index on market and version |
| ContractDefaults.ContractStore.GetContractDefaults | server/_core/contractDefaults.ts:80-117 | reads through the cache, the local defaults included |
| ContractDefaults.ContractStore.SetContractDefaults | server/_core/contractDefaults.ts:151-215 | upserts, invalidates, then links the consultation without invalidating |
| ContractDefaults.ContractStore.PublishContractDefaults | server/_core/contractDefaults.ts:222-247 | publishes an existing row if the consultation is eligible, and invalidates |
| ContractRuns.CacheCannotBeNoticed | server/_core/contractDefaults.ts:49-73 | any run of calls that do not overlap, with the timer sweeping the cache between and during them, gets the replies and the table it would get without the cache |
| ContractRuns.ServedIsLastChange | server/_core/contractDefaults.ts:80-247 | what is served is the last change with the local law and forum where it leaves them open, published exactly if published since |
| ContractRuns.ServedIsLastConsultation | server/_core/contractDefaults.ts:151-247 | the consultation served is the one posted or agreed last, and a market keeps the id of its row |
| ContractRuns.WritersReadTheirWrites | server/_core/contractDefaults.ts:151-247 | what a change or a publication returns is what the next read gives |
| Staleness.AnswersAreLessThanOneTtlOld | server/_core/economicsPolicy.ts:127-171 | whatever the overlap, an answer was read from the table by a call that stored it less than one TTL ago, and not invalidated since |
| Staleness.HitIsCurrentExactly | server/_core/contractDefaults.ts:80-117 | once all writers have invalidated, a hit is current exactly if the table held the same at the SELECT and at the set of the call that filled the cache |
| Staleness.HitIsCurrentUnlessSplit | server/_core/contractDefaults.ts:80-117 | so it is current unless a write fell between that SELECT and that set |
| Staleness.SplitReadIsStale | server/_core/economicsPolicy.ts:127-152 | such a split read leaves the old value behind for a whole TTL |
| Staleness.UnannouncedWriteIsStale | server/_core/contractDefaults.ts:191-213 | the write that links a consultation is not seen by a reader that filled the cache just before |
| Tokens.DoKeepsInv | server/_core/accountLifecycleStore.ts:395-440 | every statement of issue, confirm, reset, accept, revoke and founding keeps the invariant |
| TokenResults.ConsumedExactlyOnce | server/_core/accountLifecycleStore.ts:431-440 | no token is both consumed and revoked, and a consumed token has exactly one committed use, of its purpose |
| TokenResults.UseTakesEffect | server/_core/accountLifecycleStore.ts:1182-1202 | the commit that consumes a token writes the operator row its purpose demands |
| TokenResults.StatusIsFinal | server/_core/accountLifecycleStore.ts:700-709 | accepted and revoked are final, and nothing expired becomes pending again |
| TokenResults.UsedBeforeExpiry | server/_core/accountLifecycleStore.ts:431-440 | every use of a token goes back to a statement that found it open, of its purpose and not yet expired |
| TokenResults.ExpiredIsNeverUsed | server/_core/accountLifecycleStore.ts:431-440 | if the clock does not go back, an expired token that no transaction in progress has consumed is never accepted in any continuation |
| TokenResults.RevokesPendingOnly | server/_core/accountLifecycleStore.ts:729-746 | revoking takes effect exactly on a pending invitation of that organisation and tenant, and on no other token |
| TokenResults.UpsertsAreCautious | server/_core/accountLifecycleStore.ts:492-518 | signing up again leaves a verified operator as it is, and no second operator of an email is made |
| TokenCalls.UndisturbedCall | server/_core/accountLifecycleStore.ts:395-440 | an issue, verification, reset, acceptance or founding that nobody disturbs commits exactly if its token is pending, of its purpose and complete and its operator fits, and then achieves that and nothing else |
| TokenResults.TenantSticks | server/_core/accountLifecycleStore.ts:638-651 | an operator's tenant never changes once it is set |
| TokenResults.EmptyTenantIsReplaced | server/_core/accountLifecycleStore.ts:645-651 | except when it is the empty string |
| TokenResults.AtMostOneOpen | server/_core/accountLifecycleStore.ts:404-420 | when issues do not overlap there is at most one open token per purpose and email |
| TokenResults.IssueLeavesOpen | server/_core/accountLifecycleStore.ts:404-420 | whatever overlaps, the commit of an issue leaves open exactly its own token and those open tokens of its pair that its UPDATE did not gather |
| TokenResults.OverlappingIssues | server/_core/accountLifecycleStore.ts:404-420 | when they do there can be two |
| Csv.CellIsRead | server/_core/accountLifecycleStore.ts:216-220 | a written cell reads back as the normalised and guarded value, wherever it stands |
| Csv.FileIsRead | server/_core/accountLifecycleStore.ts:851-864 | the exported file reads back as exactly its cells, record by record and field by field |
| Csv.NoFieldIsFormula | server/_core/accountLifecycleStore.ts:216-220 | no field that is read back starts like a formula or holds a line feed |
| Csv.LosslessExactly | server/_core/accountLifecycleStore.ts:216-220 | a value comes back unchanged exactly when it has no line feed and does not start like a formula |
| Csv.CellKeepsValue | server/_core/accountLifecycleStore.ts:216-220 | a cell is the normalised value, behind an apostrophe exactly if it would start like a formula |
| Csv.UnguardedIsValue | server/_core/accountLifecycleStore.ts:216-220 | taking the apostrophe off gives the value back, exactly unless the value itself looks guarded |
| Csv.LineEndsBecomeSpaces | server/_core/accountLifecycleStore.ts:217 | every line end becomes one space |
| JsonTree.SortAscends | server/_core/developerApi.ts:57-58 | sorting gives the keys in strictly ascending order of code units |
| JsonTree.BeforeIsByCodeUnit | server/_core/developerApi.ts:57-58 | which is the order of the first code unit in which two keys differ |
| JsonMeaning.SortingKeepsMeaning | server/_core/developerApi.ts:53-61 | sorting the keys does not change what a tree means |
| JsonMeaning.MeaningFixesSorted | server/_core/developerApi.ts:53-61 | trees that mean the same have the same sorted form |
| JsonPrinter.StableIsWriteSorted | server/_core/developerApi.ts:53-61 | stableJson prints what JSON.stringify prints for the sorted tree |
| JsonReader.CharsReadBack | server/_core/developerApi.ts:59 | every string of code units, lone surrogates included, reads back by the escapes of RFC 8259, section 7 |
| JsonReader.EscapeIsShortest | server/_core/developerApi.ts:59 | a code unit stands for itself exactly where that is allowed and it is no lone surrogate; otherwise it is written by the only shortest escape in lower case |
| JsonReader.NumberReadsBack | server/_core/developerApi.ts:54 | every safe integer reads back |
| JsonReader.ParseUndoesStable | server/_core/developerApi.ts:53-61 | parsing the printed string gives the key-sorted tree |
| JsonReader.StableDecidesMeaning | server/_core/developerApi.ts:53-61 | two trees print equal exactly when they are equal as unordered trees |
| JsonCanonical.SortKeysDeep | server/_core/dataPortability.ts:85-98 | the copying loop builds the canonical copy |
| JsonCanonical.FillHolds | server/_core/dataPortability.ts:91-95 | the copy lists its keys in enumeration order and keeps exactly the members whose key is not __proto__ |
| JsonCanonical.IndexIsDecimal | server/_core/dataPortability.ts:91-95 | the keys that are enumerated first are the decimal forms of the integers up to 2^32 - 2 |
| JsonCanonical.CanonicalIsStableExactly | server/_core/dataPortability.ts:81-98 | canonicalJson prints what stableJson prints exactly when no key is __proto__ and sorting puts no key before an array index unless it is a smaller index |
| JsonIdentity.CanonicalDecidesMeaning | server/_core/dataPortability.ts:76-98 | canonicalJson tells two trees apart exactly when they mean different things with the __proto__ members left out, and parses back to that meaning: to the tree's own meaning exactly if no key is __proto__ |
| JsonIdentity.StripMatters | server/_core/dataPortability.ts:91-95 | leaving the __proto__ members out, at every level, changes what a tree means exactly if it has one |
| JsonIdentity.ProtoIsLost | server/_core/dataPortability.ts:91-95 | two different trees, one with a key __proto__, that print the same |
| JsonIdentity.StableIsClean | server/_core/developerApi.ts:49-61 | the text that is hashed holds no control character and no lone surrogate |
| Dispatch.RankingIsStable | server/_core/dispatchOptimizer.ts:23-38 | the result is a stable descending permutation of the scored candidates |
| Dispatch.RankingIsUnique | server/_core/dispatchOptimizer.ts:38 | and the only one |
| Dispatch.RecommendedIsEarliestBest | server/_core/dispatchOptimizer.ts:40-43 | the recommended driver is the earliest candidate of maximal score |
| Dispatch.BatchingMeansTwoAbove | server/_core/dispatchOptimizer.ts:45 | batching is eligible exactly when at least two candidates score 0.62 or more |
| Dispatch.RawScore | server/_core/dispatchOptimizer.ts:18-31 | a score lies within 0..1, whatever the measurements |
| Dispatch.WeightsFixScore | server/_core/dispatchOptimizer.ts:18-31 | each measurement earns its weight in proportion to its range, the worst candidate scores 0, and nothing else obeys that; measurements out of range count as the end of it |
| Dispatch.ScoreIsNearest | server/_core/dispatchOptimizer.ts:35 | a score is the weighted sum to the nearest 0.0001 |
| Dispatch.BetterNeverScoresLower | server/_core/dispatchOptimizer.ts:25-36 | no better measurement lowers a score |

## Left out

- JsonReader.StableDecidesMeaning: numbers are the integers that a double holds exactly; `undefined`, functions and `toJSON` are excluded, and the reader takes no insignificant white space.
- JsonIdentity.CanonicalDecidesMeaning: the same restriction on numbers and values.
- Csv.FileIsRead: any header and any rows with at least one field; which columns and rows are selected is not modelled.
- Audience.Dispatcher.SendToAudience: the audience stays the same during one dispatch; users who join or leave between pages are not modelled. The queued mode, which answers before the same dispatch runs, is left out.
- EconomicsRuns.CachesCannotBeNoticed: calls do not overlap; `Staleness` bounds what overlapping calls can see.
- FareFloor.FloorIsLeastCoveringFare: computed over the reals, so the size of the rounding error of doubles is not bounded here.
- Dispatch.RankingIsStable: scores are computed over the reals before they are rounded; NaN and infinities are excluded.
- TokenResults.ConsumedExactlyOnce: raw tokens correspond one to one to their digests, and emails are stored in lower case.
- RefundSafety.OneRefundPerKey: refund totals are not compared with the amount paid, because the code does not; a refunded order is taken not to be reopened.
- SettlementResults.OrderSettledOnce: an order keeps its driver and its delivery time once it has one; nothing in these calls changes them.
- LoyaltyResults.ReferrerOwnsCode: the column that remembers a user's code (`referred_by_code`) is not modelled; its UPDATE only takes the row's lock.
- RefundCalls.UndisturbedRefund: amounts that are not positive and empty reasons, which throw before the transaction, are not told apart from others.
- SettlementProgress.NoDeadlock: the settlement and the loyalty transactions are separate machines, because their lock sets do not meet.
- Connection pools, schema bootstrap, SQL text and COMMITs that take effect but report an error.
- UPDATEs that lock several rows are one step each; the order in which PostgreSQL locks those rows is not modelled.
- Collisions of `hashtext`, SHA-256 and random ids, and integer overflow, which makes the statement fail.
- What a call does after its last statement on the tables, such as posting a consultation or sending mail, and its failure.
- Leaderboards, which have no guard against paying twice, and read-only summaries and statistics.
- At most one referral per referred user under concurrency: the row lock on a missing row locks nothing.
- Message templates and the looked-up campaign, user and account of a send: any of them can fail, and that is all that is modelled.
- Last-admin preservation, branding, notification preferences, sessions and password rules of the account store.
- Lifetimes of tokens come from configuration; expiry is a comparison with the clock that a statement reads.
- The period of the sweep timer: a sweep may come at any point.
- React, mobile, Kubernetes, load tests, metrics, routers, HMAC, JWT and OIDC.
