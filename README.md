# Hopium back end: a verified model of its core rules

This project models the core of the Hopium back end, a NestJS service behind a Telegram trading mini-app. Users earn HOPIUM by completing missions and trading futures, follow each other, and share orders in a feed. The model is written in Dafny. Every database, cache, search-index, queue, wallet and chat-bot call becomes an update of a map, set or sequence, or an outcome passed in as a parameter. The rules around those calls are then stated and proved.

One Dafny module per service:

- **Tasks** (`src/tasks/tasks.service.ts`), the mission engine, as the `TaskEngine` class. It covers:
  - per-user task records keyed by (user, task), and the status each one displays;
  - click marking and the guarded claim pipeline, with its lock keys, audit log and ledger credits;
  - the seven-step daily streak with its per-day credited sets and its daily and hard resets;
  - the trading-volume accumulator and the parent-mission reconciler;
  - the share-on-X claim, which is idempotent per order.
- **TaskReward** (`src/tasks/task-reward.service.ts`), the weighted reward spinner, as the `RewardSpinner` class:
  - a promotional catalogue that switches once, for good, to a stable one after 5000 spins;
  - tiers are filtered out by their spin caps;
  - the first tier whose cumulative rate covers the draw wins, with the last tier as fallback.
- **Helper** (`src/commons/utils/helper.ts`): `truncateName`, `uniq`, `pick`, and the suffix and sign rule of `formatVolume`.
- **Users** (`src/users/users.service.ts`), as the `UserStore` class:
  - id allocation and referral codes;
  - the referral link and its checks, and wallet binding;
  - tier selection and the one-off tier reward;
  - the telegram-id lookup with its cache.
- **Follows** (`src/follows/follows.service.ts`), as the `FollowGraph` class:
  - follow and unfollow, keeping the follower and following counters equal to the edge counts;
  - the paged lists;
  - the user search with its keyword sanitising.
- **Feed** (`src/feed/feed.service.ts`), as the `FeedStore` class:
  - post creation and the reaction counters;
  - the post status rules on order updates and closes;
  - star-invoice links;
  - feed paging and the achievement summary.
- **Campaign** (`src/campaign/campaign.service.ts`), as the `CampaignStore` class:
  - campaign status on the calendar;
  - the score each order event earns;
  - the per-campaign scores and the ranked leaderboard.
- **Leaderboard** (`src/leaderboard/leaderboard.service.ts`), as the `LeaderboardStore` class:
  - the order history and the monthly summaries;
  - the top-10 listings per tab;
  - the monthly achievements.
- **Socket** (`src/socket/socket.gateway.ts`): the parsing of subscribe payloads into rooms, per-client room sets (`Client`), connection and disconnection, and the reach of `emitToUser`.
- **Notification** (`src/notification/notification.service.ts`), as the `Notifier` class, which records the chat-bot calls. It covers:
  - follower and referral digests, with referrals grouped by referrer;
  - the SL/TP edit notice and the copier notices;
  - the tier-reward notice.
- **Commission** (`src/commission/commission.service.ts`), as the `CommissionService` class:
  - the commission record and the totals read back from the index;
  - the weekly-pool rank and the HOPIUM breakdown;
  - the credit when an order closes.
- **Orders** (`src/orders/order.service.ts`), as the `OrderService` class with its achievement cache:
  - copy and counter statistics over the 1d, 7d and 30d windows;
  - the liquidation price of positions;
  - achievements, earnings, and the one-order lookup.
- **Common**: shared `Option` and `Result` types, the wallet asset ids, and ASCII lower-casing.

Representation choices:

- Clock readings and days are integers, and the spinner's random draw is a parameter.
- Money and prices are `real`.
- Every failure an operation reports is an error value of a `Result` or `Option`, not a precondition.

## Model

| member | source | states |
|---|---|---|
| Helper.TruncateName | src/commons/utils/helper.ts:40-48 | an empty name gives ''; a name of at most maxLength characters is returned unchanged; a longer one becomes its first maxLength−3 characters followed by '...', so it has length exactly maxLength (just '...' when maxLength < 3) |
| Helper.Uniq | src/commons/utils/helper.ts:23-25 | the result has the same members as the input, no repeats, and keeps the order of first occurrence |
| Helper.Pick | src/commons/utils/helper.ts:27-33 | the result has exactly the requested keys, each mapped to the source object's value (or undefined when the object lacks it) |
| Helper.FormatVolumeUnit | src/commons/utils/helper.ts:50-65 | the falsy/NaN guard (the literal '0') is taken iff v is 0 or NaN; otherwise the suffix is 'M' iff abs(v) ≥ 1e6, 'K' iff 1000 ≤ abs(v) < 1e6, and none iff 0 < abs(v) < 1000 |
| Helper.FormatVolumeIgnoresSign | src/commons/utils/helper.ts:53 | a volume and its negation get the same format, because only the absolute value is used |
| Common.Floor | src/commission/commission.service.ts:401-403 | `Math.floor`: the result is the greatest integer not above x |
| Common.DecimalRoundTrip | src/users/users.service.ts:187-189 | the decimal text of an id parses back to that id, so a referral code determines its id |
| Common.Lower | src/socket/socket.gateway.ts:63-65 | `toLowerCase` keeps the length, maps each ASCII capital to its small letter (code + 32), keeps every other character, and yields text with no ASCII capitals |
| Common.LowerIdempotent | src/socket/socket.gateway.ts:63-65 | lower-casing a room name twice is the same as once |
| Common.LowerKeepsLowerCase | src/socket/socket.gateway.ts:63-65 | a name that is already lower case is left unchanged |
| TaskReward.InitialRatesSumToOne | src/tasks/task-reward.service.ts:18-67 | the winning rates of the six promotional tiers add up to exactly 1 |
| TaskReward.InitialCapsSumToInitSpins | src/tasks/task-reward.service.ts:11-67 | the promotional maxSpin caps add up to initSpins = 5000 |
| TaskReward.InitialCapsMatchRates | src/tasks/task-reward.service.ts:18-67 | every promotional cap is its winning rate × 5000 |
| TaskReward.InitialIdsDistinct | src/tasks/task-reward.service.ts:18-67 | the promotional tier ids are pairwise distinct |
| TaskReward.StableCatalogueConstants | src/tasks/task-reward.service.ts:109-136 | the three stable tiers (ids 7–9) have winning rates adding up to exactly 1, distinct ids, and caps equal to rate × 100000 |
| TaskReward.Increment | src/tasks/task-reward.service.ts:152-158 | HINCRBY by 1: the awarded tier's counter grows by exactly 1 (created at 1 when absent) and every other counter is unchanged |
| TaskReward.TotalIncrement | src/tasks/task-reward.service.ts:139-158 | one increment raises the total number of tracked spins by exactly 1 |
| TaskReward.TotalRemove | src/tasks/task-reward.service.ts:143-146 | the summed total does not depend on the order in which the hash fields are visited |
| TaskReward.TotalCoversTracked | src/tasks/task-reward.service.ts:139-149 | the counters of a catalogue with distinct ids never add up to more than the total of the hash |
| TaskReward.FilterValidMembers | src/tasks/task-reward.service.ts:160-172 | a tier survives the filter iff it was in the catalogue and its counter is absent or below its maxSpin |
| TaskReward.FilterValidIsFilter | src/tasks/task-reward.service.ts:166-171 | the filter is exactly `Array.filter` with that keep-condition |
| TaskReward.FilterValidSubsequence | src/tasks/task-reward.service.ts:166-171 | the filtered catalogue is a subsequence of the previous one, in the same order |
| TaskReward.FilterValidUntracked | src/tasks/task-reward.service.ts:168 | with no tracked counters every tier is kept |
| TaskReward.FilterValidTwice | src/tasks/task-reward.service.ts:160-172 | filtering an already filtered catalogue with counters that have only grown equals filtering the original once with the newer counters |
| TaskReward.EmptyMeansCapsReached | src/tasks/task-reward.service.ts:166-171 | when the filter leaves nothing, the tracked counters add up to at least the sum of the caps |
| TaskReward.PromotionalNeverEmpty | src/tasks/task-reward.service.ts:72-79 | while fewer than 5000 spins are tracked, the filtered promotional catalogue is never empty |
| TaskReward.SelectTier | src/tasks/task-reward.service.ts:82-95 | the loop stops at the first tier whose cumulative winning rate is ≥ the draw, or reports that no tier covers it |
| TaskReward.FullCatalogueCovers | src/tasks/task-reward.service.ts:82-95 | a catalogue whose rates add up to at least 1 always covers a draw in [0,1) |
| TaskReward.PickTier | src/tasks/task-reward.service.ts:82-106 | a tier is chosen iff the catalogue is non-empty: the first covering tier, else the last tier (the fallback) |
| TaskReward.GetTotalSpins | src/tasks/task-reward.service.ts:139-149 | the loop returns the sum of all tracked counters |
| TaskReward.CountStep | src/tasks/task-reward.service.ts:152-158 | counting an award only grows the counters, so a reached threshold stays reached |
| TaskReward.SwitchThenFilter | src/tasks/task-reward.service.ts:72-79 | the catalogue a spin draws from is the catalogue in force (stable once the total reached 5000) filtered by the current counters, and it is non-empty below the threshold |
| TaskReward.RewardSpinner.constructor | src/tasks/task-reward.service.ts:15-70 | a new service starts on the promotional catalogue over the existing counters |
| TaskReward.RewardSpinner.Spin | src/tasks/task-reward.service.ts:72-107 | the catalogue is switched once (one-way) when the total reaches 5000, then filtered; the prize is the awarded tier's asset and quantity, exactly its counter grows by 1, and an empty catalogue fails without counting; below 5000 a spin never fails |
| Tasks.FirstTask | src/tasks/tasks.service.ts:452-455 | `findOne` over the catalogue: a found task is in the catalogue and matches; none found means no task matches |
| Tasks.FindTask | src/tasks/tasks.service.ts:158 | `findById`: a found task has the id; none found means no task has it |
| Tasks.StreakCode | src/tasks/tasks.service.ts:454 | the code of streak step n is "DS" followed by one digit |
| Tasks.StreakCodeInjective | src/tasks/tasks.service.ts:454 | different steps have different codes, so the lookup by code finds the step's own task |
| Tasks.DisplayStatus | src/tasks/tasks.service.ts:141-152 | a stored record shows its status; without a record a non-streak task shows AVAILABLE, and a streak task shows AVAILABLE iff its code is DS1, LOCKED otherwise |
| Tasks.NextStreak | src/tasks/tasks.service.ts:426-433 | a credit moves to stored+1 and wraps to 1 after step 7; the result is always in 1..7 |
| Tasks.ActiveStreakAsWrittenOverruns | src/tasks/tasks.service.ts:129-139 | as written, a user whose counter is 7 is shown step 8, while the next credit lands on step 1 |
| Tasks.ActiveUserStreak | src/tasks/tasks.service.ts:129-139 | the active step is always one of the seven steps |
| Tasks.ActiveStepIsNextCredit | src/tasks/tasks.service.ts:129-139 | the active step (corrected) is exactly the step the next credit lands on; the code as written agrees below 7 |
| Tasks.ClickOutcome | src/tasks/tasks.service.ts:157-202 | a click changes only the clicked record and only for an existing, enabled task with one of the four click conditions; it creates a missing record as CLAIMABLE, turns AVAILABLE into CLAIMABLE and leaves every other status alone |
| Tasks.ClickIdempotent | src/tasks/tasks.service.ts:157-202 | clicking twice is the same as clicking once |
| Tasks.MarkClaimable | src/tasks/tasks.service.ts:207-238 | an enabled task's record is created or overwritten as CLAIMABLE whatever its status; a disabled task changes nothing; other records are kept |
| Tasks.ClaimCheck | src/tasks/tasks.service.ts:243-294 | a claim passes iff the lock is free, the task exists and is enabled, its condition is in the nine-item allow-list and the record is missing or CLAIMABLE; a held lock is reported first |
| Tasks.CompletedRecord | src/tasks/tasks.service.ts:485-496 | the upsert sets status COMPLETED and the task's type and keeps the stored progress and total |
| Tasks.LockStreakRecords | src/tasks/tasks.service.ts:434-440 | `updateMany` creates no record |
| Tasks.ReopenFirstStep | src/tasks/tasks.service.ts:441-448 | `updateOne` creates no record and only reopens task 1 of the given users |
| Tasks.RestartOutcome | src/tasks/tasks.service.ts:431-449 | a streak restart keeps the set of records, leaves other users alone, locks every other streak record of the user and makes task 1 AVAILABLE |
| Tasks.ActivateSteps | src/tasks/tasks.service.ts:579-597 | each given user's active step record is upserted AVAILABLE; no record is lost and only those step records are added |
| Tasks.VolumeStep | src/tasks/tasks.service.ts:700-772 | a volume event always leaves a record and never touches a CLAIMABLE or COMPLETED one |
| Tasks.ApplyVolume | src/tasks/tasks.service.ts:700-772 | an event of an unknown volume type changes nothing |
| Tasks.ReplayReachesIffSum | src/tasks/tasks.service.ts:700-772 | over any run of non-negative events the task ends CLAIMABLE iff the events add up to at least its total, and otherwise it is AVAILABLE with progress equal to that sum |
| Tasks.ReconcileParentOutcome | src/tasks/tasks.service.ts:774-831 | a parent that is already CLAIMABLE or COMPLETED is untouched; otherwise it is upserted with progress = number of qualifying enabled children and total = number of enabled children, and is CLAIMABLE iff all of them qualify; no other record changes |
| Tasks.StreakAfter | src/tasks/tasks.service.ts:419-466 | the stored counter after any number of daily credits stays in 0..7 |
| Tasks.StreakCycles | src/tasks/tasks.service.ts:426-433 | after d ≥ 1 daily credits the counter is (d−1) mod 7 + 1, so credits run through steps 1..7 and start over |
| Tasks.ZeroStreaks | src/tasks/tasks.service.ts:609-616 | the lapsed users' counters are set to 0 and every other counter is kept |
| Tasks.KeepStreaks | src/tasks/tasks.service.ts:843-859 | only the counters of the users in the three recent day sets remain, with their values |
| Tasks.DailyResetOutcome | src/tasks/tasks.service.ts:569-638 | after a daily reset every user credited yesterday has the step of their next credit AVAILABLE, and every lapsed user's next credit is step 1 |
| Tasks.ActivateYesterday | src/tasks/tasks.service.ts:579-597 | the loop over yesterday's users upserts exactly the records `ActivateSteps` describes |
| Tasks.ZeroCounters | src/tasks/tasks.service.ts:609-616 | the loop sets exactly the lapsed users' counters to 0 |
| Tasks.DropIdleCounters | src/tasks/tasks.service.ts:849-859 | the loop deletes the counter of every user absent from the three day sets and reports exactly those users, each once |
| Tasks.HardReset | src/tasks/tasks.service.ts:833-888 | the counters are cut down to the recent users; with no idle user nothing else happens and the answer is empty, else the idle users' streaks restart and their number is returned |
| Common.Elements | src/tasks/tasks.service.ts:868-882 | the set of a list holds exactly the listed elements: the ids a `$in` filter over the list matches (also the room set a subscription names) |
| Tasks.TaskEngine.constructor | src/tasks/tasks.service.ts:53-75 | the engine starts with the given catalogue, orders and spinner, and with every store empty |
| Tasks.TaskEngine.UpdateUserTaskClickable | src/tasks/tasks.service.ts:157-202 | always answers true; the records become `Click` of the old records and no other store changes |
| Tasks.TaskEngine.UpdateUserTaskClaimable | src/tasks/tasks.service.ts:207-238 | a missing task fails (the id is read before the check); otherwise answers true and marks the record CLAIMABLE as `MarkClaimable` says |
| Tasks.TaskEngine.ClaimTask | src/tasks/tasks.service.ts:243-294 | the lock set is the same on every exit; a failed guard changes nothing; otherwise the record is upserted COMPLETED and the reward is (HOPIUM, rewardQuantity), or for COMPLETE_CHILD_MISSION the prize of the tier the draw selects from the filtered catalogue, counted once (an empty catalogue fails the claim with the counters kept); the reward is logged, then credited once, and a refused credit leaves the record and log written and the ledger unchanged |
| Tasks.TaskEngine.ProcessClaimTask | src/tasks/tasks.service.ts:471-545 | a record that is not CLAIMABLE is refused; otherwise the record is upserted COMPLETED (even when none existed), the picked reward is appended to the claim log and, unless the wallet refuses it, to the ledger with category 2001; a spin that finds no tier fails after the upsert with nothing logged |
| Tasks.TaskEngine.PickReward | src/tasks/tasks.service.ts:498-504 | the fixed reward for every condition but COMPLETE_CHILD_MISSION, which spins: the catalogue is switched at 5000 tracked spins and filtered by the counters, the prize is the tier the draw selects and that tier's counter goes up by one, and no prize leaves the counters as they were; below 5000 tracked spins there is always a prize |
| Tasks.TaskEngine.UpdateDailyStreakTaskStatus | src/tasks/tasks.service.ts:419-466 | a user already credited today changes nothing; otherwise the next step (wrapping after 7 with a restart) is marked CLAIMABLE, the counter is set to it and the user joins today's set |
| Tasks.TaskEngine.ResetDailyReward | src/tasks/tasks.service.ts:569-638 | with the corrected active step (Findings), yesterday's users get their active step AVAILABLE; users in the set of two days ago but not yesterday's get counter 0 and a restarted streak |
| Tasks.TaskEngine.HardResetDailyReward | src/tasks/tasks.service.ts:833-888 | counters of users absent from all three day sets are deleted and their number returned; their streaks restart |
| Tasks.TaskEngine.UpdateClaimableReachVolumeTask | src/tasks/tasks.service.ts:700-772 | the records become `ApplyVolume` of the old records and no other store changes |
| Tasks.TaskEngine.UpdateClaimableParentMission | src/tasks/tasks.service.ts:774-831 | the records become `ReconcileParent` of the old records and no other store changes |
| Tasks.TaskEngine.ClaimShareXTask | src/tasks/tasks.service.ts:330-388 | an already-logged (order, user) pair or an order the user does not own gives success false with no credit; a refused credit logs nothing and gives no answer; otherwise 300 HOPIUM is credited and the pair logged, so a repeat credits nothing |
| Users.ReferralCode | src/users/users.service.ts:187-189 | the code is "HOP" followed by the decimal digits of the id |
| Users.ReferralCodeInjective | src/users/users.service.ts:187-189 | different ids get different codes |
| Users.RetierKeepsValid | src/users/users.service.ts:541-559 | changing only a user's tier fields keeps the collection invariant (keys, unique codes, wallets and telegram ids, no short referral cycles) |
| Users.CodeOwner | src/users/users.service.ts:295 | `findOne({ referralCode })`: a found user carries the code; none found means nobody does |
| Users.CodeOwnerUnique | src/users/users.service.ts:295-299 | in a well-keyed collection the code's owner is exactly the user it was made for |
| Users.SelfReferralAsWrittenAdmitsSelf | src/users/users.service.ts:301-303 | as written, a user without a referrer who enters their own code passes the guard, and linking would make them their own referrer |
| Users.LinkKeepsValid | src/users/users.service.ts:340-343 | linking a user to a referrer that passes the corrected guard keeps the invariant: nobody is their own referrer and no two users refer each other |
| Users.Reached | src/users/users.service.ts:531-539 | the number of leading tiers the 30-day volume reaches: all before it are reached and the next is not |
| Users.ChooseTier | src/users/users.service.ts:531-539 | the loop picks the last tier before the first one the volume does not reach, or none |
| Users.ChosenTierIsHighestReached | src/users/users.service.ts:517-539 | on a ladder sorted by ascending threshold, every reached tier is at or before the chosen one |
| Users.Retier | src/users/users.service.ts:541-559 | a tier update changes only the tier fields of the user |
| Users.RetierShowsChosenTier | src/users/users.service.ts:541-559 | an AMBASSADOR keeps partnerType and records the volume tier as realPartnerType; anyone else gets partnerType set; either way the tier shown is the chosen one and AMBASSADOR status is preserved |
| Users.Awarded | src/users/users.service.ts:591-610 | the logged rewards are never more than the tier's rewards |
| Users.AwardedIsSubsequence | src/users/users.service.ts:591-610 | the logged rewards are an in-order sublist of the tier's rewards |
| Users.AllCreditedAwardsAll | src/users/users.service.ts:591-610 | when every credit succeeds every reward is logged |
| Users.TierCredits | src/users/users.service.ts:594-602 | one ledger credit per reward, with its asset and quantity and category 44 |
| Users.CreditRewards | src/users/users.service.ts:591-610 | the loop logs exactly the rewards whose credit succeeded and sends exactly their credits |
| Users.CacheHits | src/users/users.service.ts:131-139 | the results hold exactly the requested ids with a truthy cached value, with that value |
| Users.CacheMisses | src/users/users.service.ts:140 | the ids left to query are exactly the requested ids the cache did not answer |
| Users.FetchFromStore | src/users/users.service.ts:146-160 | each stored user among the misses is added to both the results and the cache with its telegram id; nothing else is added |
| Users.ResolveTelegramIds | src/users/users.service.ts:127-163 | the results contain exactly the requested ids that are cached or stored, each with its telegram id, and the cache gains exactly the stored misses |
| Users.FindUser | src/users/users.service.ts:192 | `findOne`: a found user satisfies the filter; none found means no user does |
| Users.LatestId | src/users/users.service.ts:169-172 | the largest stored id, or 0 for an empty collection |
| Users.UserStore.constructor | src/users/users.service.ts:49-67 | the store starts empty |
| Users.UserStore.GetIncrementedId | src/users/users.service.ts:174-185 | the new id is one more than the cached last id, or than the latest stored id (0 when none); it is fresh and larger than every stored id, and is written back to the cache |
| Users.UserStore.CreateUser | src/users/users.service.ts:216-233 | a new user is stored under a fresh id with code "HOP"+id, no referrer and tier NEWBIE |
| Users.UserStore.UpdateOrCreateUser | src/users/users.service.ts:191-260 | a known telegram id returns its user and creates nothing; otherwise a new user is created and, when the NEWBIE tier exists, its reward is awarded once |
| Users.UserStore.AddReferral | src/users/users.service.ts:286-353 | with the corrected guard (Findings), a missing user or one with a referrer, an unknown code, self-referral and a two-cycle are rejected with nothing changed; otherwise parentId is set to the referrer even when the 5 HOPIUM commission credit failed |
| Users.UserStore.ConnectTonWallet | src/users/users.service.ts:262-284 | an address bound to another user, a missing user, or replacing a different stored address is rejected; the address is set only when none is stored, so a repeat call changes nothing |
| Users.UserStore.AwardTierReward | src/users/users.service.ts:579-636 | an existing AWARD entry for (user, tier) gives false and credits nothing; otherwise the in-order sublist of credited rewards is logged, the entry is always written and the answer is true |
| Users.UserStore.ProcessUpgradeTier | src/users/users.service.ts:508-577 | a missing user fails; no tiers changes nothing; no reached tier fails (reading `_id` of undefined); otherwise the chosen tier is set (realPartnerType for an AMBASSADOR, else partnerType plus a once-only award) |
| Users.UserStore.MapUserTelegramIds | src/users/users.service.ts:127-163 | the answer maps exactly the requested ids that are cached or stored to their telegram ids, cached values first; the id cache gains the stored misses with their telegram ids and keeps every other entry |
| Follows.InsertEdgeDegrees | src/follows/follows.service.ts:55-66 | inserting a new follow edge adds exactly one to its target's in-degree and its source's out-degree and leaves every other degree alone |
| Follows.RemoveEdgeDegrees | src/follows/follows.service.ts:77-88 | deleting an existing edge takes exactly one from its target's in-degree and its source's out-degree |
| Follows.TrimStart | src/follows/follows.service.ts:381 | leading white space is dropped and nothing else: the result is a suffix that starts with a non-space |
| Follows.TrimEnd | src/follows/follows.service.ts:381 | trailing white space is dropped and nothing else: the result is a prefix that ends with a non-space |
| Follows.SanitizeKeyword | src/follows/follows.service.ts:381 | the cleaned keyword holds only letters, digits, white space and '_', has no surrounding white space, and every character comes from the keyword |
| Follows.SanitizeIdempotent | src/follows/follows.service.ts:381 | cleaning a cleaned keyword changes nothing |
| Follows.SanitizeKeepsCleanKeyword | src/follows/follows.service.ts:381 | a keyword of allowed characters without surrounding white space is kept as it is |
| Follows.PageIds | src/follows/follows.service.ts:93-118 | hasMore iff more than limit ids were fetched; the page is the first limit ids with a user record, in order |
| Follows.PageBounds | src/follows/follows.service.ts:100-118 | a page lists at most limit users, exactly the first limit fetched ids that have a user record |
| Follows.Flag | src/follows/follows.service.ts:225-243 | one entry per listed id, in order, marked isFollowing iff the caller follows it |
| Follows.FollowGraph.constructor | src/follows/follows.service.ts:19-28 | no edges and every counter 0, which satisfies the counter invariant |
| Follows.FollowGraph.Follow | src/follows/follows.service.ts:30-69 | self-follow and an unknown target are rejected with nothing changed; otherwise the edge is upserted and both counters grow by one only when it was new, so a repeat changes nothing; the invariant followers = in-degree, following = out-degree is kept |
| Follows.FollowGraph.Unfollow | src/follows/follows.service.ts:71-91 | the edge is deleted; both counters drop by one only when an edge was actually deleted, and the counter invariant is kept |
| Follows.FollowGraph.FollowedBy | src/follows/follows.service.ts:210-216 | exactly the ids the caller has an edge to |
| Follows.FollowGraph.ListPage | src/follows/follows.service.ts:194-249 | hasMore iff more than limit ids were fetched; at most limit entries, every one a stored user among the fetched ids, and the page is exactly the first limit fetched ids that have a user record, in fetch order, each marked isFollowing iff the caller follows it |
| Follows.FollowGraph.SearchUser | src/follows/follows.service.ts:378-457 | an empty cleaned keyword searches nothing; otherwise exactly the hits with a user record are listed, each once, and marked followed iff the caller follows them or they are the caller |
| Follows.KnownOnly | src/follows/follows.service.ts:114-118 | skipping ids without a user record never lengthens the list |
| Follows.SearchHitsFacts | src/follows/follows.service.ts:408-429 | the stored users among the hits are listed each once and are exactly the hits with a user record |
| Follows.SearchListing | src/follows/follows.service.ts:410-446 | each hit with a user record appears exactly once and nothing else appears; isFollowing iff the id is in the followed set |
| Follows.FlagListsEachOnce | src/follows/follows.service.ts:431-445 | flagging a list without repeats lists each of its ids exactly once |
| Follows.SubsequenceKeepsDistinct | src/follows/follows.service.ts:114-118 | skipping ids keeps a list without repeats free of repeats |
| Feed.StatusCode | src/feed/constants/posts.ts:1-6 | post statuses are stored as the codes CLOSED 0, ACTIVE 1, CANCELLED 2 and PENDING 3 |
| Feed.StatusCodeInjective | src/feed/constants/posts.ts:1-6 | different statuses are stored as different codes |
| Feed.InitialStatus | src/feed/feed.service.ts:336-363 | a new post is PENDING iff its order is PENDING, else ACTIVE |
| Feed.InsertReactionCount | src/feed/feed.service.ts:438-466 | a newly inserted reaction adds one to its own (post, reaction) count and to no other |
| Feed.NoReactionsYet | src/feed/feed.service.ts:336-363 | a post nobody has reacted to has every count at 0 |
| Feed.CloseNoticeStatus | src/feed/feed.service.ts:795-810 | 'Liquidate' → LIQUIDATED, 'Hit SL' → SL_HIT, 'Hit TP' → TP_HIT, and CLOSE iff the reason is anything else |
| Feed.ClosedPost | src/feed/feed.service.ts:739-779 | a Limit or Stop order with open_price 0 cancels the post; any other close makes it CLOSED with the order's profit; no other field changes |
| Feed.StoredInvoiceLink | src/feed/feed.service.ts:962-966 | a stored link is returned iff resetLink is unset and a non-empty link exists for the amount |
| Feed.StoredLinkIsReused | src/feed/feed.service.ts:962-991 | after a link is stored for an amount a call without reset returns it, and links for other amounts are unaffected |
| Feed.Page | src/feed/feed.service.ts:212-215 | the page is the first limit entries and hasMore iff there are more than limit |
| Feed.UserFeedPageFacts | src/feed/feed.service.ts:1226-1260 | a user's page keeps only posts whose order still exists, in their order, at most limit of them, and hasMore iff more than limit posts have their order |
| Feed.BestRanksSound | src/feed/feed.service.ts:1408-1443 | every badge of a type is the rank and counter of a qualifying entry of that type |
| Feed.BestRanksMinimal | src/feed/feed.service.ts:1408-1443 | every qualifying entry has a badge of its type with a rank no larger than its own, so the badge holds the smallest rank |
| Feed.TrophyAndMedalRanks | src/feed/feed.service.ts:1408-1443 | trophies have rank ≤ 3 and medals rank > 3 |
| Feed.PostOf | src/feed/feed.service.ts:621 | `findOne({ orderId })`: a found post has the order; none found means no post has it |
| Feed.FindPostForOrder | src/feed/feed.service.ts:621 | the loop finds a post of the order, or reports that none exists |
| Feed.PostOfUnique | src/feed/feed.service.ts:355-358 | with one post per order, the lookup finds exactly that post |
| Feed.FeedStore.constructor | src/feed/feed.service.ts:73-104 | no posts and no reactions |
| Feed.FeedStore.CreatePost | src/feed/feed.service.ts:331-431 | a missing, CLOSED or CLOSING order and a second post for the order are rejected with nothing changed; otherwise one new post with all counters 0 and the initial status is added |
| Feed.FeedStore.CreateReaction | src/feed/feed.service.ts:433-469 | a missing post is rejected; the (post, user, reaction) triple is upserted and the post's counter for that reaction grows by one only when the triple is new; counters always equal the stored reactions |
| Feed.FeedStore.HandleOrderUpdated | src/feed/feed.service.ts:620-663 | the post of the order becomes ACTIVE when the order is ACTIVE and its author exists; otherwise nothing changes |
| Feed.FeedStore.HandleOrderClosed | src/feed/feed.service.ts:728-779 | the post of the order (when its author exists) becomes `ClosedPost`; nothing else changes |
| Feed.FeedStore.GetInvoiceLink | src/feed/feed.service.ts:954-996 | a missing post is rejected; a stored link is returned unchanged unless reset; otherwise the new link is stored under the amount and the links for other amounts are kept |
| Campaign.CampaignStatus | src/campaign/campaign.service.ts:90-104 | UPCOMING iff now is before the start, COMPLETED iff now is after the end, ONGOING iff start ≤ now ≤ end, both boundaries included |
| Campaign.OngoingAgreesWithStatus | src/campaign/campaign.service.ts:197-203 | a campaign is listed as ongoing exactly when it is in the catalogue and its status is ONGOING |
| Campaign.FindCampaign | src/campaign/campaign.service.ts:80-88 | found iff some campaign has the id, and then it is that campaign; an unknown id is an error |
| Campaign.CampaignData | src/campaign/campaign.service.ts:205-248 | TOP_VOLUME_TRADE scores order_value of a placed order, TOP_HIGHEST_VOLUME close_order_value of a closed order else order_value, TOP_PNL the profit or 0 of a closed order, any other condition 0; reading the missing order of the other event kind fails |
| Campaign.Entries | src/campaign/campaign.service.ts:255-274 | no more entries than campaigns, and never a zero score |
| Campaign.EntriesMembers | src/campaign/campaign.service.ts:255-274 | an event records a scoring for a campaign iff the campaign is listed, its data does not fail and its score is not 0 |
| Campaign.AddScore | src/campaign/campaign.service.ts:308-323 | ZINCRBY: the user's score in the campaign grows by exactly the score and every other score is unchanged |
| Campaign.AddAllEffect | src/campaign/campaign.service.ts:250-306 | after an event each of the user's campaign scores grows by exactly the sum the event scored in that campaign; other users are unaffected |
| Campaign.SumForAbsent | src/campaign/campaign.service.ts:261-263 | a campaign the event does not score in keeps its score |
| Campaign.RecordsOf | src/campaign/campaign.service.ts:308-323 | one participation record per recorded scoring, with the user, the campaign and the metadata |
| Campaign.ScoreEvent | src/campaign/campaign.service.ts:255-274 | the loop adds exactly the event's scorings to the scores and appends their records in campaign order; a failing campaign does not stop the others |
| Campaign.EntriesStep | src/campaign/campaign.service.ts:255-274 | one more campaign adds its scoring to the entries only when it scores |
| Campaign.AppendEntry | src/campaign/campaign.service.ts:265-270 | recording one more scoring adds its score and appends one record |
| Campaign.TruncateScore | src/campaign/campaign.service.ts:146-149 | `parseInt` of a score keeps its integer part, truncating toward zero |
| Campaign.Ranking | src/campaign/campaign.service.ts:138-161 | the rows are ranked 1..n in the returned order with their members and shown scores, and `me` is dropped iff the caller is on the list |
| Campaign.MyRow | src/campaign/campaign.service.ts:169-191 | the caller's row is absent iff the rank or the score is missing, and otherwise has rank zrevrank+1 ≥ 1 |
| Campaign.CampaignStore.constructor | src/campaign/campaign.service.ts:28-33 | the given catalogue with no scores and no records |
| Campaign.CampaignStore.ProcessUserCampaignScore | src/campaign/campaign.service.ts:308-323 | adds exactly the score to the user's score in the campaign and appends one record |
| Campaign.CampaignStore.HandleNewOrderPlaced | src/campaign/campaign.service.ts:251-275 | every ongoing campaign the placed order scores in gets the score and a record |
| Campaign.CampaignStore.HandleNewOrderClosed | src/campaign/campaign.service.ts:278-306 | a close without close_order_value changes nothing; otherwise every ongoing campaign the close scores in gets the score and a record |
| Campaign.CampaignStore.GetLeaderboard | src/campaign/campaign.service.ts:126-167 | an unknown campaign is rejected; otherwise the rows are ranked 1..n in the returned order and `me` is null iff the caller has no rank or score or appears in the list |
| Leaderboard.TabType | src/leaderboard/leaderboard.service.ts:36-59 | PROFIT and LOSS map to PNL, VOLUME to VOLUME, COPY_COUNTER to COPY_COUNTER, and an unknown tab to no type |
| Leaderboard.AwardTypeAgrees | src/leaderboard/leaderboard.service.ts:217-224 | the award's PNL default picks the same type as the listing's switch on every tab |
| Leaderboard.FindSummary | src/leaderboard/leaderboard.service.ts:181-202 | a summary lookup finds a document with the key, or reports that none has it |
| Leaderboard.ValueAt | src/leaderboard/leaderboard.service.ts:181-202 | with one document per key, a document's value is the value under its key |
| Leaderboard.Inc | src/leaderboard/leaderboard.service.ts:181-185 | an upsert adds a document only when none has the key |
| Leaderboard.IncEffect | src/leaderboard/leaderboard.service.ts:181-185 | `$inc` with upsert adds delta under its key (creating it at delta), keeps one document per key and changes no other key |
| Leaderboard.IncreaseSummariesEffect | src/leaderboard/leaderboard.service.ts:174-207 | the month's PNL grows by the profit, VOLUME by the volume, and the caller's COPY_COUNTER by 1 only when callerUserId > 0; nothing else changes |
| Leaderboard.UpsertHistoryEffect | src/leaderboard/leaderboard.service.ts:138-159 | the history keeps one row per (user, order), holds the new row, and the rows of other orders are kept |
| Leaderboard.UpsertHistoryIdempotent | src/leaderboard/leaderboard.service.ts:138-159 | upserting the same row twice is the same as once |
| Leaderboard.HistoryOf | src/leaderboard/leaderboard.service.ts:143-155 | the history row carries the order's user and displaying id |
| Leaderboard.AfterClose | src/leaderboard/leaderboard.service.ts:131-135 | a Limit or Stop close with open_price 0 changes neither history nor summaries |
| Leaderboard.ReplayedClose | src/leaderboard/leaderboard.service.ts:131-172 | a close delivered twice writes its history row once but adds its profit and volume twice |
| Leaderboard.BestIndex | src/leaderboard/leaderboard.service.ts:76 | the chosen document ranks no later than any other |
| Leaderboard.Remove | src/leaderboard/leaderboard.service.ts:76 | removing one document keeps all the others |
| Leaderboard.SortByValue | src/leaderboard/leaderboard.service.ts:74-83 | the sort is a permutation of the matching documents |
| Leaderboard.SortByValueSorted | src/leaderboard/leaderboard.service.ts:76 | ascending by value for LOSS and descending for every other tab |
| Leaderboard.Top | src/leaderboard/leaderboard.service.ts:81 | `.limit(10)` returns min(n, 10) rows |
| Leaderboard.TopSplitsSort | src/leaderboard/leaderboard.service.ts:74-83 | the listing and the documents left out together are the sorted documents |
| Leaderboard.TopFromInput | src/leaderboard/leaderboard.service.ts:74-83 | every listed row is a matching document, and with the ones left out they are exactly the matching documents |
| Leaderboard.TopAheadOfRest | src/leaderboard/leaderboard.service.ts:74-83 | every document left out ranks no earlier than every listed one |
| Leaderboard.TopIsListing | src/leaderboard/leaderboard.service.ts:74-83 | the top 10 is a listing: at most 10 rows in rank order, taken from the matching documents, no better document left out |
| Leaderboard.Bump | src/leaderboard/leaderboard.service.ts:235-243 | `$inc: { counter: 1 }` raises exactly the one counter by one |
| Leaderboard.AwardRanksEffect | src/leaderboard/leaderboard.service.ts:233-244 | on a tab, the user listed at index i gets counter+1 at rank i+1 and no other counter changes |
| Leaderboard.AwardTabsStep | src/leaderboard/leaderboard.service.ts:217-245 | awarding one more tab applies that tab's ranks to the counters so far |
| Leaderboard.AwardTabsEffect | src/leaderboard/leaderboard.service.ts:217-245 | over distinct tabs each counter grows by one exactly when its user is listed at its rank on its tab |
| Leaderboard.AwardTab | src/leaderboard/leaderboard.service.ts:233-244 | the `forEach` over one tab's list gives exactly `AwardRanks` |
| Leaderboard.AwardMonth | src/leaderboard/leaderboard.service.ts:217-245 | the loop over the tabs gives exactly `AwardTabs` over last month's listings |
| Leaderboard.AllTabsFacts | src/leaderboard/leaderboard.service.ts:217 | `Object.values(LeaderboardTab)` visits every tab once |
| Leaderboard.MonthAwardEffect | src/leaderboard/leaderboard.service.ts:214-246 | the k-th of last month's top 10 on each tab gets counter+1 at rank k on that tab, and no other counter changes |
| Leaderboard.LeaderboardStore.constructor | src/leaderboard/leaderboard.service.ts:23-30 | empty histories, summaries and achievements |
| Leaderboard.LeaderboardStore.GetLeaderboard | src/leaderboard/leaderboard.service.ts:32-89 | an unknown tab gives no `me` and no rows; otherwise the rows are a listing of the month's documents of the tab's type, and `me` is the caller's document, absent iff there is none |
| Leaderboard.LeaderboardStore.GetLeaderboardByUserIds | src/leaderboard/leaderboard.service.ts:92-128 | an unknown tab gives no rows; otherwise the rows are a listing of the month's documents of the type belonging to the given users |
| Leaderboard.LeaderboardStore.IncreaseLeaderboardSummaries | src/leaderboard/leaderboard.service.ts:174-207 | the summaries become `IncreaseSummaries` of the old ones and nothing else changes |
| Leaderboard.LeaderboardStore.HandleOrderClosed | src/leaderboard/leaderboard.service.ts:131-172 | history and summaries become `AfterClose` of the old ones; achievements are untouched |
| Leaderboard.LeaderboardStore.AwardAchievements | src/leaderboard/leaderboard.service.ts:214-246 | the counters become `AwardTabs` over last month's listings of every tab; histories and summaries are untouched |
| Socket.IntText | src/socket/socket.gateway.ts:96-98 | an integer prints as its decimal digits, with a leading '-' when negative |
| Socket.UserRoomOf | src/socket/socket.gateway.ts:96-98 | a user room is "user_" followed by the id as text |
| Socket.UserRoomInjective | src/socket/socket.gateway.ts:96-98 | different user ids have different rooms |
| Socket.UserRoomIsLowerCase | src/socket/socket.gateway.ts:96-98 | a user room's name is already lower case, so joining it by name through subscribe reaches the same room |
| Socket.StringRooms | src/socket/socket.gateway.ts:48-50 | each string element joins its lower-cased name in order; the walk stops with a failure at the first element that is not a string (its `toLowerCase` throws) |
| Socket.ParamRooms | src/socket/socket.gateway.ts:52-56 | one room per param: "channel:param", lower-cased |
| Socket.ParseSubscription | src/socket/socket.gateway.ts:41-62 | a falsy payload names nothing; a non-empty string names itself lower-cased; only an array walk can fail |
| Socket.ParsedRoomsAreLowerCase | src/socket/socket.gateway.ts:63-65 | every room a payload names is lower case |
| Socket.StringArrayRooms | src/socket/socket.gateway.ts:48-50 | an array of strings names each element lower-cased, in order, and does not fail |
| Socket.NonStringArrayIgnored | src/socket/socket.gateway.ts:48-51 | an array whose first element is not a string names nothing |
| Socket.ChannelObjectRooms | src/socket/socket.gateway.ts:51-60 | an object with a string channel names "channel:param" for each param when params is an array, else the channel itself |
| Socket.SubscribingToUserRoom | src/socket/socket.gateway.ts:41-65 | a subscribe payload naming another user's room joins that room |
| Socket.Client.constructor | src/socket/socket.gateway.ts:100-114 | a new socket is only in its own room and has no user |
| Socket.Client.Join | src/socket/socket.gateway.ts:63-65 | joining adds exactly that room |
| Socket.Client.Leave | src/socket/socket.gateway.ts:67-69 | leaving removes exactly that room |
| Socket.HandleSubscribe | src/socket/socket.gateway.ts:41-62 | the client joins exactly the rooms the payload names |
| Socket.HandleUnsubscribe | src/socket/socket.gateway.ts:72-94 | the client leaves exactly the rooms the same parsing names |
| Socket.UnsubscribeUndoesSubscribe | src/socket/socket.gateway.ts:41-94 | unsubscribing with the payload one subscribed with restores the rooms one was in before, when none of them was named |
| Socket.ParseUser | src/auth/auth.service.ts:92-104 | the header's user exists iff its id is truthy, and carries that id |
| Socket.HandleConnection | src/socket/socket.gateway.ts:100-114 | a client joins "user_"+id, learns its user and is greeted only when the header parses to a user with an id; otherwise nothing changes |
| Socket.HandleDisconnect | src/socket/socket.gateway.ts:116-120 | a client with a user id leaves that user's room; otherwise nothing changes |
| Socket.ChannelNarrows | src/socket/socket.gateway.ts:122-145 | a channel only narrows who receives; without one the whole user room receives |
| Socket.EmitToUser | src/socket/socket.gateway.ts:122-145 | reached are exactly the sockets in the user room and, when a channel is given, also in the lower-cased channel room |
| Notification.DisplayName | src/notification/notification.service.ts:184-190 | a digest shows the truncated username, or the truncated "first last" when the username is ""; a missing username shows "" ; never longer than the default name length |
| Notification.CallerName | src/notification/notification.service.ts:1077-1080 | an order notice names the caller by the username as it is, or by the truncated first and last names when the username is "" |
| Notification.Photos | src/notification/notification.service.ts:568 | a digest's photo list has each person's photo, in order |
| Notification.FollowerNotice | src/notification/notification.service.ts:536-591 | no notice without followers; NEW_FOLLOWER with total 1 for one; NEW_FOLLOWERS naming the first follower with total one less than the followers and all photos for several |
| Notification.ReferralNotice | src/notification/notification.service.ts:593-646 | the same rule with NEW_REFFERAL and NEW_REFFERALS |
| Notification.DigestAccountsForEveryone | src/notification/notification.service.ts:566-575 | a many-digest's photo list has one entry per person, its total plus one |
| Notification.DigestsAgree | src/notification/notification.service.ts:536-646 | follower and referral digests of the same people go to the same user with the same name, total and photos |
| Notification.FollowerInfos | src/notification/notification.service.ts:180-193 | a digest lists only followers, at most one entry per follow |
| Notification.FollowerInfosCount | src/notification/notification.service.ts:181-183 | a follower no longer found is skipped; every other follow is listed |
| Notification.CollectFollowerNotices | src/notification/notification.service.ts:165-198 | the outer loop sends, in group order, the digest of each followed user that has followers left |
| Notification.FollowerDigests | src/notification/notification.service.ts:165-198 | one optional digest per followed user, computed from its followers |
| Notification.CollectFollowers | src/notification/notification.service.ts:180-193 | the inner loop builds exactly the digest entries of the followers found |
| Notification.OfParent | src/notification/notification.service.ts:217-223 | a referrer's group holds exactly its referrals, in arrival order |
| Notification.OfParentNone | src/notification/notification.service.ts:219-221 | a referrer with no referral has an empty group |
| Notification.GroupByParent | src/notification/notification.service.ts:217-223 | the grouping loop makes a group for exactly the referrers seen, each holding that referrer's referrals in order |
| Notification.InsertAscending | src/notification/notification.service.ts:226 | inserting a key keeps the keys ascending and adds just that key |
| Notification.Parents | src/notification/notification.service.ts:226 | the referrers are visited in ascending id, each once, and they are exactly the parents of the recent referrals |
| Notification.ReferrerInfos | src/notification/notification.service.ts:231-240 | one digest entry per referral of the group, in order |
| Notification.FlattenStep | src/notification/notification.service.ts:226-247 | one more referrer appends just its digest call |
| Notification.FlattenAllPresent | src/notification/notification.service.ts:226-247 | when every referrer has a digest, all are sent in order |
| Notification.Digests | src/notification/notification.service.ts:226-247 | one optional digest per referrer, each from its own group |
| Notification.ReferralDigestOf | src/notification/notification.service.ts:243-246 | a referrer with referrals gets a digest addressed to it whose total counts its group |
| Notification.OneDigestPerReferrer | src/notification/notification.service.ts:226-247 | every referrer gets exactly one digest, in order, addressed to it, counting its group |
| Notification.ParentsHaveReferrals | src/notification/notification.service.ts:227 | no visited referrer has an empty group, so the empty-group skip never fires |
| Notification.ReferralDigests | src/notification/notification.service.ts:226-247 | the outer loop sends exactly the digests of the referrers in order |
| Notification.CollectReferrers | src/notification/notification.service.ts:230-240 | the inner loop builds exactly the digest entries of the group |
| Notification.SlTpUnchanged | src/notification/notification.service.ts:894-902 | a value equal to the old one, or given with an `undefined` old one, is no change; a `null` old value next to a price is a change |
| Notification.OldOrNull | src/feed/feed.service.ts:698-699 | the old value the order-update handler passes is never `undefined`: a missing entry, a missing value and 0 become `null`, any other price is kept |
| Notification.SlOnlyModifySendsNotices | src/feed/feed.service.ts:692-705 | a modify of the SL alone on an order with a TP always passes the change test, whatever the SL did |
| Notification.Capitalize | src/notification/notification.service.ts:959 | the side keeps its length, its first letter upper case and the rest lower case |
| Notification.CapitalizeIgnoresCase | src/notification/notification.service.ts:959 | capitalising does not depend on the case the side came in |
| Notification.NotCaller | src/notification/notification.service.ts:904-910 | the edit notices go to exactly the post orders of other users than the caller |
| Notification.EditNotices | src/notification/notification.service.ts:894-981 | without an SL/TP change nothing is sent; with one, one FUTURES_EDIT_TP_SL notice per post order of another user, with the caller's name and the capitalised side of that order |
| Notification.EditNoticesFor | src/notification/notification.service.ts:916-975 | one edit notice per target, in order |
| Notification.CopierTemplate | src/notification/notification.service.ts:1009-1063 | each of LIQUIDATED, SL_HIT, TP_HIT and CLOSE selects its own template, iff; an empty, OPENED or unknown status selects the opened template |
| Notification.Holders | src/notification/notification.service.ts:1024-1034 | every holder of a post order is among the holders |
| Notification.FirstPerUser | src/notification/notification.service.ts:1024-1034 | grouping keeps one post order per user, taken from the input, and loses no user |
| Notification.WithoutSide | src/notification/notification.service.ts:1029-1033 | a grouped row keeps its user and order id and has no side |
| Notification.CopierNoticesFor | src/notification/notification.service.ts:1065-1098 | one copier notice per target, in order |
| Notification.CopierNotices | src/notification/notification.service.ts:988-1109 | an order without symbol, side or displaying id sends nothing; otherwise the notices go to exactly the users other than the caller who hold a copy or counter of the order, all with the template of the post's status, and for a CLOSE one notice per such post order, in order |
| Notification.OneCopierNoticePerUser | src/notification/notification.service.ts:1020-1036 | outside a CLOSE each copier hears once however many copies they hold, and the notice carries an empty side |
| Notification.LastOfAsset | src/notification/notification.service.ts:1351-1361 | the position found holds the asset and no later reward does; none is found only when no reward holds it |
| Notification.AmountsAreLastQuantities | src/notification/notification.service.ts:1351-1361 | the reduce leaves each of the CUSDT and LUSDT amounts at the quantity of the last reward of that asset, 0 without one |
| Notification.TierRewardNotice | src/notification/notification.service.ts:1347-1372 | a RANK_CHANGED notice to the user whose amounts are the last CUSDT and LUSDT quantities |
| Notification.Notifier.constructor | src/notification/notification.service.ts:53-68 | a new notifier has made no call |
| Notification.Notifier.SendNoti | src/notification/notification.service.ts:124-138 | the chat-bot call is made; the result is true iff delivery does not throw |
| Notification.Notifier.SendAll | src/notification/notification.service.ts:972-978 | every notice is sent in order; a failed one does not stop the rest |
| Notification.Notifier.SendFollowerNotification | src/notification/notification.service.ts:536-591 | exactly the follower digest's call is made |
| Notification.Notifier.SendReferralNotification | src/notification/notification.service.ts:593-646 | exactly the referral digest's call is made |
| Notification.Notifier.ProcessFollowerNotifications | src/notification/notification.service.ts:140-199 | the calls made are the follower digests of the groups, in order |
| Notification.Notifier.ProcessReferralNotifications | src/notification/notification.service.ts:201-248 | the calls made are one referral digest per referrer, in ascending referrer id |
| Notification.Notifier.SendSlTpUpdateNotification | src/notification/notification.service.ts:870-986 | the calls made are exactly the edit notices |
| Notification.Notifier.SendFuturesCallingToCopierNotification | src/notification/notification.service.ts:988-1109 | the calls made are exactly the copier notices |
| Notification.Notifier.SendAccountTierRewardNotification | src/notification/notification.service.ts:1332-1379 | nothing for an unknown user; otherwise exactly the tier-reward notice |
| Commission.PushRecord | src/commission/commission.service.ts:36-52 | the indexed document is a level-1 commission from the payer to the recipient, whose referrer id is the recipient, paid and counted in the given asset, of the given order type and amount |
| Commission.TotalCommission | src/commission/commission.service.ts:59-95 | a failed search totals 0, and so does a user with no matching record in the asset (and order type, when one is given) |
| Commission.NoMatchTotal | src/commission/commission.service.ts:87 | with no matching record the sum is 0 |
| Commission.TotalSplitsByType | src/commission/commission.service.ts:61-73 | the unfiltered total is the sum of the REFERRAL, MISSION and VOLUME totals |
| Commission.PushCounts | src/commission/commission.service.ts:36-95 | a pushed commission adds its amount to its recipient's total in its asset and type, and changes no other user's totals |
| Commission.BucketTotal | src/commission/commission.service.ts:341-351 | the first bucket of the type gives the total; a type with no bucket gives 0 |
| Commission.HopiumCommission | src/commission/commission.service.ts:296-361 | the answer is the empty list exactly when the search fails, else the volume, mission and referral totals |
| Commission.BucketOf | src/commission/commission.service.ts:326-337 | an order type has a bucket iff the user has a HOPIUM record of that type, and its value is that type's total |
| Commission.AggregateBucket | src/commission/commission.service.ts:326-351 | over the aggregation, each type's bucket total equals the type's total commission, 0 without records |
| Commission.HopiumAgreesWithTotals | src/commission/commission.service.ts:296-361 | the HOPIUM breakdown agrees with `getTotalCommission` in HOPIUM for each of the three order types |
| Commission.WeeklyRank | src/commission/commission.service.ts:177-243 | 0 iff the search fails or finds nobody; otherwise the 1-based position of the user's first bucket, or -1 iff the user is not among the buckets |
| Commission.RankIsPosition | src/commission/commission.service.ts:235-236 | the user of the i-th bucket ranks i + 1 |
| Commission.OpenOrderCommission | src/commission/commission.service.ts:401-403 | the commission is the greatest whole number not above the volume |
| Commission.OpenOrderCommissionFacts | src/commission/commission.service.ts:401-403 | a whole volume is paid in full, and a larger volume never pays less |
| Commission.CloseEffect | src/commission/commission.service.ts:364-399 | a cancelled order (open price 0) or a failed credit changes nothing; otherwise the owner is credited once, and a VOLUME commission from and to the owner is indexed iff the owner is found and the index call succeeds |
| Commission.CloseCountsVolume | src/commission/commission.service.ts:364-399 | when the whole close goes through, the owner's HOPIUM VOLUME total grows by exactly the credited amount |
| Commission.CommissionService.constructor | src/commission/commission.service.ts:24-34 | a new service has an empty ledger and an empty index |
| Commission.CommissionService.PushCommission | src/commission/commission.service.ts:36-56 | the record is appended iff the index call succeeds; the ledger is untouched |
| Commission.CommissionService.HandleNewOrderClosed | src/commission/commission.service.ts:364-399 | the ledger and index grow by exactly the close effect |
| Orders.StartOfDay | src/orders/order.service.ts:78-80 | the start of a UTC day is a whole number of days and at most a day before the instant |
| Orders.WindowStart | src/orders/order.service.ts:86-98 | a window starts at the start of the day `Days` days before today |
| Orders.WindowsNest | src/orders/order.service.ts:78-98 | the 30d window starts before the 7d one, which starts before the 1d one |
| Orders.CopyCounterOf | src/orders/order.service.ts:125-142 | copies and counters count the orders whose metadata side is COPY and COUNTER; the volume sums the order values |
| Orders.CopiesAndCountersBounded | src/orders/order.service.ts:125-142 | copies and counters together never exceed the orders |
| Orders.CopyCounterOrders | src/orders/order.service.ts:71-123 | three rows, for 1d, 7d and 30d in that order |
| Orders.FilterCountMonotone | src/orders/order.service.ts:86-98 | a narrower window filter counts no more orders of a side |
| Orders.FilterSumMonotone | src/orders/order.service.ts:86-98 | over non-negative order values a narrower window sums no more |
| Orders.Within30Days | src/orders/order.service.ts:72-83 | every queried order lies in the 30d window, so the 30d row covers them all |
| Orders.CountsGrowWithWindow | src/orders/order.service.ts:71-123 | copies and counters grow from the 1d row to the 7d row to the 30d row |
| Orders.VolumeGrowsWithWindow | src/orders/order.service.ts:71-123 | with non-negative order values the volume grows from 1d to 7d to 30d |
| Orders.LiquidationPrice | src/orders/order.service.ts:182-186 | 0 without a maintenance margin; else the open price minus (buy) or plus (otherwise) the margin cushion per unit; no finite price for a zero quantity |
| Orders.LiquidationAgainstPosition | src/orders/order.service.ts:182-186 | with margin above the maintenance margin a buy liquidates below its open price and a sell above it, and the side's case does not matter |
| Orders.GetUserPosition | src/orders/order.service.ts:167-207 | one row per order, in order, carrying the order and its liquidation price |
| Orders.WindowAggs | src/orders/order.service.ts:209-249 | the profitable orders of a window never exceed its orders |
| Orders.WindowAggsMonotone | src/orders/order.service.ts:209-249 | the 1d window holds no more orders than the 7d one, and that no more than the 30d one |
| Orders.Shape | src/orders/order.service.ts:304-312 | the row keeps its window, profit and volume; the win rate is profitable orders over orders in percent (so within 0..100), 0 without orders; the ROI is profit over margin in percent, 0 without margin |
| Orders.ShapeAchievements | src/orders/order.service.ts:302-313 | the loop builds exactly one shaped row per window, in order |
| Orders.AchievementRows | src/orders/order.service.ts:302-313 | each row belongs to its window, in order, with a win rate between 0 and 100 |
| Orders.CountsFor | src/orders/order.service.ts:358-367 | the first row of the timeframe gives its figures; a missing timeframe gives zeros |
| Orders.Earnings | src/orders/order.service.ts:355-369 | one earnings row per achievement row, carrying that achievement |
| Orders.EarningsMatchWindows | src/orders/order.service.ts:322-372 | each earnings row pairs a window's achievement with the copy and counter figures of the same window |
| Orders.UserFutureOrder | src/orders/order.service.ts:48-65 | the first order listed, null for an empty list, and an error when the futures call failed |
| Orders.OrderService.constructor | src/orders/order.service.ts:28-46 | a new service has an empty cache |
| Orders.OrderService.GetUserAchievement | src/orders/order.service.ts:251-320 | a cached answer is returned as it is when allowed; otherwise the rows of the searched orders are computed and cached under the user |

## Left out

- Database, cache, search-index, message-bus, wallet, chat-bot and futures-service calls. Only their effect on the modelled maps, sets and sequences is kept. Where the model has a success parameter (`creditOk`, `pushOk`, `failing`, `failed`, …), the failure path of that call is modelled; a failure of any other call is not, and the operation behaves as if that call succeeded.
- The query bodies themselves are left out. This covers the Mongo filters and Elasticsearch bodies, the `-createdAt` sorts, `skip`/`limit` on the store side, and the order in which a `$group` stage emits its groups. Each model takes the documents a query returns as an input sequence, with the filter written out as a predicate where the rule depends on it.
- Concurrency:
  - the claim lock is modelled sequentially, as a set of held keys;
  - `Promise.all` and `allSettled` fan-out become sequential sends;
  - `forEach(async …)` in `awardAchievements` and the un-awaited streak update after a claim run in program order;
  - queues, cron decorators and scheduling are not modelled.
- Clocks and randomness: `dayjs` readings and day keys are integer parameters, and the spinner draw is a `real` parameter in [0, 1).
- Time-to-live values of cache entries, the lock TTL and `pexpire` are not modelled.
- Floating point:
  - money, prices and rates are exact `real`s;
  - the digits `toFixed` and `formatVolume` produce are not modelled;
  - the TP/SL percentage strings in notifications are not modelled;
  - the 4-decimal rounding of campaign scores is not modelled;
  - the TON price conversion is not modelled.
- Helper.FormatVolumeUnit: states only which branch of `formatVolume` is taken and so its K/M suffix, not the digits of its `toFixed` output. A value with 0 < abs(v) < 0.05 takes the plain branch yet also prints '0' (through `toFixed(1)` and `Math.round`), so '0' is not confined to the Zero branch.
- Orders.LiquidationPrice: the price uses real division, and the non-finite number a zero quantity gives is `None`.
- Follows.FollowGraph.SearchUser: the order of the result is not stated. The store returns the matches in its own order, not in hit order, and the model fixes none. An error of the search engine, which returns empty data, is not modelled.
- Notification.CopierNotices: the copier's own futures order is not modelled. A CLOSE notice attaches it, looked up through `getUserFutureOrder`. The timestamps and photo URL of every context are not modelled either.
- Notification.EditNotices: the copied order's fields and the TP/SL percentages carried in the context are not modelled. The context also reads `originalOrder.side`, which throws when the edited order is missing; that path is not modelled.
- Notification.EditNotices: the notice of a target is lost when `getUserFutureOrder` (src/orders/order.service.ts:48-65) throws for that target (src/notification/notification.service.ts:917); its error is swallowed in `getFuturesOrders` and the `[0]` read throws. `allSettled` keeps the other targets' notices. The model sends every target's notice.
- Notification.CopierNotices: for CLOSE, the same `getUserFutureOrder` failure (src/notification/notification.service.ts:1068) rejects that copier's send, and `Promise.all` then abandons the wait; which of the other copiers' notices were already sent depends on timing. The model sends every copier's notice.
- Tasks.TaskEngine.ProcessClaimTask: the MISSION commission indexed from and to the claiming user, under that user's own referral code, after the credit (src/tasks/tasks.service.ts:529-536) is not modelled.
- Helper.TruncateName: lengths and the cut count characters (code points), where JavaScript's `length` and `substring` count UTF-16 code units. A name with characters outside the Basic Multilingual Plane (such as emoji) is measured longer in the source and may be cut inside a surrogate pair there; the model measures and cuts it by characters. Notification.DisplayName and Notification.CallerName inherit this.
- Common.Lower: lower-cases ASCII capitals only; JavaScript `toLowerCase` also lower-cases non-ASCII letters (such as 'Ä').
- Tasks.TaskEngine.ResetDailyReward: applies the corrected active step (Findings), not the step as written in src/tasks/tasks.service.ts:129-139.
- Users.UserStore.AddReferral: applies the corrected self-referral guard (Findings), not the guard as written in src/users/users.service.ts:301-303.
- Commission.WeeklyRank: takes the bucket keys as given. The weekly window, the DCA and open-price exclusions, and the top-10 by doubled volume that select them are not modelled.
- Orders.OrderService.GetUserAchievement: takes the closed orders as given and applies the search filter to them. The Elasticsearch sub-aggregation over `now-Nd/d` is modelled as "closed at or after the start of the day N days ago".
- The per-user enrichment of follow lists and feed pages is not modelled: profit and win rate taken from the achievement service.
- Notifications, chat-bot messages and socket emits sent as side effects of other services' operations (follow, claim, order events) are not modelled. The Notification module models the notification service's own operations.
- The copier notification sent from the feed's `handleOrderUpdated`, and `updateOrderMetadata`, are not modelled.
- These operations are pure store or search-index queries with no rule beyond their query bodies, so they are not modelled:
  - `getTotalCallCommission`, `getWeeklyPoolRevenue`, `getListCommission` and `getCallCommissionShareToMaster`;
  - `getListUserOpenFutureOrders` and `getLatestOrderLog`.
- Socket: numbers in a payload are integers, and values that are neither strings, arrays nor objects are modelled only as far as the gateway tests them.
- src/users/calculation-score.service.ts is not part of this model: it depends on a data file, the current date and random numbers.
- These files are not part of this model; the constants the services take from them are written out where the code uses them:
  - src/leaderboard/constants/leaderboard.ts;
  - src/notification/constants/notification.constants.ts;
  - src/orders/constants/order.ts;
  - src/assets/campaigns.json;
  - src/tasks/type/task.type.ts;
  - src/commission/constants/common.ts;
  - src/feed/constants/orders.ts.

## Findings

| source | as written | input that shows it | evidently intended | confidence | as-written member | corrected member |
|---|---|---|---|---|---|---|
| src/tasks/tasks.service.ts:129-139 | `getActiveUserStreak` wraps only when the stored counter is greater than 7, but the counter never exceeds 7 | stored counter 7, after the seventh credit: it names step 8, which does not exist, and the daily reset reopens task 8 | wrap at 7, so the active step is the step the next credit marks claimable (1) | not executed | Tasks.ActiveStreakAsWrittenOverruns | Tasks.ActiveStepIsNextCredit |
| src/users/users.service.ts:301 | `id === parent.id` compares the numeric user id with the document's string-valued `id`, so it is always false | user 5 with no referrer enters their own code HOP5: the guard lets it through and the user becomes their own referrer | reject when the referrer is the user (numeric ids compared), as well as the two-cycle | not executed | Users.SelfReferralAsWrittenAdmitsSelf | Users.LinkKeepsValid |
