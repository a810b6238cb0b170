# VESTA on-chain protocol: a verified model

VESTA is three Solana programs. **aegis** keeps issuers, credentials, verifier policies and accreditation edges, and
answers two questions: does this subject hold that credential, is this issuer accredited for that schema. **argus** is the
transfer hook of a loyalty mint: every peer transfer passes its ordered rules, per-wallet velocity limits and a cached
identity verdict, under a governed, content-addressed policy. **vesta_core** mints, redeems and claws back a merchant's
points, with streaks, tiers, segments, campaigns and a liability reserve, and its *koinon* part swaps points between
allied merchants.

The model is a set of transition systems. Each instruction is a function from the accounts it touches to their new
contents or an error; a failed instruction leaves everything as it was; the clock (`now`), the slot and what other programs
return are inputs of the step. A *trace* is any sequence of states and events of any length, and the main results hold for
every trace. Most of them read a stored field back as a fact about the events that really happened: a counter is a sum over
the accepted history, a cached bit is the last verdict, a timestamp is that of the first failure of an unbroken run.

| files | contents |
|---|---|
| `Base`, `History`, `MapSum`, `PointLedger` | machine integers, addresses, results; reading one fact from a history of marks; totals over a map; one mint's supply and balances |
| `Aegis`, `AegisProgram` | the registry, both verdicts, the credential lifecycle |
| `Argus`, `ArgusInvariant`, `ArgusHistory`, `ArgusTimelock`, `ArgusVelocity`, `ArgusTrust`, `ArgusProgram` | the guard |
| `TrustStreak` | the accreditation crank that argus and vesta_core share |
| `World`, `ShopWorld` | argus with aegis, and vesta_core with aegis, as joint runs |
| `Vesta`, `VestaFrame`, `VestaIssuance`, `VestaStreak`, `VestaEarn`, `VestaCampaign`, `VestaQuest`, `VestaSegments`, `VestaSpending`, `VestaReserve`, `VestaTrust`, `VestaRuns`, `VestaProgram` | one merchant |
| `Koinon`, `KoinonRates`, `KoinonMembers`, `KoinonSwaps`, `KoinonRuns`, `KoinonProgram` | alliances and swaps |

The `*Program` modules hold the handlers in the form the programs have: classes whose methods test requirements one after
another and assign fields, loops included. Each method is proved to commit exactly what the corresponding instruction
function says (`Base.Commits`: on success the new state, on failure the old one and the same error), so every result about
runs is a result about them.

## Where the code and its comments differ

- `rollback_policy` asks only that the target was approved (programs/argus/src/instructions/governance.rs:375-378), so an
  approved version that was never active can come into force at once, although the comment on the timelock
  (programs/argus/src/constants.rs:98-100) says an approver alone cannot rush a rule change past the delay; what it takes is
  an approver and an activator. The model follows the code: timelock results cover `activate_policy` and role
  changes, `RipeThroughoutIffRollbacksWait` gives the exact condition under which they extend to every policy in force, and
  `RollbackCanPrecedeTimelock` is a run where they do not.
- The comment on `PolicyDoc` (programs/argus/src/state.rs:171-174) calls proposing the same document twice idempotent. The
  version account is created with `init`, so a second proposal of the same content always fails; `AbandonedProposalIsDead`
  states the consequence.
- A quest is described as paying a one-time reward (programs/vesta-core/src/state.rs:324-326). A payout clamped by what is
  left of the budget leaves the quest open, and it is paid again once the budget is raised
  (programs/vesta-core/src/instructions/earn_points.rs:430-446): `QuestCanOverpay` is a run where a customer draws 150 of a
  100-point reward, `OneTimeRewardIffNeverTight` the exact condition, and `WholeBudgetsPayOnce` a way for a merchant to stay
  within it.
- The comment on the campaign progress (programs/vesta-core/src/instructions/earn_points.rs:378-381) has a campaign closed
  and opened again start afresh. It does so in a new slot only: `SameSlotCarriesOver` is the run, `CreationScopesExactly` the
  exact condition.
- A healthy crank by anyone restores the posture even after an emergency override by the authority
  (programs/argus/src/instructions/trust.rs:199-204, programs/vesta-core/src/instructions/merchant_trust.rs:190-203).
  `HealthyCrankUndoesOverride` and `HealthyCrankUndoesFreeze` are the runs; `DegradedUntilRestored` says exactly when a
  posture stands.
- A member's inbound budget is called daily. Leaving and rejoining starts a fresh member account
  (programs/vesta-core/src/instructions/koinon.rs:251-327), so one day can carry more: `RejoinDoublesBudget` is the run and
  `InflowIsGrossIffNoRejoin` the exact condition.
- Policy, screening and segment epochs saturate at u64::MAX, where a change no longer invalidates caches. Results that lean
  on an epoch say "below saturation"; `EpochMovesBelowSaturation`, `ScreeningMovesBelowSaturation` and
  `SegmentEpochMovesBelowSaturation` show a change moves each epoch exactly then, and `SaturatedRunHidesAChange` is a run
  that reaches saturation and hides a policy change.

## Model

| member | source | states |
|---|---|---|
| `ArgusVelocity.GiftMeaning` | programs/argus/src/instructions/execute.rs:49-250 | A transfer is accepted as a peer gift if and only if it is neither issuer nor treasury flow nor empty, passes every destination screen, and, against the sender's actual past gifts, keeps the cooldown, the day's count cap and the day's volume cap |
| `ArgusVelocity.WalletIsHistory` | programs/argus/src/instructions/execute.rs:187-250 | In every reachable state a wallet's `sent_today`, `transfers_today` (saturated) and `last_transfer_at` are the sum, the number and the time of the gifts accepted from it |
| `ArgusVelocity.GiftKeepsCaps` | programs/argus/src/instructions/execute.rs:200-245 | After each accepted gift the day's true total is within the cap in force and the day's true count within the count cap, and every earlier gift of the wallet is at least the cooldown old |
| `ArgusVelocity.DayWithinCap` | programs/argus/src/instructions/execute.rs:224-236 | If the cap never exceeded C while a wallet gifted, no day of that wallet ever carries more than C |
| `ArgusVelocity.AnyWindowWithinTwiceCap` | programs/argus/src/instructions/execute.rs:187-236 | Under a cap never above C, any 86,400-second window carries at most 2C, wherever it lies against midnight |
| `ArgusHistory.CapabilityIsHistory` | programs/argus/src/instructions/refresh_eligibility.rs:57-190 | A stored capability is the verdict, epochs and expiry of the latest refresh of its subject, and is zeroed if it was invalidated since |
| `ArgusHistory.CapabilityMeaning` | programs/argus/src/instructions/execute.rs:280-316 | The hot path's cache read passes exactly when the subject's last write was a refresh that returned ok, its lifetime has not run out and neither epoch has moved since |
| `World.AcceptedGiftRestsOnVerdict` | programs/argus/src/instructions/execute.rs:148-160 | Under REQUIRE_ATTESTATION every accepted gift rests on a refresh of the destination less than its lifetime ago, at which the credential rule now in force was met in aegis, with no policy write, screening bump, refresh or invalidation in between (epochs below saturation) |
| `World.PositiveVerdictMeaning` | programs/argus/src/instructions/refresh_eligibility.rs:57-130 | A refresh that records ok found a credential issued and not ended, in its window, fresh enough and of the issuer and schema the config or its named, undeprecated policy demands |
| `ArgusInvariant.ReachableInv` | programs/argus/src/instructions/policy.rs:93-120 | Every reachable config passes `validate_policy` with a nonnegative lifetime; under governance the nine policy fields are the document of the version the active hash names, every version sits at the hash of its document, RoleAdmin is set and any anchor has a valid fall-to posture and grace |
| `ArgusInvariant.EpochNamesPolicy` | programs/argus/src/instructions/policy.rs:46-81 | Two states of one run with the same policy epoch below saturation have the same nine policy fields, governance adopted in between or not |
| `ArgusInvariant.SaturatedRunHidesAChange` | programs/argus/src/instructions/policy.rs:75-81 | At saturation that claim fails: a run of u64::MAX + 1 policy writes whose last changes the policy and leaves the epoch where it was |
| `ArgusInvariant.PinIsForever` | programs/argus/src/instructions/governance.rs:457-463 | Once pinned, the policy fields, the epoch and the active hash are the same in every later state |
| `ArgusInvariant.RollbackRestores` | programs/argus/src/instructions/governance.rs:368-435 | While unpinned, every version that was ever active is accepted again by rollback and restores exactly the nine fields live then |
| `ArgusInvariant.AbandonedProposalIsDead` | programs/argus/src/instructions/governance.rs:172-240 | A proposal displaced before approval is never active in any later state and its document can never be proposed again, since its content address is taken |
| `ArgusInvariant.RunEvolves` | programs/argus/src/instructions/governance.rs:201-463 | Along any run: programs and treasury bindings are fixed, epochs never fall, versions are never removed, rewritten or unapproved, and the timelock never changes |
| `ArgusHistory.VersionIsHistory` | programs/argus/src/instructions/governance.rs:201-302 | Each version's author, document and approver are those of the events that proposed and last approved it, approval after proposal, by a different key |
| `ArgusHistory.GovernedPolicyProvenance` | programs/argus/src/instructions/governance.rs:201-302 | The governed policy in force is the genesis document, or one proposed by the then-Author and approved by a different key that was Approver then, whatever happened to the roles since |
| `ArgusHistory.PendingApprovalIsHistory` | programs/argus/src/instructions/governance.rs:267-302 | `pending_approved_at` is the time of the latest approval of the version now pending, 0 if it has none |
| `ArgusHistory.ActivationWaitsOutTimelock` | programs/argus/src/instructions/governance.rs:337-366 | Every activation comes at least `timelock_secs` after the latest approval of the version it activates |
| `ArgusTimelock.ActiveVersionsAreRipe` | programs/argus/src/instructions/governance.rs:337-391 | If rollbacks only ever target versions that had been active, every version ever active is genesis or has an approval at least `timelock_secs` old |
| `ArgusTimelock.PolicyInForceIsRipe` | programs/argus/src/instructions/governance.rs:337-391 | In such runs the policy in force has always waited out its timelock |
| `ArgusTimelock.RipeThroughoutIffRollbacksWait` | programs/argus/src/instructions/governance.rs:337-391 | The policy in force has waited out its timelock in every state of a run if and only if every rollback in it went to genesis or came at least `timelock_secs` after its target's approval, a guard `rollback_policy` does not have |
| `ArgusTimelock.GenesisIsSelfApproved` | programs/argus/src/instructions/governance.rs:125-166 | Genesis is the one approved version whose author and approver are the same key |
| `ArgusTimelock.RollbackCanPrecedeTimelock` | programs/argus/src/instructions/governance.rs:375-378 | Without that proviso it fails: a concrete four-event run puts a never-active version in force in the second it was approved, under a one-day timelock |
| `ArgusHistory.QueuedRoleIsHistory` | programs/argus/src/instructions/governance.rs:492-526 | The queued role change is the last proposed and not applied, by the RoleAdmin of that moment, due `timelock_secs` after it |
| `ArgusHistory.RoleHolderIsHistory` | programs/argus/src/instructions/governance.rs:528-557 | Each role is held by the key adoption assigned or by the appointment that last took effect |
| `ArgusHistory.RoleChangesWaitOutTimelock` | programs/argus/src/instructions/governance.rs:492-557 | Every role holder other than the first was queued for that role by the then-RoleAdmin at least `timelock_secs` before taking effect, and RoleAdmin is never unset |
| `TrustStreak.StreakIsHistory` | programs/argus/src/instructions/trust.rs:199-225 | `failing_since` is the time of the first failing crank of the current unbroken run of failures, and 0 exactly when there is none |
| `TrustStreak.FailingCrankNeedsGrace` | programs/argus/src/instructions/trust.rs:205-225 | A failing crank moves the posture to the fall-to target if and only if its run has lasted the grace window |
| `TrustStreak.PostureIsLastSettled` | programs/argus/src/instructions/trust.rs:199-289 | The posture is whatever the last healthy crank, override or grace-spent failure chose, and without one the initial posture; nothing else moves it |
| `TrustStreak.DegradedUntilRestored` | programs/argus/src/instructions/trust.rs:199-289 | A posture other than NORMAL stays so over a stretch if and only if no healthy crank and no restore to NORMAL falls in it |
| `TrustStreak.FailingRunPersists` | programs/argus/src/instructions/trust.rs:205-225 | Through an unbroken run of failing cranks a started streak keeps its start, a degraded posture stays degraded, and a crank past the grace window takes the target |
| `ArgusTrust.GuardFollowsStreak` | programs/argus/src/instructions/trust.rs:134-289 | Every reachable argus anchor and posture is that streak machine run over the log of bindings, cranks and overrides that went through |
| `ArgusTrust.AnchorStreakIsHistory` | programs/argus/src/instructions/trust.rs:199-225 | So an anchor's `failing_since` is the first crank of its current failing run, 0 if none |
| `ArgusTrust.DegradedUntilRestored` | programs/argus/src/instructions/trust.rs:134-292 | So a degraded guard stays degraded over a stretch of a run exactly when no healthy crank and no `set_degrade_mode(NORMAL)` goes through in it |
| `ArgusTrust.HealthyCrankUndoesOverride` | programs/argus/src/instructions/trust.rs:199-204 | An emergency override does not stand by itself: a three-event run in which the authority freezes the guard and the next healthy crank, open to anyone, restores NORMAL |
| `World.DeTrustIsPermanent` | programs/argus/src/instructions/trust.rs:205-225 | Once the aegis edge behind an anchor is revoked or expired, no crank ever clears the streak or restores NORMAL without a manual restore or a re-binding |
| `World.NoGiftAfterDeTrust` | programs/argus/src/instructions/execute.rs:92-98 | From the first crank that comes the grace window after the streak already begun, or else after any later crank, no peer gift is accepted until then |
| `Aegis.EvaluateMeaning` | programs/aegis/src/instructions/verify.rs:92-157 | `evaluate` returns ok if and only if the credential was issued and not revoked, erased or closed since, is in its validity window and within the age bound; the mismatch reasons never occur |
| `Aegis.StandingIsHistory` | programs/aegis/src/instructions/attestation.rs:59-251 | A credential stands exactly when it was issued and not ended since, and its issue time is that issue's: no update moves it |
| `Aegis.AccreditationMeaning` | programs/aegis/src/instructions/accreditation.rs:105-156 | Right after an accreditation the verdict is ok exactly for the schemas named and before the expiry given, and never while the root is switched off |
| `Aegis.DeadEdgeStaysDead` | programs/aegis/src/instructions/accreditation.rs:178-186 | An accreditation edge once revoked or expired is never ok again for any schema |
| `Aegis.TraceWellFormed` | programs/aegis/src/instructions/attestation.rs:59-99 | Every attestation sits at the address its own issuer, subject and schema derive, and no policy has a negative freshness bound |
| `VestaIssuance.PlainEarnBound` | programs/vesta-core/src/instructions/earn_points.rs:41-61 | A plain earn, segment boosts included, mints at most floor(base * rate * 24,000 / 10,000) and at most 1,000,000 |
| `VestaIssuance.MultiplierBonus` | programs/vesta-core/src/instructions/earn_points.rs:397-436 | A multiplier bonus never exceeds the floor of its effective share and equals it exactly when neither the customer cap nor the budget cuts in |
| `VestaIssuance.MultiplierEarnBound` | programs/vesta-core/src/instructions/earn_points.rs:397-455 | A multiplier earn mints within the same joint cap, never more than the single floor over streak plus effective bps, and when unclamped at most one unit less |
| `VestaIssuance.ReachableTotals` | programs/vesta-core/src/instructions/earn_points.rs:63-70 | In every reachable state the customers' lifetime points sum to the merchant's issued total and the balances sum to the mint's supply |
| `VestaIssuance.SupplyIsFlows` | programs/vesta-core/src/instructions/offers.rs:256-266 | The supply is everything earned plus swapped in less redeemed less swapped out: gifts, clawbacks, the reserve and every setting leave it alone |
| `VestaIssuance.IssuedTodayIsHistory` | programs/vesta-core/src/instructions/earn_points.rs:72-82 | `issued_today` is the day's minted sum over both earn paths |
| `VestaIssuance.EarnKeepsDailyCap` | programs/vesta-core/src/instructions/earn_points.rs:83-89 | Each successful earn leaves the day's true minted sum within the daily cap in force |
| `VestaIssuance.StepEarn` | programs/vesta-core/src/instructions/earn_points.rs:23-102 | One amount, at most 1,000,000, enters the balance, the supply, the customer's and the merchant's lifetime totals and the day's counter alike |
| `VestaStreak.StreakIsHistory` | programs/vesta-core/src/instructions/earn_points.rs:31-39 | `streak_days` is the saturated length of the run of consecutive earn days ending on the last earn day; a customer who never earned has none |
| `VestaStreak.RunIsMaximal` | programs/vesta-core/src/instructions/earn_points.rs:31-39 | That run is maximal: every day in it was earned on, the day before it was not |
| `VestaStreak.TierMeaning` | programs/vesta-core/src/instructions/earn_points.rs:90-97 | A tier is at least k exactly when the earnings reach the k-th threshold |
| `VestaStreak.TierFollowsEarnings` | programs/vesta-core/src/instructions/earn_points.rs:90-97 | Every profile's tier is that of its lifetime points in every reachable state, and never falls |
| `VestaEarn.PlainEarnPaysHistory` | programs/vesta-core/src/instructions/earn_points.rs:200-258 | A plain earn mints exactly floor(base * rate * min(10,000 + 200 * min(run, 30) + boost, 24,000) / 10,000), where run is the length of the run of earn days it extends and boost the sum over segments whose last verdict is ok |
| `VestaEarn.PreviewIsHistory` | programs/vesta-core/src/instructions/earn_points.rs:526-541 | The bps a campaign composes with is that of the run of earn days the earn extends |
| `VestaCampaign.CampaignEarnWrites` | programs/vesta-core/src/instructions/earn_points.rs:454-483 | A campaign earn mints the streak share plus exactly the bonus it books, and a live campaign is required |
| `VestaCampaign.PayoutIsGreatest` | programs/vesta-core/src/instructions/earn_points.rs:424-436 | The clamped bonus is the greatest amount up to the gross that neither limit forbids |
| `VestaCampaign.PayoutLimits` | programs/vesta-core/src/instructions/earn_points.rs:378-446 | A payout continues from the customer's progress in this instance, fits the remaining customer cap and budget, is 0 on a finished quest, and completes a quest exactly when target and full reward are met |
| `VestaCampaign.SpentIsDrawn` | programs/vesta-core/src/instructions/earn_points.rs:466-477 | For every live instance `points_spent` is the sum of what customers drew under it since it was opened, and `participant_count` the number who joined since, each up to its counter's width |
| `VestaCampaign.OwnSlotScopesExactly` | programs/vesta-core/src/instructions/earn_points.rs:378-391 | An instance opened in a slot of its own spends exactly what its customers hold drawn under it and counts each once |
| `VestaCampaign.CreationScopesExactly` | programs/vesta-core/src/instructions/campaigns.rs:100-135 | A new instance's books start clean if and only if no customer's progress under the id already carries its creation slot |
| `VestaRuns.SameSlotCarriesOver` | programs/vesta-core/src/instructions/earn_points.rs:378-384 | A campaign closed and opened again within one slot does not start afresh: a four-event run after which the new instance has spent nothing and a customer still holds the old draw, quest done |
| `VestaCampaign.DrawFits` | programs/vesta-core/src/instructions/earn_points.rs:470-471 | A customer's draw never saturates: draw plus payout always fits u64 |
| `VestaCampaign.BudgetNeverExceeded` | programs/vesta-core/src/instructions/campaigns.rs:176-218 | A nonzero budget is never exceeded by the points spent, whatever retuning happens along the run |
| `VestaCampaign.DrawsWithinBudget` | programs/vesta-core/src/instructions/earn_points.rs:432-436 | Nor is it by the sum of customers' draws, for an instance opened in a slot of its own |
| `VestaCampaign.PayoutWithinCustomerCap` | programs/vesta-core/src/instructions/earn_points.rs:426-431 | Each payout leaves the customer's draw within the cap in force, or where it already was above it |
| `VestaCampaign.CompletionPaysInFull` | programs/vesta-core/src/instructions/earn_points.rs:438-446 | A quest completes only in a step that pays the full reward |
| `VestaCampaign.CompletionIsFinal` | programs/vesta-core/src/instructions/earn_points.rs:378-391 | A completed quest stays completed until progress under a strictly newer instance replaces it |
| `VestaCampaign.QuestPaysOnce` | programs/vesta-core/src/instructions/earn_points.rs:407-418 | Within one instance a customer completes a quest at most once and draws nothing from it afterwards |
| `VestaQuest.OneTimeRewardIffNeverTight` | programs/vesta-core/src/instructions/earn_points.rs:419-446 | The one-time reward, exactly: under a quest instance in a slot of its own every customer's draw is 0 or the reward in every state up to n, if and only if no due earn before n found `0 < points_budget - points_spent < quest_reward` under a nonzero budget |
| `VestaQuest.PaidOnCompletionUntilTight` | programs/vesta-core/src/instructions/earn_points.rs:419-483 | Until such an earn, whoever completed the quest holds exactly the reward and everyone else nothing |
| `VestaQuest.WholeBudgetsPayOnce` | programs/vesta-core/src/instructions/campaigns.rs:176-218 | If every budget set along the run is 0 or a multiple of the reward, no customer ever draws anything but the reward, once, on completion |
| `VestaRuns.QuestCanOverpay` | programs/vesta-core/src/instructions/earn_points.rs:430-446 | Otherwise the promise fails: a five-event run in which a customer of a 100-point quest draws 150 |
| `VestaSegments.OneBit` | programs/vesta-core/src/instructions/segmentation.rs:172-180 | Writing one of the eight bits decides that bit and no other |
| `VestaSegments.BitIsLastVerdict` | programs/vesta-core/src/instructions/segmentation.rs:163-185 | Bit i of a customer's cache is the verdict of the latest refresh of segment i under the cache's epoch, clear if there was none |
| `VestaSegments.EpochsAdvance` | programs/vesta-core/src/instructions/segmentation.rs:63-72 | Segment epochs never fall, and one epoch below saturation means one set of segment definitions |
| `VestaSegments.GateRestsOnVerdict` | programs/vesta-core/src/state.rs:225-236 | A satisfied gate rests on an ok verdict, the latest for that segment under the epoch in force, taken under the definitions in force (epoch below saturation) |
| `VestaSegments.BoostIsVerdicts` | programs/vesta-core/src/instructions/earn_points.rs:181-198 | The boost of a plain earn is the sum over active segments whose last verdict is ok, and 0 when the cache is stale |
| `ShopWorld.SatisfiedGateRestsOnCredential` | programs/vesta-core/src/instructions/segmentation.rs:122-185 | Through aegis: behind a satisfied gate stands a credential from the very issuer and schema the segment names now, issued, not ended and in its window at that refresh |
| `VestaSpending.OfferCountsDown` | programs/vesta-core/src/instructions/offers.rs:245-271 | What is left of an offer plus the redemptions since it was opened is what it was opened with: never oversold |
| `VestaSpending.ClawedTodayIsHistory` | programs/vesta-core/src/instructions/clawback.rs:106-121 | The clawback counter is the day's clawed sum |
| `VestaSpending.ClawbackKeepsDailyCap` | programs/vesta-core/src/instructions/clawback.rs:122-127 | Each clawback leaves the day's true clawed sum within the cap in force |
| `VestaReserve.RequiredIsTrueQuotient` | programs/vesta-core/src/state.rs:261-267 | `required_reserve` is the exact quotient, and `None` exactly when that does not fit u64 |
| `VestaReserve.CoveredMeaning` | programs/vesta-core/src/instructions/merchant_reserve.rs:217-227 | The withdrawal check in integers: supply * unit value * ratio < (balance + 1) * 10,000 |
| `VestaReserve.AttestationMeaning` | programs/vesta-core/src/instructions/merchant_reserve.rs:260-277 | An attestation says solvent exactly when the balance covers the true requirement, and fails only when that does not fit u64 |
| `VestaReserve.CoverageKept` | programs/vesta-core/src/instructions/merchant_reserve.rs:131-235 | Coverage, once true, is lost by nothing but an earn or a swap-in |
| `VestaReserve.CoverageLasts` | programs/vesta-core/src/instructions/merchant_reserve.rs:217-227 | Over any stretch of a run without those, every state stays covered |
| `VestaTrust.ShopFollowsStreak` | programs/vesta-core/src/instructions/merchant_trust.rs:134-278 | Every reachable issuance posture is the shared streak machine run over the merchant's log of bindings, cranks and overrides |
| `VestaTrust.MerchantStreakIsHistory` | programs/vesta-core/src/instructions/merchant_trust.rs:190-216 | So a merchant's `failing_since` is the first crank of its current failing run, 0 if none |
| `VestaTrust.DegradedUntilRestored` | programs/vesta-core/src/instructions/merchant_trust.rs:134-278 | A frozen or degraded merchant stays so over a stretch of a run exactly when no healthy crank and no override to NORMAL goes through in it |
| `VestaRuns.HealthyCrankUndoesFreeze` | programs/vesta-core/src/instructions/merchant_trust.rs:190-203 | The same run for a merchant: frozen by its owner, reopened by the next healthy crank |
| `ShopWorld.DeTrustIsPermanent` | programs/vesta-core/src/instructions/merchant_trust.rs:190-216 | Once the aegis edge behind a merchant is revoked or expired, no crank clears the streak or restores issuance without a manual restore or a re-binding |
| `ShopWorld.NoEarnAfterDeTrust` | programs/vesta-core/src/instructions/earn_points.rs:206-214 | From the first crank that comes the grace window after the streak already begun, or else after any later crank, no earn of either kind goes through until then |
| `KoinonRates.SwapPrice` | programs/vesta-core/src/instructions/koinon.rs:499-516 | Per swap: `ui_out * rb * 10000 <= ui_amount * ra * (10000 - fee) < (ui_out + 2) * rb * 10000` |
| `KoinonRates.OneUnitFromSingleFloor` | programs/vesta-core/src/instructions/koinon.rs:499-516 | The two floors lose at most one unit against flooring once |
| `KoinonRates.QuoteFailsOnlyAtTheEnd` | programs/vesta-core/src/instructions/koinon.rs:499-516 | No intermediate product overflows: a quote fails exactly on a zero rate, a spread past 100% or a final value beyond u64 |
| `KoinonRates.HopsShrink` | programs/vesta-core/src/instructions/koinon.rs:499-516 | n swaps in a row keep at most ((10000 - fee) / 10000)^n of the value at the members' rates |
| `KoinonRates.NoProfitableCycle` | programs/vesta-core/src/instructions/koinon.rs:499-516 | No cycle of swaps returns more UI value than it started with, and under a spread every cycle strictly loses |
| `KoinonSwaps.WorthNeverRises` | programs/vesta-core/src/instructions/koinon.rs:476-594 | While the members' rates stand, no sequence of swaps at any spreads raises a customer's UI holdings valued at those rates |
| `KoinonSwaps.InflowIsHistory` | programs/vesta-core/src/instructions/koinon.rs:527-538 | `swapped_in_today` is the raw value swapped into the member on its budget day since it joined |
| `KoinonSwaps.SwapWithinBudget` | programs/vesta-core/src/instructions/koinon.rs:535-541 | Each swap leaves the destination's true inflow of the day within the budget in force |
| `KoinonSwaps.InflowIsGrossIffNoRejoin` | programs/vesta-core/src/instructions/koinon.rs:251-327 | What the budget counts is all that came in that day if and only if no one joined as that member once points had come in |
| `KoinonSwaps.DayWithinBudget` | programs/vesta-core/src/instructions/koinon.rs:527-541 | So without such a rejoin each swap leaves everything swapped in that day, whoever left and joined, within the budget in force |
| `KoinonRuns.RejoinDoublesBudget` | programs/vesta-core/src/instructions/koinon.rs:251-327 | With one it fails: a ten-event run in which a member takes in twice its budget on one day by leaving and rejoining |
| `KoinonSwaps.ReachableMints` | programs/vesta-core/src/instructions/koinon.rs:543-574 | In every reachable state each merchant's balances add up to its supply |
| `KoinonSwaps.SwapKeepsLedgers` | programs/vesta-core/src/instructions/koinon.rs:543-574 | Every reachable swap takes exactly `raw_in` from one supply and adds exactly `raw_out` to the other, both still the sum of their balances, and touches no third mint |
| `KoinonSwaps.LegsAreShopFlows` | programs/vesta-core/src/instructions/koinon.rs:543-574 | A swap goes through only where merchant A's own machine takes a swap-out step and merchant B's a swap-in step, accounts opened on demand, and leaves both mints as those steps do |
| `KoinonMembers.ReachableInv` | programs/vesta-core/src/instructions/koinon.rs:251-327 | In every reachable state a member account exists exactly when the merchant names that alliance, `member_count` is the number of members, rates are positive and no spread exceeds 1,000 bps |
| `KoinonMembers.AtMostOneAlliance` | programs/vesta-core/src/instructions/koinon.rs:259-262 | A merchant is a member of at most one alliance |
| `KoinonMembers.ReachableQuote` | programs/vesta-core/src/instructions/koinon.rs:499-516 | In a reachable state the cross rate never divides by zero and a quote fails only when its value does not fit u64 |
| `ArgusProgram.GuardAccounts.HandleExecute` | programs/argus/src/instructions/execute.rs:49-250 | The rules in their order, then the velocity commit on the wallet: exactly the decision GiftMeaning characterises, nothing written on refusal |
| `ArgusProgram.GuardAccounts.CommitVelocity` | programs/argus/src/instructions/execute.rs:187-245 | Day roll, cooldown, count and volume checks and the counters, field by field, as the velocity law WalletIsHistory reads back |
| `ArgusProgram.GuardAccounts.HandleConfigurePolicy` | programs/argus/src/instructions/admin.rs:27-55 | Direct policy writes, refused once governed |
| `ArgusProgram.GuardAccounts.ApplyFields` | programs/argus/src/instructions/policy.rs:46-81 | Each given field overwritten, the epoch bumped, the whole validated, all or nothing |
| `ArgusProgram.GuardAccounts.HandleInitializeGovernance` | programs/argus/src/instructions/governance.rs:93-166 | Adoption: genesis version of the live policy, roles, timelock, pointer and registry in one commit |
| `ArgusProgram.GuardAccounts.HandleProposePolicy` | programs/argus/src/instructions/governance.rs:201-240 | A new content-addressed version takes the pending slot and voids any standing approval |
| `ArgusProgram.GuardAccounts.HandleApprovePolicy` | programs/argus/src/instructions/governance.rs:267-302 | Approval by another key than the author stamps the version and the pending slot |
| `ArgusProgram.GuardAccounts.WriteAndRepoint` | programs/argus/src/instructions/governance.rs:393-435 | The nine fields, the epoch and both hashes move together or not at all |
| `ArgusProgram.GuardAccounts.HandleActivatePolicy` | programs/argus/src/instructions/governance.rs:337-366 | Activation of the pending version after its timelock |
| `ArgusProgram.GuardAccounts.HandleRollbackPolicy` | programs/argus/src/instructions/governance.rs:368-391 | Rollback to any approved version, with no timelock |
| `ArgusProgram.GuardAccounts.HandleProposeRoleChange` | programs/argus/src/instructions/governance.rs:492-526 | The single queued change and its due time |
| `ArgusProgram.GuardAccounts.HandleApplyRoleChange` | programs/argus/src/instructions/governance.rs:528-557 | The queued change takes effect once due and the queue empties |
| `ArgusProgram.GuardAccounts.HandleRefreshEligibility` | programs/argus/src/instructions/refresh_eligibility.rs:57-153 | The cached verdict with its epochs and expiry, or failure without a write |
| `ArgusProgram.GuardAccounts.HandleSetTrustAnchor` | programs/argus/src/instructions/trust.rs:50-97 | A binding that resets the streak and keeps the posture |
| `ArgusProgram.GuardAccounts.HandleReverifyAccreditation` | programs/argus/src/instructions/trust.rs:134-241 | The crank, one step of the shared streak machine |
| `ArgusProgram.GuardAccounts.HandleSetDegradeMode` | programs/argus/src/instructions/trust.rs:274-292 | The manual override, clearing the streak only on a restore |
| `VestaProgram.ShopAccounts.CountThresholds` | programs/vesta-core/src/instructions/earn_points.rs:90-97 | The loop over the thresholds counts those the earnings reach |
| `VestaProgram.ShopAccounts.AccrueInto` | programs/vesta-core/src/instructions/earn_points.rs:23-102 | Streak, bps, floors, caps and every total, written in the source's order; nothing survives a refused accrual |
| `VestaProgram.ShopAccounts.SumSegmentBoost` | programs/vesta-core/src/instructions/earn_points.rs:181-198 | The loop adds up the boosts of the active segments whose bit is set, 0 without a fresh cache |
| `VestaProgram.ShopAccounts.HandleEarnPoints` | programs/vesta-core/src/instructions/earn_points.rs:200-258 | The plain earn commits the accrual and the mint together |
| `VestaProgram.ShopAccounts.PriceBonus` | programs/vesta-core/src/instructions/earn_points.rs:378-446 | Fresh or continued progress, gross bonus by kind, both clamps and the completion test |
| `VestaProgram.ShopAccounts.BookPayout` | programs/vesta-core/src/instructions/earn_points.rs:466-483 | Participants, spending, draw and completion booked for one payout |
| `VestaProgram.ShopAccounts.HandleEarnPointsCampaign` | programs/vesta-core/src/instructions/earn_points.rs:325-497 | The campaign earn commits accrual, mint and campaign books together |
| `VestaProgram.ShopAccounts.HandleCreateCampaign` | programs/vesta-core/src/instructions/campaigns.rs:100-146 | A validated instance stamped with its slot |
| `VestaProgram.ShopAccounts.HandleUpdateCampaign` | programs/vesta-core/src/instructions/campaigns.rs:176-218 | Partial retune checked field by field, all or nothing |
| `VestaProgram.ShopAccounts.HandleSetMerchantSegments` | programs/vesta-core/src/instructions/segmentation.rs:49-80 | The loop overwrites the eight slots in place, the rest inactive, and the epoch moves |
| `VestaProgram.ShopAccounts.HandleRefreshCustomerEligibility` | programs/vesta-core/src/instructions/segmentation.rs:122-198 | One bit set or cleared, carried bits dropped on a new epoch |
| `VestaProgram.ShopAccounts.HandleRedeemOffer` | programs/vesta-core/src/instructions/offers.rs:223-308 | Burn, countdown and counters together |
| `VestaProgram.ShopAccounts.HandleClawback` | programs/vesta-core/src/instructions/clawback.rs:81-204 | Day roll, cap and a supply-neutral move to the treasury |
| `VestaProgram.ShopAccounts.HandleFundReserve` | programs/vesta-core/src/instructions/merchant_reserve.rs:131-153 | The reserve balance grows by the amount funded |
| `VestaProgram.ShopAccounts.HandleWithdrawReserve` | programs/vesta-core/src/instructions/merchant_reserve.rs:192-235 | The move, then the coverage requirement on what is left |
| `VestaProgram.ShopAccounts.HandleSetMerchantTrust` | programs/vesta-core/src/instructions/merchant_trust.rs:52-101 | A binding that resets the streak and keeps the posture |
| `VestaProgram.ShopAccounts.HandleReverifyMerchant` | programs/vesta-core/src/instructions/merchant_trust.rs:134-234 | The crank, one step of the shared streak machine, with provenance on a healthy verdict |
| `VestaProgram.ShopAccounts.HandleSetMerchantIssueStatus` | programs/vesta-core/src/instructions/merchant_trust.rs:257-278 | The manual override |
| `KoinonProgram.AllianceAccounts.CheckRateBounds` | programs/vesta-core/src/instructions/koinon.rs:122-136 | Refuses exactly the rates outside the alliance's bounds, 0 meaning unbounded |
| `KoinonProgram.AllianceAccounts.HandleSetAllianceParams` | programs/vesta-core/src/instructions/koinon.rs:148-170 | Spread and bounds within their limits |
| `KoinonProgram.AllianceAccounts.HandleJoinAlliance` | programs/vesta-core/src/instructions/koinon.rs:251-291 | Member account, count and the merchant's own record together |
| `KoinonProgram.AllianceAccounts.HandleLeaveAlliance` | programs/vesta-core/src/instructions/koinon.rs:317-327 | All three undone together |
| `KoinonProgram.AllianceAccounts.HandleSetSwapRate` | programs/vesta-core/src/instructions/koinon.rs:353-366 | A co-signed rate, positive and within bounds |
| `KoinonProgram.AllianceAccounts.HandleSwapPoints` | programs/vesta-core/src/instructions/koinon.rs:476-594 | Price, slippage, budget, burn, mint and statistics together or not at all |
| `AegisProgram.RegistryAccounts.HandleIssueAttestation` | programs/aegis/src/instructions/attestation.rs:59-99 | A fresh credential at its derived address, and the issuer's counter |
| `AegisProgram.RegistryAccounts.HandleUpdateAttestation` | programs/aegis/src/instructions/attestation.rs:121-159 | Only the window of a live credential moves |
| `AegisProgram.RegistryAccounts.HandleRevokeAttestation` | programs/aegis/src/instructions/attestation.rs:161-180 | From active only |
| `AegisProgram.RegistryAccounts.HandleEraseAttestation` | programs/aegis/src/instructions/attestation.rs:186-209 | From active or revoked, once |
| `AegisProgram.RegistryAccounts.HandleAccreditIssuer` | programs/aegis/src/instructions/accreditation.rs:105-156 | The loop copies the named schemas over eight zeroed slots |

## Left out

- Token-2022, associated token accounts, mint extensions, metadata and rent: a mint is a supply and a map of balances, and a transfer the guard let through is one ledger move.
- UI-to-raw conversion and interest decay, which are floating point inside Token-2022: each conversion's result is an input of the step, with the slippage checks kept.
- sha256, Borsh, account discriminators, bumps and address derivation: accounts are map keys, `init` is an absent key, the policy hash is an arbitrary function that is never all-zero, and results that need injectivity are stated on hashes instead.
- Account substitution checks whose failure only names a wrong account; the one kept is the destination owner in `execute`, and a refresh in aegis accepts any attestation address, which the verdict then judges.
- The transferring flag of the source account: every `execute` is taken to be a genuine transfer.
- Events, names, URIs, categories, profiles, statements, licensing fees, achievements, receipts, badges, config migration and commitment roots of credentials.
- Handover of authorities in aegis and of the protocol admin; the signer of the protocol pause is not modelled.
- `close_merchant`: the surviving member and profile accounts make cross-account totals meaningless across a re-registration, so runs never close a merchant.
- Whether the runtime lets one account stand in two places of a swap: a swap of a member with itself is a step here like any other, its burn before its mint and the destination's copy of the member the one that stays.
- A customer whose address is all-zero: the programs would count it as new on every touch.
- Any other aliasing between the accounts of one instruction, and the compute and size limits of the runtime.
- The reserve is one balance of the backing token; funding takes what the source account holds as an input, and a reserve backed by the merchant's own point mint is not modelled.
- In the joint runs with aegis the configured aegis deployment is taken to be aegis itself; a merchant and aegis may act at one index, which only adds behaviours.
- Simple setters of vesta_core and koinon (pause flags, caps, roles, operators, offers, member activation, budgets) are functions only, without a class method, as are `init_issuer` and `register_policy` in aegis.
- VestaSegments.GateRestsOnVerdict: no bound on the age of one segment's verdict, because the cache has a single expiry that any segment's refresh extends.
- World.AcceptedGiftRestsOnVerdict: the credential is known to be valid at the refresh, not at the gift, because the cached lifetime is not clipped to the credential's own expiry.
- VestaCampaign.DrawsWithinBudget: says nothing for a budget of exactly u64::MAX, because spending saturates there.
- KoinonSwaps.InflowIsHistory: counts from the latest join, because leaving and rejoining resets the day's counter; `GrossInflow` counts the whole day.
- KoinonSwaps.WorthNeverRises: covers stretches with unchanged rates, because a co-signed rate change revalues every holding.
