/** Campaign accounting: what the live instance has spent is what its customers have drawn, the budget and the
    customer cap hold whatever is retuned, and a quest pays out once. */
module VestaCampaign {
  import opened Base
  import opened Vesta
  import opened MapSum
  import opened VestaFrame
  import opened VestaIssuance
  import VestaStreak

  predicate PaysAt(s: Shop, e: Event, id: u64) {
    e.op.EarnCampaignOp? && e.op.id == id && id in s.campaigns && Step(s, e).Ok?
  }

  /** The clamped bonus a campaign earn pays. */
  function Paid(s: Shop, e: Event, id: u64): u64
    requires PaysAt(s, e, id)
  {
    match CampaignPayout(s, id, e.op.customer, ProfileOf(s, e.op.customer), e.op.amountBase, e.op.visitDay)
    case Some(pay) => pay.bonus
    case None => 0
  }

  /** What each customer has drawn under the instance of `id` created in `slot`. */
  ghost function Drawn(s: Shop, id: u64, slot: u64): map<ProgressKey, nat> {
    map k | k in s.progress && k.campaign == id && s.progress[k].campaignSlot == slot :: s.progress[k].bonusDrawn
  }

  // ----------------------------------------------------------------- one payout

  /** What a customer has drawn so far under the live instance; earlier instances of the id do not count. */
  function DrawnBefore(s: Shop, id: u64, customer: Pubkey): u64
    requires id in s.campaigns
  {
    ProgressOf(s, id, customer).1.bonusDrawn
  }

  predicate QuestDone(s: Shop, id: u64, customer: Pubkey)
    requires id in s.campaigns
  {
    ProgressOf(s, id, customer).1.completed
  }

  /** A payout goes on from the customer's progress in this instance and respects every limit. */
  lemma PayoutLimits(s: Shop, id: u64, customer: Pubkey, p: CustomerProfile, amountBase: u64, day: u32)
    requires id in s.campaigns && CampaignPayout(s, id, customer, p, amountBase, day).Some?
    ensures var c, k := s.campaigns[id], ProgressKey(id, customer);
      var drawn, done := DrawnBefore(s, id, customer), QuestDone(s, id, customer);
      var pay := CampaignPayout(s, id, customer, p, amountBase, day).value;
      && (pay.first <==> k !in s.progress || s.progress[k].campaignSlot != c.createdSlot)
      && pay.progress.bonusDrawn == drawn && pay.progress.completed == done && pay.progress.campaignSlot == c.createdSlot
      && (c.pointsBudget > 0 ==> pay.bonus <= SatSub(c.pointsBudget, c.pointsSpent))
      && (c.perCustomerCap > 0 ==>
            pay.bonus <= SatSub(c.perCustomerCap, drawn) && SatAdd64(drawn, pay.bonus) <= Max(drawn, c.perCustomerCap))
      && (c.kind == QUEST && done ==> pay.bonus == 0)
      && (pay.completes <==> c.kind == QUEST && !done && pay.progress.visits >= c.questTarget && pay.bonus == c.questReward > 0)
  {
  }

  /** `b` more for the customer would stay within the customer cap and the budget, or not go past where they stand. */
  predicate WithinLimits(c: Campaign, drawn: u64, b: nat) {
    && (c.perCustomerCap > 0 ==> drawn + b <= Max(drawn, c.perCustomerCap))
    && (c.pointsBudget > 0 ==> c.pointsSpent + b <= Max(c.pointsSpent, c.pointsBudget))
  }

  /** The clamps pay as much of the gross bonus as the limits allow, and no less. */
  lemma PayoutIsGreatest(s: Shop, id: u64, customer: Pubkey, p: CustomerProfile, amountBase: u64, day: u32, b: nat)
    requires id in s.campaigns && CampaignPayout(s, id, customer, p, amountBase, day).Some?
    ensures var c := s.campaigns[id];
      var pay := CampaignPayout(s, id, customer, p, amountBase, day).value;
      var gross := GrossBonus(c, pay.progress, p, s.merchant.baseEarnRate, amountBase, day);
      var drawn := DrawnBefore(s, id, customer);
      && gross.Some? && pay.bonus <= gross.value && WithinLimits(c, drawn, pay.bonus)
      && (b <= gross.value && WithinLimits(c, drawn, b) ==> b <= pay.bonus)
  {
    hide GrossBonus;
  }

  /** Everything a campaign earn writes about the campaign. */
  lemma CampaignEarnWrites(s: Shop, signer: Pubkey, customer: Pubkey, id: u64, amountBase: u64, visitDay: u32, now: i64)
    requires EarnPointsCampaign(s, signer, customer, id, amountBase, visitDay, now).Ok?
    ensures id in s.campaigns && s.campaigns[id].IsLive(now)
    ensures CampaignPayout(s, id, customer, ProfileOf(s, customer), amountBase, visitDay).Some?
    ensures var s' := EarnPointsCampaign(s, signer, customer, id, amountBase, visitDay, now).value;
      var pay := CampaignPayout(s, id, customer, ProfileOf(s, customer), amountBase, visitDay).value;
      var c := s.campaigns[id];
      && Balance(s', customer) - Balance(s, customer) ==
           amountBase * s.merchant.baseEarnRate * PreviewTotalBps(ProfileOf(s, customer), visitDay) / 10_000 + pay.bonus
      && s'.campaigns == s.campaigns[id := c.(
           participantCount := if pay.first then SatAdd32(c.participantCount, 1) else c.participantCount,
           pointsSpent := SatAdd64(c.pointsSpent, pay.bonus), redemptions := SatAdd64(c.redemptions, 1))]
      && s'.progress == s.progress[ProgressKey(id, customer) := pay.progress.(
           bonusDrawn := SatAdd64(pay.progress.bonusDrawn, pay.bonus), completed := pay.progress.completed || pay.completes)]
  {
    hide AdmitEarn, Accrue, NextStreak, TotalBps, CampaignPayout, CampaignAdmits, PreviewTotalBps;
    var (day, p, m) := AdmitEarn(s, signer, customer, amountBase, visitDay, now).value;
    AdmitMeans(s, signer, customer, amountBase, visitDay, now);
    PreviewIsUsed(p, day);
    AccrueAdds(p, m, amountBase, day, CampaignPayout(s, id, customer, p, amountBase, day).value.bonus, 0);
  }

  /** The settings of an instance that nothing retunes. */
  predicate SameInstance(c: Campaign, c': Campaign) {
    c'.createdSlot == c.createdSlot && c'.kind == c.kind && c'.questTarget == c.questTarget && c'.questReward == c.questReward
  }

  /** From `s` to `s'`, `paid` entered the customer's draw and the campaign's spending, within every limit. */
  predicate PaidOut(s: Shop, s': Shop, id: u64, customer: Pubkey, paid: u64)
    requires id in s.campaigns
  {
    var k, c, drawn := ProgressKey(id, customer), s.campaigns[id], DrawnBefore(s, id, customer);
    && id in s'.campaigns && s'.campaigns == s.campaigns[id := s'.campaigns[id]]
    && k in s'.progress && s'.progress == s.progress[k := s'.progress[k]]
    && var c', g' := s'.campaigns[id], s'.progress[k];
    && SameInstance(c, c') && c'.pointsBudget == c.pointsBudget && c'.perCustomerCap == c.perCustomerCap
    && c'.pointsSpent == SatAdd64(c.pointsSpent, paid)
    && (c.pointsBudget > 0 ==> paid <= SatSub(c.pointsBudget, c.pointsSpent))
    && c'.participantCount == (if k in s.progress && s.progress[k].campaignSlot == c.createdSlot then c.participantCount
                               else SatAdd32(c.participantCount, 1))
    && g'.campaignSlot == c.createdSlot && g'.bonusDrawn == SatAdd64(drawn, paid)
    && (c.perCustomerCap > 0 ==> g'.bonusDrawn <= Max(drawn, c.perCustomerCap))
    && (QuestDone(s, id, customer) ==> g'.completed)
    && (g'.completed && !QuestDone(s, id, customer) ==> c.kind == QUEST && paid == c.questReward > 0)
    && (c.kind == QUEST && QuestDone(s, id, customer) ==> paid == 0)
  }

  lemma CampaignEarnPays(s: Shop, signer: Pubkey, customer: Pubkey, id: u64, amountBase: u64, visitDay: u32, now: i64)
    requires EarnPointsCampaign(s, signer, customer, id, amountBase, visitDay, now).Ok?
    ensures id in s.campaigns && CampaignPayout(s, id, customer, ProfileOf(s, customer), amountBase, visitDay).Some?
    ensures var s' := EarnPointsCampaign(s, signer, customer, id, amountBase, visitDay, now).value;
      var paid := CampaignPayout(s, id, customer, ProfileOf(s, customer), amountBase, visitDay).value.bonus;
      PaidOut(s, s', id, customer, paid) && paid <= Balance(s', customer) - Balance(s, customer)
  {
    hide EarnPointsCampaign, CampaignPayout, Balance, ProfileOf, SatAdd64, SatAdd32, SatSub, Max, ProgressOf, DrawnBefore,
      QuestDone, PreviewTotalBps, Campaign.IsLive;
    CampaignEarnWrites(s, signer, customer, id, amountBase, visitDay, now);
    PayoutLimits(s, id, customer, ProfileOf(s, customer), amountBase, visitDay);
  }

  /** One campaign earn: the same bonus enters the customer's draw and the campaign's spending. */
  lemma StepPays(s: Shop, e: Event, id: u64)
    requires PaysAt(s, e, id)
    ensures PaidOut(s, Step(s, e).value, id, e.op.customer, Paid(s, e, id)) && Paid(s, e, id) <= Minted(s, e)
  {
    hide EarnPoints, EarnPointsCampaign, RedeemOffer, Clawback, Move, MintTo, Burn, Configure, SetMerchantSegments,
      RefreshCustomerEligibility, CreateOffer, SetOfferSegment, CloseOffer, OpenReserve, FundReserve, WithdrawReserve,
      CreateCampaign, UpdateCampaign, SetCampaignWinback, CloseCampaign, SetMerchantTrust, ReverifyMerchant, SetIssueStatus,
      CampaignPayout, Balance, PaidOut, ProfileOf;
    CampaignEarnPays(s, e.op.signer, e.op.customer, id, e.op.amountBase, e.op.visitDay, e.now);
  }

  // ------------------------------------------------------------ the other instructions

  predicate CreatesAt(s: Shop, e: Event, id: u64) {
    e.op.CreateCampaignOp? && e.op.id == id && Step(s, e).Ok?
  }

  /** Updates and winback settings keep what was spent, and a new budget is never below it. */
  lemma CampaignSettings(s: Shop, e: Event, id: u64)
    requires id in s.campaigns
    requires SetsCampaigns(e.op)
    ensures var s' := After(s, Step(s, e)); !CreatesAt(s, e, id) && (id in s'.campaigns ==> Retuned(s.campaigns[id], s'.campaigns[id]))
  {
    hide EarnPoints, EarnPointsCampaign, RedeemOffer, Clawback, Move, MintTo, Burn, SetMerchantSegments, Configure,
      RefreshCustomerEligibility, CreateOffer, SetOfferSegment, CloseOffer, OpenReserve, FundReserve, WithdrawReserve,
      SetMerchantTrust, ReverifyMerchant, SetIssueStatus, ValidCampaign, Merchant.MayManage;
  }

  predicate Retuned(c: Campaign, c': Campaign) {
    && SameInstance(c, c') && c'.pointsSpent == c.pointsSpent && c'.participantCount == c.participantCount
    && (c'.pointsBudget == c.pointsBudget || c'.pointsBudget == 0 || c'.pointsBudget >= c.pointsSpent)
    && (QuestTerms(c) ==> QuestTerms(c'))
  }

  /** A quest has a target and a reward, and a customer cap that leaves room for the whole reward. */
  predicate QuestTerms(c: Campaign) {
    c.kind == QUEST ==>
      c.questTarget > 0 && c.questReward > 0 && (c.perCustomerCap == 0 || c.perCustomerCap >= c.questReward)
  }

  /** The books and settings a new instance starts with. */
  predicate OpenedAs(c: Campaign, a: CampaignArgs, slot: u64) {
    && c.createdSlot == slot && c.pointsSpent == 0 && c.participantCount == 0
    && c.kind == a.kind && c.questTarget == a.questTarget && c.questReward == a.questReward && QuestTerms(c)
  }

  lemma CreateOpens(s: Shop, signer: Pubkey, id: u64, a: CampaignArgs, slot: u64)
    requires CreateCampaign(s, signer, id, a, slot).Ok?
    ensures var s' := CreateCampaign(s, signer, id, a, slot).value;
      id !in s.campaigns && id in s'.campaigns && s'.campaigns == s.campaigns[id := s'.campaigns[id]]
      && OpenedAs(s'.campaigns[id], a, slot)
  {
    hide Merchant.MayManage;
  }

  lemma CampaignCreated(s: Shop, e: Event, id: u64)
    requires id !in s.campaigns
    requires SetsCampaigns(e.op)
    ensures var s' := After(s, Step(s, e)); id in s'.campaigns <==> CreatesAt(s, e, id)
    ensures var s' := After(s, Step(s, e)); CreatesAt(s, e, id) ==> OpenedAs(s'.campaigns[id], e.op.args, e.slot)
  {
    hide EarnPoints, EarnPointsCampaign, RedeemOffer, Clawback, Move, MintTo, Burn, SetMerchantSegments, Configure,
      RefreshCustomerEligibility, CreateOffer, SetOfferSegment, CloseOffer, OpenReserve, FundReserve, WithdrawReserve,
      SetMerchantTrust, ReverifyMerchant, SetIssueStatus, CreateCampaign, OpenedAs;
    if e.op.CreateCampaignOp? && Step(s, e).Ok? {
      CreateOpens(s, e.op.signer, e.op.id, e.op.args, e.slot);
    }
  }

  predicate SameProgress(s: Shop, s': Shop, id: u64) {
    && (forall k :: k in s.progress && k.campaign == id ==> k in s'.progress && s'.progress[k] == s.progress[k])
    && (forall k :: k in s'.progress && k.campaign == id ==> k in s.progress)
  }

  /** An earn under some other campaign, or none, leaves this one and its customers' progress alone. */
  lemma EarnElsewhere(s: Shop, e: Event, id: u64)
    requires IsEarn(e.op) && !PaysAt(s, e, id)
    ensures var s' := After(s, Step(s, e));
      && (id in s'.campaigns <==> id in s.campaigns)
      && (id in s.campaigns ==> s'.campaigns[id] == s.campaigns[id])
      && SameProgress(s, s', id)
  {
    hide Step;
    StepFrame(s, e);
    if e.op.EarnCampaignOp? && Step(s, e).Ok? {
      PaysSomewhere(s, e);
      StepPays(s, e, e.op.id);
    }
  }

  lemma PaysSomewhere(s: Shop, e: Event)
    requires e.op.EarnCampaignOp? && Step(s, e).Ok?
    ensures PaysAt(s, e, e.op.id)
  {
    hide EarnPoints, RedeemOffer, Clawback, Move, MintTo, Burn, Configure, SetMerchantSegments, AdmitEarn, Accrue,
      RefreshCustomerEligibility, CreateOffer, SetOfferSegment, CloseOffer, OpenReserve, FundReserve, WithdrawReserve,
      CreateCampaign, UpdateCampaign, SetCampaignWinback, CloseCampaign, SetMerchantTrust, ReverifyMerchant, SetIssueStatus,
      CampaignPayout, CampaignAdmits;
  }

  /** Any event that is not a payout of campaign `id`. */
  lemma StepOtherwise(s: Shop, e: Event, id: u64)
    requires !PaysAt(s, e, id)
    ensures var s' := After(s, Step(s, e));
      && (id in s.campaigns && id in s'.campaigns ==> Retuned(s.campaigns[id], s'.campaigns[id]))
      && (id in s.campaigns ==> !CreatesAt(s, e, id))
      && (id !in s.campaigns ==> (id in s'.campaigns <==> CreatesAt(s, e, id)))
      && (CreatesAt(s, e, id) ==> OpenedAs(s'.campaigns[id], e.op.args, e.slot))
      && SameProgress(s, s', id)
  {
    hide Step;
    if IsEarn(e.op) {
      EarnElsewhere(s, e, id);
    } else if SetsCampaigns(e.op) {
      StepFrame(s, e);
      if id in s.campaigns {
        CampaignSettings(s, e, id);
      } else {
        CampaignCreated(s, e, id);
      }
    } else {
      StepFrame(s, e);
    }
  }

  // ------------------------------------------------------------------- conservation

  /** The event that opened the latest instance of `id` before `n`, -1 if none. */
  function Opened(tr: seq<Shop>, evs: seq<Event>, n: nat, id: u64): (j: int)
    requires n <= |evs| <= |tr|
    ensures -1 <= j < n
    ensures j >= 0 ==> CreatesAt(tr[j], evs[j], id)
  {
    if n == 0 then -1 else if CreatesAt(tr[n - 1], evs[n - 1], id) then n - 1 else Opened(tr, evs, n - 1, id)
  }

  lemma DrawnSame(s: Shop, s': Shop, id: u64, slot: u64)
    requires SameProgress(s, s', id)
    ensures Drawn(s', id, slot) == Drawn(s, id, slot)
  {
  }

  lemma DrawnPays(s: Shop, s': Shop, id: u64, customer: Pubkey, slot: u64)
    requires var k := ProgressKey(id, customer);
      k in s'.progress && s'.progress == s.progress[k := s'.progress[k]] && s'.progress[k].campaignSlot == slot
    ensures var k := ProgressKey(id, customer); var d, d' := Drawn(s, id, slot), Drawn(s', id, slot);
      && d' == d[k := s'.progress[k].bonusDrawn]
      && Sum(d') == Sum(d) - (if k in d then d[k] else 0) + s'.progress[k].bonusDrawn
      && |d'| == |d| + if k in d then 0 else 1
  {
    var k := ProgressKey(id, customer);
    assert Drawn(s', id, slot) == Drawn(s, id, slot)[k := s'.progress[k].bonusDrawn];
    SumUpdate(Drawn(s, id, slot), k, s'.progress[k].bonusDrawn);
  }

  /** No one's draw exceeds what they ever earned, so a draw never saturates. */
  lemma {:induction false} DrawnWithinEarned(tr: seq<Shop>, evs: seq<Event>, n: nat, k: ProgressKey)
    requires IsTrace(tr, evs) && n <= |evs| && k in tr[n].progress
    ensures tr[n].progress[k].bonusDrawn <= ProfileOf(tr[n], k.customer).lifetimeEarned
  {
    hide Step, Minted, Paid;
    if n > 0 {
      var s, e := tr[n - 1], evs[n - 1];
      VestaStreak.StepCustomer(s, e, k.customer);
      if k in s.progress {
        DrawnWithinEarned(tr, evs, n - 1, k);
      }
      if PaysAt(s, e, k.campaign) {
        StepPays(s, e, k.campaign);
        MintedNonnegative(s, e);
      } else {
        StepOtherwise(s, e, k.campaign);
      }
    }
  }

  lemma MintedNonnegative(s: Shop, e: Event)
    requires IsEarn(e.op) && Step(s, e).Ok?
    ensures 0 <= Minted(s, e) <= U64_MAX - ProfileOf(s, e.op.customer).lifetimeEarned
  {
    hide Step, Minted;
    StepEarn(s, e);
  }

  lemma DrawFits(tr: seq<Shop>, evs: seq<Event>, n: nat, id: u64)
    requires IsTrace(tr, evs) && n < |evs| && PaysAt(tr[n], evs[n], id)
    ensures DrawnBefore(tr[n], id, evs[n].op.customer) + Paid(tr[n], evs[n], id) <= U64_MAX
  {
    hide Step, Minted, Paid;
    var k := ProgressKey(id, evs[n].op.customer);
    if k in tr[n].progress {
      DrawnWithinEarned(tr, evs, n, k);
    }
    StepPays(tr[n], evs[n], id);
    MintedNonnegative(tr[n], evs[n]);
  }

  /** The live instance's spending is what its customers drew since it was opened at `s0`, its participants those who
      joined since; both as far as the counters reach. */
  ghost predicate BooksSince(s0: Shop, s: Shop, id: u64)
    requires id in s.campaigns
  {
    var c := s.campaigns[id];
    var before, after := Drawn(s0, id, c.createdSlot), Drawn(s, id, c.createdSlot);
    && Sum(before) <= Sum(after) && |before| <= |after|
    && c.pointsSpent == Min(Sum(after) - Sum(before), U64_MAX)
    && c.participantCount == Min(|after| - |before|, U32_MAX)
  }

  /** The books balance against the state the live instance was opened in. */
  ghost predicate BooksBalance(tr: seq<Shop>, evs: seq<Event>, n: nat, id: u64)
    requires n <= |evs| < |tr| && id in tr[n].campaigns
  {
    var j := Opened(tr, evs, n, id);
    0 <= j && tr[n].campaigns[id].createdSlot == evs[j].slot && BooksSince(tr[j], tr[n], id)
  }

  lemma {:induction false} SpentIsDrawn(tr: seq<Shop>, evs: seq<Event>, n: nat, id: u64)
    requires IsTrace(tr, evs) && n <= |evs| && id in tr[n].campaigns
    ensures BooksBalance(tr, evs, n, id)
  {
    hide Step, Paid, Minted, BooksSince;
    if n > 0 {
      var s, s', e := tr[n - 1], tr[n], evs[n - 1];
      if PaysAt(s, e, id) {
        SpentIsDrawn(tr, evs, n - 1, id);
        DrawFits(tr, evs, n - 1, id);
        PayoutKeepsBooks(tr[Opened(tr, evs, n - 1, id)], s, e, id);
      } else {
        StepOtherwise(s, e, id);
        if id in s.campaigns {
          SpentIsDrawn(tr, evs, n - 1, id);
          RetuningKeepsBooks(tr[Opened(tr, evs, n - 1, id)], s, s', id);
        } else {
          OpeningBalances(s, s', id);
        }
      }
    }
  }

  lemma PayoutKeepsBooks(s0: Shop, s: Shop, e: Event, id: u64)
    requires PaysAt(s, e, id) && BooksSince(s0, s, id)
    requires DrawnBefore(s, id, e.op.customer) + Paid(s, e, id) <= U64_MAX
    ensures var s' := Step(s, e).value;
      id in s'.campaigns && s'.campaigns[id].createdSlot == s.campaigns[id].createdSlot && BooksSince(s0, s', id)
  {
    hide Step, Paid, Minted, Drawn, DrawnBefore, QuestDone;
    var s' := Step(s, e).value;
    StepPays(s, e, id);
    DrawnLookup(s, id, e.op.customer);
    DrawnPays(s, s', id, e.op.customer, s.campaigns[id].createdSlot);
  }

  lemma RetuningKeepsBooks(s0: Shop, s: Shop, s': Shop, id: u64)
    requires id in s.campaigns && id in s'.campaigns && Retuned(s.campaigns[id], s'.campaigns[id]) && SameProgress(s, s', id)
    requires BooksSince(s0, s, id)
    ensures BooksSince(s0, s', id)
  {
    hide Drawn, SameProgress;
    DrawnSame(s, s', id, s.campaigns[id].createdSlot);
  }

  lemma OpeningBalances(s: Shop, s': Shop, id: u64)
    requires id in s'.campaigns && s'.campaigns[id].pointsSpent == 0 && s'.campaigns[id].participantCount == 0
    requires SameProgress(s, s', id)
    ensures BooksSince(s, s', id)
  {
    hide Drawn, SameProgress;
    DrawnSame(s, s', id, s'.campaigns[id].createdSlot);
  }

  lemma DrawnLookup(s: Shop, id: u64, customer: Pubkey)
    requires id in s.campaigns
    ensures var d, k := Drawn(s, id, s.campaigns[id].createdSlot), ProgressKey(id, customer);
      && DrawnBefore(s, id, customer) == (if k in d then d[k] else 0)
      && (k in d <==> k in s.progress && s.progress[k].campaignSlot == s.campaigns[id].createdSlot)
  {
  }

  // ---------------------------------------------------------------- instance scoping

  /** Before event `n`, an instance of `id` was opened in `slot`. */
  predicate OpenedIn(tr: seq<Shop>, evs: seq<Event>, n: nat, id: u64, slot: u64)
    requires n <= |evs| <= |tr|
  {
    n > 0 && ((CreatesAt(tr[n - 1], evs[n - 1], id) && evs[n - 1].slot == slot) || OpenedIn(tr, evs, n - 1, id, slot))
  }

  /** Progress is only ever stamped with the slot of an instance opened before. */
  lemma {:induction false} StampsAreInstances(tr: seq<Shop>, evs: seq<Event>, n: nat, k: ProgressKey)
    requires IsTrace(tr, evs) && n <= |evs| && k in tr[n].progress
    ensures OpenedIn(tr, evs, n, k.campaign, tr[n].progress[k].campaignSlot)
  {
    hide Step, Paid;
    if n > 0 {
      var s, e := tr[n - 1], evs[n - 1];
      if PaysAt(s, e, k.campaign) {
        StepPays(s, e, k.campaign);
        if k.customer == e.op.customer {
          SpentIsDrawn(tr, evs, n - 1, k.campaign);
          OpenedIsOpenedIn(tr, evs, n - 1, k.campaign);
        } else {
          StampsAreInstances(tr, evs, n - 1, k);
        }
      } else {
        StepOtherwise(s, e, k.campaign);
        StampsAreInstances(tr, evs, n - 1, k);
      }
    }
  }

  lemma {:induction false} OpenedIsOpenedIn(tr: seq<Shop>, evs: seq<Event>, n: nat, id: u64)
    requires n <= |evs| <= |tr| && Opened(tr, evs, n, id) >= 0
    ensures OpenedIn(tr, evs, n, id, evs[Opened(tr, evs, n, id)].slot)
  {
    hide CreatesAt;
    if !CreatesAt(tr[n - 1], evs[n - 1], id) {
      OpenedIsOpenedIn(tr, evs, n - 1, id);
    }
  }

  /** An instance opened in a slot of its own starts with clean books: spending is exactly what customers hold
      drawn under it, and each participant is counted once. */
  lemma OwnSlotScopesExactly(tr: seq<Shop>, evs: seq<Event>, n: nat, id: u64)
    requires IsTrace(tr, evs) && n <= |evs| && id in tr[n].campaigns
    requires var j := Opened(tr, evs, n, id); j >= 0 ==> !OpenedIn(tr, evs, j, id, evs[j].slot)
    ensures var c := tr[n].campaigns[id]; var drawn := Drawn(tr[n], id, c.createdSlot);
      c.pointsSpent == Min(Sum(drawn), U64_MAX) && c.participantCount == Min(|drawn|, U32_MAX)
  {
    hide Step;
    SpentIsDrawn(tr, evs, n, id);
    var j, slot := Opened(tr, evs, n, id), tr[n].campaigns[id].createdSlot;
    forall k | k in tr[j].progress && k.campaign == id ensures tr[j].progress[k].campaignSlot != slot {
      StampsAreInstances(tr, evs, j, k);
    }
    assert Drawn(tr[j], id, slot) == map[];
  }

  /** The exact condition: a new instance's books start clean if and only if no customer's progress under that id
      already carries this slot. */
  lemma CreationScopesExactly(s: Shop, e: Event, id: u64)
    requires CreatesAt(s, e, id)
    ensures var s' := Step(s, e).value; id in s'.campaigns
    ensures var s' := Step(s, e).value; var c := s'.campaigns[id]; var drawn := Drawn(s', id, c.createdSlot);
      c.pointsSpent == Min(Sum(drawn), U64_MAX) && c.participantCount == Min(|drawn|, U32_MAX)
      <==> !exists k :: k in s.progress && k.campaign == id && s.progress[k].campaignSlot == e.slot
  {
    CreationIsNew(s, e, id);
    hide Step;
    StepOtherwise(s, e, id);
    var s' := Step(s, e).value;
    DrawnSame(s, s', id, e.slot);
    var drawn := Drawn(s, id, e.slot);
    if k :| k in s.progress && k.campaign == id && s.progress[k].campaignSlot == e.slot {
      assert k in drawn;
    } else {
      assert drawn == map[];
    }
  }

  lemma CreationIsNew(s: Shop, e: Event, id: u64)
    requires CreatesAt(s, e, id)
    ensures id !in s.campaigns && !PaysAt(s, e, id)
  {
    hide EarnPoints, EarnPointsCampaign, RedeemOffer, Clawback, Move, MintTo, Burn, SetMerchantSegments, Configure,
      RefreshCustomerEligibility, CreateOffer, SetOfferSegment, CloseOffer, OpenReserve, FundReserve, WithdrawReserve,
      UpdateCampaign, SetCampaignWinback, CloseCampaign, SetMerchantTrust, ReverifyMerchant, SetIssueStatus;
  }

  // ------------------------------------------------------------------------- limits

  /** A budget in force is never exceeded, however it is retuned along the way. */
  lemma {:induction false} BudgetNeverExceeded(tr: seq<Shop>, evs: seq<Event>, n: nat, id: u64)
    requires IsTrace(tr, evs) && n <= |evs| && id in tr[n].campaigns
    ensures var c := tr[n].campaigns[id]; c.pointsBudget == 0 || c.pointsSpent <= c.pointsBudget
  {
    hide Step, Paid;
    if n > 0 {
      var s, e := tr[n - 1], evs[n - 1];
      if id in s.campaigns {
        BudgetNeverExceeded(tr, evs, n - 1, id);
      }
      if PaysAt(s, e, id) {
        StepPays(s, e, id);
      } else {
        StepOtherwise(s, e, id);
      }
    }
  }

  /** So what customers hold drawn under an instance opened in a slot of its own stays within its budget. */
  lemma DrawsWithinBudget(tr: seq<Shop>, evs: seq<Event>, n: nat, id: u64)
    requires IsTrace(tr, evs) && n <= |evs| && id in tr[n].campaigns
    requires var j := Opened(tr, evs, n, id); j >= 0 ==> !OpenedIn(tr, evs, j, id, evs[j].slot)
    ensures var c := tr[n].campaigns[id];
      0 < c.pointsBudget < U64_MAX ==> Sum(Drawn(tr[n], id, c.createdSlot)) <= c.pointsBudget
  {
    hide Step;
    OwnSlotScopesExactly(tr, evs, n, id);
    BudgetNeverExceeded(tr, evs, n, id);
  }

  /** Each payout leaves the customer's draw within the cap in force, or where it already was above it. */
  lemma PayoutWithinCustomerCap(tr: seq<Shop>, evs: seq<Event>, n: nat, id: u64)
    requires IsTrace(tr, evs) && n < |evs| && PaysAt(tr[n], evs[n], id)
    ensures var k := ProgressKey(id, evs[n].op.customer); var cap := tr[n].campaigns[id].perCustomerCap;
      var drawn := DrawnBefore(tr[n], id, evs[n].op.customer);
      && k in tr[n + 1].progress
      && tr[n + 1].progress[k].bonusDrawn == drawn + Paid(tr[n], evs[n], id)
      && (cap > 0 ==> tr[n + 1].progress[k].bonusDrawn <= Max(drawn, cap))
  {
    hide Step, Paid, Minted;
    StepPays(tr[n], evs[n], id);
    DrawFits(tr, evs, n, id);
  }

  // ------------------------------------------------------------------------- quests

  /** Event `i` completes the quest for `customer`: not done before, done after. */
  predicate CompletesAt(tr: seq<Shop>, evs: seq<Event>, i: nat, id: u64, customer: Pubkey)
    requires i < |evs| < |tr|
  {
    var k := ProgressKey(id, customer);
    && PaysAt(tr[i], evs[i], id) && evs[i].op.customer == customer && !QuestDone(tr[i], id, customer)
    && k in tr[i + 1].progress && tr[i + 1].progress[k].completed
  }

  /** A completion pays the whole reward, no less. */
  lemma CompletionPaysInFull(tr: seq<Shop>, evs: seq<Event>, i: nat, id: u64, customer: Pubkey)
    requires IsTrace(tr, evs) && i < |evs| && CompletesAt(tr, evs, i, id, customer)
    ensures tr[i].campaigns[id].kind == QUEST && Paid(tr[i], evs[i], id) == tr[i].campaigns[id].questReward > 0
  {
    hide Step, Paid, Minted;
    StepPays(tr[i], evs[i], id);
  }

  /** A live instance is never older than the progress kept under its id. */
  lemma {:induction false} StampNotAhead(tr: seq<Shop>, evs: seq<Event>, n: nat, m: nat, id: u64, slot: u64)
    requires IsTrace(tr, evs) && m <= n <= |evs| && id in tr[n].campaigns && OpenedIn(tr, evs, m, id, slot)
    ensures slot <= tr[n].campaigns[id].createdSlot
  {
    hide Step;
    if CreatesAt(tr[m - 1], evs[m - 1], id) && evs[m - 1].slot == slot {
      SpentIsDrawn(tr, evs, n, id);
      OpenedIsLatest(tr, evs, n, m - 1, id);
    } else {
      StampNotAhead(tr, evs, n, m - 1, id, slot);
    }
  }

  lemma {:induction false} OpenedIsLatest(tr: seq<Shop>, evs: seq<Event>, n: nat, i: nat, id: u64)
    requires i < n <= |evs| <= |tr| && CreatesAt(tr[i], evs[i], id)
    ensures i <= Opened(tr, evs, n, id)
  {
    hide CreatesAt;
    if !CreatesAt(tr[n - 1], evs[n - 1], id) {
      OpenedIsLatest(tr, evs, n - 1, i, id);
    }
  }

  /** Once completed in an instance, a customer's quest stays completed until a newer instance replaces it. */
  lemma {:induction false} CompletionIsFinal(tr: seq<Shop>, evs: seq<Event>, i: nat, n: nat, id: u64, customer: Pubkey)
    requires IsTrace(tr, evs) && i < n <= |evs| && CompletesAt(tr, evs, i, id, customer)
    ensures var k, slot := ProgressKey(id, customer), tr[i].campaigns[id].createdSlot;
      k in tr[n].progress
      && (tr[n].progress[k].campaignSlot > slot || (tr[n].progress[k].campaignSlot == slot && tr[n].progress[k].completed))
    decreases n
  {
    hide Step, Paid, Minted;
    var s, e, k := tr[n - 1], evs[n - 1], ProgressKey(id, customer);
    if i == n - 1 {
      StepPays(s, e, id);
    } else {
      CompletionIsFinal(tr, evs, i, n - 1, id, customer);
      if PaysAt(s, e, id) {
        StepPays(s, e, id);
        StampsAreInstances(tr, evs, n - 1, k);
        StampNotAhead(tr, evs, n - 1, n - 1, id, s.progress[k].campaignSlot);
      } else {
        StepOtherwise(s, e, id);
      }
    }
  }

  /** A customer completes a quest at most once per instance, and after completing draws nothing more from it. */
  lemma QuestPaysOnce(tr: seq<Shop>, evs: seq<Event>, i: nat, j: nat, id: u64, customer: Pubkey)
    requires IsTrace(tr, evs) && i < j < |evs| && CompletesAt(tr, evs, i, id, customer)
    requires PaysAt(tr[j], evs[j], id) && evs[j].op.customer == customer
    requires tr[j].campaigns[id].createdSlot == tr[i].campaigns[id].createdSlot
    ensures !CompletesAt(tr, evs, j, id, customer)
    ensures tr[j].campaigns[id].kind == QUEST ==> Paid(tr[j], evs[j], id) == 0
  {
    hide Step, Paid, Minted;
    var k := ProgressKey(id, customer);
    CompletionIsFinal(tr, evs, i, j, id, customer);
    StampsAreInstances(tr, evs, j, k);
    StampNotAhead(tr, evs, j, j, id, tr[j].progress[k].campaignSlot);
    StepPays(tr[j], evs[j], id);
  }
}
