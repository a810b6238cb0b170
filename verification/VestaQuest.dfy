/** The one-time reward of a quest: when a customer draws it exactly once and in full, and when not. */
module VestaQuest {
  import opened Base
  import opened Vesta
  import opened VestaFrame
  import opened VestaIssuance
  import opened VestaCampaign

  // --------------------------------------------------------------- one quest earn

  /** This earn brings the customer to the quest's target, and the quest is still open to them. */
  predicate Due(s: Shop, id: u64, customer: Pubkey)
    requires id in s.campaigns
  {
    var g := ProgressOf(s, id, customer).1;
    !g.completed && SatAdd16(g.visits, 1) >= s.campaigns[id].questTarget
  }

  /** An earn that is due while a budget is in force and what is left of it is short of the reward. */
  predicate TightEarn(s: Shop, e: Event, id: u64) {
    && PaysAt(s, e, id) && Due(s, id, e.op.customer)
    && var c := s.campaigns[id];
    && c.pointsBudget > 0 && 0 < c.pointsBudget - c.pointsSpent < c.questReward
  }

  /** What is paid to a customer who has drawn nothing yet, or is done: the reward when due, or what is left of the
      budget if that is less; and done exactly by a reward paid in full. */
  lemma QuestPayout(s: Shop, id: u64, customer: Pubkey, p: CustomerProfile, amountBase: u64, day: u32)
    requires id in s.campaigns && s.campaigns[id].kind == QUEST && QuestTerms(s.campaigns[id])
    requires CampaignPayout(s, id, customer, p, amountBase, day).Some?
    requires QuestDone(s, id, customer) || DrawnBefore(s, id, customer) == 0
    ensures var c := s.campaigns[id];
      var pay := CampaignPayout(s, id, customer, p, amountBase, day).value;
      && pay.bonus == (if !Due(s, id, customer) then 0
                       else if c.pointsBudget > 0 then Min(c.questReward, SatSub(c.pointsBudget, c.pointsSpent))
                       else c.questReward)
      && (pay.completes <==> Due(s, id, customer) && pay.bonus == c.questReward)
      && (pay.progress.completed <==> QuestDone(s, id, customer))
  {
  }

  /** From `s` to `s'`, customer's quest moved on by `paid`. */
  predicate QuestMoved(s: Shop, s': Shop, id: u64, customer: Pubkey, paid: u64)
    requires id in s.campaigns
  {
    var k, c := ProgressKey(id, customer), s.campaigns[id];
    && (c.pointsBudget > 0 ==> c.pointsSpent < c.pointsBudget)
    && paid == (if !Due(s, id, customer) then 0
                else if c.pointsBudget > 0 then Min(c.questReward, SatSub(c.pointsBudget, c.pointsSpent))
                else c.questReward)
    && k in s'.progress
    && (s'.progress[k].completed <==> QuestDone(s, id, customer) || (Due(s, id, customer) && paid == c.questReward))
  }

  lemma QuestEarnMoves(s: Shop, signer: Pubkey, customer: Pubkey, id: u64, amountBase: u64, visitDay: u32, now: i64)
    requires EarnPointsCampaign(s, signer, customer, id, amountBase, visitDay, now).Ok?
    requires id in s.campaigns && s.campaigns[id].kind == QUEST && QuestTerms(s.campaigns[id])
    requires QuestDone(s, id, customer) || DrawnBefore(s, id, customer) == 0
    ensures CampaignPayout(s, id, customer, ProfileOf(s, customer), amountBase, visitDay).Some?
    ensures var s' := EarnPointsCampaign(s, signer, customer, id, amountBase, visitDay, now).value;
      QuestMoved(s, s', id, customer, CampaignPayout(s, id, customer, ProfileOf(s, customer), amountBase, visitDay).value.bonus)
  {
    hide EarnPointsCampaign, CampaignPayout, Balance, ProfileOf, Due, QuestDone, DrawnBefore, QuestTerms;
    CampaignEarnWrites(s, signer, customer, id, amountBase, visitDay, now);
    QuestPayout(s, id, customer, ProfileOf(s, customer), amountBase, visitDay);
  }

  lemma StepQuest(s: Shop, e: Event, id: u64)
    requires PaysAt(s, e, id) && s.campaigns[id].kind == QUEST && QuestTerms(s.campaigns[id])
    requires QuestDone(s, id, e.op.customer) || DrawnBefore(s, id, e.op.customer) == 0
    ensures QuestMoved(s, Step(s, e).value, id, e.op.customer, Paid(s, e, id))
  {
    hide EarnPoints, EarnPointsCampaign, RedeemOffer, Clawback, Move, MintTo, Burn, Configure, SetMerchantSegments,
      RefreshCustomerEligibility, CreateOffer, SetOfferSegment, CloseOffer, OpenReserve, FundReserve, WithdrawReserve,
      CreateCampaign, UpdateCampaign, SetCampaignWinback, CloseCampaign, SetMerchantTrust, ReverifyMerchant, SetIssueStatus,
      CampaignPayout, ProfileOf, QuestMoved, QuestDone, DrawnBefore, QuestTerms;
    QuestEarnMoves(s, e.op.signer, e.op.customer, id, e.op.amountBase, e.op.visitDay, e.now);
  }

  // --------------------------------------------------------------- one instance

  /** Under the instance stamped `slot`, every customer holds nothing or exactly the reward. */
  predicate AllOrNothing(s: Shop, id: u64, slot: u64, reward: u64) {
    forall k :: k in s.progress && k.campaign == id && s.progress[k].campaignSlot == slot ==>
      s.progress[k].bonusDrawn == 0 || s.progress[k].bonusDrawn == reward
  }

  /** And it is the reward exactly for those who completed. */
  predicate PaidOnCompletion(s: Shop, id: u64, slot: u64, reward: u64) {
    forall k :: k in s.progress && k.campaign == id && s.progress[k].campaignSlot == slot ==>
      s.progress[k].bonusDrawn == if s.progress[k].completed then reward else 0
  }

  /** The live instance is a quest with these terms. */
  predicate IsQuest(c: Campaign, slot: u64, reward: u64) {
    c.kind == QUEST && c.createdSlot == slot && c.questReward == reward && QuestTerms(c)
  }

  /** An earn that is not tight keeps draws and completions together; a tight one breaks them. */
  lemma QuestStep(s: Shop, e: Event, id: u64, slot: u64, reward: u64)
    requires PaysAt(s, e, id) && IsQuest(s.campaigns[id], slot, reward) && PaidOnCompletion(s, id, slot, reward)
    requires DrawnBefore(s, id, e.op.customer) + Paid(s, e, id) <= U64_MAX
    ensures var s' := Step(s, e).value;
      && (!TightEarn(s, e, id) ==> PaidOnCompletion(s', id, slot, reward))
      && (TightEarn(s, e, id) ==> !AllOrNothing(s', id, slot, reward))
  {
    hide Step, Paid, Minted, Due;
    var s', k := Step(s, e).value, ProgressKey(id, e.op.customer);
    DrawnOrDone(s, id, e.op.customer, slot, reward);
    StepPays(s, e, id);
    StepQuest(s, e, id);
    assert s'.progress == s.progress[k := s'.progress[k]];
  }

  lemma DrawnOrDone(s: Shop, id: u64, customer: Pubkey, slot: u64, reward: u64)
    requires id in s.campaigns && s.campaigns[id].createdSlot == slot && PaidOnCompletion(s, id, slot, reward)
    ensures DrawnBefore(s, id, customer) == if QuestDone(s, id, customer) then reward else 0
  {
  }

  // -------------------------------------------------------------------- over runs

  /** Since it was opened at `j`, the live instance has kept the terms it was opened with. */
  lemma {:induction false} LiveTerms(tr: seq<Shop>, evs: seq<Event>, n: nat, id: u64)
    requires IsTrace(tr, evs) && n <= |evs| && id in tr[n].campaigns
    ensures var j := Opened(tr, evs, n, id); var c := tr[n].campaigns[id];
      j >= 0 && c.createdSlot == evs[j].slot && c.kind == evs[j].op.args.kind
      && c.questReward == evs[j].op.args.questReward && QuestTerms(c)
  {
    hide Step, Paid, Minted, QuestTerms;
    if n > 0 {
      var m := n - 1;
      if PaysAt(tr[m], evs[m], id) {
        LiveTerms(tr, evs, m, id);
        StepPays(tr[m], evs[m], id);
        PaysKeepsTerms(tr[m], evs[m], id);
        PaysDoesNotCreate(tr[m], evs[m], id);
      } else {
        StepOtherwise(tr[m], evs[m], id);
        if id in tr[m].campaigns {
          LiveTerms(tr, evs, m, id);
        }
      }
    }
  }

  lemma PaysKeepsTerms(s: Shop, e: Event, id: u64)
    requires PaysAt(s, e, id) && QuestTerms(s.campaigns[id])
    ensures var s' := Step(s, e).value; id in s'.campaigns && QuestTerms(s'.campaigns[id])
  {
    hide Step, Paid, Minted;
    StepPays(s, e, id);
  }

  lemma PaysDoesNotCreate(s: Shop, e: Event, id: u64)
    requires PaysAt(s, e, id)
    ensures !CreatesAt(s, e, id)
  {
    hide Step;
  }

  /** A quest instance opened at `j` in a slot of its own, and still the latest of its id before `n`. */
  predicate QuestInstance(tr: seq<Shop>, evs: seq<Event>, j: nat, n: nat, id: u64)
    requires n <= |evs| <= |tr|
  {
    j < n && Opened(tr, evs, n, id) == j && evs[j].op.args.kind == QUEST && !OpenedIn(tr, evs, j, id, evs[j].slot)
  }

  ghost predicate NoTightEarn(tr: seq<Shop>, evs: seq<Event>, j: nat, n: nat, id: u64)
    requires n <= |evs| <= |tr|
  {
    forall m :: j < m < n ==> !TightEarn(tr[m], evs[m], id)
  }

  lemma EarlierInstance(tr: seq<Shop>, evs: seq<Event>, j: nat, m: nat, n: nat, id: u64)
    requires n == m + 1 && n <= |evs| <= |tr| && QuestInstance(tr, evs, j, n, id) && j < m
    ensures QuestInstance(tr, evs, j, m, id)
  {
    hide CreatesAt;
  }

  /** Until a tight earn, whoever completed holds the reward and everyone else nothing. */
  lemma {:induction false} PaidOnCompletionUntilTight(tr: seq<Shop>, evs: seq<Event>, j: nat, n: nat, id: u64)
    requires IsTrace(tr, evs) && n <= |evs| && QuestInstance(tr, evs, j, n, id) && NoTightEarn(tr, evs, j, n, id)
    ensures PaidOnCompletion(tr[n], id, evs[j].slot, evs[j].op.args.questReward)
    decreases n
  {
    hide Step, Paid, Minted, TightEarn, PaidOnCompletion;
    var m := n - 1;
    if j == m {
      FreshInstance(tr, evs, j, n, id);
    } else {
      EarlierInstance(tr, evs, j, m, n, id);
      PaidOnCompletionUntilTight(tr, evs, j, m, id);
      InstanceStep(tr, evs, j, m, n, id);
    }
  }

  lemma FreshInstance(tr: seq<Shop>, evs: seq<Event>, j: nat, n: nat, id: u64)
    requires IsTrace(tr, evs) && n <= |evs| && n == j + 1 && QuestInstance(tr, evs, j, n, id)
    ensures PaidOnCompletion(tr[n], id, evs[j].slot, evs[j].op.args.questReward)
  {
    hide Step;
    CreationIsNew(tr[j], evs[j], id);
    StepOtherwise(tr[j], evs[j], id);
    forall k | k in tr[j].progress && k.campaign == id ensures tr[j].progress[k].campaignSlot != evs[j].slot {
      StampsAreInstances(tr, evs, j, k);
    }
  }

  lemma InstanceStep(tr: seq<Shop>, evs: seq<Event>, j: nat, m: nat, n: nat, id: u64)
    requires IsTrace(tr, evs) && n == m + 1 && n <= |evs| && QuestInstance(tr, evs, j, m, id)
    requires !CreatesAt(tr[m], evs[m], id)
    requires PaidOnCompletion(tr[m], id, evs[j].slot, evs[j].op.args.questReward)
    ensures var slot, reward := evs[j].slot, evs[j].op.args.questReward;
      && (!TightEarn(tr[m], evs[m], id) ==> PaidOnCompletion(tr[n], id, slot, reward))
      && (TightEarn(tr[m], evs[m], id) ==> !AllOrNothing(tr[n], id, slot, reward))
  {
    hide Step, Paid, Minted, Due;
    if PaysAt(tr[m], evs[m], id) {
      hide PaidOnCompletion, AllOrNothing, TightEarn, QuestTerms, DrawnBefore;
      LiveTerms(tr, evs, m, id);
      DrawFits(tr, evs, m, id);
      QuestStep(tr[m], evs[m], id, evs[j].slot, evs[j].op.args.questReward);
    } else {
      StepOtherwise(tr[m], evs[m], id);
    }
  }

  /** The exact condition. Under a quest instance in a slot of its own, every customer's draw is nothing or exactly the
      reward in every state up to `n`, if and only if no earn that was due found less than the reward left in the
      budget, which the campaign account shows before the call. */
  lemma {:induction false} OneTimeRewardIffNeverTight(tr: seq<Shop>, evs: seq<Event>, j: nat, n: nat, id: u64)
    requires IsTrace(tr, evs) && n <= |evs| && QuestInstance(tr, evs, j, n, id)
    ensures (forall m :: j < m <= n ==> AllOrNothing(tr[m], id, evs[j].slot, evs[j].op.args.questReward))
            <==> NoTightEarn(tr, evs, j, n, id)
    decreases n
  {
    hide Step, TightEarn, AllOrNothing, PaidOnCompletion;
    var m, slot, reward := n - 1, evs[j].slot, evs[j].op.args.questReward;
    if j < m {
      EarlierInstance(tr, evs, j, m, n, id);
      OneTimeRewardIffNeverTight(tr, evs, j, m, id);
      assert NoTightEarn(tr, evs, j, n, id) <==> NoTightEarn(tr, evs, j, m, id) && !TightEarn(tr[m], evs[m], id);
      assert (forall i :: j < i <= n ==> AllOrNothing(tr[i], id, slot, reward)) <==>
             (forall i :: j < i <= m ==> AllOrNothing(tr[i], id, slot, reward)) && AllOrNothing(tr[n], id, slot, reward);
      if NoTightEarn(tr, evs, j, m, id) {
        PaidOnCompletionUntilTight(tr, evs, j, m, id);
        InstanceStep(tr, evs, j, m, n, id);
        PaidIsAllOrNothing(tr[n], id, slot, reward);
      }
    } else {
      PaidOnCompletionUntilTight(tr, evs, j, n, id);
      PaidIsAllOrNothing(tr[n], id, slot, reward);
    }
  }

  lemma PaidIsAllOrNothing(s: Shop, id: u64, slot: u64, reward: u64)
    ensures PaidOnCompletion(s, id, slot, reward) ==> AllOrNothing(s, id, slot, reward)
  {
  }

  // --------------------------------------------------------- budgets that never bite

  /** Every budget in force along the run is unlimited or a whole number of rewards. */
  ghost predicate WholeBudgets(tr: seq<Shop>, evs: seq<Event>, j: nat, n: nat, id: u64)
    requires j < n <= |evs| < |tr| && evs[j].op.CreateCampaignOp? && evs[j].op.args.questReward > 0
  {
    forall m :: j < m <= n && id in tr[m].campaigns ==> tr[m].campaigns[id].pointsBudget % evs[j].op.args.questReward == 0
  }

  lemma AtLeastOne(k: nat, d: nat)
    requires k > 0
    ensures k * d >= d
  {
    assert k * d == d + (k - 1) * d;
  }

  /** Only zero is a multiple of `d` closer to zero than `d`. */
  lemma SmallMultiple(k: int, d: nat, r: int)
    requires k * d == r && r < d && r + d > 0
    ensures r == 0
  {
    if k > 0 {
      AtLeastOne(k, d);
    } else if k < 0 {
      AtLeastOne(-k, d);
    }
  }

  lemma RestOf(x: nat, d: nat)
    requires d > 0
    ensures x == x / d * d + x % d && 0 <= x % d < d
  {
  }

  lemma MultipleHasNoRest(k: nat, d: nat)
    requires d > 0
    ensures k * d % d == 0
  {
    RestOf(k * d, d);
    var q := k * d / d;
    assert (k - q) * d == k * d - q * d;
    SmallMultiple(k - q, d, k * d % d);
  }

  lemma WholeLeft(budget: nat, spent: nat, reward: nat)
    requires reward > 0 && budget % reward == 0 && spent % reward == 0 && spent < budget
    ensures budget - spent >= reward
  {
    RestOf(budget, reward);
    RestOf(spent, reward);
    var k := budget / reward - spent / reward;
    assert k * reward == budget / reward * reward - spent / reward * reward;
    if budget - spent < reward {
      SmallMultiple(k, reward, budget - spent);
    }
  }

  lemma WholeMore(spent: nat, reward: nat)
    requires reward > 0 && spent % reward == 0
    ensures (spent + reward) % reward == 0
  {
    RestOf(spent, reward);
    var p := spent / reward;
    assert (p + 1) * reward == p * reward + reward;
    MultipleHasNoRest(p + 1, reward);
  }

  /** Then spending stays a whole number of rewards, short of saturation, and no earn is tight. */
  lemma {:induction false} WholeSpending(tr: seq<Shop>, evs: seq<Event>, j: nat, n: nat, id: u64)
    requires IsTrace(tr, evs) && n <= |evs| && QuestInstance(tr, evs, j, n, id) && evs[j].op.args.questReward > 0
    requires WholeBudgets(tr, evs, j, n, id)
    ensures NoTightEarn(tr, evs, j, n, id)
    ensures id in tr[n].campaigns ==>
      tr[n].campaigns[id].pointsSpent % evs[j].op.args.questReward == 0 || tr[n].campaigns[id].pointsSpent == U64_MAX
    decreases n
  {
    hide Step, Paid, Minted, TightEarn, CreatesAt;
    var m := n - 1;
    if j == m {
      FreshSpending(tr, evs, j, n, id);
    } else {
      EarlierInstance(tr, evs, j, m, n, id);
      WholeSpending(tr, evs, j, m, id);
      PaidOnCompletionUntilTight(tr, evs, j, m, id);
      SpendingStep(tr, evs, j, m, n, id);
    }
  }

  lemma FreshSpending(tr: seq<Shop>, evs: seq<Event>, j: nat, n: nat, id: u64)
    requires IsTrace(tr, evs) && n <= |evs| && n == j + 1 && QuestInstance(tr, evs, j, n, id)
    ensures id in tr[n].campaigns && tr[n].campaigns[id].pointsSpent == 0
  {
    hide Step;
    CreationIsNew(tr[j], evs[j], id);
    StepOtherwise(tr[j], evs[j], id);
  }

  lemma SpendingStep(tr: seq<Shop>, evs: seq<Event>, j: nat, m: nat, n: nat, id: u64)
    requires IsTrace(tr, evs) && n == m + 1 && n <= |evs| && QuestInstance(tr, evs, j, m, id) && !CreatesAt(tr[m], evs[m], id)
    requires PaidOnCompletion(tr[m], id, evs[j].slot, evs[j].op.args.questReward) && evs[j].op.args.questReward > 0
    requires id in tr[m].campaigns ==> var c := tr[m].campaigns[id]; var reward := evs[j].op.args.questReward;
      c.pointsBudget % reward == 0 && (c.pointsSpent % reward == 0 || c.pointsSpent == U64_MAX)
    ensures !TightEarn(tr[m], evs[m], id)
    ensures id in tr[n].campaigns ==>
      tr[n].campaigns[id].pointsSpent % evs[j].op.args.questReward == 0 || tr[n].campaigns[id].pointsSpent == U64_MAX
  {
    hide Step, Paid, Minted, Due, PaidOnCompletion;
    var s, e, reward := tr[m], evs[m], evs[j].op.args.questReward;
    if PaysAt(s, e, id) {
      var c := s.campaigns[id];
      LiveTerms(tr, evs, m, id);
      DrawnOrDone(s, id, e.op.customer, evs[j].slot, reward);
      StepPays(s, e, id);
      StepQuest(s, e, id);
      if c.pointsBudget > 0 {
        WholeLeft(c.pointsBudget, c.pointsSpent, reward);
      }
      if c.pointsSpent % reward == 0 {
        WholeMore(c.pointsSpent, reward);
      }
    } else {
      StepOtherwise(s, e, id);
    }
  }

  /** So if every budget ever set is unlimited or a whole number of rewards, no customer ever draws more than the
      reward: nothing before completing, the reward from then on. */
  lemma WholeBudgetsPayOnce(tr: seq<Shop>, evs: seq<Event>, j: nat, n: nat, id: u64)
    requires IsTrace(tr, evs) && n <= |evs| && QuestInstance(tr, evs, j, n, id) && evs[j].op.args.questReward > 0
    requires WholeBudgets(tr, evs, j, n, id)
    ensures PaidOnCompletion(tr[n], id, evs[j].slot, evs[j].op.args.questReward)
  {
    hide Step;
    WholeSpending(tr, evs, j, n, id);
    PaidOnCompletionUntilTight(tr, evs, j, n, id);
  }
}
