/** Concrete runs of one merchant that show where a promise stops. */
module VestaRuns {
  import opened Base
  import opened Vesta
  import opened VestaFrame
  import opened VestaIssuance
  import opened VestaCampaign
  import VestaQuest
  import VestaTrust
  import Aegis
  import TrustStreak

  const OWNER: Pubkey := 1
  const ALICE: Pubkey := 2
  const BOB: Pubkey := 3
  const ID: u64 := 7
  const SLOT: u64 := 5

  /** A quest done on the first visit, for 100 points. */
  function QuestArgs(budget: u64): CampaignArgs {
    CampaignArgs(QUEST, 0, 0, 1, 100, 0, 0, budget, 0, 0, 100)
  }

  function At(op: Op): Event {
    Event(op, 1, SLOT)
  }

  lemma PlainShop() returns (s: Shop)
    ensures IsTrace([s], []) && Idle(s, 0) && s.campaigns == map[] && s.progress == map[] && s.trust.None?
  {
    s := RegisterMerchant(OWNER, 1).value;
  }

  /** Open for business, and `room` bounds every total so far. */
  ghost predicate Idle(s: Shop, room: nat) {
    var m := s.merchant;
    && !s.protocolPaused && m.authority == OWNER && !m.paused && m.issueStatus == TrustStreak.NORMAL
    && !m.governanceEnabled && m.baseEarnRate == 1 && m.dailyIssueCapRaw == 0
    && m.lifetimePointsIssued <= room && m.issuedToday <= room && m.customerCount <= room && s.supply <= room
    && (forall c :: c in s.balances ==> s.balances[c] <= room)
    && (forall c :: c in s.profiles ==> s.profiles[c].lifetimeEarned <= room)
  }

  /** The quest as it stands. */
  predicate QuestAt(s: Shop, budget: u64, spent: u64) {
    && ID in s.campaigns
    && var c := s.campaigns[ID];
    && c.kind == QUEST && c.questTarget == 1 && c.questReward == 100 && c.minSpendBase == 0 && c.minTier == 0
    && c.pointsBudget == budget && c.pointsSpent == spent && c.perCustomerCap == 0
    && c.startsAt == 0 && c.endsAt == 100 && c.active && !c.paused && c.createdSlot == SLOT && c.minDaysInactive == 0
  }

  predicate Holds(s: Shop, customer: Pubkey, drawn: u64, done: bool) {
    var k := ProgressKey(ID, customer);
    k in s.progress && s.progress[k].campaignSlot == SLOT && s.progress[k].bonusDrawn == drawn && s.progress[k].completed == done
  }

  lemma Opens(s: Shop, budget: u64, room: nat)
    requires Idle(s, room) && ID !in s.campaigns && (budget == 0 || budget >= 100)
    ensures var s' := After(s, Step(s, At(CreateCampaignOp(OWNER, ID, QuestArgs(budget)))));
      Idle(s', room) && QuestAt(s', budget, 0) && s'.progress == s.progress
      && CreatesAt(s, At(CreateCampaignOp(OWNER, ID, QuestArgs(budget))), ID)
  {
    assert Step(s, At(CreateCampaignOp(OWNER, ID, QuestArgs(budget)))) == CreateCampaign(s, OWNER, ID, QuestArgs(budget), SLOT);
  }

  lemma Rebudgets(s: Shop, old_: u64, spent: u64, budget: u64, room: nat)
    requires Idle(s, room) && QuestAt(s, old_, spent) && budget >= spent && budget >= 100
    ensures var s' := After(s, Step(s, At(UpdateCampaignOp(OWNER, ID, UpdateCampaignArgs(None, Some(budget), None, None)))));
      Idle(s', room) && QuestAt(s', budget, spent) && s'.progress == s.progress
  {
    assert Step(s, At(UpdateCampaignOp(OWNER, ID, UpdateCampaignArgs(None, Some(budget), None, None))))
        == UpdateCampaign(s, OWNER, ID, UpdateCampaignArgs(None, Some(budget), None, None));
  }

  lemma OnePoint(bps: u64)
    requires 10_000 <= bps <= 16_000
    ensures Scale(1, 1, bps) == Some(1)
  {
  }

  lemma OwnerAdmitted(s: Shop, customer: Pubkey, room: nat)
    requires Idle(s, room) && room <= 1_000_000
    ensures AdmitEarn(s, OWNER, customer, 1, 0, 1).Ok?
    ensures var (day, p, m) := AdmitEarn(s, OWNER, customer, 1, 0, 1).value;
      day == 0 && p == ProfileOf(s, customer) && m == s.merchant.(customerCount := m.customerCount) && m.customerCount <= room + 1
  {
  }

  lemma SmallAccrual(p: CustomerProfile, m: Merchant, bonus: u64)
    requires m.baseEarnRate == 1 && m.dailyIssueCapRaw == 0 && bonus <= 100
    requires p.lifetimeEarned <= 1_000_000 && m.lifetimePointsIssued <= 1_000_000 && m.issuedToday <= 1_000_000
    ensures Accrue(p, m, 1, 0, bonus, 0).Ok? && Accrue(p, m, 1, 0, bonus, 0).value.minted == 1 + bonus
  {
    hide NextStreak, Scale, Tier;
    PreviewIsUsed(p, 0);
    OnePoint(PreviewTotalBps(p, 0));
  }

  lemma QuestPrice(s: Shop, customer: Pubkey, budget: u64, spent: u64, drawn: u64)
    requires QuestAt(s, budget, spent) && spent < budget
    requires if drawn == 0 then ProgressKey(ID, customer) !in s.progress else Holds(s, customer, drawn, false)
    ensures CampaignPayout(s, ID, customer, ProfileOf(s, customer), 1, 0).Some?
    ensures var pay := CampaignPayout(s, ID, customer, ProfileOf(s, customer), 1, 0).value;
      && pay.bonus == Min(100, budget - spent) && (pay.completes <==> pay.bonus == 100)
      && pay.progress.campaignSlot == SLOT && pay.progress.bonusDrawn == drawn && !pay.progress.completed
  {
    hide ProfileOf;
  }

  lemma Admitted(s: Shop, p: CustomerProfile, budget: u64, spent: u64)
    requires QuestAt(s, budget, spent) && spent < budget
    ensures s.campaigns[ID].IsLive(1) && CampaignAdmits(s.campaigns[ID], p, 1, 0)
  {
  }

  lemma SmallMint(s: Shop, owner: Pubkey, amount: u64)
    requires s.supply <= 1_000_000 && Balance(s, owner) <= 1_000_000 && amount <= 1_000
    ensures MintTo(s, owner, amount).Ok?
  {
  }

  lemma EarnGoesThrough(s: Shop, customer: Pubkey, budget: u64, spent: u64, drawn: u64, room: nat)
    requires Idle(s, room) && room <= 1_000_000 && QuestAt(s, budget, spent) && spent < budget
    requires if drawn == 0 then ProgressKey(ID, customer) !in s.progress else Holds(s, customer, drawn, false)
    ensures EarnPointsCampaign(s, OWNER, customer, ID, 1, 0, 1).Ok?
  {
    hide AdmitEarn, Accrue, CampaignPayout, CampaignAdmits, Campaign.IsLive, MintTo;
    OwnerAdmitted(s, customer, room);
    Admitted(s, ProfileOf(s, customer), budget, spent);
    QuestPrice(s, customer, budget, spent, drawn);
    var (day, p, m) := AdmitEarn(s, OWNER, customer, 1, 0, 1).value;
    var pay := CampaignPayout(s, ID, customer, p, 1, 0).value;
    SmallAccrual(p, m, pay.bonus);
    SmallMint(WithPayout(s, ID, customer, pay, Accrue(p, m, 1, 0, pay.bonus, 0).value), customer, 1 + pay.bonus);
  }

  /** A one-point purchase by a customer whose quest is open pays what the budget still has, up to the reward. */
  lemma EarnPays(s: Shop, customer: Pubkey, budget: u64, spent: u64, drawn: u64, room: nat)
    requires Idle(s, room) && room <= 1_000_000 && QuestAt(s, budget, spent) && spent < budget && drawn <= 1_000
    requires if drawn == 0 then ProgressKey(ID, customer) !in s.progress else Holds(s, customer, drawn, false)
    ensures EarnPointsCampaign(s, OWNER, customer, ID, 1, 0, 1).Ok?
    ensures var s' := EarnPointsCampaign(s, OWNER, customer, ID, 1, 0, 1).value;
      var paid := Min(100, budget - spent);
      && QuestAt(s', budget, spent + paid) && Holds(s', customer, drawn + paid, paid == 100)
      && s'.progress == s.progress[ProgressKey(ID, customer) := s'.progress[ProgressKey(ID, customer)]]
  {
    hide EarnPointsCampaign, CampaignPayout, PreviewTotalBps, Balance, Idle;
    EarnGoesThrough(s, customer, budget, spent, drawn, room);
    QuestPrice(s, customer, budget, spent, drawn);
    CampaignEarnWrites(s, OWNER, customer, ID, 1, 0, 1);
  }

  lemma EarnKeepsIdle(s: Shop, customer: Pubkey, budget: u64, spent: u64, drawn: u64, room: nat)
    requires Idle(s, room) && room <= 1_000_000 && QuestAt(s, budget, spent) && spent < budget
    requires if drawn == 0 then ProgressKey(ID, customer) !in s.progress else Holds(s, customer, drawn, false)
    requires EarnPointsCampaign(s, OWNER, customer, ID, 1, 0, 1).Ok?
    ensures Idle(EarnPointsCampaign(s, OWNER, customer, ID, 1, 0, 1).value, room + 1_000)
  {
    hide AdmitEarn, Accrue, CampaignPayout, CampaignAdmits, Campaign.IsLive, NextStreak, TotalBps, Tier;
    OwnerAdmitted(s, customer, room);
    QuestPrice(s, customer, budget, spent, drawn);
    var (day, p, m) := AdmitEarn(s, OWNER, customer, 1, 0, 1).value;
    var pay := CampaignPayout(s, ID, customer, p, 1, 0).value;
    SmallAccrual(p, m, pay.bonus);
    AccrueAdds(p, m, 1, 0, pay.bonus, 0);
    AccrueFrame(p, m, 1, 0, pay.bonus, 0);
  }

  lemma Earns(s: Shop, customer: Pubkey, budget: u64, spent: u64, drawn: u64, room: nat)
    requires Idle(s, room) && room <= 1_000_000 && QuestAt(s, budget, spent) && spent < budget && drawn <= 1_000
    requires if drawn == 0 then ProgressKey(ID, customer) !in s.progress else Holds(s, customer, drawn, false)
    ensures var e := At(EarnCampaignOp(OWNER, customer, ID, 1, 0)); var s' := After(s, Step(s, e));
      var paid := Min(100, budget - spent);
      && PaysAt(s, e, ID)
      && Idle(s', room + 1_000) && QuestAt(s', budget, spent + paid) && Holds(s', customer, drawn + paid, paid == 100)
      && s'.progress == s.progress[ProgressKey(ID, customer) := s'.progress[ProgressKey(ID, customer)]]
  {
    var e := At(EarnCampaignOp(OWNER, customer, ID, 1, 0));
    assert Step(s, e) == EarnPointsCampaign(s, OWNER, customer, ID, 1, 0, 1) by {
      hide EarnPointsCampaign;
    }
    hide Step, EarnPointsCampaign, Idle;
    EarnPays(s, customer, budget, spent, drawn, room);
    EarnKeepsIdle(s, customer, budget, spent, drawn, room);
  }

  function Extended(tr: seq<Shop>, e: Event): seq<Shop>
    requires |tr| > 0
  {
    tr + [After(tr[|tr| - 1], Step(tr[|tr| - 1], e))]
  }

  /** Alice completes a quest with a budget of one reward and a half; Bob, due next, gets the other half and stays open. */
  lemma HalfPaid() returns (tr: seq<Shop>, evs: seq<Event>)
    ensures IsTrace(tr, evs) && evs == [At(CreateCampaignOp(OWNER, ID, QuestArgs(150)))]
      + [At(EarnCampaignOp(OWNER, ALICE, ID, 1, 0))] + [At(EarnCampaignOp(OWNER, BOB, ID, 1, 0))]
    ensures CreatesAt(tr[0], evs[0], ID) && PaysAt(tr[2], evs[2], ID)
    ensures QuestAt(tr[2], 150, 100) && ProgressKey(ID, BOB) !in tr[2].progress
    ensures Idle(tr[3], 2_000) && QuestAt(tr[3], 150, 150) && Holds(tr[3], BOB, 50, false)
  {
    hide Step, Idle;
    var s0 := PlainShop();
    var open, alice, bob := At(CreateCampaignOp(OWNER, ID, QuestArgs(150))),
      At(EarnCampaignOp(OWNER, ALICE, ID, 1, 0)), At(EarnCampaignOp(OWNER, BOB, ID, 1, 0));
    var t1 := Extended([s0], open);
    RunExtends([s0], [], open);
    Opens(s0, 150, 0);
    var t2 := Extended(t1, alice);
    RunExtends(t1, [open], alice);
    Earns(t1[1], ALICE, 150, 0, 0, 0);
    RunExtends(t2, [open] + [alice], bob);
    Earns(t2[2], BOB, 150, 100, 0, 1_000);
    tr, evs := Extended(t2, bob), [open] + [alice] + [bob];
  }

  /** A quest pays its one-time reward once and a half: the budget had 50 left when Bob was due, so he was paid 50 and
      stayed open; the owner then raises the budget and Bob is paid the full reward on top. */
  lemma QuestCanOverpay() returns (tr: seq<Shop>, evs: seq<Event>)
    ensures IsTrace(tr, evs) && |evs| == 5
    ensures VestaQuest.QuestInstance(tr, evs, 0, 5, ID) && evs[0].op.args.questReward == 100
    ensures VestaQuest.TightEarn(tr[2], evs[2], ID)
    ensures ProgressKey(ID, BOB) in tr[5].progress && tr[5].progress[ProgressKey(ID, BOB)].bonusDrawn == 150
  {
    hide Step, Idle;
    var t3, e3 := HalfPaid();
    var more := At(UpdateCampaignOp(OWNER, ID, UpdateCampaignArgs(None, Some(250), None, None)));
    var bob := At(EarnCampaignOp(OWNER, BOB, ID, 1, 0));
    var t4 := Extended(t3, more);
    RunExtends(t3, e3, more);
    Rebudgets(t3[3], 150, 150, 250, 2_000);
    RunExtends(t4, e3 + [more], bob);
    Earns(t4[4], BOB, 250, 150, 50, 2_000);
    tr, evs := Extended(t4, bob), e3 + [more] + [bob];
    OpenedOnlyFirst(tr, evs, 5);
  }

  lemma {:induction false} OpenedOnlyFirst(tr: seq<Shop>, evs: seq<Event>, n: nat)
    requires 0 < n <= |evs| <= |tr| && CreatesAt(tr[0], evs[0], ID)
    requires forall i :: 0 < i < n ==> !evs[i].op.CreateCampaignOp?
    ensures Opened(tr, evs, n, ID) == 0
  {
    hide Step;
    if n > 1 {
      OpenedOnlyFirst(tr, evs, n - 1);
    }
  }

  // ------------------------------------------------------------------ two instances, one slot

  lemma Closes(s: Shop, room: nat)
    requires Idle(s, room) && ID in s.campaigns
    ensures var s' := After(s, Step(s, At(CloseCampaignOp(OWNER, ID))));
      Idle(s', room) && ID !in s'.campaigns && s'.progress == s.progress
  {
    assert Step(s, At(CloseCampaignOp(OWNER, ID))) == CloseCampaign(s, OWNER, ID);
  }

  /** Progress is keyed on the creation slot so that a new instance starts afresh; closed and opened again within one
      slot, a campaign starts with spending 0 while Alice still holds the 100 she drew, and her quest still counts done. */
  lemma SameSlotCarriesOver() returns (tr: seq<Shop>, evs: seq<Event>)
    ensures IsTrace(tr, evs) && |evs| == 4 && CreatesAt(tr[3], evs[3], ID)
    ensures QuestAt(tr[4], 0, 0) && Holds(tr[4], ALICE, 100, true)
    ensures QuestDone(tr[4], ID, ALICE) && DrawnBefore(tr[4], ID, ALICE) == 100
  {
    hide Step, Idle;
    var s0 := PlainShop();
    var open, alice := At(CreateCampaignOp(OWNER, ID, QuestArgs(150))), At(EarnCampaignOp(OWNER, ALICE, ID, 1, 0));
    var close, again := At(CloseCampaignOp(OWNER, ID)), At(CreateCampaignOp(OWNER, ID, QuestArgs(0)));
    var t1 := Extended([s0], open);
    RunExtends([s0], [], open);
    Opens(s0, 150, 0);
    var t2 := Extended(t1, alice);
    RunExtends(t1, [open], alice);
    Earns(t1[1], ALICE, 150, 0, 0, 0);
    var t3 := Extended(t2, close);
    RunExtends(t2, [open] + [alice], close);
    Closes(t2[2], 1_000);
    RunExtends(t3, [open] + [alice] + [close], again);
    Opens(t3[3], 0, 1_000);
    tr, evs := Extended(t3, again), [open] + [alice] + [close] + [again];
  }

  // ------------------------------------------------------------------ an override undone

  const FROZEN: u8 := 2

  lemma Binds(s: Shop, room: nat)
    requires Idle(s, room)
    ensures var s' := After(s, Step(s, At(SetTrustOp(OWNER, 4, 5, 6, 9, 1, 86_400))));
      Idle(s', room) && s'.trust.Some? && s'.trust.value.aegisProgram == 9
  {
    assert Step(s, At(SetTrustOp(OWNER, 4, 5, 6, 9, 1, 86_400))) == SetMerchantTrust(s, OWNER, 4, 5, 6, 9, 1, 86_400, 1);
  }

  lemma Freezes(s: Shop, room: nat)
    requires Idle(s, room) && s.trust.Some?
    ensures var s' := After(s, Step(s, At(SetIssueStatusOp(OWNER, FROZEN))));
      s'.merchant.issueStatus == FROZEN && s'.trust == s.trust
  {
    assert Step(s, At(SetIssueStatusOp(OWNER, FROZEN))) == SetIssueStatus(s, OWNER, FROZEN);
  }

  lemma Thaws(s: Shop, verdict: Aegis.Verdict)
    requires s.trust.Some? && s.trust.value.aegisProgram == 9 && verdict.ok
    ensures After(s, Step(s, At(ReverifyOp(9, verdict)))).merchant.issueStatus == TrustStreak.NORMAL
  {
    assert Step(s, At(ReverifyOp(9, verdict))) == ReverifyMerchant(s, 9, verdict, 1);
  }

  /** The owner freezes issuance by hand and the next healthy crank, which needs no authority, lifts the freeze. */
  lemma HealthyCrankUndoesFreeze(verdict: Aegis.Verdict) returns (tr: seq<Shop>, evs: seq<Event>)
    requires verdict.ok
    ensures IsTrace(tr, evs) && |evs| == 3
    ensures evs[1].op.SetIssueStatusOp? && tr[2].merchant.issueStatus == FROZEN
    ensures evs[2] == At(ReverifyOp(9, verdict)) && tr[3].merchant.issueStatus == TrustStreak.NORMAL
  {
    hide Step, Idle;
    var s0 := PlainShop();
    var bind, freeze, crank := At(SetTrustOp(OWNER, 4, 5, 6, 9, 1, 86_400)), At(SetIssueStatusOp(OWNER, FROZEN)), At(ReverifyOp(9, verdict));
    var t1 := Extended([s0], bind);
    RunExtends([s0], [], bind);
    Binds(s0, 0);
    var t2 := Extended(t1, freeze);
    RunExtends(t1, [bind], freeze);
    Freezes(t1[1], 0);
    RunExtends(t2, [bind] + [freeze], crank);
    Thaws(t2[2], verdict);
    tr, evs := Extended(t2, crank), [bind] + [freeze] + [crank];
  }
}
