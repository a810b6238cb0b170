/** The vesta_core handlers as they run on the loaded accounts: each stops at the first failed requirement, and a handler
    that writes before its last check works on local copies and stores them at the end. */
module VestaProgram {
  import opened Base
  import opened Vesta
  import Aegis
  import TrustStreak

  lemma MoveTouchesBalances(s: Shop, source: Pubkey, target: Pubkey, amount: u64)
    requires Move(s, source, target, amount).Ok?
    ensures Move(s, source, target, amount).value == s.(balances := Move(s, source, target, amount).value.balances)
  {
  }

  lemma BurnTouchesLedger(s: Shop, owner: Pubkey, amount: u64)
    requires Burn(s, owner, amount).Ok?
    ensures var b := Burn(s, owner, amount).value; b == s.(balances := b.balances, supply := b.supply)
  {
  }

  /** Minting reads and writes the ledger alone, so it commutes with writes elsewhere. */
  lemma MintTouchesLedger(s: Shop, s2: Shop, owner: Pubkey, amount: u64)
    requires s2.balances == s.balances && s2.supply == s.supply
    ensures match MintTo(s, owner, amount)
      case Err(e) => MintTo(s2, owner, amount) == Err(e)
      case Ok(m) => MintTo(s2, owner, amount) == Ok(s2.(balances := m.balances, supply := m.supply))
  {
  }

  class ShopAccounts {
    var protocolPaused: bool
    var merchant: Merchant
    var profiles: map<Pubkey, CustomerProfile>
    var campaigns: map<u64, Campaign>
    var progress: map<ProgressKey, CampaignProgress>
    var segments: Option<MerchantSegments>
    var eligibility: map<Pubkey, CustomerEligibility>
    var offers: map<u64, Offer>
    var balances: map<Pubkey, u64>
    var supply: u64
    var reserve: Option<MerchantReserve>
    var trust: Option<MerchantTrust>

    function State(): Shop
      reads this
    {
      Shop(protocolPaused, merchant, profiles, campaigns, progress, segments, eligibility, offers, balances, supply, reserve, trust)
    }

    constructor (s: Shop)
      ensures State() == s
    {
      protocolPaused, merchant, profiles, campaigns := s.protocolPaused, s.merchant, s.profiles, s.campaigns;
      progress, segments, eligibility, offers := s.progress, s.segments, s.eligibility, s.offers;
      balances, supply, reserve, trust := s.balances, s.supply, s.reserve, s.trust;
    }

    // --------------------------------------------------------------------- accrual

    /** Thresholds the earnings reach, counted one by one. */
    static method CountThresholds(earned: u64) returns (count: nat)
      ensures count == ThresholdsReached(earned, |TIER_THRESHOLDS|)
    {
      count := 0;
      for i := 0 to |TIER_THRESHOLDS|
        invariant count == ThresholdsReached(earned, i)
      {
        if earned >= TIER_THRESHOLDS[i] {
          count := count + 1;
        }
      }
    }

    /** The shared accrual, writing profile and merchant field by field. */
    static method AccrueInto(profile: CustomerProfile, merchant: Merchant, amountBase: u64, day: u32, bonusRaw: u64, extraBps: u64)
      returns (r: Result<Accrued, Error>)
      ensures r == Accrue(profile, merchant, amountBase, day, bonusRaw, extraBps)
    {
      var p, m := profile, merchant;
      if p.lastVisitDay == day {
        p := p.(streakDays := Max(p.streakDays, 1));
      } else if p.lastVisitDay + 1 == day {
        p := p.(streakDays := SatAdd16(p.streakDays, 1));
      } else {
        p := p.(streakDays := 1);
      }
      p := p.(lastVisitDay := day);
      var bps := TotalBps(p.streakDays, extraBps);
      if bps.None? { return Err(MultiplierOverflow); }
      var base := Scale(amountBase, m.baseEarnRate, bps.value);
      if base.None? || base.value + bonusRaw > U64_MAX { return Err(MultiplierOverflow); }
      var minted := base.value + bonusRaw;
      if minted > MAX_EARN_PER_TX { return Err(EarnCapExceeded); }
      if p.lifetimeEarned + minted > U64_MAX { return Err(Overflow); }
      p := p.(lifetimeEarned := p.lifetimeEarned + minted);
      p := p.(lifetimeSpendBase := SatAdd64(p.lifetimeSpendBase, amountBase));
      if m.lifetimePointsIssued + minted > U128_MAX { return Err(Overflow); }
      m := m.(lifetimePointsIssued := m.lifetimePointsIssued + minted);
      if m.issueDay != day {
        m := m.(issueDay := day, issuedToday := 0);
      }
      if m.issuedToday + minted > U64_MAX { return Err(Overflow); }
      m := m.(issuedToday := m.issuedToday + minted);
      if m.dailyIssueCapRaw > 0 {
        if m.issuedToday > m.dailyIssueCapRaw { return Err(DailyIssuanceCapExceeded); }
      }
      var reached := CountThresholds(p.lifetimeEarned);
      p := p.(tier := SatSub(reached, 1));
      r := Ok(Accrued(p, m, minted));
    }

    /** Adds up the boosts of the active segments whose bit is set. */
    method SumSegmentBoost(customer: Pubkey, now: i64) returns (boost: u64)
      ensures boost == SegmentBoostBps(State(), customer, now)
    {
      if segments.None? || customer !in eligibility { return 0; }
      var segs, cel := segments.value, eligibility[customer];
      if !cel.IsFresh(segs.policyEpoch, now) { return 0; }
      boost := 0;
      var last := Min(|segs.segments|, MAX_SEGMENTS);
      for i := 0 to last
        invariant boost == BoostBps(segs.segments, cel.verdicts, i)
      {
        if segs.segments[i].active && HasBit(cel.verdicts, i) {
          boost := SatAdd64(boost, segs.segments[i].boostBps);
        }
      }
    }

    method HandleEarnPoints(signer: Pubkey, customer: Pubkey, amountBase: u64, visitDay: u32, withSegments: bool, now: i64)
      returns (out: Outcome<Error>)
      modifies this`profiles, this`merchant, this`balances, this`supply
      ensures Commits(EarnPoints(old(State()), signer, customer, amountBase, visitDay, withSegments, now), old(State()), State(), out)
    {
      hide AdmitEarn, Accrue, SegmentBoostBps, MintTo;
      if withSegments && (segments.None? || customer !in eligibility) { return Fail(AccountConstraint); }
      var admitted := AdmitEarn(State(), signer, customer, amountBase, visitDay, now);
      if admitted.Err? { return Fail(admitted.error); }
      var extra := 0;
      if withSegments {
        extra := SumSegmentBoost(customer, now);
      }
      var (day, p, m) := admitted.value;
      var accrued := AccrueInto(p, m, amountBase, day, 0, extra);
      if accrued.Err? { return Fail(accrued.error); }
      var minted := accrued.value.minted;
      MintTouchesLedger(State(), State().(profiles := profiles[customer := accrued.value.profile], merchant := accrued.value.merchant),
                        customer, minted);
      var ledger := MintTo(State(), customer, minted);
      if ledger.Err? { return Fail(ledger.error); }
      supply, balances := ledger.value.supply, ledger.value.balances;
      profiles := profiles[customer := accrued.value.profile];
      merchant := accrued.value.merchant;
      out := Pass;
    }

    /** The customer's progress under this instance, the gross bonus by kind, then both clamps. */
    method PriceBonus(id: u64, customer: Pubkey, p: CustomerProfile, amountBase: u64, day: u32) returns (r: Option<Payout>)
      requires id in campaigns
      ensures r == CampaignPayout(State(), id, customer, p, amountBase, day)
    {
      hide PreviewTotalBps, Scale;
      var c, key := campaigns[id], ProgressKey(id, customer);
      var freshProgress := key !in progress || progress[key].campaignSlot != c.createdSlot;
      var g := CampaignProgress(c.createdSlot, 0, 0, false);
      if !freshProgress {
        g := progress[key];
      }
      var streakPreview := PreviewTotalBps(p, day);
      var gross: u64 := 0;
      if c.kind == MULTIPLIER {
        var scaled := Scale(amountBase, merchant.baseEarnRate, Min(c.multiplierBps, CampaignHeadroomBps(streakPreview)));
        if scaled.None? { return None; }
        gross := scaled.value;
      } else if c.kind == FLAT_BONUS {
        gross := c.flatBonus;
      } else if c.kind == QUEST {
        g := g.(visits := SatAdd16(g.visits, 1));
        if !g.completed && g.visits >= c.questTarget {
          gross := c.questReward;
        }
      }
      var bonus := gross;
      if c.perCustomerCap > 0 {
        bonus := Min(bonus, SatSub(c.perCustomerCap, g.bonusDrawn));
      }
      if c.pointsBudget > 0 {
        bonus := Min(bonus, SatSub(c.pointsBudget, c.pointsSpent));
      }
      r := Some(Payout(freshProgress, g, bonus, c.kind == QUEST && gross > 0 && bonus == gross));
    }

    method HandleEarnPointsCampaign(signer: Pubkey, customer: Pubkey, id: u64, amountBase: u64, visitDay: u32, now: i64)
      returns (out: Outcome<Error>)
      modifies this`profiles, this`merchant, this`balances, this`supply, this`campaigns, this`progress
      ensures Commits(EarnPointsCampaign(old(State()), signer, customer, id, amountBase, visitDay, now), old(State()), State(), out)
    {
      hide SatAdd64, SatAdd32, SatAdd16, Campaign.IsLive;
      hide AdmitEarn, Accrue, CampaignPayout, CampaignAdmits, MintTo;
      if id !in campaigns { return Fail(AccountConstraint); }
      var admitted := AdmitEarn(State(), signer, customer, amountBase, visitDay, now);
      if admitted.Err? { return Fail(admitted.error); }
      var (day, p, m) := admitted.value;
      var c := campaigns[id];
      if !c.IsLive(now) { return Fail(CampaignInactive); }
      if !CampaignAdmits(c, p, amountBase, day) { return Fail(CampaignNotEligible); }

      var priced := PriceBonus(id, customer, p, amountBase, day);
      if priced.None? { return Fail(MultiplierOverflow); }
      var pay := priced.value;
      var accrued := AccrueInto(p, m, amountBase, day, pay.bonus, 0);
      if accrued.Err? { return Fail(accrued.error); }
      MintTouchesLedger(State(), WithPayout(State(), id, customer, pay, accrued.value), customer, accrued.value.minted);
      var ledger := MintTo(State(), customer, accrued.value.minted);
      if ledger.Err? { return Fail(ledger.error); }
      supply, balances := ledger.value.supply, ledger.value.balances;
      BookPayout(id, customer, pay, accrued.value);
      out := Pass;
    }

    /** Participants, spending and the customer's draw go up by what was paid; a completed quest is marked. */
    method BookPayout(id: u64, customer: Pubkey, pay: Payout, a: Accrued)
      requires id in campaigns
      modifies this`profiles, this`merchant, this`campaigns, this`progress
      ensures State() == WithPayout(old(State()), id, customer, pay, a)
    {
      var c, g, p := campaigns[id], pay.progress, a.profile;
      if pay.first {
        c := c.(participantCount := SatAdd32(c.participantCount, 1));
      }
      c := c.(pointsSpent := SatAdd64(c.pointsSpent, pay.bonus));
      c := c.(redemptions := SatAdd64(c.redemptions, 1));
      g := g.(bonusDrawn := SatAdd64(g.bonusDrawn, pay.bonus));
      if pay.completes {
        g := g.(completed := true);
        p := p.(campaignsCompleted := SatAdd16(p.campaignsCompleted, 1));
      }
      campaigns := campaigns[id := c];
      progress := progress[ProgressKey(id, customer) := g];
      profiles := profiles[customer := p];
      merchant := a.merchant;
    }

    // ------------------------------------------------------------------- campaigns

    method HandleCreateCampaign(signer: Pubkey, id: u64, a: CampaignArgs, slot: u64) returns (out: Outcome<Error>)
      modifies this`campaigns
      ensures Commits(CreateCampaign(old(State()), signer, id, a, slot), old(State()), State(), out)
    {
      if id in campaigns { return Fail(AccountConstraint); }
      if protocolPaused { return Fail(ProtocolPaused); }
      if merchant.paused { return Fail(MerchantPaused); }
      if !merchant.MayManage(signer) { return Fail(Unauthorized); }
      if !ValidCampaign(a) { return Fail(CampaignWindowInvalid); }
      campaigns := campaigns[id := Campaign(
        a.kind, a.multiplierBps, a.flatBonus, a.questTarget, a.questReward, a.minSpendBase, a.minTier,
        a.pointsBudget, 0, a.perCustomerCap, a.startsAt, a.endsAt, 0, 0, true, false, slot, 0)];
      out := Pass;
    }

    /** Writes each setting as soon as it is checked; a later refusal drops the earlier writes with the local copy. */
    method HandleUpdateCampaign(signer: Pubkey, id: u64, u: UpdateCampaignArgs) returns (out: Outcome<Error>)
      modifies this`campaigns
      ensures Commits(UpdateCampaign(old(State()), signer, id, u), old(State()), State(), out)
    {
      if id !in campaigns || signer != merchant.authority { return Fail(AccountConstraint); }
      var c := campaigns[id];
      if u.endsAt.Some? {
        if u.endsAt.value <= c.startsAt { return Fail(CampaignWindowInvalid); }
        c := c.(endsAt := u.endsAt.value);
      }
      var isQuest := c.kind == QUEST;
      if u.pointsBudget.Some? {
        var budget := u.pointsBudget.value;
        if !(budget == 0 || budget >= c.pointsSpent) { return Fail(CampaignWindowInvalid); }
        if !(!isQuest || budget == 0 || budget >= c.questReward) { return Fail(CampaignWindowInvalid); }
        c := c.(pointsBudget := budget);
      }
      if u.perCustomerCap.Some? {
        var cap := u.perCustomerCap.value;
        if !(!isQuest || cap == 0 || cap >= c.questReward) { return Fail(CampaignWindowInvalid); }
        c := c.(perCustomerCap := cap);
      }
      if u.paused.Some? {
        c := c.(paused := u.paused.value);
      }
      campaigns := campaigns[id := c];
      out := Pass;
    }

    // -------------------------------------------------------------------- segments

    /** Fills the fixed array slot by slot; slots not named keep the inactive default. */
    method HandleSetMerchantSegments(signer: Pubkey, given: seq<Segment>) returns (out: Outcome<Error>)
      modifies this`segments
      ensures Commits(SetMerchantSegments(old(State()), signer, given), old(State()), State(), out)
    {
      if signer != merchant.authority { return Fail(AccountConstraint); }
      if |given| > MAX_SEGMENTS { return Fail(TooManySegments); }
      var epoch: u64 := 0;
      if segments.Some? {
        epoch := segments.value.policyEpoch;
      }
      var slots := new Segment[MAX_SEGMENTS](_ => EMPTY_SEGMENT);
      for i := 0 to |given|
        modifies slots
        invariant forall j :: 0 <= j < i ==> given[j].ttlSecs >= 0 && slots[j] == given[j]
        invariant forall j :: i <= j < MAX_SEGMENTS ==> slots[j] == EMPTY_SEGMENT
      {
        if given[i].ttlSecs < 0 { return Fail(InvalidReserveParams); }
        slots[i] := given[i];
      }
      assert slots[..] == PadSegments(given);
      segments := Some(MerchantSegments(SatAdd64(epoch, 1), slots[..]));
      out := Pass;
    }

    method HandleRefreshCustomerEligibility(customer: Pubkey, index: u8, verdict: Aegis.Verdict, now: i64)
      returns (out: Outcome<Error>)
      modifies this`eligibility
      ensures Commits(RefreshCustomerEligibility(old(State()), customer, index, verdict, now), old(State()), State(), out)
    {
      if segments.None? { return Fail(AccountConstraint); }
      if index >= MAX_SEGMENTS || index >= |segments.value.segments| { return Fail(InvalidSegment); }
      var seg, epoch := segments.value.segments[index], segments.value.policyEpoch;
      if !seg.active { return Fail(InvalidSegment); }
      var ttl := DEFAULT_ELIGIBILITY_TTL_SECS;
      if seg.ttlSecs > 0 {
        ttl := seg.ttlSecs;
      }
      var expiresAt := now + ttl;
      if !FitsI64(expiresAt) { return Fail(Overflow); }
      var verdicts: bv32 := 0;
      if customer in eligibility && eligibility[customer].policyEpoch == epoch {
        verdicts := eligibility[customer].verdicts;
      }
      if verdict.ok {
        verdicts := Joined(verdicts, Bit(index));
      } else {
        verdicts := Without(verdicts, Bit(index));
      }
      eligibility := eligibility[customer :=
        CustomerEligibility(verdicts, verdict.tier, verdict.jurisdiction, now, expiresAt, epoch)];
      out := Pass;
    }

    // -------------------------------------------------------- redemption, clawback

    method HandleRedeemOffer(customer: Pubkey, id: u64, rawNeeded: Option<u64>, maxRawAmount: u64, now: i64)
      returns (out: Outcome<Error>)
      modifies this`balances, this`supply, this`offers, this`profiles, this`merchant
      ensures Commits(RedeemOffer(old(State()), customer, id, rawNeeded, maxRawAmount, now), old(State()), State(), out)
    {
      hide SatAdd64;
      hide SegmentGateOpen, Burn;
      if id !in offers { return Fail(AccountConstraint); }
      if protocolPaused { return Fail(ProtocolPaused); }
      if merchant.paused { return Fail(MerchantPaused); }
      var offer := offers[id];
      if !SegmentGateOpen(State(), customer, offer.requiredSegment, now) { return Fail(OfferSegmentGated); }
      if !offer.active { return Fail(OfferInactive); }
      if offer.supplyRemaining == 0 { return Fail(OfferSoldOut); }
      if rawNeeded.None? { return Fail(ConversionFailed); }
      if rawNeeded.value > maxRawAmount { return Fail(SlippageExceeded); }
      var ledger := Burn(State(), customer, rawNeeded.value);
      if ledger.Err? { return Fail(ledger.error); }
      BurnTouchesLedger(State(), customer, rawNeeded.value);
      var firstTouch := customer !in profiles;
      var p := if firstTouch then FRESH_PROFILE else profiles[customer];
      if p.lifetimeRedemptions + 1 > U32_MAX { return Fail(Overflow); }
      supply, balances := ledger.value.supply, ledger.value.balances;
      offers := offers[id := offer.(supplyRemaining := offer.supplyRemaining - 1)];
      profiles := profiles[customer := p.(lifetimeRedemptions := p.lifetimeRedemptions + 1)];
      merchant := merchant.(lifetimeRedemptions := SatAdd64(merchant.lifetimeRedemptions, 1));
      if firstTouch {
        merchant := merchant.(customerCount := SatAdd64(merchant.customerCount, 1));
      }
      out := Pass;
    }

    method HandleClawback(signer: Pubkey, customer: Pubkey, amountRaw: u64, reasonCode: u16, now: i64) returns (out: Outcome<Error>)
      modifies this`balances, this`supply, this`profiles, this`merchant
      ensures Commits(Clawback(old(State()), signer, customer, amountRaw, reasonCode, now), old(State()), State(), out)
    {
      hide UnixDay, Move;
      if customer !in balances { return Fail(AccountConstraint); }
      if protocolPaused { return Fail(ProtocolPaused); }
      if amountRaw == 0 { return Fail(InvalidAmount); }
      if reasonCode == 0 { return Fail(ReasonRequired); }
      if signer != merchant.authority { return Fail(Unauthorized); }
      if amountRaw > balances[customer] { return Fail(ClawbackExceedsBalance); }
      var today := UnixDay(now);
      if today.None? { return Fail(Overflow); }
      var m := merchant;
      if m.clawbackDay != today.value {
        m := m.(clawbackDay := today.value, clawedToday := 0);
      }
      if m.clawedToday + amountRaw > U64_MAX { return Fail(Overflow); }
      m := m.(clawedToday := m.clawedToday + amountRaw);
      if m.clawbackDailyCapRaw > 0 {
        if m.clawedToday > m.clawbackDailyCapRaw { return Fail(ClawbackCapExceeded); }
      }
      var moved := Move(State(), customer, m.authority, amountRaw);
      if moved.Err? { return Fail(moved.error); }
      MoveTouchesBalances(State(), customer, m.authority, amountRaw);
      var firstTouch := customer !in profiles;
      var p := if firstTouch then FRESH_PROFILE else profiles[customer];
      p := p.(lifetimeClawedBack := SatAdd64(p.lifetimeClawedBack, amountRaw));
      p := p.(clawbackCount := SatAdd32(p.clawbackCount, 1));
      m := m.(lifetimeClawedBack := Min(m.lifetimeClawedBack + amountRaw, U128_MAX));
      m := m.(clawbackCount := SatAdd64(m.clawbackCount, 1));
      if firstTouch {
        m := m.(customerCount := SatAdd64(m.customerCount, 1));
      }
      balances := moved.value.balances;
      profiles := profiles[customer := p];
      merchant := m;
      out := Pass;
    }

    // --------------------------------------------------------------------- reserve

    method HandleFundReserve(signer: Pubkey, amount: u64, available: u64) returns (out: Outcome<Error>)
      modifies this`reserve
      ensures Commits(FundReserve(old(State()), signer, amount, available), old(State()), State(), out)
    {
      if reserve.None? || signer != merchant.authority { return Fail(AccountConstraint); }
      if amount == 0 { return Fail(InvalidAmount); }
      if amount > available || reserve.value.balance + amount > U64_MAX { return Fail(TokenError); }
      reserve := Some(reserve.value.(balance := reserve.value.balance + amount));
      out := Pass;
    }

    /** Moves the balance first, then requires the reloaded balance to cover the supply. */
    method HandleWithdrawReserve(signer: Pubkey, amount: u64) returns (out: Outcome<Error>)
      modifies this`reserve
      ensures Commits(WithdrawReserve(old(State()), signer, amount), old(State()), State(), out)
    {
      if reserve.None? || signer != merchant.authority { return Fail(AccountConstraint); }
      if amount == 0 { return Fail(InvalidAmount); }
      var r := reserve.value;
      if amount > r.balance { return Fail(TokenError); }
      r := r.(balance := r.balance - amount);
      var required := r.RequiredReserve(supply);
      if required.None? { return Fail(Overflow); }
      if r.balance < required.value { return Fail(ReserveCoverageBreach); }
      reserve := Some(r);
      out := Pass;
    }

    // --------------------------------------------------------------- accreditation

    method HandleSetMerchantTrust(signer: Pubkey, root: Pubkey, subjectIssuer: Pubkey, schema: u64, aegisProgram: Pubkey,
                                  degradeTarget: u8, graceSecs: i64, now: i64) returns (out: Outcome<Error>)
      modifies this`trust
      ensures Commits(SetMerchantTrust(old(State()), signer, root, subjectIssuer, schema, aegisProgram, degradeTarget, graceSecs, now),
                      old(State()), State(), out)
    {
      if signer != merchant.authority { return Fail(AccountConstraint); }
      if !TrustStreak.IsValidTarget(degradeTarget) { return Fail(InvalidIssueStatus); }
      if graceSecs < 0 { return Fail(InvalidGrace); }
      if root == DEFAULT_KEY { return Fail(MerchantTrustMissing); }
      if aegisProgram == DEFAULT_KEY { return Fail(AegisProgramMismatch); }
      var t := if trust.Some? then trust.value else MerchantTrust(0, 0, 0, 0, 0, 0, 0, 0, 0, 0);
      t := t.(accreditationRoot := root, subjectIssuer := subjectIssuer, requiredSchema := schema, aegisProgram := aegisProgram);
      t := t.(degradeTarget := degradeTarget, graceSecs := graceSecs);
      t := t.(failingSince := 0);
      t := t.(lastVerifiedAt := now);
      trust := Some(t);
      out := Pass;
    }

    method HandleReverifyMerchant(aegisProgram: Pubkey, verdict: Aegis.Verdict, now: i64) returns (out: Outcome<Error>)
      modifies this`trust, this`merchant
      ensures Commits(ReverifyMerchant(old(State()), aegisProgram, verdict, now), old(State()), State(), out)
    {
      if trust.None? { return Fail(AccountConstraint); }
      var t := trust.value;
      if aegisProgram != t.aegisProgram { return Fail(AegisProgramMismatch); }
      var newStatus := merchant.issueStatus;
      if verdict.ok {
        t := t.(failingSince := 0, lastVerifiedAt := now);
        t := t.(tier := verdict.tier, jurisdiction := verdict.jurisdiction);
        newStatus := TrustStreak.NORMAL;
      } else {
        if t.failingSince == 0 {
          t := t.(failingSince := now);
        }
        var elapsed := if FitsI64(now - t.failingSince) then now - t.failingSince else 0;
        if elapsed >= t.graceSecs {
          newStatus := t.degradeTarget;
        }
      }
      trust := Some(t);
      merchant := merchant.(issueStatus := newStatus);
      out := Pass;
    }

    method HandleSetMerchantIssueStatus(signer: Pubkey, status: u8) returns (out: Outcome<Error>)
      modifies this`trust, this`merchant
      ensures Commits(SetIssueStatus(old(State()), signer, status), old(State()), State(), out)
    {
      if trust.None? || signer != merchant.authority { return Fail(AccountConstraint); }
      if status != TrustStreak.NORMAL && !TrustStreak.IsValidTarget(status) { return Fail(InvalidIssueStatus); }
      merchant := merchant.(issueStatus := status);
      if status == TrustStreak.NORMAL {
        trust := Some(trust.value.(failingSince := 0));
      }
      out := Pass;
    }
  }
}
