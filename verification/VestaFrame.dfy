/** Which accounts of a merchant each instruction may write. */
module VestaFrame {
  import opened Base
  import opened PointLedger
  import opened Vesta
  import Aegis

  predicate IsEarn(op: Op) {
    op.EarnOp? || op.EarnCampaignOp?
  }

  predicate WritesProfiles(op: Op) {
    IsEarn(op) || op.RedeemOp? || op.ClawbackOp?
  }

  predicate WritesBalances(op: Op) {
    WritesProfiles(op) || op.GiftOp? || op.SwapInOp? || op.SwapOutOp?
  }

  predicate SetsCampaigns(op: Op) {
    op.CreateCampaignOp? || op.UpdateCampaignOp? || op.SetWinbackOp? || op.CloseCampaignOp?
  }

  predicate SetsOffers(op: Op) {
    op.CreateOfferOp? || op.SetOfferSegmentOp? || op.CloseOfferOp?
  }

  predicate WritesReserve(op: Op) {
    op.OpenReserveOp? || op.FundReserveOp? || op.WithdrawReserveOp?
  }

  predicate WritesTrust(op: Op) {
    op.SetTrustOp? || op.ReverifyOp? || op.SetIssueStatusOp?
  }

  /** From `s` to `s'`, nothing has changed that this kind of instruction does not write. */
  predicate Framed(s: Shop, s': Shop, op: Op) {
    var m, m' := s.merchant, s'.merchant;
    && m'.authority == m.authority
    && (!IsEarn(op) ==>
          m'.lifetimePointsIssued == m.lifetimePointsIssued && m'.issueDay == m.issueDay && m'.issuedToday == m.issuedToday)
    && (!WritesProfiles(op) ==> s'.profiles == s.profiles)
    && (!WritesBalances(op) ==> s'.balances == s.balances && s'.supply == s.supply)
    && (!op.EarnCampaignOp? ==> s'.progress == s.progress && (!SetsCampaigns(op) ==> s'.campaigns == s.campaigns))
    && (!SetsOffers(op) && !op.RedeemOp? ==> s'.offers == s.offers)
    && (!op.ClawbackOp? ==> m'.clawbackDay == m.clawbackDay && m'.clawedToday == m.clawedToday)
    && (!op.SetSegmentsOp? ==> s'.segments == s.segments)
    && (!op.RefreshOp? ==> s'.eligibility == s.eligibility)
    && (!WritesReserve(op) ==> s'.reserve == s.reserve)
    && (!WritesTrust(op) ==> s'.trust == s.trust && m'.issueStatus == m.issueStatus)
  }

  lemma AdmitMeans(s: Shop, signer: Pubkey, customer: Pubkey, amountBase: u64, visitDay: u32, now: i64)
    requires AdmitEarn(s, signer, customer, amountBase, visitDay, now).Ok?
    ensures var (day, p, m) := AdmitEarn(s, signer, customer, amountBase, visitDay, now).value;
      && day == visitDay && UnixDay(now) == Some(day)
      && p == ProfileOf(s, customer)
      && m == s.merchant.(customerCount := m.customerCount)
  {
  }

  function ProfileOf(s: Shop, customer: Pubkey): CustomerProfile {
    if customer in s.profiles then s.profiles[customer] else FRESH_PROFILE
  }

  lemma AccrueFrame(p: CustomerProfile, m: Merchant, amountBase: u64, day: u32, bonusRaw: u64, extraBps: u64)
    requires Accrue(p, m, amountBase, day, bonusRaw, extraBps).Ok?
    ensures var m' := Accrue(p, m, amountBase, day, bonusRaw, extraBps).value.merchant;
      m' == m.(lifetimePointsIssued := m'.lifetimePointsIssued, issueDay := m'.issueDay, issuedToday := m'.issuedToday)
  {
  }

  lemma EarnFrame(s: Shop, k: Pubkey, c: Pubkey, a: u64, d: u32, w: bool, now: i64)
    ensures Framed(s, After(s, EarnPoints(s, k, c, a, d, w, now)), EarnOp(k, c, a, d, w))
  {
    hide AdmitEarn, Accrue, SegmentBoostBps;
    if EarnPoints(s, k, c, a, d, w, now).Ok? {
      var (day, p, m) := AdmitEarn(s, k, c, a, d, now).value;
      AdmitMeans(s, k, c, a, d, now);
      AccrueFrame(p, m, a, day, 0, if w then SegmentBoostBps(s, c, now) else 0);
    }
  }

  lemma EarnCampaignFrame(s: Shop, k: Pubkey, c: Pubkey, id: u64, a: u64, d: u32, now: i64)
    ensures Framed(s, After(s, EarnPointsCampaign(s, k, c, id, a, d, now)), EarnCampaignOp(k, c, id, a, d))
  {
    hide AdmitEarn, Accrue, CampaignPayout, CampaignAdmits;
    if EarnPointsCampaign(s, k, c, id, a, d, now).Ok? {
      var (day, p, m) := AdmitEarn(s, k, c, a, d, now).value;
      AdmitMeans(s, k, c, a, d, now);
      AccrueFrame(p, m, a, day, CampaignPayout(s, id, c, p, a, day).value.bonus, 0);
    }
  }

  lemma RedeemFrame(s: Shop, c: Pubkey, id: u64, raw: Option<u64>, most: u64, now: i64)
    ensures Framed(s, After(s, RedeemOffer(s, c, id, raw, most, now)), RedeemOp(c, id, raw, most))
  {
    hide SegmentGateOpen;
  }

  lemma ClawbackFrame(s: Shop, k: Pubkey, c: Pubkey, a: u64, r: u16, now: i64)
    ensures Framed(s, After(s, Clawback(s, k, c, a, r, now)), ClawbackOp(k, c, a, r))
  {
  }

  lemma MoveFrame(s: Shop, a: Pubkey, b: Pubkey, amount: u64)
    ensures Framed(s, After(s, Move(s, a, b, amount)), GiftOp(a, b, amount))
  {
  }

  lemma MintFrame(s: Shop, owner: Pubkey, amount: u64)
    ensures Framed(s, After(s, MintTo(s, owner, amount)), SwapInOp(owner, amount))
  {
    hide MintTokens;
  }

  lemma BurnFrame(s: Shop, owner: Pubkey, amount: u64)
    ensures Framed(s, After(s, Burn(s, owner, amount)), SwapOutOp(owner, amount))
  {
    hide BurnTokens;
  }

  lemma CampaignFrame(s: Shop, e: Event)
    requires SetsCampaigns(e.op)
    ensures Framed(s, After(s, Step(s, e)), e.op)
  {
    hide EarnPoints, EarnPointsCampaign, RedeemOffer, Clawback, Move, MintTo, Burn, SetMerchantSegments, Configure,
      RefreshCustomerEligibility, CreateOffer, SetOfferSegment, CloseOffer, OpenReserve, FundReserve, WithdrawReserve,
      SetMerchantTrust, ReverifyMerchant, SetIssueStatus;
  }

  lemma SegmentsFrame(s: Shop, k: Pubkey, segments: seq<Segment>)
    ensures Framed(s, After(s, SetMerchantSegments(s, k, segments)), SetSegmentsOp(k, segments))
  {
    hide PadSegments;
  }

  lemma RefreshFrame(s: Shop, c: Pubkey, i: u8, v: Aegis.Verdict, now: i64)
    ensures Framed(s, After(s, RefreshCustomerEligibility(s, c, i, v, now)), RefreshOp(c, i, v))
  {
    hide WithBit;
  }

  lemma OfferFrame(s: Shop, e: Event)
    requires SetsOffers(e.op)
    ensures Framed(s, After(s, Step(s, e)), e.op)
  {
    hide EarnPoints, EarnPointsCampaign, RedeemOffer, Clawback, Move, MintTo, Burn, Configure, SetMerchantSegments,
      RefreshCustomerEligibility, CreateCampaign, UpdateCampaign, SetCampaignWinback, CloseCampaign, OpenReserve, FundReserve,
      WithdrawReserve, SetMerchantTrust, ReverifyMerchant, SetIssueStatus;
  }

  lemma ReserveTrustFrame(s: Shop, e: Event)
    requires e.op.OpenReserveOp? || e.op.FundReserveOp? || e.op.WithdrawReserveOp?
             || e.op.SetTrustOp? || e.op.ReverifyOp? || e.op.SetIssueStatusOp?
    ensures Framed(s, After(s, Step(s, e)), e.op)
  {
    hide EarnPoints, EarnPointsCampaign, RedeemOffer, Clawback, Move, MintTo, Burn, Configure, SetMerchantSegments,
      RefreshCustomerEligibility, CreateOffer, SetOfferSegment, CloseOffer,
      CreateCampaign, UpdateCampaign, SetCampaignWinback, CloseCampaign;
  }

  lemma ConfigureFrame(s: Shop, k: Pubkey, c: Setting)
    ensures Framed(s, After(s, Configure(s, k, c)), ConfigureOp(k, c))
  {
    hide SwapRemove;
  }

  lemma StepFrame(s: Shop, e: Event)
    ensures Framed(s, After(s, Step(s, e)), e.op)
  {
    hide EarnPoints, EarnPointsCampaign, RedeemOffer, Clawback, Move, MintTo, Burn, Configure, SetMerchantSegments,
      RefreshCustomerEligibility, CreateOffer, SetOfferSegment, CloseOffer, OpenReserve, FundReserve, WithdrawReserve,
      CreateCampaign, UpdateCampaign, SetCampaignWinback, CloseCampaign,
      SetMerchantTrust, ReverifyMerchant, SetIssueStatus, Framed;
    match e.op
    case EarnOp(k, c, a, d, w) => EarnFrame(s, k, c, a, d, w, e.now);
    case EarnCampaignOp(k, c, id, a, d) => EarnCampaignFrame(s, k, c, id, a, d, e.now);
    case RedeemOp(c, id, raw, most) => RedeemFrame(s, c, id, raw, most, e.now);
    case ClawbackOp(k, c, a, r) => ClawbackFrame(s, k, c, a, r, e.now);
    case GiftOp(f, t, a) => MoveFrame(s, f, t, a);
    case SwapInOp(c, a) => MintFrame(s, c, a);
    case SwapOutOp(c, a) => BurnFrame(s, c, a);
    case ConfigureOp(k, c) => ConfigureFrame(s, k, c);
    case SetSegmentsOp(k, segments) => SegmentsFrame(s, k, segments);
    case RefreshOp(c, i, v) => RefreshFrame(s, c, i, v, e.now);
    case _ =>
      if SetsCampaigns(e.op) {
        CampaignFrame(s, e);
      } else if SetsOffers(e.op) {
        OfferFrame(s, e);
      } else {
        ReserveTrustFrame(s, e);
      }
  }
}
