/** Offers count down by redemptions, and the day's clawbacks stay within the cap. */
module VestaSpending {
  import opened Base
  import opened Vesta
  import opened VestaFrame

  // ------------------------------------------------------------------------- offers

  predicate OpensOffer(s: Shop, e: Event, id: u64) {
    e.op.CreateOfferOp? && e.op.id == id && Step(s, e).Ok?
  }

  predicate RedeemsAt(s: Shop, e: Event, id: u64) {
    e.op.RedeemOp? && e.op.id == id && Step(s, e).Ok?
  }

  /** Redemptions of `id` since its offer was last opened. */
  function Redemptions(tr: seq<Shop>, evs: seq<Event>, n: nat, id: u64): nat
    requires n <= |evs| <= |tr|
  {
    if n == 0 || OpensOffer(tr[n - 1], evs[n - 1], id) then 0
    else Redemptions(tr, evs, n - 1, id) + if RedeemsAt(tr[n - 1], evs[n - 1], id) then 1 else 0
  }

  /** The supply the offer under `id` was last opened with. */
  function OpenedWith(tr: seq<Shop>, evs: seq<Event>, n: nat, id: u64): u32
    requires n <= |evs| <= |tr|
  {
    if n == 0 then 0
    else if OpensOffer(tr[n - 1], evs[n - 1], id) then evs[n - 1].op.supply
    else OpenedWith(tr, evs, n - 1, id)
  }

  lemma OfferSettings(s: Shop, e: Event, id: u64)
    requires SetsOffers(e.op)
    ensures var s' := After(s, Step(s, e));
      && (OpensOffer(s, e, id) ==> id !in s.offers && id in s'.offers && s'.offers[id].supplyRemaining == e.op.supply)
      && (!OpensOffer(s, e, id) && id in s'.offers ==>
            id in s.offers && s'.offers[id].supplyRemaining == s.offers[id].supplyRemaining)
  {
    hide EarnPoints, EarnPointsCampaign, RedeemOffer, Clawback, Move, MintTo, Burn, SetMerchantSegments, Configure,
      RefreshCustomerEligibility, OpenReserve, FundReserve, WithdrawReserve, CreateCampaign, UpdateCampaign,
      SetCampaignWinback, CloseCampaign, SetMerchantTrust, ReverifyMerchant, SetIssueStatus;
  }

  lemma RedeemCounts(s: Shop, c: Pubkey, offer: u64, raw: Option<u64>, most: u64, now: i64, id: u64)
    requires RedeemOffer(s, c, offer, raw, most, now).Ok?
    ensures var s' := RedeemOffer(s, c, offer, raw, most, now).value;
      && offer in s.offers && (id in s'.offers <==> id in s.offers)
      && (id in s.offers ==>
            s'.offers[id].supplyRemaining == s.offers[id].supplyRemaining - (if id == offer then 1 else 0))
  {
    hide SegmentGateOpen;
  }

  lemma StepOffer(s: Shop, e: Event, id: u64)
    ensures var s' := After(s, Step(s, e));
      && (OpensOffer(s, e, id) ==> id !in s.offers && id in s'.offers && s'.offers[id].supplyRemaining == e.op.supply)
      && (!OpensOffer(s, e, id) && id in s'.offers ==>
            id in s.offers
            && s'.offers[id].supplyRemaining == s.offers[id].supplyRemaining - (if RedeemsAt(s, e, id) then 1 else 0))
  {
    hide EarnPoints, EarnPointsCampaign, RedeemOffer, Clawback, Move, MintTo, Burn, Configure, SetMerchantSegments,
      RefreshCustomerEligibility, CreateOffer, SetOfferSegment, CloseOffer, OpenReserve, FundReserve, WithdrawReserve,
      CreateCampaign, UpdateCampaign, SetCampaignWinback, CloseCampaign, SetMerchantTrust, ReverifyMerchant, SetIssueStatus;
    if SetsOffers(e.op) {
      OfferSettings(s, e, id);
    } else if !e.op.RedeemOp? {
      StepFrame(s, e);
    } else if Step(s, e).Ok? {
      RedeemCounts(s, e.op.customer, e.op.id, e.op.rawNeeded, e.op.maxRawAmount, e.now, id);
    }
  }

  /** What is left of an offer plus what was redeemed from it is what it was opened with: never oversold, and only a
      redemption takes from it. */
  lemma {:induction false} OfferCountsDown(tr: seq<Shop>, evs: seq<Event>, n: nat, id: u64)
    requires IsTrace(tr, evs) && n <= |evs| && id in tr[n].offers
    ensures tr[n].offers[id].supplyRemaining + Redemptions(tr, evs, n, id) == OpenedWith(tr, evs, n, id)
  {
    hide Step, OpensOffer, RedeemsAt;
    if n > 0 {
      StepOffer(tr[n - 1], evs[n - 1], id);
      if !OpensOffer(tr[n - 1], evs[n - 1], id) {
        OfferCountsDown(tr, evs, n - 1, id);
      }
    }
  }

  // ----------------------------------------------------------------------- clawback

  function ClawedBy(s: Shop, e: Event): nat {
    if e.op.ClawbackOp? && Step(s, e).Ok? then e.op.amountRaw else 0
  }

  /** Points clawed back on day `d`. */
  function ClawedOn(tr: seq<Shop>, evs: seq<Event>, n: nat, d: u32): nat
    requires n <= |evs| <= |tr|
  {
    if n == 0 then 0
    else ClawedOn(tr, evs, n - 1, d) + if UnixDay(evs[n - 1].now) == Some(d) then ClawedBy(tr[n - 1], evs[n - 1]) else 0
  }

  lemma ClawbackWrites(s: Shop, k: Pubkey, c: Pubkey, amount: u64, r: u16, now: i64)
    requires Clawback(s, k, c, amount, r, now).Ok?
    ensures var m, m' := s.merchant, Clawback(s, k, c, amount, r, now).value.merchant;
      && k == m.authority && r != 0 && 0 < amount <= Balance(s, c)
      && UnixDay(now) == Some(m'.clawbackDay)
      && m'.clawedToday == (if m.clawbackDay == m'.clawbackDay then m.clawedToday else 0) + amount
      && (m.clawbackDailyCapRaw > 0 ==> m'.clawedToday <= m.clawbackDailyCapRaw)
  {
    hide Move, UnixDay;
  }

  lemma StepClawback(s: Shop, e: Event)
    ensures var m, m' := s.merchant, After(s, Step(s, e)).merchant;
      if e.op.ClawbackOp? && Step(s, e).Ok? then
        && UnixDay(e.now) == Some(m'.clawbackDay)
        && m'.clawedToday == (if m.clawbackDay == m'.clawbackDay then m.clawedToday else 0) + ClawedBy(s, e)
        && (m.clawbackDailyCapRaw > 0 ==> m'.clawedToday <= m.clawbackDailyCapRaw)
      else m'.clawbackDay == m.clawbackDay && m'.clawedToday == m.clawedToday
  {
    hide EarnPoints, EarnPointsCampaign, RedeemOffer, Clawback, Move, MintTo, Burn, Configure, SetMerchantSegments,
      RefreshCustomerEligibility, CreateOffer, SetOfferSegment, CloseOffer, OpenReserve, FundReserve, WithdrawReserve,
      CreateCampaign, UpdateCampaign, SetCampaignWinback, CloseCampaign, SetMerchantTrust, ReverifyMerchant, SetIssueStatus,
      UnixDay;
    if !e.op.ClawbackOp? {
      StepFrame(s, e);
    } else if Step(s, e).Ok? {
      ClawbackWrites(s, e.op.signer, e.op.customer, e.op.amountRaw, e.op.reasonCode, e.now);
    }
  }

  /** The clawback counter is the day's clawed sum. */
  lemma {:induction false} ClawedTodayIsHistory(tr: seq<Shop>, evs: seq<Event>, n: nat)
    requires IsTrace(tr, evs) && n <= |evs|
    ensures var m := tr[n].merchant;
      && m.clawedToday == ClawedOn(tr, evs, n, m.clawbackDay)
      && (forall d: u32 :: d > m.clawbackDay ==> ClawedOn(tr, evs, n, d) == 0)
      && (m.clawbackDay > 0 ==> n > 0 && (UnixDay(evs[n - 1].now).Some? ==> m.clawbackDay <= UnixDay(evs[n - 1].now).value))
  {
    hide Step, UnixDay;
    if n > 0 {
      ClawedTodayIsHistory(tr, evs, n - 1);
      StepClawback(tr[n - 1], evs[n - 1]);
      if n > 1 && UnixDay(evs[n - 1].now).Some? {
        DaysAdvance(evs[n - 2].now, evs[n - 1].now);
      }
    }
  }

  /** Each clawback that goes through leaves the day's clawed sum within the cap in force, 0 meaning none. */
  lemma ClawbackKeepsDailyCap(tr: seq<Shop>, evs: seq<Event>, n: nat)
    requires IsTrace(tr, evs) && n < |evs| && evs[n].op.ClawbackOp? && Step(tr[n], evs[n]).Ok?
    ensures UnixDay(evs[n].now).Some?
    ensures tr[n].merchant.clawbackDailyCapRaw > 0 ==>
      ClawedOn(tr, evs, n + 1, UnixDay(evs[n].now).value) <= tr[n].merchant.clawbackDailyCapRaw
  {
    hide Step, UnixDay;
    StepClawback(tr[n], evs[n]);
    ClawedTodayIsHistory(tr, evs, n + 1);
  }
}
