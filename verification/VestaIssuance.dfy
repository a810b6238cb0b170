/** How much an earn mints, and that nothing is minted, moved or burned without every total agreeing. */
module VestaIssuance {
  import opened Base
  import opened Vesta
  import opened MapSum
  import opened PointLedger
  import opened VestaFrame

  // ------------------------------------------------------------ the amount minted

  /** The preview the campaign path takes before anything moves is the bps accrual then uses. */
  lemma PreviewIsUsed(p: CustomerProfile, day: u32)
    ensures TotalBps(NextStreak(p, day), 0) == Some(PreviewTotalBps(p, day))
    ensures 10_200 <= PreviewTotalBps(p, day) <= 16_000
  {
  }

  lemma ScaleMonotone(x: nat, b: nat, c: nat)
    requires b <= c
    ensures x * b <= x * c && x * b / 10_000 <= x * c / 10_000
  {
    assert x * c == x * b + x * (c - b);
  }

  /** Two floors lose at most one unit against the floor of the sum. */
  lemma FloorsAdd(x: nat, b: nat, c: nat)
    ensures x * (b + c) == x * b + x * c
    ensures x * b / 10_000 + x * c / 10_000 <= x * (b + c) / 10_000 <= x * b / 10_000 + x * c / 10_000 + 1
  {
  }

  /** What a successful accrual did: the same amount entered the customer, the merchant and the day. */
  lemma AccrueAdds(p: CustomerProfile, m: Merchant, amountBase: u64, day: u32, bonusRaw: u64, extraBps: u64)
    requires Accrue(p, m, amountBase, day, bonusRaw, extraBps).Ok?
    ensures var a := Accrue(p, m, amountBase, day, bonusRaw, extraBps).value;
      && a.profile.lifetimeEarned == p.lifetimeEarned + a.minted
      && a.profile.lastVisitDay == day && a.profile.streakDays == NextStreak(p, day)
      && a.profile.tier == Tier(a.profile.lifetimeEarned)
      && a.merchant.lifetimePointsIssued == m.lifetimePointsIssued + a.minted
      && a.merchant.issueDay == day
      && a.merchant.issuedToday == (if m.issueDay == day then m.issuedToday else 0) + a.minted
      && (m.dailyIssueCapRaw > 0 ==> a.merchant.issuedToday <= m.dailyIssueCapRaw)
      && bonusRaw <= a.minted <= MAX_EARN_PER_TX
      && TotalBps(NextStreak(p, day), extraBps).Some?
      && a.minted == amountBase * m.baseEarnRate * TotalBps(NextStreak(p, day), extraBps).value / 10_000 + bonusRaw
  {
  }

  /** Both floors of a campaign earn, against the floor of their sum and the joint ceiling. */
  lemma FloorsWithinCap(x: nat, t: nat, e: nat, bonus: nat)
    requires t + e <= MAX_TOTAL_MULTIPLIER_BPS && bonus <= x * e / 10_000
    ensures x * t / 10_000 + bonus <= x * (t + e) / 10_000 <= x * MAX_TOTAL_MULTIPLIER_BPS / 10_000
    ensures bonus == x * e / 10_000 ==> x * t / 10_000 + bonus >= x * (t + e) / 10_000 - 1
  {
    FloorsAdd(x, t, e);
    ScaleMonotone(x, t + e, MAX_TOTAL_MULTIPLIER_BPS);
  }

  /** Streak and segment boosts together never mint past 2.4 times the base, nor past the per-transaction cap. */
  lemma PlainEarnBound(s: Shop, signer: Pubkey, customer: Pubkey, amountBase: u64, visitDay: u32, withSegments: bool, now: i64)
    requires EarnPoints(s, signer, customer, amountBase, visitDay, withSegments, now).Ok?
    ensures var s' := EarnPoints(s, signer, customer, amountBase, visitDay, withSegments, now).value;
      Balance(s', customer) - Balance(s, customer) <=
        Min(amountBase * s.merchant.baseEarnRate * MAX_TOTAL_MULTIPLIER_BPS / 10_000, MAX_EARN_PER_TX)
  {
    hide AdmitEarn, Accrue, SegmentBoostBps, NextStreak;
    var (day, p, m) := AdmitEarn(s, signer, customer, amountBase, visitDay, now).value;
    AdmitMeans(s, signer, customer, amountBase, visitDay, now);
    var extra := if withSegments then SegmentBoostBps(s, customer, now) else 0;
    AccrueAdds(p, m, amountBase, day, 0, extra);
    var x := amountBase * m.baseEarnRate;
    ScaleMonotone(x, TotalBps(NextStreak(p, day), extra).value, MAX_TOTAL_MULTIPLIER_BPS);
  }

  /** Neither the customer's cap nor the budget cuts into `gross`. */
  predicate Unclamped(s: Shop, id: u64, customer: Pubkey, gross: nat)
    requires id in s.campaigns
  {
    var c := s.campaigns[id];
    && (c.perCustomerCap == 0 || gross <= SatSub(c.perCustomerCap, ProgressOf(s, id, customer).1.bonusDrawn))
    && (c.pointsBudget == 0 || gross <= SatSub(c.pointsBudget, c.pointsSpent))
  }

  /** A multiplier campaign's bonus is the floor of its effective share, unless a customer cap or the budget bites. */
  lemma MultiplierBonus(s: Shop, id: u64, customer: Pubkey, p: CustomerProfile, amountBase: u64, day: u32)
    requires id in s.campaigns && s.campaigns[id].kind == MULTIPLIER
    requires CampaignPayout(s, id, customer, p, amountBase, day).Some?
    ensures var bonus := CampaignPayout(s, id, customer, p, amountBase, day).value.bonus;
      var share := amountBase * s.merchant.baseEarnRate * EffectiveBps(s.campaigns[id], p, day) / 10_000;
      bonus <= share && (bonus == share <==> Unclamped(s, id, customer, share))
  {
    hide EffectiveBps;
  }

  /** A multiplier campaign adds to the streak within the same joint cap, and unless a customer cap or the budget
      bites, the two separately floored parts are within one unit of flooring them together. */
  lemma MultiplierEarnBound(s: Shop, signer: Pubkey, customer: Pubkey, id: u64, amountBase: u64, visitDay: u32, now: i64)
    requires EarnPointsCampaign(s, signer, customer, id, amountBase, visitDay, now).Ok?
    requires s.campaigns[id].kind == MULTIPLIER
    ensures var s' := EarnPointsCampaign(s, signer, customer, id, amountBase, visitDay, now).value;
      var minted := Balance(s', customer) - Balance(s, customer);
      var x := amountBase * s.merchant.baseEarnRate;
      var p := ProfileOf(s, customer);
      var bps := PreviewTotalBps(p, visitDay) + EffectiveBps(s.campaigns[id], p, visitDay);
      && minted <= Min(x * MAX_TOTAL_MULTIPLIER_BPS / 10_000, MAX_EARN_PER_TX)
      && minted <= x * bps / 10_000
      && (Unclamped(s, id, customer, x * EffectiveBps(s.campaigns[id], p, visitDay) / 10_000) ==> minted >= x * bps / 10_000 - 1)
  {
    hide AdmitEarn, Accrue, NextStreak, CampaignPayout, PreviewTotalBps, TotalBps, CampaignAdmits, Unclamped;
    var (day, p, m) := AdmitEarn(s, signer, customer, amountBase, visitDay, now).value;
    AdmitMeans(s, signer, customer, amountBase, visitDay, now);
    var c := s.campaigns[id];
    var bonus := CampaignPayout(s, id, customer, p, amountBase, day).value.bonus;
    MultiplierBonus(s, id, customer, p, amountBase, day);
    PreviewIsUsed(p, day);
    AccrueAdds(p, m, amountBase, day, bonus, 0);
    FloorsWithinCap(amountBase * m.baseEarnRate, PreviewTotalBps(p, day), EffectiveBps(c, p, day), bonus);
  }

  // ------------------------------------------------------------------ conservation

  /** Lifetime points by customer. */
  ghost function Earned(profiles: map<Pubkey, CustomerProfile>): map<Pubkey, nat> {
    map c | c in profiles :: profiles[c].lifetimeEarned
  }

  /** The customers' lifetime points add up to the merchant's; the balances add up to the supply. */
  ghost predicate TotalsAgree(s: Shop) {
    && Sum(Earned(s.profiles)) == s.merchant.lifetimePointsIssued
    && Balanced(LedgerOf(s))
  }

  lemma EarnedUpdate(profiles: map<Pubkey, CustomerProfile>, c: Pubkey, p: CustomerProfile)
    ensures Sum(Earned(profiles[c := p])) ==
      Sum(Earned(profiles)) - (if c in profiles then profiles[c].lifetimeEarned else 0) + p.lifetimeEarned
  {
    assert Earned(profiles[c := p]) == Earned(profiles)[c := p.lifetimeEarned];
    SumUpdate(Earned(profiles), c, p.lifetimeEarned);
  }

  /** Points that reached a customer by event `e`: what the earn added to the customer's balance. */
  function Minted(s: Shop, e: Event): int {
    if IsEarn(e.op) then Balance(After(s, Step(s, e)), e.op.customer) - Balance(s, e.op.customer) else 0
  }

  /** `minted` points entered customer `c`'s balance and profile, the supply, the merchant and the day alike. */
  predicate Entered(s: Shop, s': Shop, c: Pubkey, minted: int, now: i64) {
    var m, m' := s.merchant, s'.merchant;
    && 0 <= minted <= MAX_EARN_PER_TX
    && c in s'.profiles
    && s'.profiles == s.profiles[c := s'.profiles[c]]
    && s'.profiles[c].lifetimeEarned == ProfileOf(s, c).lifetimeEarned + minted
    && s'.profiles[c].tier == Tier(s'.profiles[c].lifetimeEarned)
    && s'.profiles[c].lastVisitDay == m'.issueDay
    && s'.profiles[c].streakDays == NextStreak(ProfileOf(s, c), m'.issueDay)
    && m'.lifetimePointsIssued == m.lifetimePointsIssued + minted
    && Balance(s, c) + minted <= U64_MAX
    && s'.balances == s.balances[c := Balance(s, c) + minted]
    && s'.supply == s.supply + minted
    && UnixDay(now) == Some(m'.issueDay)
    && m'.issuedToday == (if m.issueDay == m'.issueDay then m.issuedToday else 0) + minted
    && (m.dailyIssueCapRaw > 0 ==> m'.issuedToday <= m.dailyIssueCapRaw)
  }

  lemma PlainEarnEnters(s: Shop, signer: Pubkey, customer: Pubkey, amountBase: u64, visitDay: u32, withSegments: bool, now: i64)
    requires EarnPoints(s, signer, customer, amountBase, visitDay, withSegments, now).Ok?
    ensures var s' := EarnPoints(s, signer, customer, amountBase, visitDay, withSegments, now).value;
      Entered(s, s', customer, Balance(s', customer) - Balance(s, customer), now)
  {
    hide AdmitEarn, Accrue, SegmentBoostBps, NextStreak, TotalBps;
    var (day, p, m) := AdmitEarn(s, signer, customer, amountBase, visitDay, now).value;
    AdmitMeans(s, signer, customer, amountBase, visitDay, now);
    AccrueAdds(p, m, amountBase, day, 0, if withSegments then SegmentBoostBps(s, customer, now) else 0);
  }

  lemma CampaignEarnEnters(s: Shop, signer: Pubkey, customer: Pubkey, id: u64, amountBase: u64, visitDay: u32, now: i64)
    requires EarnPointsCampaign(s, signer, customer, id, amountBase, visitDay, now).Ok?
    ensures var s' := EarnPointsCampaign(s, signer, customer, id, amountBase, visitDay, now).value;
      Entered(s, s', customer, Balance(s', customer) - Balance(s, customer), now)
  {
    hide AdmitEarn, Accrue, NextStreak, TotalBps, CampaignPayout, CampaignAdmits;
    var (day, p, m) := AdmitEarn(s, signer, customer, amountBase, visitDay, now).value;
    AdmitMeans(s, signer, customer, amountBase, visitDay, now);
    AccrueAdds(p, m, amountBase, day, CampaignPayout(s, id, customer, p, amountBase, day).value.bonus, 0);
  }

  /** An earn of either kind: one amount, everywhere. */
  lemma StepEarn(s: Shop, e: Event)
    requires IsEarn(e.op) && Step(s, e).Ok?
    ensures Entered(s, Step(s, e).value, e.op.customer, Minted(s, e), e.now)
  {
    hide Entered, EarnPoints, EarnPointsCampaign;
    match e.op
    case EarnOp(signer, c, amount, visitDay, w) => PlainEarnEnters(s, signer, c, amount, visitDay, w, e.now);
    case EarnCampaignOp(signer, c, id, amount, visitDay) => CampaignEarnEnters(s, signer, c, id, amount, visitDay, e.now);
  }

  function SwappedIn(s: Shop, e: Event): nat {
    if Step(s, e).Ok? && e.op.SwapInOp? then e.op.rawOut else 0
  }

  function SwappedOut(s: Shop, e: Event): nat {
    if Step(s, e).Ok? && e.op.SwapOutOp? then e.op.rawIn else 0
  }

  function Redeemed(s: Shop, e: Event): nat {
    if Step(s, e).Ok? && e.op.RedeemOp? && e.op.rawNeeded.Some? then e.op.rawNeeded.value else 0
  }

  /** How every other instruction moves the supply, and that the balances move with it. */
  lemma StepSupply(s: Shop, e: Event)
    requires !IsEarn(e.op)
    ensures var s' := After(s, Step(s, e));
      && s'.supply == s.supply + SwappedIn(s, e) - Redeemed(s, e) - SwappedOut(s, e)
      && Sum(Held(s'.balances)) - s'.supply == Sum(Held(s.balances)) - s.supply
  {
    hide EarnPoints, EarnPointsCampaign, RedeemOffer, Clawback, Move, MintTo, Burn, Configure, SetMerchantSegments,
      RefreshCustomerEligibility, CreateOffer, SetOfferSegment, CloseOffer, OpenReserve, FundReserve, WithdrawReserve,
      CreateCampaign, UpdateCampaign, SetCampaignWinback, CloseCampaign, SetMerchantTrust, ReverifyMerchant, SetIssueStatus, Held;
    if Step(s, e).Ok? {
      match e.op
      case RedeemOp(c, id, raw, most) => RedeemBurns(s, c, id, raw, most, e.now);
      case SwapOutOp(c, raw) => BurnFlows(s, c, raw);
      case SwapInOp(c, raw) => MintFlows(s, c, raw);
      case GiftOp(f, t, a) => MoveFlows(s, f, t, a);
      case ClawbackOp(k, c, a, r) => ClawbackMoves(s, k, c, a, r, e.now);
      case _ => StepFrame(s, e);
    }
  }

  lemma MintFlows(s: Shop, owner: Pubkey, amount: u64)
    requires MintTo(s, owner, amount).Ok?
    ensures var s' := MintTo(s, owner, amount).value;
      s'.supply == s.supply + amount && Sum(Held(s'.balances)) == Sum(Held(s.balances)) + amount
  {
    hide MintTokens, Held;
    MintAdds(LedgerOf(s), owner, amount);
  }

  lemma BurnFlows(s: Shop, owner: Pubkey, amount: u64)
    requires Burn(s, owner, amount).Ok?
    ensures var s' := Burn(s, owner, amount).value;
      s'.supply == s.supply - amount && Sum(Held(s'.balances)) == Sum(Held(s.balances)) - amount
  {
    hide BurnTokens, Held;
    BurnTakes(LedgerOf(s), owner, amount);
  }

  lemma MoveFlows(s: Shop, source: Pubkey, target: Pubkey, amount: u64)
    requires Move(s, source, target, amount).Ok?
    ensures var s' := Move(s, source, target, amount).value;
      s'.supply == s.supply && Sum(Held(s'.balances)) == Sum(Held(s.balances))
  {
    hide Transfer, Held;
    TransferKeeps(LedgerOf(s), source, target, amount);
  }

  lemma RedeemBurns(s: Shop, c: Pubkey, id: u64, raw: Option<u64>, most: u64, now: i64)
    requires RedeemOffer(s, c, id, raw, most, now).Ok?
    ensures raw.Some? && Burn(s, c, raw.value).Ok?
    ensures var s' := RedeemOffer(s, c, id, raw, most, now).value;
      s'.supply == s.supply - raw.value && Sum(Held(s'.balances)) == Sum(Held(s.balances)) - raw.value
  {
    hide SegmentGateOpen, Burn, Held;
    BurnFlows(s, c, raw.value);
  }

  lemma ClawbackMoves(s: Shop, k: Pubkey, c: Pubkey, amount: u64, r: u16, now: i64)
    requires Clawback(s, k, c, amount, r, now).Ok?
    ensures var s' := Clawback(s, k, c, amount, r, now).value;
      s'.supply == s.supply && Sum(Held(s'.balances)) == Sum(Held(s.balances))
  {
    hide Move, Held;
    MoveFlows(s, c, s.merchant.authority, amount);
  }

  /** Outside an earn, a customer's standing at the merchant is untouched; a redemption or a clawback may open it. */
  lemma StepStanding(s: Shop, e: Event)
    requires !IsEarn(e.op)
    ensures var s' := After(s, Step(s, e));
      s'.profiles == s.profiles
      || ((e.op.RedeemOp? || e.op.ClawbackOp?) && e.op.customer in s'.profiles
          && s'.profiles == s.profiles[e.op.customer := s'.profiles[e.op.customer]]
          && SameStanding(ProfileOf(s, e.op.customer), s'.profiles[e.op.customer]))
  {
    hide EarnPoints, EarnPointsCampaign, RedeemOffer, Clawback, Move, MintTo, Burn, Configure, SetMerchantSegments,
      RefreshCustomerEligibility, CreateOffer, SetOfferSegment, CloseOffer, OpenReserve, FundReserve, WithdrawReserve,
      CreateCampaign, UpdateCampaign, SetCampaignWinback, CloseCampaign, SetMerchantTrust, ReverifyMerchant, SetIssueStatus;
    if Step(s, e).Ok? {
      match e.op
      case RedeemOp(c, id, raw, most) => RedeemStanding(s, c, id, raw, most, e.now);
      case ClawbackOp(k, c, a, r) => ClawbackStanding(s, k, c, a, r, e.now);
      case _ => StepFrame(s, e);
    }
  }

  predicate SameStanding(p: CustomerProfile, p': CustomerProfile) {
    && p'.lifetimeEarned == p.lifetimeEarned && p'.tier == p.tier
    && p'.streakDays == p.streakDays && p'.lastVisitDay == p.lastVisitDay
  }

  lemma RedeemStanding(s: Shop, c: Pubkey, id: u64, raw: Option<u64>, most: u64, now: i64)
    requires RedeemOffer(s, c, id, raw, most, now).Ok?
    ensures var s' := RedeemOffer(s, c, id, raw, most, now).value;
      c in s'.profiles && s'.profiles == s.profiles[c := s'.profiles[c]] && SameStanding(ProfileOf(s, c), s'.profiles[c])
  {
    hide SegmentGateOpen;
  }

  lemma ClawbackStanding(s: Shop, k: Pubkey, c: Pubkey, amount: u64, r: u16, now: i64)
    requires Clawback(s, k, c, amount, r, now).Ok?
    ensures var s' := Clawback(s, k, c, amount, r, now).value;
      c in s'.profiles && s'.profiles == s.profiles[c := s'.profiles[c]] && SameStanding(ProfileOf(s, c), s'.profiles[c])
  {
  }

  lemma StepKeepsTotals(s: Shop, e: Event)
    requires TotalsAgree(s)
    ensures TotalsAgree(After(s, Step(s, e)))
  {
    hide Step, SwappedIn, SwappedOut, Redeemed;
    var s' := After(s, Step(s, e));
    if IsEarn(e.op) {
      if Step(s, e).Ok? {
        StepEarn(s, e);
        EarnedUpdate(s.profiles, e.op.customer, s'.profiles[e.op.customer]);
        HeldUpdate(s.balances, e.op.customer, Balance(s, e.op.customer) + Minted(s, e));
      }
    } else {
      StepFrame(s, e);
      StepSupply(s, e);
      StepStanding(s, e);
      if s'.profiles != s.profiles {
        EarnedUpdate(s.profiles, e.op.customer, s'.profiles[e.op.customer]);
      }
    }
  }

  /** In every reachable state the customers' lifetime points sum to the merchant's issued total, and the
      balances sum to the mint's supply. */
  lemma {:induction false} ReachableTotals(tr: seq<Shop>, evs: seq<Event>, n: nat)
    requires IsTrace(tr, evs) && n <= |evs|
    ensures TotalsAgree(tr[n])
  {
    hide Step;
    if n == 0 {
      var s := tr[0];
      assert Earned(s.profiles) == map[];
      EmptyIsBalanced();
      HeldUpdate(map[], s.merchant.authority, 0);
    } else {
      ReachableTotals(tr, evs, n - 1);
      StepKeepsTotals(tr[n - 1], evs[n - 1]);
    }
  }

  // ------------------------------------------------------------------------- flows

  function TotalSwappedIn(tr: seq<Shop>, evs: seq<Event>, n: nat): nat
    requires n <= |evs| <= |tr|
  {
    if n == 0 then 0 else TotalSwappedIn(tr, evs, n - 1) + SwappedIn(tr[n - 1], evs[n - 1])
  }

  function TotalSwappedOut(tr: seq<Shop>, evs: seq<Event>, n: nat): nat
    requires n <= |evs| <= |tr|
  {
    if n == 0 then 0 else TotalSwappedOut(tr, evs, n - 1) + SwappedOut(tr[n - 1], evs[n - 1])
  }

  function TotalRedeemed(tr: seq<Shop>, evs: seq<Event>, n: nat): nat
    requires n <= |evs| <= |tr|
  {
    if n == 0 then 0 else TotalRedeemed(tr, evs, n - 1) + Redeemed(tr[n - 1], evs[n - 1])
  }

  /** The supply is everything ever earned or swapped in, less everything redeemed or swapped out: gifts and
      clawbacks, reserve moves and settings never touch it. */
  lemma {:induction false} SupplyIsFlows(tr: seq<Shop>, evs: seq<Event>, n: nat)
    requires IsTrace(tr, evs) && n <= |evs|
    ensures tr[n].supply == tr[n].merchant.lifetimePointsIssued + TotalSwappedIn(tr, evs, n)
                            - TotalRedeemed(tr, evs, n) - TotalSwappedOut(tr, evs, n)
  {
    hide Step;
    if n > 0 {
      SupplyIsFlows(tr, evs, n - 1);
      if !IsEarn(evs[n - 1].op) {
        StepFrame(tr[n - 1], evs[n - 1]);
        StepSupply(tr[n - 1], evs[n - 1]);
      } else if Step(tr[n - 1], evs[n - 1]).Ok? {
        StepEarn(tr[n - 1], evs[n - 1]);
      }
    }
  }

  /** Points that reached customers on day `d`, over both earn paths. */
  function MintedOn(tr: seq<Shop>, evs: seq<Event>, n: nat, d: u32): int
    requires n <= |evs| <= |tr|
  {
    if n == 0 then 0
    else MintedOn(tr, evs, n - 1, d) + if UnixDay(evs[n - 1].now) == Some(d) then Minted(tr[n - 1], evs[n - 1]) else 0
  }

  /** The circuit breaker's counter is the day's minted sum. */
  lemma {:induction false} IssuedTodayIsHistory(tr: seq<Shop>, evs: seq<Event>, n: nat)
    requires IsTrace(tr, evs) && n <= |evs|
    ensures var m := tr[n].merchant;
      && m.issuedToday == MintedOn(tr, evs, n, m.issueDay)
      && (forall d: u32 :: d > m.issueDay ==> MintedOn(tr, evs, n, d) == 0)
      && (m.issueDay > 0 ==> n > 0 && (UnixDay(evs[n - 1].now).Some? ==> m.issueDay <= UnixDay(evs[n - 1].now).value))
  {
    hide Step;
    if n > 0 {
      var s, e := tr[n - 1], evs[n - 1];
      IssuedTodayIsHistory(tr, evs, n - 1);
      if !IsEarn(e.op) {
        StepFrame(s, e);
      } else if Step(s, e).Ok? {
        StepEarn(s, e);
      }
    }
  }

  /** Each earn that goes through leaves the day's minted sum within the cap in force, 0 meaning none. */
  lemma EarnKeepsDailyCap(tr: seq<Shop>, evs: seq<Event>, n: nat)
    requires IsTrace(tr, evs) && n < |evs| && IsEarn(evs[n].op) && Step(tr[n], evs[n]).Ok?
    ensures UnixDay(evs[n].now).Some?
    ensures tr[n].merchant.dailyIssueCapRaw > 0 ==>
      MintedOn(tr, evs, n + 1, UnixDay(evs[n].now).value) <= tr[n].merchant.dailyIssueCapRaw
  {
    hide Step;
    StepEarn(tr[n], evs[n]);
    IssuedTodayIsHistory(tr, evs, n + 1);
  }
}
