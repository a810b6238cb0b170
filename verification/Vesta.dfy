/** vesta_core: one merchant's points. Issuance with streaks, segments and campaigns, redemption, clawback, the
    point mint's ledger and the liability reserve; each instruction as a function on the accounts involved. */
module Vesta {
  import opened Base
  import opened PointLedger
  import Aegis
  import TrustStreak

  const MAX_EARN_PER_TX := 1_000_000
  const STREAK_BPS_PER_DAY := 200
  const STREAK_DAYS_CAP := 30
  const CAMPAIGN_MAX_BPS := 20_000
  const MAX_CAMPAIGN_BONUS := 1_000_000
  const MAX_QUEST_TARGET := 1_000
  const MAX_TOTAL_MULTIPLIER_BPS := 24_000
  const BPS_DENOMINATOR := 10_000
  const TIER_THRESHOLDS: seq<u64> := [0, 100_000, 1_000_000, 10_000_000]
  const MIN_BASE_EARN_RATE := 1
  const MAX_BASE_EARN_RATE := 1_000
  const MAX_SEGMENTS := 8
  const MAX_OPERATORS := 4
  const DEFAULT_ELIGIBILITY_TTL_SECS: i64 := 86_400

  // Campaign kinds.
  const MULTIPLIER: u8 := 0
  const FLAT_BONUS: u8 := 1
  const QUEST: u8 := 2

  datatype Error =
    | AccountConstraint  // a missing, existing or mismatched account
    | TokenError  // the token program refused: balance or supply out of range
    | ProtocolPaused | Unauthorized | InvalidEarnRate | StaleVisitDay | EarnCapExceeded | MultiplierOverflow
    | CampaignInactive | CampaignWindowInvalid | CampaignNotEligible | MerchantPaused
    | OperatorsFull | OperatorNotFound | ReasonRequired | ClawbackExceedsBalance | ClawbackCapExceeded
    | OfferInactive | OfferSoldOut | SlippageExceeded | InvalidAmount | Overflow | ConversionFailed
    | IssuanceFrozen | InvalidIssueStatus | MerchantTrustMissing | AegisProgramMismatch | InvalidGrace
    | InvalidReserveParams | ReserveCoverageBreach | DailyIssuanceCapExceeded | TooManySegments
    | InvalidSegment | OfferSegmentGated

  datatype Merchant = Merchant(
    authority: Pubkey, baseEarnRate: u64, lifetimePointsIssued: u128, customerCount: u64,
    operators: seq<Pubkey>, paused: bool, lifetimeRedemptions: u64,
    lifetimeClawedBack: u128, clawbackCount: u64, clawbackDailyCapRaw: u64, clawedToday: u64, clawbackDay: u32,
    issueStatus: u8, dailyIssueCapRaw: u64, issuedToday: u64, issueDay: u32,
    governanceEnabled: bool, cashier: Pubkey, campaignManager: Pubkey)
  {
    predicate CanOperate(signer: Pubkey) {
      signer == authority || signer in operators
    }

    predicate MayEarn(signer: Pubkey) {
      if governanceEnabled then signer == cashier else CanOperate(signer)
    }

    predicate MayManage(signer: Pubkey) {
      if governanceEnabled then signer == campaignManager else CanOperate(signer)
    }
  }

  datatype CustomerProfile = CustomerProfile(
    streakDays: u16, lastVisitDay: u32, lifetimeEarned: u64, lifetimeRedemptions: u32, tier: u8,
    lifetimeSpendBase: u64, campaignsCompleted: u16, lifetimeClawedBack: u64, clawbackCount: u32)

  const FRESH_PROFILE := CustomerProfile(0, 0, 0, 0, 0, 0, 0, 0, 0)

  datatype Campaign = Campaign(
    kind: u8, multiplierBps: u16, flatBonus: u64, questTarget: u16, questReward: u64,
    minSpendBase: u64, minTier: u8, pointsBudget: u64, pointsSpent: u64, perCustomerCap: u64,
    startsAt: i64, endsAt: i64, participantCount: u32, redemptions: u64,
    active: bool, paused: bool, createdSlot: u64, minDaysInactive: u16)
  {
    predicate IsLive(now: i64) {
      active && !paused && startsAt <= now < endsAt && (pointsBudget == 0 || pointsSpent < pointsBudget)
    }
  }

  datatype ProgressKey = ProgressKey(campaign: u64, customer: Pubkey)

  datatype CampaignProgress = CampaignProgress(campaignSlot: u64, visits: u16, bonusDrawn: u64, completed: bool)

  datatype Segment = Segment(issuer: Pubkey, schemaId: u64, ttlSecs: i64, boostBps: u16, active: bool)

  const EMPTY_SEGMENT := Segment(DEFAULT_KEY, 0, 0, 0, false)

  datatype MerchantSegments = MerchantSegments(policyEpoch: u64, segments: seq<Segment>)

  datatype CustomerEligibility = CustomerEligibility(
    verdicts: bv32, kycTier: u8, jurisdiction: u16, issuedAt: i64, expiresAt: i64, policyEpoch: u64)
  {
    predicate IsFresh(epoch: u64, now: i64) {
      policyEpoch == epoch && now < expiresAt
    }

    predicate Satisfies(index: u8, epoch: u64, now: i64)
      requires index < 32
    {
      IsFresh(epoch, now) && HasBit(verdicts, index)
    }
  }

  function Bit(index: u8): bv32
    requires index < 32
  {
    (1 as bv32) << index
  }

  predicate Meets(v: bv32, mask: bv32) {
    v & mask != 0
  }

  function Joined(v: bv32, mask: bv32): bv32 {
    v | mask
  }

  function Without(v: bv32, mask: bv32): bv32 {
    v & !mask
  }

  predicate HasBit(v: bv32, index: u8)
    requires index < 32
  {
    Meets(v, Bit(index))
  }

  function WithBit(v: bv32, index: u8, on: bool): bv32
    requires index < 32
  {
    if on then Joined(v, Bit(index)) else Without(v, Bit(index))
  }

  datatype Offer = Offer(pricePoints: u64, supplyRemaining: u32, active: bool, requiredSegment: u8)

  datatype MerchantReserve = MerchantReserve(unitValue: u64, targetRatioBps: u16, balance: u64)
  {
    /** `None` on overflow, of the u128 intermediate or of the u64 result. */
    function RequiredReserve(supplyRaw: u64): Option<u64> {
      if supplyRaw * unitValue > U128_MAX then None
      else if supplyRaw * unitValue * targetRatioBps > U128_MAX then None
      else
        var v := supplyRaw * unitValue * targetRatioBps / BPS_DENOMINATOR;
        if v <= U64_MAX then Some(v) else None
    }
  }

  datatype MerchantTrust = MerchantTrust(
    accreditationRoot: Pubkey, subjectIssuer: Pubkey, requiredSchema: u64, aegisProgram: Pubkey,
    degradeTarget: u8, graceSecs: i64, failingSince: i64, lastVerifiedAt: i64, tier: u8, jurisdiction: u16)

  /** The accounts of one merchant. Balances are of its point mint, by token account owner; the treasury is
      the merchant authority's own account. */
  datatype Shop = Shop(
    protocolPaused: bool,
    merchant: Merchant,
    profiles: map<Pubkey, CustomerProfile>,
    campaigns: map<u64, Campaign>,
    progress: map<ProgressKey, CampaignProgress>,
    segments: Option<MerchantSegments>,
    eligibility: map<Pubkey, CustomerEligibility>,
    offers: map<u64, Offer>,
    balances: map<Pubkey, u64>,
    supply: u64,
    reserve: Option<MerchantReserve>,
    trust: Option<MerchantTrust>)

  // -------------------------------------------------------------------- ledger

  function Balance(s: Shop, owner: Pubkey): u64 {
    BalanceIn(s.balances, owner)
  }

  function LedgerOf(s: Shop): Ledger {
    Ledger(s.supply, s.balances)
  }

  /** The books after the token program moved points, or its refusal. */
  function Moved(s: Shop, l: Option<Ledger>): Result<Shop, Error> {
    if l.None? then Err(TokenError) else Ok(s.(supply := l.value.supply, balances := l.value.balances))
  }

  function MintTo(s: Shop, owner: Pubkey, amount: u64): Result<Shop, Error> {
    Moved(s, MintTokens(LedgerOf(s), owner, amount))
  }

  function Burn(s: Shop, owner: Pubkey, amount: u64): Result<Shop, Error> {
    Moved(s, BurnTokens(LedgerOf(s), owner, amount))
  }

  function Move(s: Shop, source: Pubkey, target: Pubkey, amount: u64): Result<Shop, Error> {
    Moved(s, Transfer(LedgerOf(s), source, target, amount))
  }

  // ------------------------------------------------------------------- accrual

  function NextStreak(p: CustomerProfile, day: u32): u16 {
    if p.lastVisitDay == day then Max(p.streakDays, 1)
    else if p.lastVisitDay + 1 == day then SatAdd16(p.streakDays, 1)
    else 1
  }

  /** Streak plus extra basis points, clamped jointly; `None` on u64 overflow. */
  function TotalBps(streak: u16, extraBps: u64): Option<u64> {
    var bps := 10_000 + Min(streak, STREAK_DAYS_CAP) * STREAK_BPS_PER_DAY + extraBps;
    if bps > U64_MAX then None else Some(Min(bps, MAX_TOTAL_MULTIPLIER_BPS))
  }

  /** The streak bps the coming earn will use, before any state moves. */
  function PreviewTotalBps(p: CustomerProfile, day: u32): u64 {
    var next := if p.lastVisitDay == day then Max(p.streakDays, 1)
                else if p.lastVisitDay + 1 == day then SatAdd16(p.streakDays, 1)
                else 1;
    Min(10_000 + Min(next, STREAK_DAYS_CAP) * STREAK_BPS_PER_DAY, MAX_TOTAL_MULTIPLIER_BPS)
  }

  function CampaignHeadroomBps(totalBps: u64): u64 {
    SatSub(MAX_TOTAL_MULTIPLIER_BPS, totalBps)
  }

  /** `amount * rate * bps / 10_000` through checked u128 steps, if it fits u64. */
  function Scale(amount: u64, rate: u64, bps: u64): Option<u64> {
    var product := amount * rate * bps;
    if product > U128_MAX then None
    else if product / 10_000 > U64_MAX then None
    else Some(product / 10_000)
  }

  /** How many of the first `n` tier thresholds the earnings reach. */
  function ThresholdsReached(earned: u64, n: nat): (r: nat)
    requires n <= |TIER_THRESHOLDS|
    ensures r <= n
  {
    if n == 0 then 0
    else ThresholdsReached(earned, n - 1) + if earned >= TIER_THRESHOLDS[n - 1] then 1 else 0
  }

  function Tier(earned: u64): u8 {
    SatSub(ThresholdsReached(earned, |TIER_THRESHOLDS|), 1)
  }

  datatype Accrued = Accrued(profile: CustomerProfile, merchant: Merchant, minted: u64)

  function Accrue(p: CustomerProfile, m: Merchant, amountBase: u64, day: u32, bonusRaw: u64, extraBps: u64)
    : Result<Accrued, Error>
  {
    var streak := NextStreak(p, day);
    if TotalBps(streak, extraBps).None? then Err(MultiplierOverflow)
    else
      var base := Scale(amountBase, m.baseEarnRate, TotalBps(streak, extraBps).value);
      if base.None? || base.value + bonusRaw > U64_MAX then Err(MultiplierOverflow)
      else
        var minted := base.value + bonusRaw;
        var issuedBefore := if m.issueDay != day then 0 else m.issuedToday;
        if minted > MAX_EARN_PER_TX then Err(EarnCapExceeded)
        else if p.lifetimeEarned + minted > U64_MAX then Err(Overflow)
        else if m.lifetimePointsIssued + minted > U128_MAX then Err(Overflow)
        else if issuedBefore + minted > U64_MAX then Err(Overflow)
        else if m.dailyIssueCapRaw > 0 && issuedBefore + minted > m.dailyIssueCapRaw then Err(DailyIssuanceCapExceeded)
        else Ok(Accrued(
          p.(streakDays := streak, lastVisitDay := day, lifetimeEarned := p.lifetimeEarned + minted,
             lifetimeSpendBase := SatAdd64(p.lifetimeSpendBase, amountBase), tier := Tier(p.lifetimeEarned + minted)),
          m.(lifetimePointsIssued := m.lifetimePointsIssued + minted, issueDay := day, issuedToday := issuedBefore + minted),
          minted))
  }

  /** The summed boost of the active segments among the first `n` whose bit is set. */
  function BoostBps(segments: seq<Segment>, verdicts: bv32, n: nat): (b: nat)
    requires n <= |segments| && n <= MAX_SEGMENTS
    ensures b <= n * U16_MAX
  {
    if n == 0 then 0
    else BoostBps(segments, verdicts, n - 1)
         + if segments[n - 1].active && HasBit(verdicts, n - 1) then segments[n - 1].boostBps else 0
  }

  function SegmentBoostBps(s: Shop, customer: Pubkey, now: i64): u64 {
    if s.segments.None? || customer !in s.eligibility then 0
    else
      var segs, cel := s.segments.value, s.eligibility[customer];
      if !cel.IsFresh(segs.policyEpoch, now) then 0
      else BoostBps(segs.segments, cel.verdicts, Min(|segs.segments|, MAX_SEGMENTS))
  }

  /** The checks both earn paths share; the customer's profile, opened if this is its first touch. */
  function AdmitEarn(s: Shop, signer: Pubkey, customer: Pubkey, amountBase: u64, visitDay: u32, now: i64)
    : Result<(u32, CustomerProfile, Merchant), Error>
  {
    if s.protocolPaused then Err(ProtocolPaused)
    else if s.merchant.paused then Err(MerchantPaused)
    else if s.merchant.issueStatus != TrustStreak.NORMAL then Err(IssuanceFrozen)
    else if !s.merchant.MayEarn(signer) then Err(Unauthorized)
    else if amountBase == 0 then Err(InvalidAmount)
    else if UnixDay(now).None? then Err(Overflow)
    else if visitDay != UnixDay(now).value then Err(StaleVisitDay)
    else if customer in s.profiles then Ok((visitDay, s.profiles[customer], s.merchant))
    else if s.merchant.customerCount + 1 > U64_MAX then Err(Overflow)
    else Ok((visitDay, FRESH_PROFILE, s.merchant.(customerCount := s.merchant.customerCount + 1)))
  }

  /** `withSegments`: the caller supplied both optional segment accounts. */
  function EarnPoints(s: Shop, signer: Pubkey, customer: Pubkey, amountBase: u64, visitDay: u32, withSegments: bool, now: i64)
    : Result<Shop, Error>
  {
    if withSegments && (s.segments.None? || customer !in s.eligibility) then Err(AccountConstraint)
    else match AdmitEarn(s, signer, customer, amountBase, visitDay, now)
      case Err(e) => Err(e)
      case Ok((day, p, m)) =>
        var extra := if withSegments then SegmentBoostBps(s, customer, now) else 0;
        match Accrue(p, m, amountBase, day, 0, extra)
        case Err(e) => Err(e)
        case Ok(a) => MintTo(s.(profiles := s.profiles[customer := a.profile], merchant := a.merchant), customer, a.minted)
  }

  // ----------------------------------------------------------------- campaigns

  datatype CampaignArgs = CampaignArgs(
    kind: u8, multiplierBps: u16, flatBonus: u64, questTarget: u16, questReward: u64,
    minSpendBase: u64, minTier: u8, pointsBudget: u64, perCustomerCap: u64, startsAt: i64, endsAt: i64)

  predicate ValidCampaign(a: CampaignArgs) {
    && a.startsAt < a.endsAt
    && (a.kind == MULTIPLIER || a.kind == FLAT_BONUS || a.kind == QUEST)
    && (a.kind == MULTIPLIER ==> 0 < a.multiplierBps <= CAMPAIGN_MAX_BPS)
    && (a.kind == FLAT_BONUS ==> 0 < a.flatBonus <= MAX_CAMPAIGN_BONUS)
    && (a.kind == QUEST ==>
          && 0 < a.questTarget <= MAX_QUEST_TARGET && 0 < a.questReward <= MAX_CAMPAIGN_BONUS
          && (a.perCustomerCap == 0 || a.perCustomerCap >= a.questReward)
          && (a.pointsBudget == 0 || a.pointsBudget >= a.questReward))
  }

  function CreateCampaign(s: Shop, signer: Pubkey, id: u64, a: CampaignArgs, slot: u64): Result<Shop, Error> {
    if id in s.campaigns then Err(AccountConstraint)
    else if s.protocolPaused then Err(ProtocolPaused)
    else if s.merchant.paused then Err(MerchantPaused)
    else if !s.merchant.MayManage(signer) then Err(Unauthorized)
    else if !ValidCampaign(a) then Err(CampaignWindowInvalid)
    else Ok(s.(campaigns := s.campaigns[id := Campaign(
      a.kind, a.multiplierBps, a.flatBonus, a.questTarget, a.questReward, a.minSpendBase, a.minTier,
      a.pointsBudget, 0, a.perCustomerCap, a.startsAt, a.endsAt, 0, 0, true, false, slot, 0)]))
  }

  datatype UpdateCampaignArgs = UpdateCampaignArgs(
    endsAt: Option<i64>, pointsBudget: Option<u64>, perCustomerCap: Option<u64>, paused: Option<bool>)

  function UpdateCampaign(s: Shop, signer: Pubkey, id: u64, u: UpdateCampaignArgs): Result<Shop, Error> {
    if id !in s.campaigns || signer != s.merchant.authority then Err(AccountConstraint)
    else
      var c := s.campaigns[id];
      var quest := c.kind == QUEST;
      if u.endsAt.Some? && u.endsAt.value <= c.startsAt then Err(CampaignWindowInvalid)
      else if u.pointsBudget.Some? && u.pointsBudget.value != 0
              && (u.pointsBudget.value < c.pointsSpent || (quest && u.pointsBudget.value < c.questReward))
        then Err(CampaignWindowInvalid)
      else if u.perCustomerCap.Some? && quest && u.perCustomerCap.value != 0 && u.perCustomerCap.value < c.questReward
        then Err(CampaignWindowInvalid)
      else Ok(s.(campaigns := s.campaigns[id := c.(
        endsAt := if u.endsAt.Some? then u.endsAt.value else c.endsAt,
        pointsBudget := if u.pointsBudget.Some? then u.pointsBudget.value else c.pointsBudget,
        perCustomerCap := if u.perCustomerCap.Some? then u.perCustomerCap.value else c.perCustomerCap,
        paused := if u.paused.Some? then u.paused.value else c.paused)]))
  }

  function SetCampaignWinback(s: Shop, signer: Pubkey, id: u64, minDaysInactive: u16): Result<Shop, Error> {
    if id !in s.campaigns then Err(AccountConstraint)
    else if !s.merchant.MayManage(signer) then Err(Unauthorized)
    else Ok(s.(campaigns := s.campaigns[id := s.campaigns[id].(minDaysInactive := minDaysInactive)]))
  }

  function CloseCampaign(s: Shop, signer: Pubkey, id: u64): Result<Shop, Error> {
    if id !in s.campaigns || signer != s.merchant.authority then Err(AccountConstraint)
    else Ok(s.(campaigns := s.campaigns - {id}))
  }

  /** The customer's progress under this instance of the campaign: progress left by an earlier instance
      of the same id does not count. */
  function ProgressOf(s: Shop, id: u64, customer: Pubkey): (bool, CampaignProgress)
    requires id in s.campaigns
  {
    var k, slot := ProgressKey(id, customer), s.campaigns[id].createdSlot;
    if k !in s.progress || s.progress[k].campaignSlot != slot then (true, CampaignProgress(slot, 0, 0, false))
    else (false, s.progress[k])
  }

  /** What a multiplier campaign adds: its own bps, within the room the streak leaves. */
  function EffectiveBps(c: Campaign, p: CustomerProfile, day: u32): u64 {
    Min(c.multiplierBps, CampaignHeadroomBps(PreviewTotalBps(p, day)))
  }

  /** Before clamping. Quest visits have been counted already. */
  function GrossBonus(c: Campaign, g: CampaignProgress, p: CustomerProfile, rate: u64, amountBase: u64, day: u32): Option<u64> {
    match c.kind
    case 0 => Scale(amountBase, rate, EffectiveBps(c, p, day))
    case 1 => Some(c.flatBonus)
    case 2 => Some(if !g.completed && g.visits >= c.questTarget then c.questReward else 0)
    case _ => Some(0)
  }

  /** Clamped by the customer's cap, then by what is left of the budget; 0 means no limit. */
  function ClampBonus(c: Campaign, g: CampaignProgress, gross: u64): u64 {
    var capped := if c.perCustomerCap > 0 then Min(gross, SatSub(c.perCustomerCap, g.bonusDrawn)) else gross;
    if c.pointsBudget > 0 then Min(capped, SatSub(c.pointsBudget, c.pointsSpent)) else capped
  }

  predicate CampaignAdmits(c: Campaign, p: CustomerProfile, amountBase: u64, day: u32) {
    && amountBase >= c.minSpendBase && p.tier >= c.minTier
    && (c.minDaysInactive > 0 ==> c.minDaysInactive <= SatSub(day, p.lastVisitDay))
  }

  /** What a campaign earn pays: the clamped bonus, and whether it completes the quest. */
  datatype Payout = Payout(first: bool, progress: CampaignProgress, bonus: u64, completes: bool)

  function CampaignPayout(s: Shop, id: u64, customer: Pubkey, p: CustomerProfile, amountBase: u64, day: u32): Option<Payout>
    requires id in s.campaigns
  {
    var c := s.campaigns[id];
    var (first, g0) := ProgressOf(s, id, customer);
    var g := if c.kind == QUEST then g0.(visits := SatAdd16(g0.visits, 1)) else g0;
    var gross := GrossBonus(c, g, p, s.merchant.baseEarnRate, amountBase, day);
    if gross.None? then None
    else
      var bonus := ClampBonus(c, g, gross.value);
      Some(Payout(first, g, bonus, c.kind == QUEST && gross.value > 0 && bonus == gross.value))
  }

  /** The books after a campaign earn, short of the mint: profile, merchant, campaign and the customer's progress. */
  function WithPayout(s: Shop, id: u64, customer: Pubkey, pay: Payout, a: Accrued): Shop
    requires id in s.campaigns
  {
    var c := s.campaigns[id];
    var p' := if pay.completes then a.profile.(campaignsCompleted := SatAdd16(a.profile.campaignsCompleted, 1)) else a.profile;
    var g' := pay.progress.(bonusDrawn := SatAdd64(pay.progress.bonusDrawn, pay.bonus),
                            completed := pay.progress.completed || pay.completes);
    var c' := c.(participantCount := if pay.first then SatAdd32(c.participantCount, 1) else c.participantCount,
                 pointsSpent := SatAdd64(c.pointsSpent, pay.bonus), redemptions := SatAdd64(c.redemptions, 1));
    s.(profiles := s.profiles[customer := p'], merchant := a.merchant,
       campaigns := s.campaigns[id := c'], progress := s.progress[ProgressKey(id, customer) := g'])
  }

  function EarnPointsCampaign(s: Shop, signer: Pubkey, customer: Pubkey, id: u64, amountBase: u64, visitDay: u32, now: i64)
    : Result<Shop, Error>
  {
    if id !in s.campaigns then Err(AccountConstraint)
    else match AdmitEarn(s, signer, customer, amountBase, visitDay, now)
      case Err(e) => Err(e)
      case Ok((day, p, m)) =>
        var c := s.campaigns[id];
        if !c.IsLive(now) then Err(CampaignInactive)
        else if !CampaignAdmits(c, p, amountBase, day) then Err(CampaignNotEligible)
        else if CampaignPayout(s, id, customer, p, amountBase, day).None? then Err(MultiplierOverflow)
        else
          var pay := CampaignPayout(s, id, customer, p, amountBase, day).value;
          match Accrue(p, m, amountBase, day, pay.bonus, 0)
          case Err(e) => Err(e)
          case Ok(a) => MintTo(WithPayout(s, id, customer, pay, a), customer, a.minted)
  }

  // ------------------------------------------------------------ merchant controls

  function RegisterMerchant(authority: Pubkey, baseEarnRate: u64): Result<Shop, Error> {
    if !(MIN_BASE_EARN_RATE <= baseEarnRate <= MAX_BASE_EARN_RATE) then Err(InvalidEarnRate)
    else Ok(Shop(
      false,
      Merchant(authority, baseEarnRate, 0, 0, [], false, 0, 0, 0, 0, 0, 0, TrustStreak.NORMAL, 0, 0, 0,
               false, DEFAULT_KEY, DEFAULT_KEY),
      map[], map[], map[], None, map[], map[], map[authority := 0], 0, None, None))
  }

  datatype Setting =
    | ProtocolPause(on: bool)  // by the protocol admin
    | EarnRate(rate: u64)
    | MerchantPause(on: bool)
    | IssueCap(cap: u64)
    | ClawbackCap(cap: u64)
    | Roles(enabled: bool, cashier: Pubkey, campaignManager: Pubkey)
    | AddOperator(operator: Pubkey)
    | RemoveOperator(operator: Pubkey)

  function IndexOf(ops: seq<Pubkey>, k: Pubkey): (i: nat)
    requires k in ops
    ensures i < |ops| && ops[i] == k
  {
    if ops[0] == k then 0 else 1 + IndexOf(ops[1..], k)
  }

  /** The last operator takes the removed one's slot. */
  function SwapRemove(ops: seq<Pubkey>, k: Pubkey): seq<Pubkey>
    requires k in ops
  {
    var last := |ops| - 1;
    ops[IndexOf(ops, k) := ops[last]][..last]
  }

  /** The owner's controls (the protocol pause is the admin's and its signer is not modelled). */
  function Configure(s: Shop, signer: Pubkey, c: Setting): Result<Shop, Error> {
    var m := s.merchant;
    if c.ProtocolPause? then Ok(s.(protocolPaused := c.on))
    else if signer != m.authority then Err(AccountConstraint)
    else match c
      case EarnRate(rate) =>
        if s.protocolPaused then Err(ProtocolPaused)
        else if !(MIN_BASE_EARN_RATE <= rate <= MAX_BASE_EARN_RATE) then Err(InvalidEarnRate)
        else Ok(s.(merchant := m.(baseEarnRate := rate)))
      case MerchantPause(on) => Ok(s.(merchant := m.(paused := on)))
      case IssueCap(cap) => Ok(s.(merchant := m.(dailyIssueCapRaw := cap)))
      case ClawbackCap(cap) => Ok(s.(merchant := m.(clawbackDailyCapRaw := cap)))
      case Roles(on, cashier, manager) =>
        if on && (cashier == DEFAULT_KEY || manager == DEFAULT_KEY) then Err(Unauthorized)
        else Ok(s.(merchant := m.(governanceEnabled := on, cashier := cashier, campaignManager := manager)))
      case AddOperator(k) =>
        if |m.operators| >= MAX_OPERATORS || k in m.operators then Err(OperatorsFull)
        else Ok(s.(merchant := m.(operators := m.operators + [k])))
      case RemoveOperator(k) =>
        if k !in m.operators then Err(OperatorNotFound)
        else Ok(s.(merchant := m.(operators := SwapRemove(m.operators, k))))
      case ProtocolPause(on) => Ok(s)
  }

  // ------------------------------------------------------------------- segments

  function SetMerchantSegments(s: Shop, signer: Pubkey, segments: seq<Segment>): Result<Shop, Error> {
    if signer != s.merchant.authority then Err(AccountConstraint)
    else if |segments| > MAX_SEGMENTS then Err(TooManySegments)
    else if exists i :: 0 <= i < |segments| && segments[i].ttlSecs < 0 then Err(InvalidReserveParams)
    else
      var epoch := if s.segments.Some? then s.segments.value.policyEpoch else 0;
      Ok(s.(segments := Some(MerchantSegments(SatAdd64(epoch, 1), PadSegments(segments)))))
  }

  /** Unspecified slots are the inactive default. */
  function PadSegments(segments: seq<Segment>): (r: seq<Segment>)
    requires |segments| <= MAX_SEGMENTS
    ensures |r| == MAX_SEGMENTS
  {
    segments + seq(MAX_SEGMENTS - |segments|, _ => EMPTY_SEGMENT)
  }

  /** `verdict` is what aegis returned for the segment's issuer and schema. */
  function RefreshCustomerEligibility(s: Shop, customer: Pubkey, index: u8, verdict: Aegis.Verdict, now: i64)
    : Result<Shop, Error>
  {
    if s.segments.None? then Err(AccountConstraint)
    else if index >= MAX_SEGMENTS || index >= |s.segments.value.segments| then Err(InvalidSegment)
    else
      var seg, epoch := s.segments.value.segments[index], s.segments.value.policyEpoch;
      var ttl := if seg.ttlSecs > 0 then seg.ttlSecs else DEFAULT_ELIGIBILITY_TTL_SECS;
      if !seg.active then Err(InvalidSegment)
      else if !FitsI64(now + ttl) then Err(Overflow)
      else
        var before := if customer !in s.eligibility || s.eligibility[customer].policyEpoch != epoch then 0
                      else s.eligibility[customer].verdicts;
        Ok(s.(eligibility := s.eligibility[customer :=
          CustomerEligibility(WithBit(before, index, verdict.ok), verdict.tier, verdict.jurisdiction, now, now + ttl, epoch)]))
  }

  // --------------------------------------------------- redemption, clawback, flows

  function CreateOffer(s: Shop, signer: Pubkey, id: u64, pricePoints: u64, supply: u32): Result<Shop, Error> {
    if id in s.offers then Err(AccountConstraint)
    else if s.protocolPaused then Err(ProtocolPaused)
    else if s.merchant.paused then Err(MerchantPaused)
    else if !s.merchant.MayManage(signer) then Err(Unauthorized)
    else if pricePoints == 0 || supply == 0 then Err(InvalidAmount)
    else Ok(s.(offers := s.offers[id := Offer(pricePoints, supply, true, 0)]))
  }

  function SetOfferSegment(s: Shop, signer: Pubkey, id: u64, requiredSegment: u8): Result<Shop, Error> {
    if id !in s.offers then Err(AccountConstraint)
    else if !s.merchant.MayManage(signer) then Err(Unauthorized)
    else if requiredSegment > MAX_SEGMENTS then Err(InvalidSegment)
    else Ok(s.(offers := s.offers[id := s.offers[id].(requiredSegment := requiredSegment)]))
  }

  function CloseOffer(s: Shop, signer: Pubkey, id: u64): Result<Shop, Error> {
    if id !in s.offers || signer != s.merchant.authority then Err(AccountConstraint)
    else Ok(s.(offers := s.offers - {id}))
  }

  predicate SegmentGateOpen(s: Shop, customer: Pubkey, requiredSegment: u8, now: i64) {
    requiredSegment != 0 ==>
      && s.segments.Some? && customer in s.eligibility
      && SatSub(requiredSegment, 1) < 32
      && s.eligibility[customer].Satisfies(SatSub(requiredSegment, 1), s.segments.value.policyEpoch, now)
  }

  /** `rawNeeded` is the token program's conversion of the offer's price; `None` when it failed. */
  function RedeemOffer(s: Shop, customer: Pubkey, id: u64, rawNeeded: Option<u64>, maxRawAmount: u64, now: i64): Result<Shop, Error> {
    if id !in s.offers then Err(AccountConstraint)
    else if s.protocolPaused then Err(ProtocolPaused)
    else if s.merchant.paused then Err(MerchantPaused)
    else
      var offer := s.offers[id];
      if !SegmentGateOpen(s, customer, offer.requiredSegment, now) then Err(OfferSegmentGated)
      else if !offer.active then Err(OfferInactive)
      else if offer.supplyRemaining == 0 then Err(OfferSoldOut)
      else if rawNeeded.None? then Err(ConversionFailed)
      else if rawNeeded.value > maxRawAmount then Err(SlippageExceeded)
      else match Burn(s, customer, rawNeeded.value)
        case Err(e) => Err(e)
        case Ok(b) =>
          var p := if customer in s.profiles then s.profiles[customer] else FRESH_PROFILE;
          var m := s.merchant;
          if p.lifetimeRedemptions + 1 > U32_MAX then Err(Overflow)
          else Ok(b.(
            offers := b.offers[id := offer.(supplyRemaining := offer.supplyRemaining - 1)],
            profiles := b.profiles[customer := p.(lifetimeRedemptions := p.lifetimeRedemptions + 1)],
            merchant := m.(
              lifetimeRedemptions := SatAdd64(m.lifetimeRedemptions, 1),
              customerCount := if customer in s.profiles then m.customerCount else SatAdd64(m.customerCount, 1))))
  }

  function Clawback(s: Shop, signer: Pubkey, customer: Pubkey, amountRaw: u64, reasonCode: u16, now: i64): Result<Shop, Error> {
    if customer !in s.balances then Err(AccountConstraint)
    else if s.protocolPaused then Err(ProtocolPaused)
    else if amountRaw == 0 then Err(InvalidAmount)
    else if reasonCode == 0 then Err(ReasonRequired)
    else if signer != s.merchant.authority then Err(Unauthorized)
    else if amountRaw > Balance(s, customer) then Err(ClawbackExceedsBalance)
    else if UnixDay(now).None? then Err(Overflow)
    else
      var m, today := s.merchant, UnixDay(now).value;
      var clawed := (if m.clawbackDay != today then 0 else m.clawedToday) + amountRaw;
      if clawed > U64_MAX then Err(Overflow)
      else if m.clawbackDailyCapRaw > 0 && clawed > m.clawbackDailyCapRaw then Err(ClawbackCapExceeded)
      else match Move(s, customer, m.authority, amountRaw)
        case Err(e) => Err(e)
        case Ok(b) =>
          var p := if customer in s.profiles then s.profiles[customer] else FRESH_PROFILE;
          Ok(b.(
            profiles := b.profiles[customer := p.(lifetimeClawedBack := SatAdd64(p.lifetimeClawedBack, amountRaw),
                                                  clawbackCount := SatAdd32(p.clawbackCount, 1))],
            merchant := m.(
              clawbackDay := today, clawedToday := clawed,
              lifetimeClawedBack := Min(m.lifetimeClawedBack + amountRaw, U128_MAX),
              clawbackCount := SatAdd64(m.clawbackCount, 1),
              customerCount := if customer in s.profiles then m.customerCount else SatAdd64(m.customerCount, 1))))
  }

  // -------------------------------------------------------------------- reserve

  function OpenReserve(s: Shop, signer: Pubkey, unitValue: u64, targetRatioBps: u16): Result<Shop, Error> {
    if s.reserve.Some? || signer != s.merchant.authority then Err(AccountConstraint)
    else if unitValue == 0 || targetRatioBps == 0 then Err(InvalidReserveParams)
    else Ok(s.(reserve := Some(MerchantReserve(unitValue, targetRatioBps, 0))))
  }

  /** `available` is what the source account of the backing token holds. */
  function FundReserve(s: Shop, signer: Pubkey, amount: u64, available: u64): Result<Shop, Error> {
    if s.reserve.None? || signer != s.merchant.authority then Err(AccountConstraint)
    else if amount == 0 then Err(InvalidAmount)
    else if amount > available || s.reserve.value.balance + amount > U64_MAX then Err(TokenError)
    else Ok(s.(reserve := Some(s.reserve.value.(balance := s.reserve.value.balance + amount))))
  }

  function WithdrawReserve(s: Shop, signer: Pubkey, amount: u64): Result<Shop, Error> {
    if s.reserve.None? || signer != s.merchant.authority then Err(AccountConstraint)
    else if amount == 0 then Err(InvalidAmount)
    else
      var r := s.reserve.value;
      if amount > r.balance then Err(TokenError)
      else match r.RequiredReserve(s.supply)
        case None => Err(Overflow)
        case Some(required) =>
          if r.balance - amount < required then Err(ReserveCoverageBreach)
          else Ok(s.(reserve := Some(r.(balance := r.balance - amount))))
  }

  datatype ReserveAttestation = ReserveAttestation(outstandingRaw: u64, reserveStable: u64, requiredStable: u64, solvent: bool)

  /** The permissionless proof of reserves writes nothing; it reports what it read. */
  function AttestReserve(s: Shop): Result<ReserveAttestation, Error> {
    if s.reserve.None? then Err(AccountConstraint)
    else match s.reserve.value.RequiredReserve(s.supply)
      case None => Err(Overflow)
      case Some(required) =>
        Ok(ReserveAttestation(s.supply, s.reserve.value.balance, required, s.reserve.value.balance >= required))
  }

  // ---------------------------------------------------------------- accreditation

  function HealthOf(t: MerchantTrust, status: u8): TrustStreak.Health {
    TrustStreak.Health(t.degradeTarget, t.graceSecs, t.failingSince, t.lastVerifiedAt, status)
  }

  function WithHealth(s: Shop, t: MerchantTrust, h: TrustStreak.Health): Shop {
    s.(trust := Some(t.(degradeTarget := h.degradeTarget, graceSecs := h.graceSecs,
                        failingSince := h.failingSince, lastVerifiedAt := h.lastVerifiedAt)),
       merchant := s.merchant.(issueStatus := h.posture))
  }

  function SetMerchantTrust(s: Shop, signer: Pubkey, root: Pubkey, subjectIssuer: Pubkey, schema: u64, aegisProgram: Pubkey,
                            degradeTarget: u8, graceSecs: i64, now: i64): Result<Shop, Error>
  {
    if signer != s.merchant.authority then Err(AccountConstraint)
    else if !TrustStreak.IsValidTarget(degradeTarget) then Err(InvalidIssueStatus)
    else if graceSecs < 0 then Err(InvalidGrace)
    else if root == DEFAULT_KEY then Err(MerchantTrustMissing)
    else if aegisProgram == DEFAULT_KEY then Err(AegisProgramMismatch)
    else
      var (tier, jurisdiction) := if s.trust.Some? then (s.trust.value.tier, s.trust.value.jurisdiction) else (0, 0);
      Ok(s.(trust := Some(MerchantTrust(root, subjectIssuer, schema, aegisProgram, degradeTarget, graceSecs, 0, now,
                                        tier, jurisdiction))))
  }

  /** `verdict` is aegis's accreditation verdict; a healthy one also records its provenance. */
  function ReverifyMerchant(s: Shop, aegisProgram: Pubkey, verdict: Aegis.Verdict, now: i64): Result<Shop, Error> {
    if s.trust.None? then Err(AccountConstraint)
    else if aegisProgram != s.trust.value.aegisProgram then Err(AegisProgramMismatch)
    else
      var t := s.trust.value;
      var t' := if verdict.ok then t.(tier := verdict.tier, jurisdiction := verdict.jurisdiction) else t;
      Ok(WithHealth(s, t', TrustStreak.Crank(HealthOf(t', s.merchant.issueStatus), verdict.ok, now)))
  }

  function SetIssueStatus(s: Shop, signer: Pubkey, status: u8): Result<Shop, Error> {
    if s.trust.None? || signer != s.merchant.authority then Err(AccountConstraint)
    else if status != TrustStreak.NORMAL && !TrustStreak.IsValidTarget(status) then Err(InvalidIssueStatus)
    else Ok(WithHealth(s, s.trust.value, TrustStreak.Override(HealthOf(s.trust.value, s.merchant.issueStatus), status)))
  }

  // ----------------------------------------------------------------------- runs

  datatype Op =
    | EarnOp(signer: Pubkey, customer: Pubkey, amountBase: u64, visitDay: u32, withSegments: bool)
    | EarnCampaignOp(signer: Pubkey, customer: Pubkey, id: u64, amountBase: u64, visitDay: u32)
    | CreateCampaignOp(signer: Pubkey, id: u64, args: CampaignArgs)
    | UpdateCampaignOp(signer: Pubkey, id: u64, update: UpdateCampaignArgs)
    | SetWinbackOp(signer: Pubkey, id: u64, minDaysInactive: u16)
    | CloseCampaignOp(signer: Pubkey, id: u64)
    | ConfigureOp(signer: Pubkey, setting: Setting)
    | SetSegmentsOp(signer: Pubkey, segments: seq<Segment>)
    | RefreshOp(customer: Pubkey, index: u8, verdict: Aegis.Verdict)
    | CreateOfferOp(signer: Pubkey, id: u64, pricePoints: u64, supply: u32)
    | SetOfferSegmentOp(signer: Pubkey, id: u64, requiredSegment: u8)
    | CloseOfferOp(signer: Pubkey, id: u64)
    | RedeemOp(customer: Pubkey, id: u64, rawNeeded: Option<u64>, maxRawAmount: u64)
    | ClawbackOp(signer: Pubkey, customer: Pubkey, amountRaw: u64, reasonCode: u16)
    | GiftOp(source: Pubkey, target: Pubkey, amountRaw: u64)  // a transfer the guard let through
    | SwapInOp(customer: Pubkey, rawOut: u64)  // this mint's leg of an alliance swap
    | SwapOutOp(customer: Pubkey, rawIn: u64)
    | OpenReserveOp(signer: Pubkey, unitValue: u64, targetRatioBps: u16)
    | FundReserveOp(signer: Pubkey, amount: u64, available: u64)
    | WithdrawReserveOp(signer: Pubkey, amount: u64)
    | SetTrustOp(signer: Pubkey, root: Pubkey, subjectIssuer: Pubkey, schema: u64, aegisProgram: Pubkey, degradeTarget: u8, graceSecs: i64)
    | ReverifyOp(aegisProgram: Pubkey, verdict: Aegis.Verdict)
    | SetIssueStatusOp(signer: Pubkey, status: u8)

  datatype Event = Event(op: Op, now: i64, slot: u64)

  function Step(s: Shop, e: Event): Result<Shop, Error> {
    match e.op
    case EarnOp(k, c, a, d, w) => EarnPoints(s, k, c, a, d, w, e.now)
    case EarnCampaignOp(k, c, id, a, d) => EarnPointsCampaign(s, k, c, id, a, d, e.now)
    case CreateCampaignOp(k, id, args) => CreateCampaign(s, k, id, args, e.slot)
    case UpdateCampaignOp(k, id, u) => UpdateCampaign(s, k, id, u)
    case SetWinbackOp(k, id, d) => SetCampaignWinback(s, k, id, d)
    case CloseCampaignOp(k, id) => CloseCampaign(s, k, id)
    case ConfigureOp(k, c) => Configure(s, k, c)
    case SetSegmentsOp(k, segs) => SetMerchantSegments(s, k, segs)
    case RefreshOp(c, i, v) => RefreshCustomerEligibility(s, c, i, v, e.now)
    case CreateOfferOp(k, id, p, n) => CreateOffer(s, k, id, p, n)
    case SetOfferSegmentOp(k, id, r) => SetOfferSegment(s, k, id, r)
    case CloseOfferOp(k, id) => CloseOffer(s, k, id)
    case RedeemOp(c, id, raw, most) => RedeemOffer(s, c, id, raw, most, e.now)
    case ClawbackOp(k, c, a, r) => Clawback(s, k, c, a, r, e.now)
    case GiftOp(f, t, a) => Move(s, f, t, a)
    case SwapInOp(c, a) => MintTo(s, c, a)
    case SwapOutOp(c, a) => Burn(s, c, a)
    case OpenReserveOp(k, u, r) => OpenReserve(s, k, u, r)
    case FundReserveOp(k, a, v) => FundReserve(s, k, a, v)
    case WithdrawReserveOp(k, a) => WithdrawReserve(s, k, a)
    case SetTrustOp(k, r, subj, sch, prog, t, g) => SetMerchantTrust(s, k, r, subj, sch, prog, t, g, e.now)
    case ReverifyOp(prog, v) => ReverifyMerchant(s, prog, v, e.now)
    case SetIssueStatusOp(k, st) => SetIssueStatus(s, k, st)
  }

  ghost predicate Initial(s: Shop) {
    exists authority, rate :: RegisterMerchant(authority, rate) == Ok(s)
  }

  /** Every reachable history of a merchant: `tr[i]` is its accounts before event `i`. A failed instruction leaves
      them as they were; the clock is positive and never goes back, nor do slots. */
  ghost predicate IsTrace(tr: seq<Shop>, evs: seq<Event>) {
    && |tr| == |evs| + 1
    && Initial(tr[0])
    && (forall i :: 0 <= i < |evs| ==> tr[i + 1] == After(tr[i], Step(tr[i], evs[i])))
    && (forall i :: 0 <= i < |evs| ==> evs[i].now > 0)
    && (forall i, j :: 0 <= i <= j < |evs| ==> evs[i].now <= evs[j].now && evs[i].slot <= evs[j].slot)
  }

  /** A run goes on with any event no earlier than its last. */
  lemma RunExtends(tr: seq<Shop>, evs: seq<Event>, e: Event)
    requires IsTrace(tr, evs) && e.now > 0
    requires |evs| > 0 ==> evs[|evs| - 1].now <= e.now && evs[|evs| - 1].slot <= e.slot
    ensures IsTrace(tr + [After(tr[|evs|], Step(tr[|evs|], e))], evs + [e])
  {
    hide Step, Initial;
  }
}
