/** vesta_core's koinon: alliances of merchants whose points swap at agreed rates. Membership, the co-signed settings
    and the swap itself, as functions on the accounts involved. */
module Koinon {
  import opened Base
  import opened PointLedger

  const MAX_ALLIANCE_FEE_BPS := 1_000

  datatype Error =
    | AccountConstraint | TokenError
    | ProtocolPaused | AlliancePaused | MerchantPaused | Unauthorized | PendingAdminMismatch | ValueTooLarge
    | InvalidSwapRate | SwapRateOutOfBounds | AlreadyInAlliance | MemberInactive | InvalidAmount
    | SlippageExceeded | ConversionFailed | SwapBudgetExceeded | Overflow

  datatype Alliance = Alliance(
    authority: Pubkey, pendingAuthority: Option<Pubkey>, memberCount: u16, paused: bool, feeBps: u16,
    minRateBps: u32, maxRateBps: u32, totalSwaps: u64, totalUiVolume: u128)

  datatype MemberKey = MemberKey(alliance: Pubkey, merchant: Pubkey)

  datatype Member = Member(
    rate: u32, swapInBudgetRaw: u64, swappedInToday: u64, budgetDay: u32, active: bool,
    totalSwappedIn: u64, totalSwappedOut: u64)

  datatype Merchant = Merchant(authority: Pubkey, paused: bool, joinedAlliance: Option<Pubkey>)

  datatype Accounts = Accounts(
    protocolPaused: bool,
    merchants: map<Pubkey, Merchant>,
    mints: map<Pubkey, Ledger>,  // each merchant's point mint
    alliances: map<Pubkey, Alliance>,
    members: map<MemberKey, Member>)

  // -------------------------------------------------------------- alliance control

  function CreateAlliance(s: Accounts, creator: Pubkey, key: Pubkey): Result<Accounts, Error> {
    if key in s.alliances then Err(AccountConstraint)
    else if s.protocolPaused then Err(ProtocolPaused)
    else Ok(s.(alliances := s.alliances[key := Alliance(creator, None, 0, false, 0, 0, 0, 0, 0)]))
  }

  datatype AllianceSetting =
    | ProposeAuthority(authority: Pubkey)
    | Pause(on: bool)
    | Params(feeBps: u16, minRateBps: u32, maxRateBps: u32)

  /** The alliance authority's own settings. */
  function SetAlliance(s: Accounts, signer: Pubkey, key: Pubkey, c: AllianceSetting): Result<Accounts, Error> {
    if key !in s.alliances then Err(AccountConstraint)
    else if s.alliances[key].authority != signer then Err(Unauthorized)
    else
      var a := s.alliances[key];
      match c
      case ProposeAuthority(k) => Ok(s.(alliances := s.alliances[key := a.(pendingAuthority := Some(k))]))
      case Pause(on) => Ok(s.(alliances := s.alliances[key := a.(paused := on)]))
      case Params(fee, lo, hi) =>
        if fee > MAX_ALLIANCE_FEE_BPS then Err(ValueTooLarge)
        else if !(hi == 0 || lo <= hi) then Err(InvalidSwapRate)
        else Ok(s.(alliances := s.alliances[key := a.(feeBps := fee, minRateBps := lo, maxRateBps := hi)]))
  }

  function AcceptAuthority(s: Accounts, signer: Pubkey, key: Pubkey): Result<Accounts, Error> {
    if key !in s.alliances then Err(AccountConstraint)
    else if s.alliances[key].pendingAuthority != Some(signer) then Err(PendingAdminMismatch)
    else Ok(s.(alliances := s.alliances[key := s.alliances[key].(authority := signer, pendingAuthority := None)]))
  }

  // -------------------------------------------------------------------- membership

  /** 0 means unbounded on that side. */
  predicate WithinBounds(a: Alliance, rate: u32) {
    (a.minRateBps > 0 ==> rate >= a.minRateBps) && (a.maxRateBps > 0 ==> rate <= a.maxRateBps)
  }

  /** Both the merchant and the alliance sign. */
  function JoinAlliance(s: Accounts, merchantSigner: Pubkey, allianceSigner: Pubkey, k: MemberKey, rate: u32, budget: u64)
    : Result<Accounts, Error>
  {
    if k.merchant !in s.merchants || s.merchants[k.merchant].authority != merchantSigner
       || k.alliance !in s.alliances || k in s.members then Err(AccountConstraint)
    else if s.alliances[k.alliance].authority != allianceSigner then Err(Unauthorized)
    else if s.protocolPaused then Err(ProtocolPaused)
    else if rate == 0 then Err(InvalidSwapRate)
    else if !WithinBounds(s.alliances[k.alliance], rate) then Err(SwapRateOutOfBounds)
    else if s.merchants[k.merchant].joinedAlliance.Some? then Err(AlreadyInAlliance)
    else
      var a := s.alliances[k.alliance];
      if a.memberCount + 1 > U16_MAX then Err(Overflow)
      else Ok(s.(
        members := s.members[k := Member(rate, budget, 0, 0, true, 0, 0)],
        alliances := s.alliances[k.alliance := a.(memberCount := a.memberCount + 1)],
        merchants := s.merchants[k.merchant := s.merchants[k.merchant].(joinedAlliance := Some(k.alliance))]))
  }

  function LeaveAlliance(s: Accounts, merchantSigner: Pubkey, k: MemberKey): Result<Accounts, Error> {
    if k.merchant !in s.merchants || s.merchants[k.merchant].authority != merchantSigner
       || k.alliance !in s.alliances || k !in s.members then Err(AccountConstraint)
    else
      var a := s.alliances[k.alliance];
      Ok(s.(
        members := s.members - {k},
        alliances := s.alliances[k.alliance := a.(memberCount := SatSub(a.memberCount, 1))],
        merchants := s.merchants[k.merchant := s.merchants[k.merchant].(joinedAlliance := None)]))
  }

  datatype MemberSetting =
    | Active(on: bool)  // by the alliance alone
    | Rate(rate: u32)  // co-signed
    | Budget(raw: u64)  // co-signed

  function SetMember(s: Accounts, merchantSigner: Option<Pubkey>, allianceSigner: Pubkey, k: MemberKey, c: MemberSetting)
    : Result<Accounts, Error>
  {
    if k.alliance !in s.alliances || k !in s.members then Err(AccountConstraint)
    else if s.alliances[k.alliance].authority != allianceSigner then Err(Unauthorized)
    else
      var m := s.members[k];
      if c.Active? then Ok(s.(members := s.members[k := m.(active := c.on)]))
      else if k.merchant !in s.merchants || Some(s.merchants[k.merchant].authority) != merchantSigner then Err(AccountConstraint)
      else match c
        case Rate(rate) =>
          if rate == 0 then Err(InvalidSwapRate)
          else if !WithinBounds(s.alliances[k.alliance], rate) then Err(SwapRateOutOfBounds)
          else Ok(s.(members := s.members[k := m.(rate := rate)]))
        case Budget(raw) => Ok(s.(members := s.members[k := m.(swapInBudgetRaw := raw)]))
        case Active(on) => Ok(s)
  }

  // -------------------------------------------------------------------------- swap

  function MulDiv(n: nat, k: nat, d: nat): nat
    requires d > 0
  {
    n * k / d
  }

  /** UI value out for UI value in: the cross rate, floored, then the alliance's spread, floored; `None` on a zero
      divisor, a spread past 100% or an overflow of any checked step. */
  function Quote(uiAmount: u64, rateA: u32, rateB: u32, feeBps: u16): Option<u64> {
    if uiAmount * rateA > U128_MAX || rateB == 0 || feeBps > 10_000 then None
    else
      var crossed := MulDiv(uiAmount, rateA, rateB);
      if crossed * (10_000 - feeBps) > U128_MAX then None
      else
        var out := MulDiv(crossed, 10_000 - feeBps, 10_000);
        if out <= U64_MAX then Some(out) else None
  }

  /** The destination's inbound budget for the day, rolled and charged. */
  function ChargeBudget(b: Member, today: u32, rawOut: u64): Result<Member, Error> {
    var before := if b.budgetDay != today then 0 else b.swappedInToday;
    if before + rawOut > U64_MAX then Err(Overflow)
    else if before + rawOut > b.swapInBudgetRaw then Err(SwapBudgetExceeded)
    else Ok(b.(budgetDay := today, swappedInToday := before + rawOut, totalSwappedIn := SatAdd64(b.totalSwappedIn, rawOut)))
  }

  datatype SwapArgs = SwapArgs(
    customer: Pubkey, alliance: Pubkey, a: Pubkey, b: Pubkey, uiAmount: u64, maxRawIn: u64, minRawOut: u64,
    rawIn: Option<u64>, rawOut: Option<u64>)  // the token program's conversions of both legs; `None` when one failed
  {
    function KeyA(): MemberKey {
      MemberKey(alliance, a)
    }

    function KeyB(): MemberKey {
      MemberKey(alliance, b)
    }
  }

  /** Leg A burns, then leg B mints. */
  function MoveTokens(mints: map<Pubkey, Ledger>, x: SwapArgs): Option<map<Pubkey, Ledger>>
    requires x.a in mints && x.b in mints && x.rawIn.Some? && x.rawOut.Some?
  {
    match BurnTokens(mints[x.a], x.customer, x.rawIn.value)
    case None => None
    case Some(burned) =>
      var paid := mints[x.a := burned];
      match MintTokens(paid[x.b], x.customer, x.rawOut.value)
      case None => None
      case Some(minted) => Some(paid[x.b := minted])
  }

  /** Should both members be one account, its second copy, the destination's, is the one that stays. */
  function SwapPoints(s: Accounts, x: SwapArgs, now: i64): Result<Accounts, Error> {
    if x.alliance !in s.alliances || x.KeyA() !in s.members || x.KeyB() !in s.members
       || x.a !in s.merchants || x.b !in s.merchants || x.a !in s.mints || x.b !in s.mints
       || x.customer !in s.mints[x.a].balances then Err(AccountConstraint)
    else
      var al, ma, mb := s.alliances[x.alliance], s.members[x.KeyA()], s.members[x.KeyB()];
      if !ma.active || !mb.active then Err(MemberInactive)
      else if s.protocolPaused then Err(ProtocolPaused)
      else if al.paused then Err(AlliancePaused)
      else if s.merchants[x.a].paused || s.merchants[x.b].paused then Err(MerchantPaused)
      else if x.uiAmount == 0 then Err(InvalidAmount)
      else if x.rawIn.None? then Err(ConversionFailed)
      else if x.rawIn.value == 0 then Err(InvalidAmount)
      else if x.rawIn.value > x.maxRawIn then Err(SlippageExceeded)
      else if Quote(x.uiAmount, ma.rate, mb.rate, al.feeBps).None? then Err(Overflow)
      else if Quote(x.uiAmount, ma.rate, mb.rate, al.feeBps).value == 0 then Err(InvalidAmount)
      else if x.rawOut.None? then Err(ConversionFailed)
      else if x.rawOut.value < x.minRawOut then Err(SlippageExceeded)
      else if UnixDay(now).None? then Err(Overflow)
      else match ChargeBudget(mb, UnixDay(now).value, x.rawOut.value)
        case Err(e) => Err(e)
        case Ok(mb') =>
          var mints := MoveTokens(s.mints, x);
          if mints.None? then Err(TokenError)
          else Ok(s.(
            mints := mints.value,
            members := s.members[x.KeyA() := ma.(totalSwappedOut := SatAdd64(ma.totalSwappedOut, x.rawIn.value))]
                         [x.KeyB() := mb'],
            alliances := s.alliances[x.alliance := al.(
              totalSwaps := SatAdd64(al.totalSwaps, 1),
              totalUiVolume := Min(al.totalUiVolume + x.uiAmount, U128_MAX))]))
  }

  // -------------------------------------------------------------------------- runs

  /** Whatever else moves a merchant's points. */
  datatype Flow =
    | Earned(owner: Pubkey, amount: u64)
    | Redeemed(owner: Pubkey, amount: u64)
    | Sent(source: Pubkey, target: Pubkey, amount: u64)  // a gift or a clawback

  function Flowed(l: Ledger, f: Flow): Option<Ledger> {
    match f
    case Earned(owner, amount) => MintTokens(l, owner, amount)
    case Redeemed(owner, amount) => BurnTokens(l, owner, amount)
    case Sent(source, target, amount) => Transfer(l, source, target, amount)
  }

  datatype Op =
    | RegisterOp(merchant: Pubkey, authority: Pubkey)
    | MerchantPauseOp(merchant: Pubkey, on: bool)
    | ProtocolPauseOp(on: bool)
    | LedgerOp(merchant: Pubkey, flow: Flow)
    | CreateOp(creator: Pubkey, key: Pubkey)
    | SetAllianceOp(signer: Pubkey, key: Pubkey, setting: AllianceSetting)
    | AcceptOp(signer: Pubkey, key: Pubkey)
    | JoinOp(merchantSigner: Pubkey, allianceSigner: Pubkey, k: MemberKey, rate: u32, budget: u64)
    | LeaveOp(merchantSigner: Pubkey, k: MemberKey)
    | SetMemberOp(coSigner: Option<Pubkey>, allianceSigner: Pubkey, k: MemberKey, change: MemberSetting)
    | SwapOp(swap: SwapArgs)

  /** A merchant enters outside any alliance, with an empty mint. */
  function Register(s: Accounts, merchant: Pubkey, authority: Pubkey): Result<Accounts, Error> {
    if merchant in s.merchants then Err(AccountConstraint)
    else Ok(s.(merchants := s.merchants[merchant := Merchant(authority, false, None)],
               mints := s.mints[merchant := Ledger(0, map[])]))
  }

  function Around(s: Accounts, op: Op): Result<Accounts, Error>
    requires op.RegisterOp? || op.MerchantPauseOp? || op.ProtocolPauseOp? || op.LedgerOp?
  {
    match op
    case RegisterOp(m, k) => Register(s, m, k)
    case MerchantPauseOp(m, on) =>
      if m !in s.merchants then Err(AccountConstraint)
      else Ok(s.(merchants := s.merchants[m := s.merchants[m].(paused := on)]))
    case ProtocolPauseOp(on) => Ok(s.(protocolPaused := on))
    case LedgerOp(m, flow) =>
      if m !in s.mints then Err(AccountConstraint)
      else if Flowed(s.mints[m], flow).None? then Err(TokenError)
      else Ok(s.(mints := s.mints[m := Flowed(s.mints[m], flow).value]))
  }

  datatype Event = Event(op: Op, now: i64)

  function Step(s: Accounts, e: Event): Result<Accounts, Error> {
    match e.op
    case CreateOp(c, k) => CreateAlliance(s, c, k)
    case SetAllianceOp(signer, k, c) => SetAlliance(s, signer, k, c)
    case AcceptOp(signer, k) => AcceptAuthority(s, signer, k)
    case JoinOp(m, a, k, rate, budget) => JoinAlliance(s, m, a, k, rate, budget)
    case LeaveOp(m, k) => LeaveAlliance(s, m, k)
    case SetMemberOp(m, a, k, c) => SetMember(s, m, a, k, c)
    case SwapOp(x) => SwapPoints(s, x, e.now)
    case _ => Around(s, e.op)
  }

  predicate Initial(s: Accounts) {
    s.merchants == map[] && s.mints == map[] && s.alliances == map[] && s.members == map[]
  }

  /** The clock never goes back. */
  ghost predicate IsTrace(tr: seq<Accounts>, evs: seq<Event>) {
    && |tr| == |evs| + 1
    && Initial(tr[0])
    && (forall i :: 0 <= i < |evs| ==> tr[i + 1] == After(tr[i], Step(tr[i], evs[i])))
    && (forall i :: 0 <= i < |evs| ==> evs[i].now > 0)
    && (forall i, j :: 0 <= i <= j < |evs| ==> evs[i].now <= evs[j].now)
  }

  /** A run goes on with any event no earlier than its last. */
  lemma RunExtends(tr: seq<Accounts>, evs: seq<Event>, e: Event)
    requires IsTrace(tr, evs) && e.now > 0 && (|evs| > 0 ==> evs[|evs| - 1].now <= e.now)
    ensures IsTrace(tr + [After(tr[|evs|], Step(tr[|evs|], e))], evs + [e])
  {
    hide Step;
  }
}
