/** The koinon handlers as they run on the loaded accounts. */
module KoinonProgram {
  import opened Base
  import opened Koinon
  import opened PointLedger

  class AllianceAccounts {
    var protocolPaused: bool
    var merchants: map<Pubkey, Merchant>
    var mints: map<Pubkey, Ledger>
    var alliances: map<Pubkey, Alliance>
    var members: map<MemberKey, Member>

    function State(): Accounts
      reads this
    {
      Accounts(protocolPaused, merchants, mints, alliances, members)
    }

    constructor (s: Accounts)
      ensures State() == s
    {
      protocolPaused, merchants, mints := s.protocolPaused, s.merchants, s.mints;
      alliances, members := s.alliances, s.members;
    }

    static method CheckRateBounds(a: Alliance, rate: u32) returns (out: Outcome<Error>)
      ensures out == if WithinBounds(a, rate) then Pass else Fail(SwapRateOutOfBounds)
    {
      if a.minRateBps > 0 {
        if rate < a.minRateBps { return Fail(SwapRateOutOfBounds); }
      }
      if a.maxRateBps > 0 {
        if rate > a.maxRateBps { return Fail(SwapRateOutOfBounds); }
      }
      out := Pass;
    }

    method HandleSetAllianceParams(signer: Pubkey, key: Pubkey, feeBps: u16, minRateBps: u32, maxRateBps: u32)
      returns (out: Outcome<Error>)
      modifies this`alliances
      ensures Commits(SetAlliance(old(State()), signer, key, Params(feeBps, minRateBps, maxRateBps)), old(State()), State(), out)
    {
      if key !in alliances { return Fail(AccountConstraint); }
      if alliances[key].authority != signer { return Fail(Unauthorized); }
      if feeBps > MAX_ALLIANCE_FEE_BPS { return Fail(ValueTooLarge); }
      if maxRateBps != 0 && minRateBps > maxRateBps { return Fail(InvalidSwapRate); }
      var a := alliances[key];
      a := a.(feeBps := feeBps);
      a := a.(minRateBps := minRateBps);
      a := a.(maxRateBps := maxRateBps);
      alliances := alliances[key := a];
      out := Pass;
    }

    method HandleJoinAlliance(merchantSigner: Pubkey, allianceSigner: Pubkey, k: MemberKey, rate: u32, budget: u64)
      returns (out: Outcome<Error>)
      modifies this`members, this`alliances, this`merchants
      ensures Commits(JoinAlliance(old(State()), merchantSigner, allianceSigner, k, rate, budget), old(State()), State(), out)
    {
      if k.merchant !in merchants || merchants[k.merchant].authority != merchantSigner { return Fail(AccountConstraint); }
      if k.alliance !in alliances || k in members { return Fail(AccountConstraint); }
      if alliances[k.alliance].authority != allianceSigner { return Fail(Unauthorized); }
      if protocolPaused { return Fail(ProtocolPaused); }
      if rate == 0 { return Fail(InvalidSwapRate); }
      out := CheckRateBounds(alliances[k.alliance], rate);
      if out.Fail? { return; }
      if merchants[k.merchant].joinedAlliance.Some? { return Fail(AlreadyInAlliance); }
      var a := alliances[k.alliance];
      if a.memberCount + 1 > U16_MAX { return Fail(Overflow); }
      members := members[k := Member(rate, budget, 0, 0, true, 0, 0)];
      alliances := alliances[k.alliance := a.(memberCount := a.memberCount + 1)];
      merchants := merchants[k.merchant := merchants[k.merchant].(joinedAlliance := Some(k.alliance))];
    }

    method HandleLeaveAlliance(merchantSigner: Pubkey, k: MemberKey) returns (out: Outcome<Error>)
      modifies this`members, this`alliances, this`merchants
      ensures Commits(LeaveAlliance(old(State()), merchantSigner, k), old(State()), State(), out)
    {
      if k.merchant !in merchants || merchants[k.merchant].authority != merchantSigner { return Fail(AccountConstraint); }
      if k.alliance !in alliances || k !in members { return Fail(AccountConstraint); }
      var a := alliances[k.alliance];
      alliances := alliances[k.alliance := a.(memberCount := SatSub(a.memberCount, 1))];
      merchants := merchants[k.merchant := merchants[k.merchant].(joinedAlliance := None)];
      members := members - {k};
      out := Pass;
    }

    method HandleSetSwapRate(merchantSigner: Pubkey, allianceSigner: Pubkey, k: MemberKey, newRate: u32)
      returns (out: Outcome<Error>)
      modifies this`members
      ensures Commits(SetMember(old(State()), Some(merchantSigner), allianceSigner, k, Rate(newRate)), old(State()), State(), out)
    {
      if k.alliance !in alliances || k !in members { return Fail(AccountConstraint); }
      if alliances[k.alliance].authority != allianceSigner { return Fail(Unauthorized); }
      if k.merchant !in merchants || merchants[k.merchant].authority != merchantSigner { return Fail(AccountConstraint); }
      if newRate == 0 { return Fail(InvalidSwapRate); }
      out := CheckRateBounds(alliances[k.alliance], newRate);
      if out.Fail? { return; }
      members := members[k := members[k].(rate := newRate)];
    }

    /** Both legs: price, slippage, the destination's budget rolled and charged, then burn, mint and the statistics. */
    method HandleSwapPoints(x: SwapArgs, now: i64) returns (out: Outcome<Error>)
      modifies this`mints, this`members, this`alliances
      ensures Commits(SwapPoints(old(State()), x, now), old(State()), State(), out)
    {
      hide Quote, UnixDay, BurnTokens, MintTokens;
      if x.alliance !in alliances || x.KeyA() !in members || x.KeyB() !in members { return Fail(AccountConstraint); }
      if x.a !in merchants || x.b !in merchants || x.a !in mints || x.b !in mints { return Fail(AccountConstraint); }
      if x.customer !in mints[x.a].balances { return Fail(AccountConstraint); }
      var al, ma, mb := alliances[x.alliance], members[x.KeyA()], members[x.KeyB()];
      if !ma.active || !mb.active { return Fail(MemberInactive); }
      if protocolPaused { return Fail(ProtocolPaused); }
      if al.paused { return Fail(AlliancePaused); }
      if merchants[x.a].paused || merchants[x.b].paused { return Fail(MerchantPaused); }
      if x.uiAmount == 0 { return Fail(InvalidAmount); }
      if x.rawIn.None? { return Fail(ConversionFailed); }
      if x.rawIn.value == 0 { return Fail(InvalidAmount); }
      if x.rawIn.value > x.maxRawIn { return Fail(SlippageExceeded); }
      var uiOut := Quote(x.uiAmount, ma.rate, mb.rate, al.feeBps);
      if uiOut.None? { return Fail(Overflow); }
      if uiOut.value == 0 { return Fail(InvalidAmount); }
      if x.rawOut.None? { return Fail(ConversionFailed); }
      if x.rawOut.value < x.minRawOut { return Fail(SlippageExceeded); }
      var today := UnixDay(now);
      if today.None? { return Fail(Overflow); }
      if mb.budgetDay != today.value {
        mb := mb.(budgetDay := today.value);
        mb := mb.(swappedInToday := 0);
      }
      if mb.swappedInToday + x.rawOut.value > U64_MAX { return Fail(Overflow); }
      mb := mb.(swappedInToday := mb.swappedInToday + x.rawOut.value);
      if mb.swappedInToday > mb.swapInBudgetRaw { return Fail(SwapBudgetExceeded); }
      var burned := BurnTokens(mints[x.a], x.customer, x.rawIn.value);
      if burned.None? { return Fail(TokenError); }
      var paid := mints[x.a := burned.value];
      var minted := MintTokens(paid[x.b], x.customer, x.rawOut.value);
      if minted.None? { return Fail(TokenError); }
      mints := paid[x.b := minted.value];
      mb := mb.(totalSwappedIn := SatAdd64(mb.totalSwappedIn, x.rawOut.value));
      ma := ma.(totalSwappedOut := SatAdd64(ma.totalSwappedOut, x.rawIn.value));
      members := members[x.KeyA() := ma];
      members := members[x.KeyB() := mb];
      al := al.(totalSwaps := SatAdd64(al.totalSwaps, 1));
      al := al.(totalUiVolume := Min(al.totalUiVolume + x.uiAmount, U128_MAX));
      alliances := alliances[x.alliance := al];
      out := Pass;
    }
  }
}
