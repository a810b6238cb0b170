/** Who is in which alliance, over every run. */
module KoinonMembers {
  import opened Base
  import opened Koinon
  import opened PointLedger
  import KoinonRates

  ghost function Members(s: Accounts, a: Pubkey): set<MemberKey> {
    set k | k in s.members && k.alliance == a
  }

  /** A member account exists exactly for the alliance the merchant says it joined. */
  ghost predicate MembershipAgrees(s: Accounts) {
    forall k: MemberKey :: k in s.members <==>
      k.merchant in s.merchants && s.merchants[k.merchant].joinedAlliance == Some(k.alliance)
  }

  ghost predicate CountsAgree(s: Accounts) {
    && (forall k :: k in s.members ==> k.alliance in s.alliances)
    && (forall a :: a in s.alliances ==> s.alliances[a].memberCount == |Members(s, a)|)
  }

  predicate TermsBounded(s: Accounts) {
    && (forall k :: k in s.members ==> s.members[k].rate > 0)
    && (forall a :: a in s.alliances ==> s.alliances[a].feeBps <= MAX_ALLIANCE_FEE_BPS)
  }

  ghost predicate Inv(s: Accounts) {
    MembershipAgrees(s) && CountsAgree(s) && TermsBounded(s)
  }

  /** Nothing about membership, counts or terms has moved. */
  predicate SameMembers(s: Accounts, s': Accounts) {
    && s'.members.Keys == s.members.Keys
    && (forall m :: m in s.merchants ==> m in s'.merchants && s'.merchants[m].joinedAlliance == s.merchants[m].joinedAlliance)
    && (forall m :: m in s'.merchants && m !in s.merchants ==> s'.merchants[m].joinedAlliance.None?)
    && (forall a :: a in s.alliances ==> a in s'.alliances && s'.alliances[a].memberCount == s.alliances[a].memberCount)
    && (forall a :: a in s'.alliances && a !in s.alliances ==> s'.alliances[a].memberCount == 0)
  }

  lemma SameMembersKeepsInv(s: Accounts, s': Accounts)
    requires SameMembers(s, s') && Inv(s) && TermsBounded(s')
    ensures Inv(s')
  {
    forall a ensures Members(s', a) == Members(s, a) {
    }
    forall a | a in s'.alliances && a !in s.alliances ensures Members(s, a) == {} {
    }
  }

  lemma SwapKeepsTerms(s: Accounts, x: SwapArgs, now: i64)
    requires TermsBounded(s) && SwapPoints(s, x, now).Ok?
    ensures SameMembers(s, SwapPoints(s, x, now).value) && TermsBounded(SwapPoints(s, x, now).value)
  {
    hide Quote, UnixDay, MoveTokens;
    var s' := SwapPoints(s, x, now).value;
    assert s'.members.Keys == s.members.Keys;
  }

  lemma AllianceSettingsKeepTerms(s: Accounts, signer: Pubkey, key: Pubkey, c: AllianceSetting)
    requires TermsBounded(s)
    ensures var s' := After(s, SetAlliance(s, signer, key, c)); SameMembers(s, s') && TermsBounded(s')
  {
  }

  lemma AllianceHandoverKeepsTerms(s: Accounts, signer: Pubkey, key: Pubkey)
    requires TermsBounded(s)
    ensures var s' := After(s, CreateAlliance(s, signer, key)); SameMembers(s, s') && TermsBounded(s')
    ensures var s' := After(s, AcceptAuthority(s, signer, key)); SameMembers(s, s') && TermsBounded(s')
  {
  }

  lemma MemberSettingsKeepTerms(s: Accounts, m: Option<Pubkey>, a: Pubkey, k: MemberKey, c: MemberSetting)
    requires TermsBounded(s)
    ensures var s' := After(s, SetMember(s, m, a, k, c)); SameMembers(s, s') && TermsBounded(s')
  {
    var s' := After(s, SetMember(s, m, a, k, c));
    assert s'.members.Keys == s.members.Keys;
  }

  lemma AroundKeepsTerms(s: Accounts, op: Op)
    requires (op.RegisterOp? || op.MerchantPauseOp? || op.ProtocolPauseOp? || op.LedgerOp?) && TermsBounded(s)
    ensures var s' := After(s, Around(s, op)); SameMembers(s, s') && TermsBounded(s')
  {
    hide Flowed;
  }

  lemma JoinKeepsMembership(s: Accounts, ms: Pubkey, als: Pubkey, k: MemberKey, rate: u32, budget: u64)
    requires MembershipAgrees(s) && JoinAlliance(s, ms, als, k, rate, budget).Ok?
    ensures MembershipAgrees(JoinAlliance(s, ms, als, k, rate, budget).value)
  {
    hide WithinBounds;
  }

  lemma OneMore(s: Accounts, s': Accounts, k: MemberKey, a: Pubkey)
    requires k !in s.members && s'.members.Keys == s.members.Keys + {k}
    ensures |Members(s', a)| == |Members(s, a)| + if a == k.alliance then 1 else 0
  {
    assert Members(s', a) == if a == k.alliance then Members(s, a) + {k} else Members(s, a);
  }

  lemma JoinKeepsCounts(s: Accounts, ms: Pubkey, als: Pubkey, k: MemberKey, rate: u32, budget: u64)
    requires CountsAgree(s) && JoinAlliance(s, ms, als, k, rate, budget).Ok?
    ensures CountsAgree(JoinAlliance(s, ms, als, k, rate, budget).value)
  {
    hide WithinBounds, Members;
    var s' := JoinAlliance(s, ms, als, k, rate, budget).value;
    assert s'.members.Keys == s.members.Keys + {k};
    forall a | a in s'.alliances ensures s'.alliances[a].memberCount == |Members(s', a)| {
      OneMore(s, s', k, a);
    }
  }

  lemma JoinKeepsTerms(s: Accounts, ms: Pubkey, als: Pubkey, k: MemberKey, rate: u32, budget: u64)
    requires TermsBounded(s) && JoinAlliance(s, ms, als, k, rate, budget).Ok?
    ensures TermsBounded(JoinAlliance(s, ms, als, k, rate, budget).value)
  {
    hide WithinBounds;
  }

  lemma LeaveKeepsMembership(s: Accounts, ms: Pubkey, k: MemberKey)
    requires MembershipAgrees(s) && TermsBounded(s) && LeaveAlliance(s, ms, k).Ok?
    ensures MembershipAgrees(LeaveAlliance(s, ms, k).value) && TermsBounded(LeaveAlliance(s, ms, k).value)
  {
  }

  lemma LeaveKeepsCounts(s: Accounts, ms: Pubkey, k: MemberKey)
    requires CountsAgree(s) && LeaveAlliance(s, ms, k).Ok?
    ensures CountsAgree(LeaveAlliance(s, ms, k).value)
  {
    hide Members;
    var s' := LeaveAlliance(s, ms, k).value;
    assert s.members.Keys == s'.members.Keys + {k};
    forall a | a in s'.alliances ensures s'.alliances[a].memberCount == |Members(s', a)| {
      OneMore(s', s, k, a);
    }
  }

  lemma StepKeepsInv(s: Accounts, e: Event)
    requires Inv(s)
    ensures Inv(After(s, Step(s, e)))
  {
    hide SwapPoints, JoinAlliance, LeaveAlliance, SetMember, SetAlliance, AcceptAuthority, CreateAlliance, Around,
      MembershipAgrees, CountsAgree, TermsBounded, SameMembers;
    var s' := After(s, Step(s, e));
    match e.op
    case JoinOp(m, a, k, rate, budget) =>
      if Step(s, e).Ok? {
        JoinKeepsMembership(s, m, a, k, rate, budget);
        JoinKeepsCounts(s, m, a, k, rate, budget);
        JoinKeepsTerms(s, m, a, k, rate, budget);
      }
    case LeaveOp(m, k) =>
      if Step(s, e).Ok? {
        LeaveKeepsMembership(s, m, k);
        LeaveKeepsCounts(s, m, k);
      }
    case SwapOp(x) =>
      if Step(s, e).Ok? {
        SwapKeepsTerms(s, x, e.now);
        SameMembersKeepsInv(s, s');
      }
    case CreateOp(c, key) =>
      AllianceHandoverKeepsTerms(s, c, key);
      SameMembersKeepsInv(s, s');
    case AcceptOp(signer, key) =>
      AllianceHandoverKeepsTerms(s, signer, key);
      SameMembersKeepsInv(s, s');
    case SetAllianceOp(signer, key, c) =>
      AllianceSettingsKeepTerms(s, signer, key, c);
      SameMembersKeepsInv(s, s');
    case SetMemberOp(m, a, k, c) =>
      MemberSettingsKeepTerms(s, m, a, k, c);
      SameMembersKeepsInv(s, s');
    case _ =>
      AroundKeepsTerms(s, e.op);
      SameMembersKeepsInv(s, s');
  }

  /** In every reachable state membership, counts and terms agree. */
  lemma {:induction false} ReachableInv(tr: seq<Accounts>, evs: seq<Event>, n: nat)
    requires IsTrace(tr, evs) && n <= |evs|
    ensures Inv(tr[n])
  {
    hide Step;
    if n > 0 {
      ReachableInv(tr, evs, n - 1);
      StepKeepsInv(tr[n - 1], evs[n - 1]);
    }
  }

  /** A merchant is a member of at most one alliance. */
  lemma AtMostOneAlliance(tr: seq<Accounts>, evs: seq<Event>, n: nat, a: Pubkey, b: Pubkey, m: Pubkey)
    requires IsTrace(tr, evs) && n <= |evs|
    requires MemberKey(a, m) in tr[n].members && MemberKey(b, m) in tr[n].members
    ensures a == b
  {
    hide Step;
    ReachableInv(tr, evs, n);
  }

  /** A reachable swap never fails on its rates: the cross rate never divides by zero and the spread never exceeds the
      whole, so a quote fails only when the value out does not fit u64. */
  lemma ReachableQuote(tr: seq<Accounts>, evs: seq<Event>, n: nat, x: SwapArgs)
    requires IsTrace(tr, evs) && n <= |evs|
    requires x.alliance in tr[n].alliances && x.KeyA() in tr[n].members && x.KeyB() in tr[n].members
    ensures var ra, rb, fee := tr[n].members[x.KeyA()].rate, tr[n].members[x.KeyB()].rate, tr[n].alliances[x.alliance].feeBps;
      && rb > 0 && fee <= 10_000
      && (Quote(x.uiAmount, ra, rb, fee).None? <==> MulDiv(MulDiv(x.uiAmount, ra, rb), 10_000 - fee, 10_000) > U64_MAX)
  {
    hide Step, Quote, MulDiv;
    ReachableInv(tr, evs, n);
    KoinonRates.QuoteFailsOnlyAtTheEnd(
      x.uiAmount, tr[n].members[x.KeyA()].rate, tr[n].members[x.KeyB()].rate, tr[n].alliances[x.alliance].feeBps);
  }
}
