/** A concrete run of an alliance that shows where the inbound budget stops. */
module KoinonRuns {
  import opened Base
  import opened Koinon
  import opened KoinonSwaps
  import opened PointLedger

  const ALLIANCE: Pubkey := 1
  const PATRON: Pubkey := 2
  const BAKER: Pubkey := 3
  const BAKER_KEY: Pubkey := 4
  const GROCER: Pubkey := 5
  const GROCER_KEY: Pubkey := 6
  const CAROL: Pubkey := 7
  const BUDGET: u64 := 10

  function Member(m: Pubkey): MemberKey {
    MemberKey(ALLIANCE, m)
  }

  function At(op: Op): Event {
    Event(op, 1)
  }

  function Joins(m: Pubkey, signer: Pubkey): Event {
    At(JoinOp(signer, PATRON, Member(m), 1, BUDGET))
  }

  function Leaves(m: Pubkey, signer: Pubkey): Event {
    At(LeaveOp(signer, Member(m)))
  }

  /** Ten of Carol's points, from the baker's mint to the grocer's. */
  const SWAP: Event := At(SwapOp(SwapArgs(CAROL, ALLIANCE, BAKER, GROCER, BUDGET, BUDGET, BUDGET, Some(BUDGET), Some(BUDGET))))

  function Next(s: Accounts, e: Event): Accounts {
    After(s, Step(s, e))
  }

  /** Both merchants and the alliance are there, the listed members have joined, nothing is paused and there is no spread. */
  ghost predicate Stage(s: Accounts, baker: bool, grocer: bool) {
    && !s.protocolPaused
    && s.merchants.Keys == {BAKER, GROCER} == s.mints.Keys && s.alliances.Keys == {ALLIANCE}
    && s.merchants[BAKER] == Merchant(BAKER_KEY, false, if baker then Some(ALLIANCE) else None)
    && s.merchants[GROCER] == Merchant(GROCER_KEY, false, if grocer then Some(ALLIANCE) else None)
    && var a := s.alliances[ALLIANCE];
    && a.authority == PATRON && !a.paused && a.feeBps == 0 && a.minRateBps == 0 && a.maxRateBps == 0
    && a.memberCount == (if baker then 1 else 0) + (if grocer then 1 else 0)
    && (Member(BAKER) in s.members <==> baker) && (Member(GROCER) in s.members <==> grocer)
    && (baker ==> Plain(s.members[Member(BAKER)])) && (grocer ==> Plain(s.members[Member(GROCER)]))
  }

  predicate Plain(m: Koinon.Member) {
    m.rate == 1 && m.swapInBudgetRaw == BUDGET && m.active && m.budgetDay == 0
  }

  /** Carol holds `left` of the baker's points and `got` of the grocer's. */
  predicate Purse(s: Accounts, left: u64, got: u64) {
    && BAKER in s.mints && s.mints[BAKER].supply == left && CAROL in s.mints[BAKER].balances
    && s.mints[BAKER].balances[CAROL] == left
    && GROCER in s.mints && s.mints[GROCER].supply == got && BalanceIn(s.mints[GROCER].balances, CAROL) == got
  }

  // ---------------------------------------------------------------------------- steps

  lemma Opens(s: Accounts)
    requires Initial(s) && !s.protocolPaused
    ensures var s1 := Next(s, At(RegisterOp(BAKER, BAKER_KEY))); var s2 := Next(s1, At(RegisterOp(GROCER, GROCER_KEY)));
      Stage(Next(s2, At(CreateOp(PATRON, ALLIANCE))), false, false)
      && Next(s2, At(CreateOp(PATRON, ALLIANCE))).mints == map[BAKER := Ledger(0, map[]), GROCER := Ledger(0, map[])]
  {
    hide SwapPoints, JoinAlliance, LeaveAlliance, SetMember, SetAlliance, AcceptAuthority;
  }

  lemma Issues(s: Accounts)
    requires Stage(s, false, false) && s.mints == map[BAKER := Ledger(0, map[]), GROCER := Ledger(0, map[])]
    ensures var s' := Next(s, At(LedgerOp(BAKER, Earned(CAROL, 2 * BUDGET))));
      Stage(s', false, false) && Purse(s', 2 * BUDGET, 0)
  {
    hide SwapPoints, JoinAlliance, LeaveAlliance, SetMember, SetAlliance, AcceptAuthority;
  }

  lemma BakerJoins(s: Accounts, left: u64, got: u64)
    requires Stage(s, false, false) && Purse(s, left, got)
    ensures var s' := Next(s, Joins(BAKER, BAKER_KEY)); Stage(s', true, false) && Purse(s', left, got)
  {
    assert Step(s, Joins(BAKER, BAKER_KEY)) == JoinAlliance(s, BAKER_KEY, PATRON, Member(BAKER), 1, BUDGET);
  }

  lemma GrocerJoins(s: Accounts, left: u64, got: u64)
    requires Stage(s, true, false) && Purse(s, left, got)
    ensures var s' := Next(s, Joins(GROCER, GROCER_KEY));
      Stage(s', true, true) && Purse(s', left, got) && s'.members[Member(GROCER)].swappedInToday == 0
  {
    assert Step(s, Joins(GROCER, GROCER_KEY)) == JoinAlliance(s, GROCER_KEY, PATRON, Member(GROCER), 1, BUDGET);
  }

  lemma GrocerLeaves(s: Accounts, left: u64, got: u64)
    requires Stage(s, true, true) && Purse(s, left, got)
    ensures var s' := Next(s, Leaves(GROCER, GROCER_KEY)); Stage(s', true, false) && Purse(s', left, got)
  {
    assert Step(s, Leaves(GROCER, GROCER_KEY)) == LeaveAlliance(s, GROCER_KEY, Member(GROCER));
  }

  lemma TenForTen()
    ensures Quote(BUDGET, 1, 1, 0) == Some(BUDGET)
  {
  }

  /** Ten points come in while the grocer's counter stands at 0. */
  lemma Swaps(s: Accounts, left: u64, got: u64)
    requires Stage(s, true, true) && Purse(s, left, got) && BUDGET <= left && got <= BUDGET
    requires s.members[Member(GROCER)].swappedInToday == 0
    ensures SwapsInto(s, SWAP, Member(GROCER))
    ensures var s' := Next(s, SWAP); Stage(s', true, true) && Purse(s', left - BUDGET, got + BUDGET)
  {
    assert Step(s, SWAP) == SwapPoints(s, SWAP.op.swap, 1) by {
      hide SwapPoints;
    }
    TenForTen();
    hide Step, Quote;
    assert UnixDay(1) == Some(0);
    assert MoveTokens(s.mints, SWAP.op.swap).Some?;
  }

  // ------------------------------------------------------------------------------ run

  /** Both merchants allied, Carol with twenty of the baker's points. */
  lemma Opening() returns (tr: seq<Accounts>, evs: seq<Event>)
    ensures IsTrace(tr, evs) && |evs| == 6 && (forall i :: 0 <= i < 6 ==> !evs[i].op.SwapOp? && !evs[i].op.SetMemberOp? && evs[i].now == 1)
    ensures Stage(tr[6], true, true) && Purse(tr[6], 2 * BUDGET, 0)
    ensures tr[6].members[Member(GROCER)].swappedInToday == 0
  {
    hide Step, Stage, Purse;
    var s0 := Accounts(false, map[], map[], map[], map[]);
    var baker, grocer, create, issue := At(RegisterOp(BAKER, BAKER_KEY)), At(RegisterOp(GROCER, GROCER_KEY)),
      At(CreateOp(PATRON, ALLIANCE)), At(LedgerOp(BAKER, Earned(CAROL, 2 * BUDGET)));
    tr, evs := [s0], [];
    tr, evs := Append(tr, evs, baker);
    tr, evs := Append(tr, evs, grocer);
    tr, evs := Append(tr, evs, create);
    Opens(s0);
    tr, evs := Append(tr, evs, issue);
    Issues(tr[3]);
    tr, evs := Append(tr, evs, Joins(BAKER, BAKER_KEY));
    BakerJoins(tr[4], 2 * BUDGET, 0);
    tr, evs := Append(tr, evs, Joins(GROCER, GROCER_KEY));
    GrocerJoins(tr[5], 2 * BUDGET, 0);
  }

  lemma Append(tr: seq<Accounts>, evs: seq<Event>, e: Event) returns (tr': seq<Accounts>, evs': seq<Event>)
    requires IsTrace(tr, evs) && e.now == 1 && (forall i :: 0 <= i < |evs| ==> evs[i].now == 1)
    ensures IsTrace(tr', evs') && evs' == evs + [e] && tr' == tr + [Next(tr[|evs|], e)]
  {
    hide Step;
    tr', evs' := tr + [Next(tr[|evs|], e)], evs + [e];
    RunExtends(tr, evs, e);
  }

  lemma {:induction false} QuietStretch(tr: seq<Accounts>, evs: seq<Event>, i: nat, n: nat, k: MemberKey, d: u32)
    requires i <= n <= |evs| <= |tr| && forall m :: i <= m < n ==> !evs[m].op.SwapOp?
    ensures GrossInflow(tr, evs, n, k, d) == GrossInflow(tr, evs, i, k, d)
    decreases n
  {
    hide Step;
    if i < n {
      QuietStretch(tr, evs, i, n - 1, k, d);
    }
  }

  lemma StagedBudget(s: Accounts)
    requires Stage(s, true, true)
    ensures BudgetAt(s)
  {
  }

  /** After a first swap up to the budget the grocer leaves and rejoins, and the same swap is due again. */
  lemma SwappedAndRejoined() returns (tr: seq<Accounts>, evs: seq<Event>)
    ensures IsTrace(tr, evs) && |evs| == 9 && evs[6] == SWAP && (forall i :: 0 <= i < 9 ==> evs[i].now == 1)
    ensures forall i :: 0 <= i < 9 && i != 6 ==> !evs[i].op.SwapOp? && !evs[i].op.SetMemberOp?
    ensures SwapsInto(tr[6], evs[6], Member(GROCER)) && BudgetAt(tr[6])
    ensures Stage(tr[9], true, true) && Purse(tr[9], BUDGET, BUDGET) && BudgetAt(tr[9])
    ensures tr[9].members[Member(GROCER)].swappedInToday == 0
  {
    var t6, e6 := Opening();
    var t7, e7 := Append(t6, e6, SWAP);
    Swaps(t6[6], 2 * BUDGET, 0);
    hide *;
    var t8, e8 := Append(t7, e7, Leaves(GROCER, GROCER_KEY));
    GrocerLeaves(t7[7], BUDGET, BUDGET);
    tr, evs := Append(t8, e8, Joins(GROCER, GROCER_KEY));
    GrocerJoins(t8[8], BUDGET, BUDGET);
    StagedBudget(tr[9]);
  }

  /** The grocer's inbound budget is `BUDGET`. */
  predicate BudgetAt(s: Accounts) {
    Member(GROCER) in s.members && s.members[Member(GROCER)].swapInBudgetRaw == BUDGET
  }

  /** Twice the inbound budget comes into one member on one day: it leaves and rejoins in between, which starts a fresh
      member account whose counter stands at 0. */
  lemma RejoinDoublesBudget() returns (tr: seq<Accounts>, evs: seq<Event>)
    ensures IsTrace(tr, evs) && |evs| == 10 && BudgetAt(tr[6]) && BudgetAt(tr[9])
    ensures forall i :: 0 <= i < 10 ==> !evs[i].op.SetMemberOp?
    ensures GrossInflow(tr, evs, 10, Member(GROCER), 0) == 2 * BUDGET
  {
    hide Step, SwapsInto, Stage;
    var t9, e9 := SwappedAndRejoined();
    tr, evs := Append(t9, e9, SWAP);
    Swaps(tr[9], BUDGET, BUDGET);
    assert UnixDay(1) == Some(0);
    QuietStretch(tr, evs, 0, 6, Member(GROCER), 0);
    QuietStretch(tr, evs, 7, 9, Member(GROCER), 0);
  }
}
