/** Swaps over whole runs: value never rises, the inbound budget holds, both mints stay balanced. */
module KoinonSwaps {
  import opened Base
  import opened Koinon
  import opened MapSum
  import opened PointLedger
  import KoinonRates
  import Vesta

  predicate SwapsAt(s: Accounts, e: Event) {
    e.op.SwapOp? && Step(s, e).Ok?
  }

  /** What the customer receives in UI value. */
  function QuoteOf(s: Accounts, x: SwapArgs): Option<u64>
    requires x.alliance in s.alliances && x.KeyA() in s.members && x.KeyB() in s.members
  {
    Quote(x.uiAmount, s.members[x.KeyA()].rate, s.members[x.KeyB()].rate, s.alliances[x.alliance].feeBps)
  }

  // ------------------------------------------------------------------ value potential

  function RatesOf(s: Accounts, a: Pubkey): map<Pubkey, u32> {
    map k | k in s.members && k.alliance == a :: k.merchant := s.members[k].rate
  }

  function UiHeld(h: map<Pubkey, int>, m: Pubkey): int {
    if m in h then h[m] else 0
  }

  function Valued(h: map<Pubkey, int>, rates: map<Pubkey, u32>): map<Pubkey, int> {
    map m | m in rates :: UiHeld(h, m) * rates[m]
  }

  /** UI holdings at the members' rates, added up. */
  ghost function Worth(h: map<Pubkey, int>, rates: map<Pubkey, u32>): int {
    Sum(Valued(h, rates))
  }

  /** One customer's UI holdings in alliance `a` after the swaps among events `i..n`. */
  function HoldingsAfter(tr: seq<Accounts>, evs: seq<Event>, i: nat, n: nat, a: Pubkey, c: Pubkey, h: map<Pubkey, int>)
    : map<Pubkey, int>
    requires i <= n <= |evs| <= |tr|
    decreases n
  {
    if n == i then h
    else SwapHoldings(tr[n - 1], evs[n - 1], a, c, HoldingsAfter(tr, evs, i, n - 1, a, c, h))
  }

  predicate SwapsFor(s: Accounts, e: Event, a: Pubkey, c: Pubkey) {
    SwapsAt(s, e) && e.op.swap.alliance == a && e.op.swap.customer == c
    && a in s.alliances && e.op.swap.KeyA() in s.members && e.op.swap.KeyB() in s.members && QuoteOf(s, e.op.swap).Some?
  }

  function SwapHoldings(s: Accounts, e: Event, a: Pubkey, c: Pubkey, h: map<Pubkey, int>): map<Pubkey, int> {
    if !SwapsFor(s, e, a, c) then h
    else
      var x := e.op.swap;
      var paid := h[x.a := UiHeld(h, x.a) - x.uiAmount];
      paid[x.b := UiHeld(paid, x.b) + QuoteOf(s, x).value]
  }

  lemma WorthUpdate(h: map<Pubkey, int>, rates: map<Pubkey, u32>, m: Pubkey, v: int)
    requires m in rates
    ensures Worth(h[m := v], rates) == Worth(h, rates) + (v - UiHeld(h, m)) * rates[m]
  {
    assert Valued(h[m := v], rates) == Valued(h, rates)[m := v * rates[m]];
    SumUpdate(Valued(h, rates), m, v * rates[m]);
    Distributes(v, UiHeld(h, m), rates[m]);
  }

  lemma Distributes(a: int, b: int, r: int)
    ensures (a - b) * r == a * r - b * r
  {
  }

  /** One swap, at any spread, never raises the holder's worth. */
  lemma SwapLosesWorth(s: Accounts, e: Event, a: Pubkey, c: Pubkey, h: map<Pubkey, int>)
    ensures Worth(SwapHoldings(s, e, a, c, h), RatesOf(s, a)) <= Worth(h, RatesOf(s, a))
  {
    hide Step, Quote, Worth, RatesOf;
    if SwapsFor(s, e, a, c) {
      var x := e.op.swap;
      var paidIn: int := x.uiAmount;
      var out, ra, rb := QuoteOf(s, x).value, s.members[x.KeyA()].rate, s.members[x.KeyB()].rate;
      var paid := h[x.a := UiHeld(h, x.a) - x.uiAmount];
      RateLookup(s, x.KeyA());
      RateLookup(s, x.KeyB());
      WorthMoves(h, RatesOf(s, a), x.a, -paidIn, ra);
      WorthMoves(paid, RatesOf(s, a), x.b, out, rb);
      KoinonRates.SwapPrice(x.uiAmount, ra, rb, s.alliances[a].feeBps);
      NoGain(out * rb, x.uiAmount * ra, s.alliances[a].feeBps);
    }
  }

  lemma WorthMoves(h: map<Pubkey, int>, rates: map<Pubkey, u32>, m: Pubkey, change: int, rate: u32)
    requires m in rates && rates[m] == rate
    ensures Worth(h[m := UiHeld(h, m) + change], rates) == Worth(h, rates) + change * rate
  {
    hide Worth;
    WorthUpdate(h, rates, m, UiHeld(h, m) + change);
  }

  lemma RateLookup(s: Accounts, k: MemberKey)
    requires k in s.members
    ensures k.merchant in RatesOf(s, k.alliance) && RatesOf(s, k.alliance)[k.merchant] == s.members[k].rate
  {
  }

  lemma NoGain(worthOut: nat, worthIn: nat, fee: u16)
    requires fee <= 10_000 && worthOut * 10_000 <= worthIn * (10_000 - fee)
    ensures worthOut <= worthIn
  {
    KoinonRates.Scaled(10_000 - fee, 10_000, worthIn);
  }

  /** While the members' rates stand, no sequence of swaps, at whatever spreads, raises a customer's total UI holdings
      valued at those rates. */
  lemma {:induction false} WorthNeverRises(tr: seq<Accounts>, evs: seq<Event>, i: nat, n: nat, a: Pubkey, c: Pubkey,
                                            h: map<Pubkey, int>)
    requires IsTrace(tr, evs) && i <= n <= |evs|
    requires forall m :: i <= m < n ==> RatesOf(tr[m], a) == RatesOf(tr[i], a)
    ensures Worth(HoldingsAfter(tr, evs, i, n, a, c, h), RatesOf(tr[i], a)) <= Worth(h, RatesOf(tr[i], a))
    decreases n
  {
    hide Step, RatesOf, Worth, SwapHoldings;
    if i < n {
      WorthNeverRises(tr, evs, i, n - 1, a, c, h);
      SwapLosesWorth(tr[n - 1], evs[n - 1], a, c, HoldingsAfter(tr, evs, i, n - 1, a, c, h));
    }
  }

  // ------------------------------------------------------------------- inbound budget

  predicate JoinsAt(s: Accounts, e: Event, k: MemberKey) {
    e.op.JoinOp? && e.op.k == k && Step(s, e).Ok?
  }

  predicate SwapsInto(s: Accounts, e: Event, k: MemberKey) {
    SwapsAt(s, e) && e.op.swap.KeyB() == k
  }

  function RawOut(e: Event): u64
    requires e.op.SwapOp?
  {
    match e.op.swap.rawOut
    case Some(r) => r
    case None => 0
  }

  /** Raw points swapped into member `k` on day `d`, since it last joined. */
  function Inflow(tr: seq<Accounts>, evs: seq<Event>, n: nat, k: MemberKey, d: u32): nat
    requires n <= |evs| <= |tr|
  {
    if n == 0 || JoinsAt(tr[n - 1], evs[n - 1], k) then 0
    else Inflow(tr, evs, n - 1, k, d)
         + if SwapsInto(tr[n - 1], evs[n - 1], k) && UnixDay(evs[n - 1].now) == Some(d) then RawOut(evs[n - 1]) else 0
  }

  /** A swap charges the destination's day and leaves every other member's alone. */
  lemma SwapCharges(s: Accounts, x: SwapArgs, now: i64, k: MemberKey)
    requires SwapPoints(s, x, now).Ok? && k in s.members
    ensures var s' := SwapPoints(s, x, now).value;
      k in s'.members
      && (k != x.KeyB() ==>
            s'.members[k].budgetDay == s.members[k].budgetDay && s'.members[k].swappedInToday == s.members[k].swappedInToday)
      && (k == x.KeyB() ==>
            && x.rawOut.Some? && UnixDay(now) == Some(s'.members[k].budgetDay)
            && s'.members[k].swappedInToday ==
                 (if s.members[k].budgetDay == s'.members[k].budgetDay then s.members[k].swappedInToday else 0) + x.rawOut.value
            && s'.members[k].swappedInToday <= s.members[k].swapInBudgetRaw)
  {
    hide Quote, UnixDay, MoveTokens;
  }

  lemma StepMember(s: Accounts, e: Event, k: MemberKey)
    ensures var s' := After(s, Step(s, e));
      && (JoinsAt(s, e, k) ==> k in s'.members && s'.members[k].budgetDay == 0 && s'.members[k].swappedInToday == 0)
      && (!JoinsAt(s, e, k) && k in s'.members ==> k in s.members)
      && (SwapsInto(s, e, k) && k in s.members ==>
            && k in s'.members && UnixDay(e.now) == Some(s'.members[k].budgetDay)
            && s'.members[k].swappedInToday ==
                 (if s.members[k].budgetDay == s'.members[k].budgetDay then s.members[k].swappedInToday else 0) + RawOut(e)
            && s'.members[k].swappedInToday <= s.members[k].swapInBudgetRaw)
      && (!JoinsAt(s, e, k) && !SwapsInto(s, e, k) && k in s'.members ==>
            s'.members[k].budgetDay == s.members[k].budgetDay && s'.members[k].swappedInToday == s.members[k].swappedInToday)
  {
    hide SwapPoints, UnixDay;
    if e.op.SwapOp? && Step(s, e).Ok? {
      SwapMembers(s, e.op.swap, e.now);
      if k in s.members {
        SwapCharges(s, e.op.swap, e.now, k);
      }
    }
  }

  lemma SwapMembers(s: Accounts, x: SwapArgs, now: i64)
    requires SwapPoints(s, x, now).Ok?
    ensures SwapPoints(s, x, now).value.members.Keys == s.members.Keys && x.KeyB() in s.members
  {
    hide Quote, UnixDay, MoveTokens;
  }

  /** A member's counter is the raw value swapped in on its budget day since it joined, and no later day has seen any. */
  lemma {:induction false} InflowIsHistory(tr: seq<Accounts>, evs: seq<Event>, n: nat, k: MemberKey)
    requires IsTrace(tr, evs) && n <= |evs| && k in tr[n].members
    ensures var m := tr[n].members[k];
      && m.swappedInToday == Inflow(tr, evs, n, k, m.budgetDay)
      && (forall d: u32 :: d > m.budgetDay ==> Inflow(tr, evs, n, k, d) == 0)
      && (m.budgetDay > 0 ==> n > 0 && (UnixDay(evs[n - 1].now).Some? ==> m.budgetDay <= UnixDay(evs[n - 1].now).value))
  {
    hide Step, JoinsAt, SwapsInto, UnixDay;
    if n > 0 {
      StepMember(tr[n - 1], evs[n - 1], k);
      if !JoinsAt(tr[n - 1], evs[n - 1], k) {
        InflowIsHistory(tr, evs, n - 1, k);
        if n > 1 && UnixDay(evs[n - 1].now).Some? {
          DaysAdvance(evs[n - 2].now, evs[n - 1].now);
        }
      }
    }
  }

  /** Each swap that goes through leaves the destination's inflow of the day within the budget in force. */
  lemma SwapWithinBudget(tr: seq<Accounts>, evs: seq<Event>, n: nat, k: MemberKey)
    requires IsTrace(tr, evs) && n < |evs| && SwapsInto(tr[n], evs[n], k)
    ensures k in tr[n].members && UnixDay(evs[n].now).Some?
    ensures Inflow(tr, evs, n + 1, k, UnixDay(evs[n].now).value) <= tr[n].members[k].swapInBudgetRaw
  {
    hide Step, UnixDay;
    SwapKnowsMember(tr[n], evs[n], k);
    StepMember(tr[n], evs[n], k);
    InflowIsHistory(tr, evs, n + 1, k);
  }

  lemma SwapKnowsMember(s: Accounts, e: Event, k: MemberKey)
    requires SwapsInto(s, e, k)
    ensures k in s.members
  {
    hide SwapPoints, JoinAlliance, LeaveAlliance, SetMember, SetAlliance, AcceptAuthority, CreateAlliance, Around;
    SwapMembers(s, e.op.swap, e.now);
  }

  // ------------------------------------------------------------- leaving and rejoining

  /** Raw points swapped into member `k` on day `d`, whoever left or joined in between. */
  function GrossInflow(tr: seq<Accounts>, evs: seq<Event>, n: nat, k: MemberKey, d: u32): nat
    requires n <= |evs| <= |tr|
  {
    if n == 0 then 0
    else GrossInflow(tr, evs, n - 1, k, d)
         + if SwapsInto(tr[n - 1], evs[n - 1], k) && UnixDay(evs[n - 1].now) == Some(d) then RawOut(evs[n - 1]) else 0
  }

  /** Event `m` is no join as `k`, or nothing had been swapped in on day `d` by then. */
  predicate NoRejoinAt(tr: seq<Accounts>, evs: seq<Event>, m: nat, k: MemberKey, d: u32)
    requires m < |evs| <= |tr|
  {
    JoinsAt(tr[m], evs[m], k) ==> GrossInflow(tr, evs, m, k, d) == 0
  }

  /** No one joined as `k` once points had been swapped in on day `d`. */
  ghost predicate NoRejoin(tr: seq<Accounts>, evs: seq<Event>, n: nat, k: MemberKey, d: u32)
    requires n <= |evs| <= |tr|
  {
    forall m :: 0 <= m < n ==> NoRejoinAt(tr, evs, m, k, d)
  }

  lemma NoRejoinSplit(tr: seq<Accounts>, evs: seq<Event>, m: nat, k: MemberKey, d: u32)
    requires m < |evs| <= |tr|
    ensures NoRejoin(tr, evs, m + 1, k, d) <==> NoRejoin(tr, evs, m, k, d) && NoRejoinAt(tr, evs, m, k, d)
  {
    hide NoRejoinAt;
  }

  lemma {:induction false} InflowBelowGross(tr: seq<Accounts>, evs: seq<Event>, n: nat, k: MemberKey, d: u32)
    requires n <= |evs| <= |tr|
    ensures Inflow(tr, evs, n, k, d) <= GrossInflow(tr, evs, n, k, d)
    ensures GrossInflow(tr, evs, n, k, d) == 0 ==> NoRejoin(tr, evs, n, k, d)
  {
    hide Step, JoinsAt, SwapsInto, UnixDay, NoRejoin;
    if n == 0 {
      NothingRejoined(tr, evs, k, d);
    } else {
      InflowBelowGross(tr, evs, n - 1, k, d);
      NoRejoinSplit(tr, evs, n - 1, k, d);
    }
  }

  lemma NothingRejoined(tr: seq<Accounts>, evs: seq<Event>, k: MemberKey, d: u32)
    requires |evs| <= |tr|
    ensures NoRejoin(tr, evs, 0, k, d)
  {
  }

  /** What counts against the budget is all that came in that day if and only if no one rejoined after it began. */
  lemma {:induction false} InflowIsGrossIffNoRejoin(tr: seq<Accounts>, evs: seq<Event>, n: nat, k: MemberKey, d: u32)
    requires n <= |evs| <= |tr|
    ensures Inflow(tr, evs, n, k, d) == GrossInflow(tr, evs, n, k, d) <==> NoRejoin(tr, evs, n, k, d)
  {
    hide Step, UnixDay, NoRejoin;
    if n == 0 {
      NothingRejoined(tr, evs, k, d);
    } else {
      InflowIsGrossIffNoRejoin(tr, evs, n - 1, k, d);
      InflowBelowGross(tr, evs, n - 1, k, d);
      NoRejoinSplit(tr, evs, n - 1, k, d);
    }
  }

  /** So without a rejoin that day, each swap leaves everything swapped in that day within the budget in force. */
  lemma DayWithinBudget(tr: seq<Accounts>, evs: seq<Event>, n: nat, k: MemberKey)
    requires IsTrace(tr, evs) && n < |evs| && SwapsInto(tr[n], evs[n], k)
    ensures k in tr[n].members && UnixDay(evs[n].now).Some?
    ensures var d := UnixDay(evs[n].now).value;
      NoRejoin(tr, evs, n + 1, k, d) ==> GrossInflow(tr, evs, n + 1, k, d) <= tr[n].members[k].swapInBudgetRaw
  {
    hide Step, UnixDay, NoRejoin;
    SwapWithinBudget(tr, evs, n, k);
    InflowIsGrossIffNoRejoin(tr, evs, n + 1, k, UnixDay(evs[n].now).value);
  }

  // --------------------------------------------------------------------------- mints

  ghost predicate MintsBalanced(s: Accounts) {
    forall m :: m in s.mints ==> Balanced(s.mints[m])
  }

  lemma FlowBalanced(l: Ledger, f: Flow)
    requires Balanced(l) && Flowed(l, f).Some?
    ensures Balanced(Flowed(l, f).value)
  {
    hide MintTokens, BurnTokens, Transfer, Held;
    match f
    case Earned(owner, amount) => MintAdds(l, owner, amount);
    case Redeemed(owner, amount) => BurnTakes(l, owner, amount);
    case Sent(source, target, amount) => TransferKeeps(l, source, target, amount);
  }

  /** A swap writes what its two legs leave, both of which went through. */
  lemma SwapMovesSupplies(s: Accounts, x: SwapArgs, now: i64)
    requires SwapPoints(s, x, now).Ok?
    ensures x.a in s.mints && x.b in s.mints && x.rawIn.Some? && x.rawOut.Some?
    ensures MoveTokens(s.mints, x) == Some(SwapPoints(s, x, now).value.mints)
  {
    hide Quote, UnixDay, ChargeBudget, MoveTokens;
  }

  lemma SwapBalanced(s: Accounts, x: SwapArgs, now: i64)
    requires MintsBalanced(s) && SwapPoints(s, x, now).Ok?
    ensures MintsBalanced(SwapPoints(s, x, now).value)
  {
    hide SwapPoints, BurnTokens, MintTokens, Held;
    SwapMovesSupplies(s, x, now);
    var burned := BurnTokens(s.mints[x.a], x.customer, x.rawIn.value).value;
    BurnTakes(s.mints[x.a], x.customer, x.rawIn.value);
    MintAdds(s.mints[x.a := burned][x.b], x.customer, x.rawOut.value);
  }

  lemma AroundBalanced(s: Accounts, op: Op)
    requires MintsBalanced(s) && (op.RegisterOp? || op.MerchantPauseOp? || op.ProtocolPauseOp? || op.LedgerOp?)
    ensures MintsBalanced(After(s, Around(s, op)))
  {
    hide Flowed, Held;
    EmptyIsBalanced();
    if op.LedgerOp? && Around(s, op).Ok? {
      FlowBalanced(s.mints[op.merchant], op.flow);
    }
  }

  lemma OffMints(s: Accounts, e: Event)
    requires !e.op.SwapOp? && !e.op.RegisterOp? && !e.op.MerchantPauseOp? && !e.op.ProtocolPauseOp? && !e.op.LedgerOp?
    ensures After(s, Step(s, e)).mints == s.mints
  {
    hide SwapPoints, Around, WithinBounds;
  }

  /** In every reachable state each mint's balances add up to its supply. */
  lemma {:induction false} ReachableMints(tr: seq<Accounts>, evs: seq<Event>, n: nat)
    requires IsTrace(tr, evs) && n <= |evs|
    ensures MintsBalanced(tr[n])
  {
    hide Step, Balanced;
    if n > 0 {
      var m := n - 1;
      ReachableMints(tr, evs, m);
      StepMints(tr[m], evs[m]);
    }
  }

  lemma StepMints(s: Accounts, e: Event)
    requires MintsBalanced(s)
    ensures MintsBalanced(After(s, Step(s, e)))
  {
    hide SwapPoints, JoinAlliance, LeaveAlliance, SetMember, SetAlliance, AcceptAuthority, CreateAlliance, Around, MintsBalanced;
    if e.op.SwapOp? {
      if Step(s, e).Ok? {
        SwapBalanced(s, e.op.swap, e.now);
      }
    } else if e.op.RegisterOp? || e.op.MerchantPauseOp? || e.op.ProtocolPauseOp? || e.op.LedgerOp? {
      AroundBalanced(s, e.op);
    } else {
      OffMints(s, e);
      SameMintsBalanced(s, After(s, Step(s, e)));
    }
  }

  lemma SameMintsBalanced(s: Accounts, s': Accounts)
    requires MintsBalanced(s) && s'.mints == s.mints
    ensures MintsBalanced(s')
  {
  }

  /** A reachable swap takes exactly `rawIn` from one supply and adds exactly `rawOut` to the other, both still the sum of
      their balances, and touches no third mint. */
  lemma SwapKeepsLedgers(tr: seq<Accounts>, evs: seq<Event>, n: nat)
    requires IsTrace(tr, evs) && n < |evs| && SwapsAt(tr[n], evs[n])
    ensures var s, s', x := tr[n], tr[n + 1], evs[n].op.swap;
      && x.a in s.mints && x.b in s.mints && x.a in s'.mints && x.b in s'.mints && x.rawIn.Some? && x.rawOut.Some?
      && Balanced(s'.mints[x.a]) && Balanced(s'.mints[x.b])
      && s'.mints[x.a].supply == s.mints[x.a].supply - x.rawIn.value + (if x.a == x.b then x.rawOut.value else 0)
      && s'.mints[x.b].supply == s.mints[x.b].supply + x.rawOut.value - (if x.a == x.b then x.rawIn.value else 0)
      && forall m :: m in s.mints && m != x.a && m != x.b ==> m in s'.mints && s'.mints[m] == s.mints[m]
  {
    hide SwapPoints, BurnTokens, MintTokens, Balanced, Around, JoinAlliance, LeaveAlliance, SetMember, SetAlliance, AcceptAuthority,
      CreateAlliance;
    var s, x := tr[n], evs[n].op.swap;
    SwapMovesSupplies(s, x, evs[n].now);
    var burned := BurnTokens(s.mints[x.a], x.customer, x.rawIn.value).value;
    BurnTakes(s.mints[x.a], x.customer, x.rawIn.value);
    MintAdds(s.mints[x.a := burned][x.b], x.customer, x.rawOut.value);
    ReachableMints(tr, evs, n + 1);
  }

  /** The two legs are one step of each merchant: a swap goes through only where merchant A's own run could take a swap
      out and merchant B's a swap in, and it leaves their mints as those steps do. One merchant on both sides takes the
      two steps in turn. */
  lemma LegsAreShopFlows(s: Accounts, x: SwapArgs, now: i64, sa: Vesta.Shop, sb: Vesta.Shop, slot: u64)
    requires SwapPoints(s, x, now).Ok? && x.a in s.mints && x.b in s.mints
    requires Vesta.LedgerOf(sa) == s.mints[x.a] && Vesta.LedgerOf(sb) == s.mints[x.b]
    ensures x.rawIn.Some? && x.rawOut.Some?
    ensures var s' := SwapPoints(s, x, now).value;
      var a := Vesta.Step(sa, Vesta.Event(Vesta.SwapOutOp(x.customer, x.rawIn.value), now, slot));
      && a.Ok? && x.a in s'.mints && (x.a != x.b ==> Vesta.LedgerOf(a.value) == s'.mints[x.a])
      && var b := Vesta.Step(if x.a == x.b then a.value else sb, Vesta.Event(Vesta.SwapInOp(x.customer, x.rawOut.value), now, slot));
      b.Ok? && x.b in s'.mints && Vesta.LedgerOf(b.value) == s'.mints[x.b]
  {
    hide SwapPoints, BurnTokens, MintTokens;
    SwapMovesSupplies(s, x, now);
    assert Vesta.Step(sa, Vesta.Event(Vesta.SwapOutOp(x.customer, x.rawIn.value), now, slot)) == Vesta.Burn(sa, x.customer, x.rawIn.value);
    var into := if x.a == x.b then Vesta.Burn(sa, x.customer, x.rawIn.value).value else sb;
    assert Vesta.Step(into, Vesta.Event(Vesta.SwapInOp(x.customer, x.rawOut.value), now, slot))
        == Vesta.MintTo(into, x.customer, x.rawOut.value);
  }
}
