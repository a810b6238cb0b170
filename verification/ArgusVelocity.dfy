/** The transfer decision over whole histories: the velocity counters are the sums of the gifts accepted so
    far, so every cap is a statement about what actually moved. */
module ArgusVelocity {
  import opened Base
  import opened Argus
  import TrustStreak

  /** Event `e` is a peer gift of `w` that the guard let through. */
  predicate IsGift(g: Guard, e: Event, w: Pubkey) {
    && e.op.ExecuteOp? && e.op.x.sourceOwner == w
    && Decide(g, e.op.x, e.now).Ok? && Decide(g, e.op.x, e.now).value.reason == GIFT
  }

  /** Raw units `w` gifted on day `d` before event `n`. */
  function DayTotal(tr: seq<Guard>, evs: seq<Event>, n: nat, w: Pubkey, d: u32): nat
    requires n <= |evs| <= |tr|
  {
    if n == 0 then 0
    else DayTotal(tr, evs, n - 1, w, d)
         + if IsGift(tr[n - 1], evs[n - 1], w) && UnixDay(evs[n - 1].now) == Some(d) then evs[n - 1].op.x.amount else 0
  }

  function DayCount(tr: seq<Guard>, evs: seq<Event>, n: nat, w: Pubkey, d: u32): nat
    requires n <= |evs| <= |tr|
  {
    if n == 0 then 0
    else DayCount(tr, evs, n - 1, w, d)
         + if IsGift(tr[n - 1], evs[n - 1], w) && UnixDay(evs[n - 1].now) == Some(d) then 1 else 0
  }

  /** Time of the last gift of `w` before event `n`, 0 if none. */
  function LastGiftAt(tr: seq<Guard>, evs: seq<Event>, n: nat, w: Pubkey): i64
    requires n <= |evs| <= |tr|
  {
    if n == 0 then 0
    else if IsGift(tr[n - 1], evs[n - 1], w) then evs[n - 1].now
    else LastGiftAt(tr, evs, n - 1, w)
  }

  lemma StepWallet(h: PolicyDoc -> Hash, g: Guard, e: Event, w: Pubkey)
    ensures var g' := After(g, Step(h, g, e.op, e.now));
      if IsGift(g, e, w) then
        && w in g.wallets && w in g'.wallets
        && Velocity(g.config, g.wallets[w], e.op.x.amount, e.now) == Ok(g'.wallets[w])
      else if w in g.wallets then w in g'.wallets && g'.wallets[w] == g.wallets[w]
      else w in g'.wallets ==> g'.wallets[w] == WalletPolicyState(0, 0, 0, 0)
  {
  }

  /** A wallet's counters against the gifts it made: today's sum, today's count (saturated), the last time. */
  ghost predicate Counts(tr: seq<Guard>, evs: seq<Event>, n: nat, w: Pubkey, s: WalletPolicyState)
    requires n <= |evs| <= |tr|
  {
    && s.sentToday == DayTotal(tr, evs, n, w, s.day)
    && s.transfersToday == Min(DayCount(tr, evs, n, w, s.day), U16_MAX)
    && s.lastTransferAt == LastGiftAt(tr, evs, n, w)
    && (forall d: u32 :: d > s.day ==> DayTotal(tr, evs, n, w, d) == 0 && DayCount(tr, evs, n, w, d) == 0)
    && (if s.lastTransferAt == 0 then s.day == 0
        else 0 < s.lastTransferAt && UnixDay(s.lastTransferAt) == Some(s.day) && n > 0 && s.lastTransferAt <= evs[n - 1].now)
  }

  /** A gift falls on the wallet's recorded day or a later one that has seen no gift yet. */
  lemma GiftKeepsCounts(h: PolicyDoc -> Hash, tr: seq<Guard>, evs: seq<Event>, m: nat, n: nat, w: Pubkey,
                        s: WalletPolicyState, s': WalletPolicyState)
    requires IsTrace(h, tr, evs) && n == m + 1 && n <= |evs| && IsGift(tr[m], evs[m], w)
    requires Counts(tr, evs, m, w, s) && Velocity(tr[m].config, s, evs[m].op.x.amount, evs[m].now) == Ok(s')
    ensures Counts(tr, evs, n, w, s')
  {
    hide Step, IsGift, UnixDay;
    var today := UnixDay(evs[m].now).value;
    DaysAdvance(s.lastTransferAt, evs[m].now);
    EpochIsDayZero();
    assert s.day <= today && s'.day == today;
    forall d: u32 | d > today ensures DayTotal(tr, evs, n, w, d) == 0 && DayCount(tr, evs, n, w, d) == 0 {
      assert DayTotal(tr, evs, m, w, d) == 0 && DayCount(tr, evs, m, w, d) == 0;
    }
    if s.day < today {
      assert DayTotal(tr, evs, m, w, today) == 0 && DayCount(tr, evs, m, w, today) == 0;
    }
  }

  lemma EpochIsDayZero()
    ensures UnixDay(0) == Some(0)
  {
  }

  lemma OtherKeepsCounts(h: PolicyDoc -> Hash, tr: seq<Guard>, evs: seq<Event>, m: nat, n: nat, w: Pubkey, s: WalletPolicyState)
    requires IsTrace(h, tr, evs) && n == m + 1 && n <= |evs| && !IsGift(tr[m], evs[m], w)
    requires Counts(tr, evs, m, w, s)
    ensures Counts(tr, evs, n, w, s)
  {
    hide Step, IsGift, UnixDay;
    forall d: u32
      ensures DayTotal(tr, evs, n, w, d) == DayTotal(tr, evs, m, w, d) && DayCount(tr, evs, n, w, d) == DayCount(tr, evs, m, w, d)
    {
    }
  }

  function WalletOf(g: Guard, w: Pubkey): WalletPolicyState {
    if w in g.wallets then g.wallets[w] else WalletPolicyState(0, 0, 0, 0)
  }

  lemma {:induction false} WalletIsHistory(h: PolicyDoc -> Hash, tr: seq<Guard>, evs: seq<Event>, n: nat, w: Pubkey)
    requires IsTrace(h, tr, evs) && n <= |evs|
    ensures Counts(tr, evs, n, w, WalletOf(tr[n], w))
  {
    hide Step, IsGift, Velocity;
    if n == 0 {
      assert tr[0].wallets == map[];
    } else {
      var m := n - 1;
      WalletIsHistory(h, tr, evs, m, w);
      StepWallet(h, tr[m], evs[m], w);
      if IsGift(tr[m], evs[m], w) {
        GiftKeepsCounts(h, tr, evs, m, n, w, WalletOf(tr[m], w), WalletOf(tr[n], w));
      } else {
        OtherKeepsCounts(h, tr, evs, m, n, w, WalletOf(tr[m], w));
      }
    }
  }

  /** The screens that look at the destination and the single amount, not at the sender's past. */
  predicate ScreensPass(g: Guard, x: Transfer, now: i64) {
    var c := g.config;
    && !c.paused && c.degradeMode == TrustStreak.NORMAL && !c.Has(GIFTING_DISABLED)
    && x.destinationOwner == x.suppliedOwner
    && (c.Has(BLOCK_PROGRAM_OWNED) ==> x.ownerIsSystemOwned)
    && (c.Has(ALLOWLIST_ONLY) ==> x.destinationOwner in g.entries)
    && (c.Has(DENYLIST) ==> x.destinationOwner !in g.entries)
    && (c.Has(REQUIRE_ATTESTATION) ==> CapabilityOk(g, x.destinationOwner, now))
    && (c.perTxCap == 0 || x.amount <= c.perTxCap)
    && (c.maxWalletBalance == 0 || x.destinationBalance <= c.maxWalletBalance)
  }

  /** A gift passes exactly when no screen objects, the sender's last gift is at least the cooldown ago, it
      has made fewer gifts today than the count cap, and what it sent today plus this stays in the day's cap. */
  lemma GiftMeaning(h: PolicyDoc -> Hash, tr: seq<Guard>, evs: seq<Event>, n: nat, x: Transfer, now: i64)
    requires IsTrace(h, tr, evs) && n <= |evs|
    requires now > 0 && (n > 0 ==> evs[n - 1].now <= now)
    ensures var c := tr[n].config; var w := x.sourceOwner;
      (Decide(tr[n], x, now).Ok? && Decide(tr[n], x, now).value.reason == GIFT) <==>
        && x.permanentDelegate != Some(x.authority) && x.destination != c.treasury && x.amount > 0
        && ScreensPass(tr[n], x, now)
        && w in tr[n].wallets && UnixDay(now).Some?
        && var d := UnixDay(now).value;
        && (c.cooldownSecs == 0 || LastGiftAt(tr, evs, n, w) == 0 || now - LastGiftAt(tr, evs, n, w) >= c.cooldownSecs)
        && (c.transfersPerDayCap == 0 || DayCount(tr, evs, n, w, d) < c.transfersPerDayCap)
        && DayTotal(tr, evs, n, w, d) + x.amount <= c.dailyGiftCap
  {
    hide Step;
    WalletIsHistory(h, tr, evs, n, x.sourceOwner);
    if x.sourceOwner in tr[n].wallets && UnixDay(now).Some? {
      DaysAdvance(tr[n].wallets[x.sourceOwner].lastTransferAt, now);
    }
  }

  /** Each accepted gift leaves the sender's day within the volume cap and count cap in force, and comes at
      least the cooldown in force after every earlier gift of the sender. */
  lemma GiftKeepsCaps(h: PolicyDoc -> Hash, tr: seq<Guard>, evs: seq<Event>, n: nat, w: Pubkey)
    requires IsTrace(h, tr, evs) && n < |evs| && IsGift(tr[n], evs[n], w)
    ensures UnixDay(evs[n].now).Some?
    ensures var d := UnixDay(evs[n].now).value; var c := tr[n].config;
      && DayTotal(tr, evs, n + 1, w, d) <= c.dailyGiftCap
      && (c.transfersPerDayCap != 0 ==> DayCount(tr, evs, n + 1, w, d) <= c.transfersPerDayCap)
    ensures forall i :: 0 <= i < n && IsGift(tr[i], evs[i], w) ==> evs[n].now - evs[i].now >= tr[n].config.cooldownSecs
  {
    hide Step;
    GiftMeaning(h, tr, evs, n, evs[n].op.x, evs[n].now);
    forall i | 0 <= i < n && IsGift(tr[i], evs[i], w)
      ensures evs[n].now - evs[i].now >= tr[n].config.cooldownSecs
    {
      LastGiftIsLast(h, tr, evs, n, w, i);
    }
  }

  lemma {:induction false} LastGiftIsLast(h: PolicyDoc -> Hash, tr: seq<Guard>, evs: seq<Event>, n: nat, w: Pubkey, i: nat)
    requires IsTrace(h, tr, evs) && i < n <= |evs| && IsGift(tr[i], evs[i], w)
    ensures LastGiftAt(tr, evs, n, w) >= evs[i].now > 0
    decreases n
  {
    hide Step;
    if i < n - 1 {
      LastGiftIsLast(h, tr, evs, n - 1, w, i);
    }
  }

  lemma {:induction false} DayWithinCap(h: PolicyDoc -> Hash, tr: seq<Guard>, evs: seq<Event>, n: nat, w: Pubkey,
                                         d: u32, cap: nat)
    requires IsTrace(h, tr, evs) && n <= |evs|
    requires forall i :: 0 <= i < n && IsGift(tr[i], evs[i], w) ==> tr[i].config.dailyGiftCap <= cap
    ensures DayTotal(tr, evs, n, w, d) <= cap
  {
    hide Step;
    if n > 0 {
      DayWithinCap(h, tr, evs, n - 1, w, d, cap);
      if IsGift(tr[n - 1], evs[n - 1], w) {
        GiftKeepsCaps(h, tr, evs, n - 1, w);
      }
    }
  }

  /** Raw units `w` gifted in the day-long window that starts at `from`, before event `n`. */
  function WindowTotal(tr: seq<Guard>, evs: seq<Event>, n: nat, w: Pubkey, from: i64): nat
    requires n <= |evs| <= |tr|
  {
    if n == 0 then 0
    else WindowTotal(tr, evs, n - 1, w, from)
         + if IsGift(tr[n - 1], evs[n - 1], w) && from <= evs[n - 1].now < from + SECONDS_PER_DAY
           then evs[n - 1].op.x.amount else 0
  }

  lemma {:induction false} WindowSpansTwoDays(h: PolicyDoc -> Hash, tr: seq<Guard>, evs: seq<Event>, n: nat, w: Pubkey,
                                              from: i64, d: u32)
    requires IsTrace(h, tr, evs) && n <= |evs|
    requires from >= 0 && from / SECONDS_PER_DAY == d < U32_MAX
    ensures WindowTotal(tr, evs, n, w, from) <= DayTotal(tr, evs, n, w, d) + DayTotal(tr, evs, n, w, d + 1)
  {
    hide Step;
    if n > 0 {
      WindowSpansTwoDays(h, tr, evs, n - 1, w, from, d);
      InWindowMeansEitherDay(from, d, evs[n - 1].now);
    }
  }

  lemma InWindowMeansEitherDay(from: i64, d: u32, now: i64)
    requires from >= 0 && from / SECONDS_PER_DAY == d < U32_MAX
    ensures from <= now < from + SECONDS_PER_DAY ==> UnixDay(now) == Some(d) || UnixDay(now) == Some(d + 1)
  {
  }

  /** Under a cap that never exceeds `cap`, any 86,400-second window carries at most twice the cap, wherever
      it falls against the day boundary. */
  lemma AnyWindowWithinTwiceCap(h: PolicyDoc -> Hash, tr: seq<Guard>, evs: seq<Event>, n: nat, w: Pubkey, from: i64, cap: nat)
    requires IsTrace(h, tr, evs) && n <= |evs|
    requires 0 <= from / SECONDS_PER_DAY < U32_MAX
    requires forall i :: 0 <= i < n && IsGift(tr[i], evs[i], w) ==> tr[i].config.dailyGiftCap <= cap
    ensures WindowTotal(tr, evs, n, w, from) <= 2 * cap
  {
    hide Step;
    var d: u32 := from / SECONDS_PER_DAY;
    WindowSpansTwoDays(h, tr, evs, n, w, from, d);
    DayWithinCap(h, tr, evs, n, w, d, cap);
    DayWithinCap(h, tr, evs, n, w, d + 1, cap);
  }

  /** No posture strands assets: paying the merchant and the issuer's own moves pass in every state, even
      paused or degraded, and leave every account of the guard as it was. */
  lemma RedemptionAndIssuerNeverBlocked(g: Guard, x: Transfer, now: i64)
    requires x.permanentDelegate == Some(x.authority) || x.destination == g.config.treasury
    ensures Execute(g, x, now) == Ok(g)
  {
  }
}
