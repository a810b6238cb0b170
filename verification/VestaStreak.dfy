/** The streak and the tier, read back from the history of earns. */
module VestaStreak {
  import opened Base
  import opened Vesta
  import opened VestaFrame
  import opened VestaIssuance

  /** Event `i` is an earn by `c` that went through on day `d`. */
  predicate VisitAt(tr: seq<Shop>, evs: seq<Event>, i: nat, c: Pubkey, d: u32)
    requires i < |evs| <= |tr|
  {
    IsEarn(evs[i].op) && evs[i].op.customer == c && Step(tr[i], evs[i]).Ok? && UnixDay(evs[i].now) == Some(d)
  }

  /** Before event `n`, customer `c` earned on day `d`. */
  predicate Visited(tr: seq<Shop>, evs: seq<Event>, n: nat, c: Pubkey, d: u32)
    requires n <= |evs| <= |tr|
  {
    n > 0 && (VisitAt(tr, evs, n - 1, c, d) || Visited(tr, evs, n - 1, c, d))
  }

  /** How many days in a row, ending with `d`, the customer earned on. */
  function RunLength(tr: seq<Shop>, evs: seq<Event>, n: nat, c: Pubkey, d: u32): nat
    requires n <= |evs| <= |tr|
    decreases d
  {
    if !Visited(tr, evs, n, c, d) then 0
    else if d == 0 then 1
    else 1 + RunLength(tr, evs, n, c, d - 1)
  }

  lemma {:induction false} RunIsMaximal(tr: seq<Shop>, evs: seq<Event>, n: nat, c: Pubkey, d: u32)
    requires n <= |evs| <= |tr|
    ensures var r := RunLength(tr, evs, n, c, d);
      && r <= d + 1
      && (forall x: u32 :: d - r < x <= d ==> Visited(tr, evs, n, c, x))
      && (r <= d ==> !Visited(tr, evs, n, c, d - r))
    decreases d
  {
    hide VisitAt;
    if Visited(tr, evs, n, c, d) && d > 0 {
      RunIsMaximal(tr, evs, n, c, d - 1);
    }
  }

  lemma {:induction false} RunUnchanged(tr: seq<Shop>, evs: seq<Event>, n: nat, c: Pubkey, d: u32)
    requires 0 < n <= |evs| <= |tr|
    requires forall x: u32 :: x <= d ==> (Visited(tr, evs, n, c, x) <==> Visited(tr, evs, n - 1, c, x))
    ensures RunLength(tr, evs, n, c, d) == RunLength(tr, evs, n - 1, c, d)
    decreases d
  {
    hide Visited;
    if d > 0 {
      RunUnchanged(tr, evs, n, c, d - 1);
    }
  }

  /** What one event does to one customer's standing. */
  lemma StepCustomer(s: Shop, e: Event, c: Pubkey)
    ensures var s' := After(s, Step(s, e));
      && (c in s.profiles ==> c in s'.profiles)
      && (IsEarn(e.op) && e.op.customer == c && Step(s, e).Ok? ==> Entered(s, s', c, Minted(s, e), e.now))
      && (!(IsEarn(e.op) && e.op.customer == c && Step(s, e).Ok?) ==> SameStanding(ProfileOf(s, c), ProfileOf(s', c)))
  {
    hide Step;
    if !IsEarn(e.op) {
      StepStanding(s, e);
    } else if Step(s, e).Ok? {
      StepEarn(s, e);
    }
  }

  lemma {:induction false} VisitedDaysArePast(tr: seq<Shop>, evs: seq<Event>, n: nat, k: nat, c: Pubkey, d: u32)
    requires IsTrace(tr, evs) && k <= n < |evs| && Visited(tr, evs, k, c, d) && UnixDay(evs[n].now).Some?
    ensures d <= UnixDay(evs[n].now).value
    decreases k
  {
    hide Step;
    if VisitAt(tr, evs, k - 1, c, d) {
      DaysAdvance(evs[k - 1].now, evs[n].now);
    } else {
      VisitedDaysArePast(tr, evs, n, k - 1, c, d);
    }
  }

  /** The streak is the length of the run of consecutive earn days that ends on the last earn day, saturated at
      u16; a customer who never earned has none. */
  ghost predicate StreakAgrees(tr: seq<Shop>, evs: seq<Event>, n: nat, c: Pubkey)
    requires n <= |evs| < |tr|
  {
    var p := ProfileOf(tr[n], c);
    if exists d: u32 :: Visited(tr, evs, n, c, d) then
      && Visited(tr, evs, n, c, p.lastVisitDay)
      && (forall d: u32 :: Visited(tr, evs, n, c, d) ==> d <= p.lastVisitDay)
      && p.streakDays == Min(RunLength(tr, evs, n, c, p.lastVisitDay), U16_MAX)
    else p.lastVisitDay == 0 && p.streakDays == 0
  }

  lemma {:induction false} StreakIsHistory(tr: seq<Shop>, evs: seq<Event>, n: nat, c: Pubkey)
    requires IsTrace(tr, evs) && n <= |evs|
    ensures StreakAgrees(tr, evs, n, c)
  {
    hide Step;
    if n > 0 {
      StreakIsHistory(tr, evs, n - 1, c);
      StepCustomer(tr[n - 1], evs[n - 1], c);
      if IsEarn(evs[n - 1].op) && evs[n - 1].op.customer == c && Step(tr[n - 1], evs[n - 1]).Ok? {
        EarnExtendsStreak(tr, evs, n - 1, n, c);
      } else {
        OtherKeepsStreak(tr, evs, n - 1, n, c);
      }
    }
  }

  lemma OtherKeepsStreak(tr: seq<Shop>, evs: seq<Event>, k: nat, n: nat, c: Pubkey)
    requires n == k + 1 && n <= |evs| < |tr| && StreakAgrees(tr, evs, k, c)
    requires forall d: u32 :: !VisitAt(tr, evs, k, c, d)
    requires SameStanding(ProfileOf(tr[k], c), ProfileOf(tr[n], c))
    ensures StreakAgrees(tr, evs, n, c)
  {
    hide VisitAt, ProfileOf;
    var p := ProfileOf(tr[n], c);
    assert forall d: u32 :: Visited(tr, evs, n, c, d) <==> Visited(tr, evs, k, c, d);
    RunUnchanged(tr, evs, n, c, p.lastVisitDay);
  }

  lemma EarnExtendsStreak(tr: seq<Shop>, evs: seq<Event>, k: nat, n: nat, c: Pubkey)
    requires IsTrace(tr, evs) && n == k + 1 && n <= |evs| && StreakAgrees(tr, evs, k, c)
    requires IsEarn(evs[k].op) && evs[k].op.customer == c && Step(tr[k], evs[k]).Ok?
    requires Entered(tr[k], tr[n], c, Minted(tr[k], evs[k]), evs[k].now)
    ensures StreakAgrees(tr, evs, n, c)
  {
    hide Step, ProfileOf, Minted;
    var p, p' := ProfileOf(tr[k], c), ProfileOf(tr[n], c);
    var day := tr[n].merchant.issueDay;
    assert p' == tr[n].profiles[c] by { EnteredProfile(tr[k], tr[n], c, Minted(tr[k], evs[k]), evs[k].now); }
    forall d: u32 | Visited(tr, evs, k, c, d) ensures d <= day {
      VisitedDaysArePast(tr, evs, k, k, c, d);
    }
    assert VisitAt(tr, evs, k, c, day);
    assert forall d: u32 :: Visited(tr, evs, n, c, d) <==> d == day || Visited(tr, evs, k, c, d);
    if Visited(tr, evs, k, c, day) {
      RunUnchanged(tr, evs, n, c, day);
    } else if day > 0 {
      RunUnchanged(tr, evs, n, c, day - 1);
    }
  }

  lemma EnteredProfile(s: Shop, s': Shop, c: Pubkey, minted: int, now: i64)
    requires Entered(s, s', c, minted, now)
    ensures ProfileOf(s', c) == s'.profiles[c]
  {
  }

  // -------------------------------------------------------------------------- tier

  /** A tier is at least `k` exactly when the earnings reach the `k`-th threshold. */
  lemma TierMeaning(earned: u64, k: nat)
    requires k < |TIER_THRESHOLDS|
    ensures Tier(earned) < |TIER_THRESHOLDS|
    ensures Tier(earned) >= k <==> earned >= TIER_THRESHOLDS[k]
  {
    assert ThresholdsReached(earned, 2) == ThresholdsReached(earned, 1) + if earned >= TIER_THRESHOLDS[1] then 1 else 0;
    assert ThresholdsReached(earned, 3) == ThresholdsReached(earned, 2) + if earned >= TIER_THRESHOLDS[2] then 1 else 0;
  }

  lemma TierMonotone(a: u64, b: u64)
    requires a <= b
    ensures Tier(a) <= Tier(b)
  {
    TierMeaning(a, Tier(a));
    TierMeaning(b, Tier(a));
  }

  /** Every profile's tier is the one its lifetime points earn, and lifetime points only grow: a tier never falls. */
  lemma {:induction false} TierFollowsEarnings(tr: seq<Shop>, evs: seq<Event>, i: nat, n: nat, c: Pubkey)
    requires IsTrace(tr, evs) && i <= n <= |evs|
    ensures ProfileOf(tr[n], c).tier == Tier(ProfileOf(tr[n], c).lifetimeEarned)
    ensures ProfileOf(tr[i], c).lifetimeEarned <= ProfileOf(tr[n], c).lifetimeEarned
    ensures ProfileOf(tr[i], c).tier <= ProfileOf(tr[n], c).tier
    decreases n
  {
    hide Step, Tier, Minted;
    if n == 0 {
      TierMeaning(0, 1);
    } else {
      StepCustomer(tr[n - 1], evs[n - 1], c);
      if i < n {
        TierFollowsEarnings(tr, evs, i, n - 1, c);
        TierMonotone(ProfileOf(tr[n - 1], c).lifetimeEarned, ProfileOf(tr[n], c).lifetimeEarned);
      } else {
        TierFollowsEarnings(tr, evs, n - 1, n - 1, c);
      }
    }
  }
}
