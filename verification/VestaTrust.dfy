/** The merchant's issuance posture follows the shared streak machine. */
module VestaTrust {
  import opened Base
  import opened Vesta
  import opened VestaFrame
  import Aegis
  import TrustStreak

  function TrustEvent(s: Shop, e: Event): Option<TrustStreak.Event> {
    if Step(s, e).Err? then None
    else match e.op
      case SetTrustOp(_, _, _, _, _, target, grace) => Some(TrustStreak.Bound(target, grace, e.now))
      case ReverifyOp(_, verdict) => Some(TrustStreak.Cranked(verdict.ok, e.now))
      case SetIssueStatusOp(_, status) => Some(TrustStreak.SetTo(status))
      case _ => None
  }

  function TrustLog(tr: seq<Shop>, evs: seq<Event>, n: nat): seq<TrustStreak.Event>
    requires n <= |evs| <= |tr|
  {
    if n == 0 then []
    else
      var t := TrustEvent(tr[n - 1], evs[n - 1]);
      TrustLog(tr, evs, n - 1) + if t.Some? then [t.value] else []
  }

  function Health(s: Shop): TrustStreak.Health {
    if s.trust.Some? then HealthOf(s.trust.value, s.merchant.issueStatus)
    else TrustStreak.Health(1, 0, 0, 0, s.merchant.issueStatus)
  }

  lemma SetTrustBinds(s: Shop, k: Pubkey, root: Pubkey, subj: Pubkey, schema: u64, prog: Pubkey, target: u8, grace: i64, now: i64)
    requires SetMerchantTrust(s, k, root, subj, schema, prog, target, grace, now).Ok?
    ensures var s' := SetMerchantTrust(s, k, root, subj, schema, prog, target, grace, now).value;
      Health(s') == TrustStreak.Bind(Health(s), target, grace, now) && TrustStreak.IsValidTarget(target)
  {
  }

  lemma ReverifyCranks(s: Shop, prog: Pubkey, verdict: Aegis.Verdict, now: i64)
    requires ReverifyMerchant(s, prog, verdict, now).Ok?
    ensures Health(ReverifyMerchant(s, prog, verdict, now).value) == TrustStreak.Crank(Health(s), verdict.ok, now)
  {
  }

  lemma SetStatusOverrides(s: Shop, k: Pubkey, status: u8)
    requires SetIssueStatus(s, k, status).Ok?
    ensures Health(SetIssueStatus(s, k, status).value) == TrustStreak.Override(Health(s), status)
  {
  }

  lemma StepHealth(s: Shop, e: Event)
    ensures var s' := After(s, Step(s, e)); var t := TrustEvent(s, e);
      && (t.None? ==> Health(s') == Health(s))
      && (t.Some? ==> Health(s') == TrustStreak.Apply(Health(s), t.value))
      && (t.Some? && t.value.Bound? ==> t.value.now == e.now && TrustStreak.IsValidTarget(t.value.degradeTarget))
      && (t.Some? && t.value.Cranked? ==> t.value.now == e.now)
  {
    hide EarnPoints, EarnPointsCampaign, RedeemOffer, Clawback, Move, MintTo, Burn, Configure, SetMerchantSegments,
      RefreshCustomerEligibility, CreateOffer, SetOfferSegment, CloseOffer, OpenReserve, FundReserve, WithdrawReserve,
      CreateCampaign, UpdateCampaign, SetCampaignWinback, CloseCampaign, SetMerchantTrust, ReverifyMerchant, SetIssueStatus,
      TrustStreak.Bind, TrustStreak.Crank, TrustStreak.Override;
    if Step(s, e).Ok? {
      match e.op
      case SetTrustOp(k, r, subj, sch, prog, t, g) => SetTrustBinds(s, k, r, subj, sch, prog, t, g, e.now);
      case ReverifyOp(prog, v) => ReverifyCranks(s, prog, v, e.now);
      case SetIssueStatusOp(k, st) => SetStatusOverrides(s, k, st);
      case _ => StepFrame(s, e);
    }
  }

  lemma FreshHealth(s: Shop)
    requires Initial(s)
    ensures Health(s) == TrustStreak.Health(1, 0, 0, 0, TrustStreak.NORMAL)
  {
  }

  /** Every reachable posture is the streak machine run over the log of bindings, cranks and overrides that went
      through; what is proved of that machine holds of the merchant. */
  lemma {:induction false} ShopFollowsStreak(tr: seq<Shop>, evs: seq<Event>, n: nat) returns (ht: seq<TrustStreak.Health>)
    requires IsTrace(tr, evs) && n <= |evs|
    ensures TrustStreak.IsTrace(ht, TrustLog(tr, evs, n))
    ensures ht[|ht| - 1] == Health(tr[n])
    ensures forall e :: e in TrustLog(tr, evs, n) && e.Cranked? ==> n > 0 && e.now <= evs[n - 1].now
  {
    hide Step, TrustEvent, Health, TrustStreak.Apply;
    if n == 0 {
      FreshHealth(tr[0]);
      ht := [Health(tr[0])];
    } else {
      var before := ShopFollowsStreak(tr, evs, n - 1);
      StepHealth(tr[n - 1], evs[n - 1]);
      var t := TrustEvent(tr[n - 1], evs[n - 1]);
      if t.Some? {
        TrustStreak.TraceExtends(before, TrustLog(tr, evs, n - 1), t.value);
        ht := before + [Health(tr[n])];
      } else {
        ht := before;
      }
    }
  }

  /** So a merchant's `failingSince` is the first crank of the current unbroken run of failures, 0 if none. */
  lemma MerchantStreakIsHistory(tr: seq<Shop>, evs: seq<Event>, n: nat)
    requires IsTrace(tr, evs) && n <= |evs| && tr[n].trust.Some?
    ensures var log, since := TrustLog(tr, evs, n), tr[n].trust.value.failingSince;
      && (since != 0 <==> exists f :: TrustStreak.RunFrom(log, f, |log|))
      && (forall f :: TrustStreak.RunFrom(log, f, |log|) ==> since == log[f].now)
  {
    hide Step;
    var ht := ShopFollowsStreak(tr, evs, n);
    TrustStreak.StreakIsHistory(ht, TrustLog(tr, evs, n), |TrustLog(tr, evs, n)|);
  }

  // -------------------------------------------------------- how long a degrade lasts

  lemma TargetsAreValid(tr: seq<Shop>, evs: seq<Event>, n: nat)
    requires IsTrace(tr, evs) && n <= |evs|
    ensures TrustStreak.IsValidTarget(Health(tr[n]).degradeTarget)
  {
    hide Step, Health;
    var ht := ShopFollowsStreak(tr, evs, n);
    TrustStreak.TargetsAreValid(ht, TrustLog(tr, evs, n), |TrustLog(tr, evs, n)|);
  }

  /** The streak starts in the past: its time is positive and no later than the last event. */
  lemma StreakIsPast(tr: seq<Shop>, evs: seq<Event>, n: nat)
    requires IsTrace(tr, evs) && n <= |evs| && Health(tr[n]).failingSince != 0
    ensures n > 0 && 0 < Health(tr[n]).failingSince <= evs[n - 1].now
  {
    hide Step, Health;
    var ht := ShopFollowsStreak(tr, evs, n);
    var log := TrustLog(tr, evs, n);
    TrustStreak.StreakIsHistory(ht, log, |log|);
    var f :| TrustStreak.RunFrom(log, f, |log|);
    assert log[f] in log;
  }

  /** A healthy crank or a manual restore went through. */
  predicate RestoredBy(s: Shop, e: Event) {
    var t := TrustEvent(s, e);
    t.Some? && TrustStreak.Restores(t.value)
  }

  /** Frozen issuance, however it came about, lasts through `n` if and only if no healthy crank and no restore goes
      through on the way. */
  lemma {:induction false} DegradedUntilRestored(tr: seq<Shop>, evs: seq<Event>, k: nat, n: nat)
    requires IsTrace(tr, evs) && k <= n <= |evs| && tr[k].merchant.issueStatus != TrustStreak.NORMAL
    ensures (forall m :: k <= m <= n ==> tr[m].merchant.issueStatus != TrustStreak.NORMAL)
            <==> (forall m :: k <= m < n ==> !RestoredBy(tr[m], evs[m]))
    decreases n
  {
    hide Step, TrustEvent;
    if k < n {
      var m := n - 1;
      DegradedUntilRestored(tr, evs, k, m);
      assert (forall i :: k <= i < n ==> !RestoredBy(tr[i], evs[i])) <==>
             (forall i :: k <= i < m ==> !RestoredBy(tr[i], evs[i])) && !RestoredBy(tr[m], evs[m]);
      assert (forall i :: k <= i <= n ==> tr[i].merchant.issueStatus != TrustStreak.NORMAL) <==>
             (forall i :: k <= i <= m ==> tr[i].merchant.issueStatus != TrustStreak.NORMAL)
             && tr[n].merchant.issueStatus != TrustStreak.NORMAL;
      if tr[m].merchant.issueStatus != TrustStreak.NORMAL {
        RestoringStep(tr, evs, m, n);
      }
    }
  }

  lemma RestoringStep(tr: seq<Shop>, evs: seq<Event>, m: nat, n: nat)
    requires IsTrace(tr, evs) && n == m + 1 && n <= |evs| && tr[m].merchant.issueStatus != TrustStreak.NORMAL
    ensures tr[n].merchant.issueStatus == TrustStreak.NORMAL <==> RestoredBy(tr[m], evs[m])
  {
    hide Step, TrustEvent, TrustStreak.Apply;
    TargetsAreValid(tr, evs, m);
    StepHealth(tr[m], evs[m]);
    var t := TrustEvent(tr[m], evs[m]);
    if t.Some? {
      TrustStreak.ApplyRestores(Health(tr[m]), t.value);
    }
  }
}
