/** What an earn pays, from the history alone: the run of days behind it and the verdicts on record. */
module VestaEarn {
  import opened Base
  import opened Vesta
  import opened VestaFrame
  import opened VestaIssuance
  import opened VestaStreak
  import VestaSegments

  /** The streak's share after a run of `run` days. */
  function StreakBps(run: nat): nat {
    10_000 + Min(run, STREAK_DAYS_CAP) * STREAK_BPS_PER_DAY
  }

  /** An earn on day `d` continues, repeats or restarts the streak exactly as the run of earn days that includes it. */
  lemma StreakOfEarn(tr: seq<Shop>, evs: seq<Event>, n: nat, c: Pubkey)
    requires IsTrace(tr, evs) && n < |evs| && IsEarn(evs[n].op) && evs[n].op.customer == c && Step(tr[n], evs[n]).Ok?
    ensures UnixDay(evs[n].now).Some?
    ensures var d := UnixDay(evs[n].now).value;
      NextStreak(ProfileOf(tr[n], c), d) == Min(RunLength(tr, evs, n + 1, c, d), U16_MAX)
  {
    hide Step, NextStreak, RunLength;
    var m := n + 1;
    StepEarn(tr[n], evs[n]);
    EnteredProfile(tr[n], tr[m], c, Minted(tr[n], evs[n]), evs[n].now);
    StreakIsHistory(tr, evs, m, c);
    assert VisitAt(tr, evs, n, c, UnixDay(evs[n].now).value);
    assert Visited(tr, evs, m, c, UnixDay(evs[n].now).value);
  }

  /** So the bps a campaign composes with is that of the run it extends. */
  lemma PreviewIsHistory(tr: seq<Shop>, evs: seq<Event>, n: nat, c: Pubkey)
    requires IsTrace(tr, evs) && n < |evs| && IsEarn(evs[n].op) && evs[n].op.customer == c && Step(tr[n], evs[n]).Ok?
    ensures UnixDay(evs[n].now).Some?
    ensures var d := UnixDay(evs[n].now).value;
      PreviewTotalBps(ProfileOf(tr[n], c), d) == StreakBps(RunLength(tr, evs, n + 1, c, d))
  {
    hide Step, RunLength, NextStreak;
    StreakOfEarn(tr, evs, n, c);
    PreviewIsUsed(ProfileOf(tr[n], c), UnixDay(evs[n].now).value);
  }

  /** The boost of the verdicts on record, if the caller supplied the segment accounts and the cache is fresh. */
  function BoostOnRecord(tr: seq<Shop>, evs: seq<Event>, n: nat, c: Pubkey, withSegments: bool, now: i64): nat
    requires n <= |evs| < |tr|
  {
    if !withSegments || tr[n].segments.None? || c !in tr[n].eligibility then 0
    else
      var segs, cel := tr[n].segments.value.segments, tr[n].eligibility[c];
      if cel.policyEpoch == VestaSegments.Epoch(tr[n]) && now < cel.expiresAt
      then VestaSegments.VerdictBoost(tr, evs, n, c, segs, VestaSegments.Epoch(tr[n]), Min(|segs|, MAX_SEGMENTS))
      else 0
  }

  lemma PlainEarnAmount(s: Shop, signer: Pubkey, c: Pubkey, amountBase: u64, visitDay: u32, withSegments: bool, now: i64)
    requires EarnPoints(s, signer, c, amountBase, visitDay, withSegments, now).Ok?
    ensures UnixDay(now) == Some(visitDay)
    ensures withSegments ==> s.segments.Some? && c in s.eligibility
    ensures var s' := EarnPoints(s, signer, c, amountBase, visitDay, withSegments, now).value;
      var total := TotalBps(NextStreak(ProfileOf(s, c), visitDay), if withSegments then SegmentBoostBps(s, c, now) else 0);
      total.Some? && Balance(s', c) - Balance(s, c) == amountBase * s.merchant.baseEarnRate * total.value / 10_000
  {
    hide AdmitEarn, Accrue, SegmentBoostBps, NextStreak, TotalBps;
    var (day, p, m) := AdmitEarn(s, signer, c, amountBase, visitDay, now).value;
    AdmitMeans(s, signer, c, amountBase, visitDay, now);
    AccrueAdds(p, m, amountBase, day, 0, if withSegments then SegmentBoostBps(s, c, now) else 0);
  }

  /** A plain earn pays the floor of base times rate times the run's bps plus the boost on record, capped at 24,000:
      the amount is a function of the history. */
  lemma PlainEarnPaysHistory(tr: seq<Shop>, evs: seq<Event>, n: nat)
    requires IsTrace(tr, evs) && n < |evs| && evs[n].op.EarnOp? && Step(tr[n], evs[n]).Ok?
    ensures UnixDay(evs[n].now).Some?
    ensures var op, d := evs[n].op, UnixDay(evs[n].now).value;
      var run := RunLength(tr, evs, n + 1, op.customer, d);
      var boost := BoostOnRecord(tr, evs, n, op.customer, op.withSegments, evs[n].now);
      Minted(tr[n], evs[n]) ==
        op.amountBase * tr[n].merchant.baseEarnRate * Min(StreakBps(run) + boost, MAX_TOTAL_MULTIPLIER_BPS) / 10_000
  {
    hide EarnPointsCampaign, RedeemOffer, Clawback, Move, MintTo, Burn, Configure, SetMerchantSegments,
      RefreshCustomerEligibility, CreateOffer, SetOfferSegment, CloseOffer, OpenReserve, FundReserve, WithdrawReserve,
      CreateCampaign, UpdateCampaign, SetCampaignWinback, CloseCampaign, SetMerchantTrust, ReverifyMerchant, SetIssueStatus,
      EarnPoints, RunLength, NextStreak, SegmentBoostBps, VestaSegments.VerdictBoost, Balance;
    var s, e := tr[n], evs[n];
    StreakOfEarn(tr, evs, n, e.op.customer);
    PlainEarnAmount(s, e.op.signer, e.op.customer, e.op.amountBase, e.op.visitDay, e.op.withSegments, e.now);
    if e.op.withSegments {
      VestaSegments.BoostIsVerdicts(tr, evs, n, e.op.customer, e.now);
    }
  }
}
