/** vesta_core with aegis as its oracle: both programs advance together, and every verdict a merchant's caches and posture
    act on is what aegis returned in the state it had then. */
module ShopWorld {
  import opened Base
  import opened Vesta
  import opened VestaFrame
  import VestaSegments
  import VestaTrust
  import Aegis
  import TrustStreak

  /** The verdict on the record is aegis's own, for the segment or binding the merchant's accounts name; the attestation
      account a refresh supplies is the caller's choice. */
  ghost predicate Consults(a: Aegis.Registry, s: Shop, e: Event) {
    match e.op
    case RefreshOp(c, i, verdict) =>
      s.segments.Some? && i < |s.segments.value.segments| ==>
        var seg := s.segments.value.segments[i];
        exists account :: verdict == Aegis.Verify(a, account, seg.issuer, c, seg.schemaId, e.now)
    case ReverifyOp(_, verdict) =>
      s.trust.Some? ==>
        var t := s.trust.value;
        verdict == Aegis.VerifyAccreditation(a, t.accreditationRoot, t.subjectIssuer, t.requiredSchema, e.now)
    case _ => true
  }

  /** A joint history on one clock. */
  ghost predicate IsWorld(tr: seq<Shop>, evs: seq<Event>, ag: seq<Aegis.Registry>, aevs: seq<Aegis.Event>) {
    && IsTrace(tr, evs) && Aegis.IsTrace(ag, aevs) && |evs| == |aevs|
    && (forall i :: 0 <= i < |evs| ==> aevs[i].now == evs[i].now)
    && (forall i :: 0 <= i < |evs| ==> Consults(ag[i], tr[i], evs[i]))
  }

  // --------------------------------------------------------------- segment verdicts

  lemma RefreshNamesSegment(s: Shop, e: Event, c: Pubkey, i: u8)
    requires VestaSegments.Refreshes(s, e, c, i)
    ensures s.segments.Some? && i < |s.segments.value.segments| && e.op == RefreshOp(c, i, e.op.verdict)
  {
    hide EarnPoints, EarnPointsCampaign, RedeemOffer, Clawback, Move, MintTo, Burn, Configure, SetMerchantSegments,
      CreateOffer, SetOfferSegment, CloseOffer, OpenReserve, FundReserve, WithdrawReserve, CreateCampaign, UpdateCampaign,
      SetCampaignWinback, CloseCampaign, SetMerchantTrust, ReverifyMerchant, SetIssueStatus;
  }

  /** A satisfied segment gate rests on a credential: at the latest refresh of that segment under the epoch in force,
      the customer held one from the very issuer and schema the segment names now, issued, not ended, in its window. */
  lemma SatisfiedGateRestsOnCredential(tr: seq<Shop>, evs: seq<Event>, ag: seq<Aegis.Registry>, aevs: seq<Aegis.Event>,
                                       n: nat, c: Pubkey, i: u8, now: i64)
    requires IsWorld(tr, evs, ag, aevs) && n <= |evs| && i < MAX_SEGMENTS
    requires c in tr[n].eligibility && tr[n].eligibility[c].Satisfies(i, VestaSegments.Epoch(tr[n]), now)
    requires VestaSegments.Epoch(tr[n]) < U64_MAX
    ensures tr[n].segments.Some? && i < |tr[n].segments.value.segments|
    ensures var j := VestaSegments.LastRefresh(tr, evs, n, c, i, VestaSegments.Epoch(tr[n]));
      var seg := tr[n].segments.value.segments[i];
      var key := Aegis.AttestationKey(seg.issuer, c, seg.schemaId);
      && 0 <= j < n && Aegis.IssuedBy(ag, aevs, j, key) >= 0
      && key in ag[j].attestations && ag[j].attestations[key].IsLive(evs[j].now)
  {
    hide Step, HasBit;
    VestaSegments.GateRestsOnVerdict(tr, evs, n, c, i, now);
    var j := VestaSegments.LastRefresh(tr, evs, n, c, i, VestaSegments.Epoch(tr[n]));
    RefreshNamesSegment(tr[j], evs[j], c, i);
    assert Consults(ag[j], tr[j], evs[j]);
    var seg := tr[j].segments.value.segments[i];
    var account :| evs[j].op.verdict == Aegis.Verify(ag[j], account, seg.issuer, c, seg.schemaId, evs[j].now);
    Aegis.EvaluateMeaning(ag, aevs, j, seg.issuer, c, seg.schemaId, 0, evs[j].now);
  }

  // ------------------------------------------------------------- permanent de-trust

  predicate BoundTo(s: Shop, key: Aegis.EdgeKey) {
    s.trust.Some? && Aegis.EdgeKey(s.trust.value.accreditationRoot, s.trust.value.subjectIssuer) == key
  }

  /** No re-binding and no manual restore went through from `i` to `n`. */
  ghost predicate LeftAlone(tr: seq<Shop>, evs: seq<Event>, i: nat, n: nat)
    requires n <= |evs| <= |tr|
  {
    forall m :: i <= m < n && Step(tr[m], evs[m]).Ok? ==>
      !evs[m].op.SetTrustOp? && !(evs[m].op.SetIssueStatusOp? && evs[m].op.status == TrustStreak.NORMAL)
  }

  lemma StepBinding(s: Shop, e: Event)
    requires s.trust.Some? && (Step(s, e).Ok? ==> !e.op.SetTrustOp?)
    ensures var s' := After(s, Step(s, e));
      && s'.trust.Some? && s'.trust.value.accreditationRoot == s.trust.value.accreditationRoot
      && s'.trust.value.subjectIssuer == s.trust.value.subjectIssuer
  {
    hide EarnPoints, EarnPointsCampaign, RedeemOffer, Clawback, Move, MintTo, Burn, Configure, SetMerchantSegments,
      RefreshCustomerEligibility, CreateOffer, SetOfferSegment, CloseOffer, OpenReserve, FundReserve, WithdrawReserve,
      CreateCampaign, UpdateCampaign, SetCampaignWinback, CloseCampaign, SetMerchantTrust;
    if !e.op.ReverifyOp? && !e.op.SetIssueStatusOp? {
      StepFrame(s, e);
    }
  }

  lemma CrankOnDeadEdgeFails(tr: seq<Shop>, evs: seq<Event>, ag: seq<Aegis.Registry>, aevs: seq<Aegis.Event>,
                             i: nat, m: nat, key: Aegis.EdgeKey)
    requires IsWorld(tr, evs, ag, aevs) && i <= m < |evs|
    requires key in ag[i].edges && !ag[i].edges[key].IsLive(evs[i].now) && BoundTo(tr[m], key)
    ensures evs[m].op.ReverifyOp? ==> !evs[m].op.verdict.ok
  {
    hide Step;
    assert Consults(ag[m], tr[m], evs[m]);
    Aegis.DeadEdgeStaysDead(ag, aevs, i, m, key, evs[i].now);
  }

  /** One event of a merchant left alone with a dead edge: a failing crank leaves a streak begun by then, and freezes
      issuance once the streak has lasted the grace window. */
  lemma StepOnDeadEdge(tr: seq<Shop>, evs: seq<Event>, ag: seq<Aegis.Registry>, aevs: seq<Aegis.Event>,
                       i: nat, m: nat, n: nat, key: Aegis.EdgeKey)
    requires IsWorld(tr, evs, ag, aevs) && i <= m < |evs| && n == m + 1
    requires key in ag[i].edges && !ag[i].edges[key].IsLive(evs[i].now) && BoundTo(tr[m], key) && LeftAlone(tr, evs, m, n)
    ensures BoundTo(tr[n], key)
    ensures var b, b' := VestaTrust.Health(tr[m]), VestaTrust.Health(tr[n]);
      && TrustStreak.StillFailing(b, b')
      && (evs[m].op.ReverifyOp? && Step(tr[m], evs[m]).Ok? ==>
            && 0 < b'.failingSince <= evs[m].now
            && (evs[m].now - b'.failingSince >= b.graceSecs ==> b'.posture != TrustStreak.NORMAL))
  {
    hide Step, TrustStreak.Apply, TrustStreak.StillFailing;
    StepBinding(tr[m], evs[m]);
    CrankOnDeadEdgeFails(tr, evs, ag, aevs, i, m, key);
    VestaTrust.TargetsAreValid(tr, evs, m);
    VestaTrust.StepHealth(tr[m], evs[m]);
    var t := VestaTrust.TrustEvent(tr[m], evs[m]);
    if t.Some? {
      TrustStreak.ApplyStillFailing(VestaTrust.Health(tr[m]), t.value);
      if t.value.Cranked? {
        VestaTrust.StreakIsPast(tr, evs, n);
      }
    } else {
      TrustStreak.StillFailingItself(VestaTrust.Health(tr[m]));
    }
  }

  /** Once the edge behind a merchant is revoked or expired, no crank clears the streak or restores issuance; only a
      manual restore or a re-binding can. */
  lemma {:induction false} DeTrustIsPermanent(tr: seq<Shop>, evs: seq<Event>, ag: seq<Aegis.Registry>, aevs: seq<Aegis.Event>,
                                              i: nat, k: nat, n: nat, key: Aegis.EdgeKey)
    requires IsWorld(tr, evs, ag, aevs) && i <= k <= n <= |evs| && i < |evs|
    requires BoundTo(tr[k], key) && key in ag[i].edges && !ag[i].edges[key].IsLive(evs[i].now)
    requires LeftAlone(tr, evs, k, n)
    ensures BoundTo(tr[n], key) && TrustStreak.StillFailing(VestaTrust.Health(tr[k]), VestaTrust.Health(tr[n]))
    decreases n
  {
    hide Step, VestaTrust.Health;
    if k < n {
      DeTrustIsPermanent(tr, evs, ag, aevs, i, k, n - 1, key);
      StepOnDeadEdge(tr, evs, ag, aevs, i, n - 1, n, key);
    }
  }

  /** A crank at `m` that finds the grace window spent freezes issuance. The window runs from the streak already begun
      at `i` or, failing one, from any later crank `f`. */
  lemma CrankFreezes(tr: seq<Shop>, evs: seq<Event>, ag: seq<Aegis.Registry>, aevs: seq<Aegis.Event>,
                     i: nat, f: nat, m: nat, n: nat, key: Aegis.EdgeKey)
    requires IsWorld(tr, evs, ag, aevs) && i <= f <= m < |evs| && n == m + 1
    requires BoundTo(tr[i], key) && key in ag[i].edges && !ag[i].edges[key].IsLive(evs[i].now)
    requires LeftAlone(tr, evs, i, n)
    requires evs[f].op.ReverifyOp? && Step(tr[f], evs[f]).Ok? && evs[m].op.ReverifyOp? && Step(tr[m], evs[m]).Ok?
    requires var b := VestaTrust.Health(tr[i]);
      evs[m].now >= (if b.failingSince != 0 then b.failingSince else evs[f].now) + b.graceSecs
    ensures BoundTo(tr[n], key) && VestaTrust.Health(tr[n]).posture != TrustStreak.NORMAL
  {
    hide Step, VestaTrust.Health, BoundTo;
    DeTrustIsPermanent(tr, evs, ag, aevs, i, i, f, key);
    StepOnDeadEdge(tr, evs, ag, aevs, i, f, f + 1, key);
    if f < m {
      DeTrustIsPermanent(tr, evs, ag, aevs, i, f + 1, m, key);
      StepOnDeadEdge(tr, evs, ag, aevs, i, m, n, key);
    }
  }

  /** No earn of either kind goes through after such a crank, until someone restores or re-binds the merchant. */
  lemma NoEarnAfterDeTrust(tr: seq<Shop>, evs: seq<Event>, ag: seq<Aegis.Registry>, aevs: seq<Aegis.Event>,
                           i: nat, f: nat, m: nat, n: nat, key: Aegis.EdgeKey)
    requires IsWorld(tr, evs, ag, aevs) && i <= f <= m < n < |evs|
    requires BoundTo(tr[i], key) && key in ag[i].edges && !ag[i].edges[key].IsLive(evs[i].now)
    requires LeftAlone(tr, evs, i, n)
    requires evs[f].op.ReverifyOp? && Step(tr[f], evs[f]).Ok? && evs[m].op.ReverifyOp? && Step(tr[m], evs[m]).Ok?
    requires var b := VestaTrust.Health(tr[i]);
      evs[m].now >= (if b.failingSince != 0 then b.failingSince else evs[f].now) + b.graceSecs
    ensures IsEarn(evs[n].op) ==> Step(tr[n], evs[n]).Err?
  {
    hide Step, BoundTo;
    var k := m + 1;
    CrankFreezes(tr, evs, ag, aevs, i, f, m, k, key);
    DeTrustIsPermanent(tr, evs, ag, aevs, i, k, n, key);
    if IsEarn(evs[n].op) {
      DegradedFreezes(tr[n], evs[n]);
    }
  }

  lemma DegradedFreezes(s: Shop, e: Event)
    requires IsEarn(e.op) && s.merchant.issueStatus != TrustStreak.NORMAL
    ensures Step(s, e).Err?
  {
    hide RedeemOffer, Clawback, Move, MintTo, Burn, Configure, SetMerchantSegments, Accrue, CampaignPayout, SegmentBoostBps,
      RefreshCustomerEligibility, CreateOffer, SetOfferSegment, CloseOffer, OpenReserve, FundReserve, WithdrawReserve,
      CreateCampaign, UpdateCampaign, SetCampaignWinback, CloseCampaign, SetMerchantTrust, ReverifyMerchant, SetIssueStatus;
  }
}
