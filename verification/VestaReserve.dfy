/** The liability reserve: what full coverage is, and which instructions can lose it. */
module VestaReserve {
  import opened Base
  import opened Vesta
  import opened VestaFrame
  import VestaIssuance

  lemma ProductFits(supply: u64, unitValue: u64, ratioBps: u16)
    ensures supply * unitValue <= U128_MAX
    ensures supply * unitValue * ratioBps > U128_MAX ==> supply * unitValue * ratioBps / BPS_DENOMINATOR > U64_MAX
  {
    ProductMonotone(supply, U64_MAX, unitValue, 1);
  }

  /** The requirement is representable exactly when the true quotient fits u64, and then it is that quotient: no
      intermediate overflow loses an answer. */
  lemma RequiredIsTrueQuotient(r: MerchantReserve, supply: u64)
    ensures var q := supply * r.unitValue * r.targetRatioBps / BPS_DENOMINATOR;
      r.RequiredReserve(supply) == if q <= U64_MAX then Some(q) else None
  {
    ProductFits(supply, r.unitValue, r.targetRatioBps);
  }

  /** The open reserve holds at least what the outstanding supply requires. */
  predicate Covered(s: Shop) {
    s.reserve.Some? && match s.reserve.value.RequiredReserve(s.supply)
                       case None => false
                       case Some(required) => s.reserve.value.balance >= required
  }

  /** Coverage in integers: the target share of the liability is less than one unit above the balance. */
  lemma CoveredMeaning(s: Shop)
    requires s.reserve.Some?
    ensures var r := s.reserve.value;
      Covered(s) <==> s.supply * r.unitValue * r.targetRatioBps < (r.balance + 1) * BPS_DENOMINATOR
  {
    var r := s.reserve.value;
    RequiredIsTrueQuotient(r, s.supply);
    FloorAtMost(s.supply * r.unitValue * r.targetRatioBps, r.balance);
  }

  lemma FloorAtMost(x: nat, b: nat)
    ensures x / BPS_DENOMINATOR <= b <==> x < (b + 1) * BPS_DENOMINATOR
  {
  }

  lemma ProductMonotone(a: nat, b: nat, u: nat, r: nat)
    requires a <= b
    ensures a * u * r <= b * u * r
  {
    assert b * u == a * u + (b - a) * u;
    assert b * u * r == a * u * r + (b - a) * u * r;
  }

  /** An attestation says solvent exactly when the balance covers the true requirement; it fails only when that
      requirement does not fit u64. */
  lemma AttestationMeaning(s: Shop)
    requires s.reserve.Some?
    ensures var r := s.reserve.value; var owed := s.supply * r.unitValue * r.targetRatioBps;
      && (AttestReserve(s).Err? <==> owed / BPS_DENOMINATOR > U64_MAX)
      && (AttestReserve(s).Ok? ==> (AttestReserve(s).value.solvent <==> owed < (r.balance + 1) * BPS_DENOMINATOR))
  {
    RequiredIsTrueQuotient(s.reserve.value, s.supply);
    FloorAtMost(s.supply * s.reserve.value.unitValue * s.reserve.value.targetRatioBps, s.reserve.value.balance);
  }

  /** Less supply, more balance: still covered. */
  lemma CoverageMonotone(s: Shop, s': Shop)
    requires Covered(s) && s'.reserve.Some? && s'.supply <= s.supply
    requires var r, r' := s.reserve.value, s'.reserve.value;
      r'.unitValue == r.unitValue && r'.targetRatioBps == r.targetRatioBps && r'.balance >= r.balance
    ensures Covered(s')
  {
    hide Covered;
    CoveredOpen(s);
    CoveredMeaning(s);
    CoveredMeaning(s');
    var r := s.reserve.value;
    ProductMonotone(s'.supply, s.supply, r.unitValue, r.targetRatioBps);
  }

  lemma CoveredOpen(s: Shop)
    requires Covered(s)
    ensures s.reserve.Some?
  {
  }

  /** A withdrawal that goes through leaves the reserve covered, whatever it was before. */
  lemma WithdrawalLeavesCovered(s: Shop, signer: Pubkey, amount: u64)
    requires WithdrawReserve(s, signer, amount).Ok?
    ensures Covered(WithdrawReserve(s, signer, amount).value)
  {
  }

  lemma ReserveStep(s: Shop, e: Event)
    requires e.op.OpenReserveOp? || e.op.FundReserveOp?
    requires s.reserve.Some?
    ensures var s' := After(s, Step(s, e));
      && s'.supply == s.supply && s'.reserve.Some?
      && s'.reserve == Some(s.reserve.value.(balance := s'.reserve.value.balance))
      && s'.reserve.value.balance >= s.reserve.value.balance
  {
    hide EarnPoints, EarnPointsCampaign, RedeemOffer, Clawback, Move, MintTo, Burn, Configure, SetMerchantSegments,
      RefreshCustomerEligibility, CreateOffer, SetOfferSegment, CloseOffer, WithdrawReserve,
      CreateCampaign, UpdateCampaign, SetCampaignWinback, CloseCampaign, SetMerchantTrust, ReverifyMerchant, SetIssueStatus;
  }

  lemma WithdrawStep(s: Shop, e: Event)
    requires e.op.WithdrawReserveOp? && Covered(s)
    ensures Covered(After(s, Step(s, e)))
  {
    hide EarnPoints, EarnPointsCampaign, RedeemOffer, Clawback, Move, MintTo, Burn, Configure, SetMerchantSegments,
      RefreshCustomerEligibility, CreateOffer, SetOfferSegment, CloseOffer, OpenReserve, FundReserve, WithdrawReserve,
      CreateCampaign, UpdateCampaign, SetCampaignWinback, CloseCampaign, SetMerchantTrust, ReverifyMerchant, SetIssueStatus,
      Covered;
    if Step(s, e).Ok? {
      WithdrawalLeavesCovered(s, e.op.signer, e.op.amount);
    }
  }

  /** Once true, coverage is lost by nothing but an earn or a swap-in. */
  lemma CoverageKept(s: Shop, e: Event)
    requires Covered(s) && !IsEarn(e.op) && !e.op.SwapInOp?
    ensures Covered(After(s, Step(s, e)))
  {
    hide Step, Covered;
    CoveredOpen(s);
    if e.op.WithdrawReserveOp? {
      WithdrawStep(s, e);
    } else {
      if e.op.OpenReserveOp? || e.op.FundReserveOp? {
        ReserveStep(s, e);
      } else {
        StepFrame(s, e);
        VestaIssuance.StepSupply(s, e);
      }
      CoverageMonotone(s, After(s, Step(s, e)));
    }
  }

  /** Over a whole stretch without earns or swap-ins, every state stays covered. */
  lemma {:induction false} CoverageLasts(tr: seq<Shop>, evs: seq<Event>, i: nat, n: nat)
    requires IsTrace(tr, evs) && i <= n <= |evs| && Covered(tr[i])
    requires forall m :: i <= m < n ==> !IsEarn(evs[m].op) && !evs[m].op.SwapInOp?
    ensures Covered(tr[n])
    decreases n
  {
    hide Step, Covered;
    if i < n {
      CoverageLasts(tr, evs, i, n - 1);
      CoverageKept(tr[n - 1], evs[n - 1]);
    }
  }
}
