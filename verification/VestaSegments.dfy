/** The eligibility cache: each bit is the last verdict taken for its segment under the cache's epoch. */
module VestaSegments {
  import opened Base
  import opened Vesta
  import opened VestaFrame
  import Aegis

  // --------------------------------------------------------------------------- bits

  lemma BitValue(i: u8)
    requires i < MAX_SEGMENTS
    ensures Bit(i) == if i < 4 then if i < 2 then if i == 0 then 1 else 2 else if i == 2 then 4 else 8
                      else if i < 6 then if i == 4 then 16 else 32 else if i == 6 then 64 else 128
  {
  }

  lemma BitsApart(i: u8, j: u8)
    requires i < MAX_SEGMENTS && j < MAX_SEGMENTS
    ensures Bit(i) != 0 && (i != j ==> Bit(i) & Bit(j) == 0)
  {
    hide Bit;
    BitValue(i);
    BitValue(j);
  }

  lemma JoinApart(v: bv32, a: bv32, b: bv32)
    requires a & b == 0
    ensures (v | a) & b == v & b
  {
  }

  lemma WithoutApart(v: bv32, a: bv32, b: bv32)
    requires a & b == 0
    ensures (v & !a) & b == v & b
  {
  }

  lemma JoinMeets(v: bv32, a: bv32, b: bv32)
    ensures a != 0 ==> Meets(Joined(v, a), a)
    ensures a & b == 0 ==> Meets(Joined(v, a), b) == Meets(v, b)
  {
    if a & b == 0 {
      JoinApart(v, a, b);
    }
  }

  lemma WithoutMeets(v: bv32, a: bv32, b: bv32)
    ensures !Meets(Without(v, a), a)
    ensures a & b == 0 ==> Meets(Without(v, a), b) == Meets(v, b)
  {
    if a & b == 0 {
      WithoutApart(v, a, b);
    }
  }

  /** Writing one bit decides that bit and no other. */
  lemma OneBit(v: bv32, i: u8, on: bool, j: u8)
    requires i < MAX_SEGMENTS && j < MAX_SEGMENTS
    ensures HasBit(WithBit(v, i, on), j) <==> if i == j then on else HasBit(v, j)
  {
    hide Bit, Meets, Joined, Without;
    BitsApart(i, j);
    JoinMeets(v, Bit(i), Bit(j));
    WithoutMeets(v, Bit(i), Bit(j));
  }

  lemma NoBits(j: u8)
    requires j < MAX_SEGMENTS
    ensures !HasBit(0, j)
  {
  }

  // ------------------------------------------------------------------------ one step

  function Epoch(s: Shop): u64 {
    if s.segments.Some? then s.segments.value.policyEpoch else 0
  }

  /** Event `e` refreshes the customer's verdict for segment `i`. */
  predicate Refreshes(s: Shop, e: Event, c: Pubkey, i: u8) {
    e.op.RefreshOp? && e.op.customer == c && e.op.index == i && Step(s, e).Ok?
  }

  /** A refresh decides its own bit; the others carry over only within the epoch. */
  lemma RefreshWrites(s: Shop, c: Pubkey, i: u8, verdict: Aegis.Verdict, now: i64, j: u8)
    requires RefreshCustomerEligibility(s, c, i, verdict, now).Ok? && j < MAX_SEGMENTS
    ensures var s' := RefreshCustomerEligibility(s, c, i, verdict, now).value;
      && i < MAX_SEGMENTS && c in s'.eligibility && s'.eligibility == s.eligibility[c := s'.eligibility[c]]
      && s'.eligibility[c].policyEpoch == Epoch(s)
      && (HasBit(s'.eligibility[c].verdicts, j) <==>
            if j == i then verdict.ok
            else c in s.eligibility && s.eligibility[c].policyEpoch == Epoch(s) && HasBit(s.eligibility[c].verdicts, j))
  {
    hide HasBit, WithBit;
    var carried := if c !in s.eligibility || s.eligibility[c].policyEpoch != Epoch(s) then 0 else s.eligibility[c].verdicts;
    OneBit(carried, i, verdict.ok, j);
    NoBits(j);
  }

  lemma SetSegmentsMoves(s: Shop, signer: Pubkey, segments: seq<Segment>)
    ensures var s' := After(s, SetMerchantSegments(s, signer, segments));
      Epoch(s) <= Epoch(s') && (Epoch(s') == Epoch(s) < U64_MAX ==> s' == s)
  {
    hide PadSegments;
  }

  /** Below saturation, and only there, a new segment set moves the epoch and so invalidates every cache. */
  lemma SegmentEpochMovesBelowSaturation(s: Shop, signer: Pubkey, segments: seq<Segment>)
    requires SetMerchantSegments(s, signer, segments).Ok?
    ensures Epoch(SetMerchantSegments(s, signer, segments).value) > Epoch(s) <==> Epoch(s) < U64_MAX
  {
    hide PadSegments;
  }

  lemma StepSegments(s: Shop, e: Event)
    ensures var s' := After(s, Step(s, e));
      Epoch(s) <= Epoch(s') && (Epoch(s') == Epoch(s) < U64_MAX ==> s'.segments == s.segments)
  {
    hide EarnPoints, EarnPointsCampaign, RedeemOffer, Clawback, Move, MintTo, Burn, Configure, SetMerchantSegments,
      RefreshCustomerEligibility, CreateOffer, SetOfferSegment, CloseOffer, OpenReserve, FundReserve, WithdrawReserve,
      CreateCampaign, UpdateCampaign, SetCampaignWinback, CloseCampaign, SetMerchantTrust, ReverifyMerchant, SetIssueStatus;
    StepFrame(s, e);
    if e.op.SetSegmentsOp? {
      SetSegmentsMoves(s, e.op.signer, e.op.segments);
    }
  }

  lemma StepEligibility(s: Shop, e: Event, c: Pubkey, j: u8)
    requires j < MAX_SEGMENTS
    ensures var s' := After(s, Step(s, e));
      if e.op.RefreshOp? && Refreshes(s, e, c, e.op.index) then
        && c in s'.eligibility && s'.eligibility[c].policyEpoch == Epoch(s)
        && (HasBit(s'.eligibility[c].verdicts, j) <==>
              if j == e.op.index then e.op.verdict.ok
              else c in s.eligibility && s.eligibility[c].policyEpoch == Epoch(s) && HasBit(s.eligibility[c].verdicts, j))
      else (c in s'.eligibility <==> c in s.eligibility) && (c in s.eligibility ==> s'.eligibility[c] == s.eligibility[c])
  {
    hide EarnPoints, EarnPointsCampaign, RedeemOffer, Clawback, Move, MintTo, Burn, Configure, SetMerchantSegments,
      RefreshCustomerEligibility, CreateOffer, SetOfferSegment, CloseOffer, OpenReserve, FundReserve, WithdrawReserve,
      CreateCampaign, UpdateCampaign, SetCampaignWinback, CloseCampaign, SetMerchantTrust, ReverifyMerchant, SetIssueStatus,
      HasBit;
    StepFrame(s, e);
    if e.op.RefreshOp? && Step(s, e).Ok? {
      RefreshWrites(s, e.op.customer, e.op.index, e.op.verdict, e.now, j);
    }
  }

  // --------------------------------------------------------------------- the history

  /** The latest refresh of segment `i` for the customer under `epoch`, -1 if none. */
  function LastRefresh(tr: seq<Shop>, evs: seq<Event>, n: nat, c: Pubkey, i: u8, epoch: u64): (j: int)
    requires n <= |evs| <= |tr|
    ensures -1 <= j < n
    ensures j >= 0 ==> Refreshes(tr[j], evs[j], c, i) && Epoch(tr[j]) == epoch
    ensures forall m :: j < m < n && Refreshes(tr[m], evs[m], c, i) ==> Epoch(tr[m]) != epoch
  {
    if n == 0 then -1
    else if Refreshes(tr[n - 1], evs[n - 1], c, i) && Epoch(tr[n - 1]) == epoch then n - 1
    else LastRefresh(tr, evs, n - 1, c, i, epoch)
  }

  predicate LastVerdict(tr: seq<Shop>, evs: seq<Event>, n: nat, c: Pubkey, i: u8, epoch: u64)
    requires n <= |evs| <= |tr|
  {
    var j := LastRefresh(tr, evs, n, c, i, epoch);
    j >= 0 && evs[j].op.verdict.ok
  }

  lemma {:induction false} EpochsAdvance(tr: seq<Shop>, evs: seq<Event>, m: nat, n: nat)
    requires IsTrace(tr, evs) && m <= n <= |evs|
    ensures Epoch(tr[m]) <= Epoch(tr[n])
    ensures Epoch(tr[m]) == Epoch(tr[n]) < U64_MAX ==> tr[m].segments == tr[n].segments
    decreases n
  {
    hide Step;
    if m < n {
      EpochsAdvance(tr, evs, m, n - 1);
      StepSegments(tr[n - 1], evs[n - 1]);
    }
  }

  /** The cache belongs to the epoch of the customer's latest refresh. */
  lemma {:induction false} CacheEpoch(tr: seq<Shop>, evs: seq<Event>, n: nat, m: nat, c: Pubkey, i: u8)
    requires IsTrace(tr, evs) && m < n <= |evs| && Refreshes(tr[m], evs[m], c, i)
    ensures c in tr[n].eligibility && Epoch(tr[m]) <= tr[n].eligibility[c].policyEpoch
    decreases n
  {
    hide Step, HasBit;
    StepEligibility(tr[n - 1], evs[n - 1], c, 0);
    if m < n - 1 {
      CacheEpoch(tr, evs, n - 1, m, c, i);
      EpochsAdvance(tr, evs, m, n - 1);
    }
  }

  /** Bit `i` of a customer's cache is the verdict of the latest refresh of segment `i` under the cache's epoch, clear
      if there was none; refreshing another segment never disturbs it. */
  lemma {:induction false} BitIsLastVerdict(tr: seq<Shop>, evs: seq<Event>, n: nat, c: Pubkey, i: u8)
    requires IsTrace(tr, evs) && n <= |evs| && i < MAX_SEGMENTS && c in tr[n].eligibility
    ensures HasBit(tr[n].eligibility[c].verdicts, i) <==> LastVerdict(tr, evs, n, c, i, tr[n].eligibility[c].policyEpoch)
  {
    hide Step, HasBit;
    if n > 0 {
      var s, e := tr[n - 1], evs[n - 1];
      StepEligibility(s, e, c, i);
      if c in s.eligibility && s.eligibility[c].policyEpoch == tr[n].eligibility[c].policyEpoch {
        BitIsLastVerdict(tr, evs, n - 1, c, i);
      } else {
        var j := LastRefresh(tr, evs, n - 1, c, i, Epoch(s));
        if j >= 0 {
          CacheEpoch(tr, evs, n - 1, j, c, i);
          CacheNotAhead(tr, evs, n - 1, c);
        }
      }
    }
  }

  lemma {:induction false} CacheNotAhead(tr: seq<Shop>, evs: seq<Event>, n: nat, c: Pubkey)
    requires IsTrace(tr, evs) && n <= |evs| && c in tr[n].eligibility
    ensures tr[n].eligibility[c].policyEpoch <= Epoch(tr[n])
  {
    hide Step, HasBit;
    if n > 0 {
      StepEligibility(tr[n - 1], evs[n - 1], c, 0);
      StepSegments(tr[n - 1], evs[n - 1]);
      if c in tr[n - 1].eligibility {
        CacheNotAhead(tr, evs, n - 1, c);
      }
    }
  }

  /** A satisfied gate rests on an ok verdict for that segment, the latest taken under the epoch in force; below epoch
      saturation it was taken under the very segment definitions in force now. */
  lemma GateRestsOnVerdict(tr: seq<Shop>, evs: seq<Event>, n: nat, c: Pubkey, i: u8, now: i64)
    requires IsTrace(tr, evs) && n <= |evs| && i < MAX_SEGMENTS
    requires c in tr[n].eligibility && tr[n].eligibility[c].Satisfies(i, Epoch(tr[n]), now)
    ensures var j := LastRefresh(tr, evs, n, c, i, Epoch(tr[n]));
      && j >= 0 && evs[j].op.verdict.ok
      && (Epoch(tr[n]) < U64_MAX ==> tr[j].segments == tr[n].segments)
  {
    hide Step, HasBit;
    BitIsLastVerdict(tr, evs, n, c, i);
    EpochsAdvance(tr, evs, LastRefresh(tr, evs, n, c, i, Epoch(tr[n])), n);
  }

  /** What the active segments add up to for a customer by the verdicts on record. */
  function VerdictBoost(tr: seq<Shop>, evs: seq<Event>, n: nat, c: Pubkey, segments: seq<Segment>, epoch: u64, k: nat): nat
    requires n <= |evs| <= |tr| && k <= |segments| && k <= MAX_SEGMENTS
  {
    if k == 0 then 0
    else VerdictBoost(tr, evs, n, c, segments, epoch, k - 1)
         + if segments[k - 1].active && LastVerdict(tr, evs, n, c, k - 1, epoch) then segments[k - 1].boostBps else 0
  }

  lemma {:induction false} BoostAddsVerdicts(tr: seq<Shop>, evs: seq<Event>, n: nat, c: Pubkey, segments: seq<Segment>, k: nat)
    requires IsTrace(tr, evs) && n <= |evs| && k <= |segments| && k <= MAX_SEGMENTS && c in tr[n].eligibility
    ensures BoostBps(segments, tr[n].eligibility[c].verdicts, k)
         == VerdictBoost(tr, evs, n, c, segments, tr[n].eligibility[c].policyEpoch, k)
  {
    hide Step, HasBit, LastVerdict;
    if k > 0 {
      BoostAddsVerdicts(tr, evs, n, c, segments, k - 1);
      BitIsLastVerdict(tr, evs, n, c, k - 1);
    }
  }

  /** The boost a plain earn gets is the sum over the active segments whose last verdict is ok, or nothing at all
      when the cache is stale. */
  lemma BoostIsVerdicts(tr: seq<Shop>, evs: seq<Event>, n: nat, c: Pubkey, now: i64)
    requires IsTrace(tr, evs) && n <= |evs| && tr[n].segments.Some? && c in tr[n].eligibility
    ensures var segs, cel := tr[n].segments.value.segments, tr[n].eligibility[c];
      SegmentBoostBps(tr[n], c, now) ==
        if cel.policyEpoch == Epoch(tr[n]) && now < cel.expiresAt
        then VerdictBoost(tr, evs, n, c, segs, Epoch(tr[n]), Min(|segs|, MAX_SEGMENTS)) else 0
  {
    hide Step, HasBit, LastVerdict;
    BoostAddsVerdicts(tr, evs, n, c, tr[n].segments.value.segments, Min(|tr[n].segments.value.segments|, MAX_SEGMENTS));
  }
}
