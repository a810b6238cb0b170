/** What every instruction of the guard keeps, and what no run can change back. */
module ArgusInvariant {
  import opened Base
  import opened Argus
  import TrustStreak

  predicate Coherent(c: GuardConfig) {
    && ValidatePolicy(c.flags, c.dailyGiftCap, c.perTxCap, c.aegisProgram, c.policy, c.attestationIssuer).Pass?
    && c.capabilityTtlSecs >= 0
  }

  /** The live config is the content of the active version; versions sit at their content address;
      the pending slot names an approved or unapproved version that is not the active one. */
  ghost predicate ContentInv(h: PolicyDoc -> Hash, g: Guard)
    requires g.pointer.Some?
  {
    var p := g.pointer.value;
    && (forall k :: k in g.versions ==> g.versions[k].policyHash == k && h(g.versions[k].doc) == k)
    && p.activeHash in g.versions
    && g.config.activePolicyHash == p.activeHash
    && g.versions[p.activeHash].doc == g.config.AsPolicyDoc()
    && g.versions[p.activeHash].approvedAt != 0
    && (p.pendingHash != ZERO_HASH ==>
          && p.pendingHash in g.versions && p.pendingHash != p.activeHash
          && g.versions[p.pendingHash].approvedAt == p.pendingApprovedAt)
    && (p.pendingHash == ZERO_HASH ==> p.pendingApprovedAt == 0)
  }

  /** RoleAdmin is never unset, nor about to be. */
  predicate RolesInv(g: Guard)
    requires Adopted(g)
  {
    var p, r := g.pointer.value, g.registry.value;
    && 0 <= p.timelockSecs <= MAX_GOVERNANCE_TIMELOCK_SECS
    && r.roleAdmin != DEFAULT_KEY
    && (r.pendingAfter != 0 ==> RoleFrom(r.pendingRole).Some?
                                && (r.pendingRole == 0 ==> r.pendingAuthority != DEFAULT_KEY))
  }

  ghost predicate GovernedInv(h: PolicyDoc -> Hash, g: Guard)
    requires Adopted(g)
  {
    ContentInv(h, g) && RolesInv(g)
  }

  predicate AnchorInv(g: Guard) {
    g.anchor.Some? ==> TrustStreak.IsValidTarget(g.anchor.value.degradeTarget) && g.anchor.value.graceSecs >= 0
  }

  ghost predicate Inv(h: PolicyDoc -> Hash, g: Guard) {
    && Coherent(g.config)
    && (g.config.governed <==> g.pointer.Some?) && (g.config.governed <==> g.registry.Some?)
    && (if g.config.governed then GovernedInv(h, g) else g.versions == map[])
    && AnchorInv(g)
  }

  predicate WritesPolicy(op: Op) {
    op.ConfigureOp? || op.InitGovernanceOp? || op.ProposeOp? || op.ApproveOp? || op.ActivateOp? || op.RollbackOp? || op.PinOp?
  }

  /** Everything outside the policy lifecycle leaves policy, versions and their bookkeeping alone. */
  lemma OffPolicy(h: PolicyDoc -> Hash, g: Guard, op: Op, now: i64)
    requires !WritesPolicy(op)
    ensures var g' := After(g, Step(h, g, op, now));
      && g'.versions == g.versions && g'.pointer == g.pointer
      && g'.config.AsPolicyDoc() == g.config.AsPolicyDoc() && g'.config.policyEpoch == g.config.policyEpoch
      && g'.config.governed == g.config.governed && g'.config.activePolicyHash == g.config.activePolicyHash
      && ConfigEvolves(g.config, g'.config)
  {
    hide ConfigurePolicy, InitializeGovernance, ProposePolicy, ApprovePolicy, ActivatePolicy, RollbackPolicy, PinPolicy,
      Decide, TrustStreak.Crank, TrustStreak.Override, TrustStreak.Bind;
  }

  lemma PolicyOpKeepsCoherence(h: PolicyDoc -> Hash, g: Guard, op: Op, now: i64)
    requires WritesPolicy(op) && Coherent(g.config)
    ensures Coherent(After(g, Step(h, g, op, now)).config)
  {
    hide SetGuardPaused, TransferGuardAuthority, AcceptGuardAuthority, AddListEntry, RemoveListEntry, ProposeRoleChange,
      ApplyRoleChange, RefreshEligibility, InvalidateCapability, SetTrustAnchor, ReverifyAccreditation, SetDegradeMode,
      BumpScreeningEpoch, OpenWalletState, Execute;
  }

  lemma StepKeepsCoherence(h: PolicyDoc -> Hash, g: Guard, op: Op, now: i64)
    requires Coherent(g.config)
    ensures Coherent(After(g, Step(h, g, op, now)).config)
  {
    hide Step;
    if WritesPolicy(op) {
      PolicyOpKeepsCoherence(h, g, op, now);
    } else {
      OffPolicy(h, g, op, now);
      SameDocSameFields(g.config, After(g, Step(h, g, op, now)).config);
    }
  }

  /** Equal documents mean nine equal fields. */
  lemma SameDocSameFields(c: GuardConfig, c': GuardConfig)
    requires c'.AsPolicyDoc() == c.AsPolicyDoc()
    ensures c'.flags == c.flags && c'.dailyGiftCap == c.dailyGiftCap && c'.perTxCap == c.perTxCap
    ensures c'.maxWalletBalance == c.maxWalletBalance && c'.transfersPerDayCap == c.transfersPerDayCap
    ensures c'.cooldownSecs == c.cooldownSecs && c'.attestationSchema == c.attestationSchema
    ensures c'.capabilityTtlSecs == c.capabilityTtlSecs && c'.policy == c.policy
  {
  }

  lemma PolicyOpKeepsContent(h: PolicyDoc -> Hash, g: Guard, op: Op, now: i64)
    requires WritesPolicy(op)
    requires g.pointer.Some? && g.config.governed && ContentInv(h, g) && now > 0 && forall d :: h(d) != ZERO_HASH
    ensures var g' := After(g, Step(h, g, op, now)); g'.pointer.Some? && g'.config.governed && ContentInv(h, g')
  {
    hide SetGuardPaused, TransferGuardAuthority, AcceptGuardAuthority, AddListEntry, RemoveListEntry, ProposeRoleChange,
      ApplyRoleChange, RefreshEligibility, InvalidateCapability, SetTrustAnchor, ReverifyAccreditation, SetDegradeMode,
      BumpScreeningEpoch, OpenWalletState, Execute;
  }

  lemma StepKeepsContent(h: PolicyDoc -> Hash, g: Guard, op: Op, now: i64)
    requires g.pointer.Some? && g.config.governed && ContentInv(h, g) && now > 0 && forall d :: h(d) != ZERO_HASH
    ensures var g' := After(g, Step(h, g, op, now)); g'.pointer.Some? && g'.config.governed && ContentInv(h, g')
  {
    hide Step;
    if WritesPolicy(op) {
      PolicyOpKeepsContent(h, g, op, now);
    } else {
      OffPolicy(h, g, op, now);
    }
  }

  lemma StepKeepsRoles(h: PolicyDoc -> Hash, g: Guard, op: Op, now: i64)
    requires Adopted(g) && RolesInv(g)
    ensures var g' := After(g, Step(h, g, op, now)); Adopted(g') && RolesInv(g')
  {
  }

  lemma StepBeforeGovernance(h: PolicyDoc -> Hash, g: Guard, op: Op, now: i64)
    requires Inv(h, g) && !Adopted(g) && now > 0 && forall d :: h(d) != ZERO_HASH
    ensures var g' := After(g, Step(h, g, op, now));
      if Adopted(g') then g'.config.governed && GovernedInv(h, g')
      else !g'.config.governed && g'.pointer.None? && g'.registry.None? && g'.versions == map[]
  {
  }

  lemma StepKeepsAnchor(h: PolicyDoc -> Hash, g: Guard, op: Op, now: i64)
    requires AnchorInv(g)
    ensures AnchorInv(After(g, Step(h, g, op, now)))
  {
  }

  /** Every reachable config passes validation with a nonnegative capability lifetime, and in every
      reachable governed state its nine policy fields are the document of the active version. */
  lemma {:induction false} ReachableInv(h: PolicyDoc -> Hash, tr: seq<Guard>, evs: seq<Event>, n: nat)
    requires IsTrace(h, tr, evs) && n <= |evs|
    ensures Inv(h, tr[n])
  {
    hide Step;
    if n > 0 {
      ReachableInv(h, tr, evs, n - 1);
      var g, e := tr[n - 1], evs[n - 1];
      StepKeepsCoherence(h, g, e.op, e.now);
      StepKeepsAnchor(h, g, e.op, e.now);
      if Adopted(g) {
        StepKeepsContent(h, g, e.op, e.now);
        StepKeepsRoles(h, g, e.op, e.now);
      } else {
        StepBeforeGovernance(h, g, e.op, e.now);
      }
    }
  }

  /** A version that is not, and so never again will be, the pending one. */
  predicate Settled(g: Guard, hash: Hash) {
    g.pointer.Some? && hash in g.versions && g.pointer.value.pendingHash != hash
  }

  /** Bindings are fixed, epochs never fall, and one unsaturated epoch means one policy. */
  ghost predicate ConfigEvolves(c: GuardConfig, c': GuardConfig) {
    && c'.aegisProgram == c.aegisProgram && c'.attestationIssuer == c.attestationIssuer && c'.treasury == c.treasury
    && c.policyEpoch <= c'.policyEpoch && c.screeningEpoch <= c'.screeningEpoch
    && (c'.policyEpoch == c.policyEpoch < U64_MAX ==> c'.AsPolicyDoc() == c.AsPolicyDoc())
    && (c.governed ==> c'.governed)
  }

  /** Versions are never removed or rewritten, and approval is never withdrawn. */
  ghost predicate VersionsEvolve(g: Guard, g': Guard) {
    forall k :: k in g.versions ==>
      && k in g'.versions
      && g'.versions[k].doc == g.versions[k].doc
      && g'.versions[k].author == g.versions[k].author
      && (g.versions[k].approvedAt != 0 ==> g'.versions[k].approvedAt != 0)
  }

  /** The timelock is fixed, a settled version is frozen, and a pin freezes the policy. */
  ghost predicate PointerEvolves(g: Guard, g': Guard) {
    g.pointer.Some? ==>
      && g'.pointer.Some?
      && g'.pointer.value.timelockSecs == g.pointer.value.timelockSecs
      && (forall k :: Settled(g, k) ==> Settled(g', k) && g'.versions[k] == g.versions[k])
      && (g.config.governed && g.pointer.value.pinned ==>
            && g'.pointer.value.pinned && g'.pointer.value.activeHash == g.pointer.value.activeHash
            && g'.config.policyEpoch == g.config.policyEpoch && g'.config.AsPolicyDoc() == g.config.AsPolicyDoc())
  }

  lemma PolicyOpConfigEvolves(h: PolicyDoc -> Hash, g: Guard, op: Op, now: i64)
    requires WritesPolicy(op)
    ensures ConfigEvolves(g.config, After(g, Step(h, g, op, now)).config)
  {
    hide SetGuardPaused, TransferGuardAuthority, AcceptGuardAuthority, AddListEntry, RemoveListEntry, ProposeRoleChange,
      ApplyRoleChange, RefreshEligibility, InvalidateCapability, SetTrustAnchor, ReverifyAccreditation, SetDegradeMode,
      BumpScreeningEpoch, OpenWalletState, Execute;
  }

  lemma StepConfigEvolves(h: PolicyDoc -> Hash, g: Guard, op: Op, now: i64)
    ensures ConfigEvolves(g.config, After(g, Step(h, g, op, now)).config)
  {
    hide Step;
    if WritesPolicy(op) {
      PolicyOpConfigEvolves(h, g, op, now);
    } else {
      OffPolicy(h, g, op, now);
    }
  }

  lemma PolicyOpVersionsEvolve(h: PolicyDoc -> Hash, g: Guard, op: Op, now: i64)
    requires WritesPolicy(op) && now > 0
    ensures VersionsEvolve(g, After(g, Step(h, g, op, now)))
  {
    hide SetGuardPaused, TransferGuardAuthority, AcceptGuardAuthority, AddListEntry, RemoveListEntry, ProposeRoleChange,
      ApplyRoleChange, RefreshEligibility, InvalidateCapability, SetTrustAnchor, ReverifyAccreditation, SetDegradeMode,
      BumpScreeningEpoch, OpenWalletState, Execute;
  }

  lemma StepVersionsEvolve(h: PolicyDoc -> Hash, g: Guard, op: Op, now: i64)
    requires now > 0
    ensures VersionsEvolve(g, After(g, Step(h, g, op, now)))
  {
    hide Step;
    if WritesPolicy(op) {
      PolicyOpVersionsEvolve(h, g, op, now);
    } else {
      OffPolicy(h, g, op, now);
    }
  }

  lemma PolicyOpPointerEvolves(h: PolicyDoc -> Hash, g: Guard, op: Op, now: i64)
    requires WritesPolicy(op) && Inv(h, g) && forall d :: h(d) != ZERO_HASH
    ensures PointerEvolves(g, After(g, Step(h, g, op, now)))
  {
    hide SetGuardPaused, TransferGuardAuthority, AcceptGuardAuthority, AddListEntry, RemoveListEntry, ProposeRoleChange,
      ApplyRoleChange, RefreshEligibility, InvalidateCapability, SetTrustAnchor, ReverifyAccreditation, SetDegradeMode,
      BumpScreeningEpoch, OpenWalletState, Execute;
  }

  lemma StepPointerEvolves(h: PolicyDoc -> Hash, g: Guard, op: Op, now: i64)
    requires Inv(h, g) && forall d :: h(d) != ZERO_HASH
    ensures PointerEvolves(g, After(g, Step(h, g, op, now)))
  {
    hide Step;
    if WritesPolicy(op) {
      PolicyOpPointerEvolves(h, g, op, now);
    } else {
      OffPolicy(h, g, op, now);
    }
  }

  ghost predicate Evolves(g: Guard, g': Guard) {
    ConfigEvolves(g.config, g'.config) && VersionsEvolve(g, g') && PointerEvolves(g, g')
  }

  lemma EvolvesTwice(a: Guard, b: Guard, c: Guard)
    requires Evolves(a, b) && Evolves(b, c)
    ensures Evolves(a, c)
  {
    hide GuardConfig.AsPolicyDoc;
  }

  lemma {:induction false} RunEvolves(h: PolicyDoc -> Hash, tr: seq<Guard>, evs: seq<Event>, i: nat, n: nat)
    requires IsTrace(h, tr, evs) && i <= n <= |evs|
    ensures Evolves(tr[i], tr[n])
    decreases n
  {
    hide Step, ConfigEvolves, VersionsEvolve, PointerEvolves;
    if i < n {
      var m := n - 1;
      RunEvolves(h, tr, evs, i, m);
      ReachableInv(h, tr, evs, m);
      StepConfigEvolves(h, tr[m], evs[m].op, evs[m].now);
      StepVersionsEvolve(h, tr[m], evs[m].op, evs[m].now);
      StepPointerEvolves(h, tr[m], evs[m].op, evs[m].now);
      EvolvesTwice(tr[i], tr[m], tr[n]);
    } else {
      EvolvesItself(tr[i]);
    }
  }

  lemma EvolvesItself(g: Guard)
    ensures Evolves(g, g)
  {
  }

  /** Two states of one run with the same unsaturated epoch have the same nine policy fields, whether
      or not governance was adopted in between. */
  lemma EpochNamesPolicy(h: PolicyDoc -> Hash, tr: seq<Guard>, evs: seq<Event>, i: nat, n: nat)
    requires IsTrace(h, tr, evs) && i <= n <= |evs|
    requires tr[i].config.policyEpoch == tr[n].config.policyEpoch < U64_MAX
    ensures tr[i].config.AsPolicyDoc() == tr[n].config.AsPolicyDoc()
  {
    RunEvolves(h, tr, evs, i, n);
  }

  /** The bound is exact: a policy write moves the epoch exactly when it is below saturation, and at
      saturation it can change what the epoch is taken to identify. */
  lemma EpochMovesBelowSaturation(h: PolicyDoc -> Hash, g: Guard, op: Op, now: i64)
    requires op.ConfigureOp? || op.ActivateOp? || op.RollbackOp?
    requires Step(h, g, op, now).Ok?
    ensures Step(h, g, op, now).value.config.policyEpoch > g.config.policyEpoch <==> g.config.policyEpoch < U64_MAX
  {
  }

  /** Likewise for the screening epoch. */
  lemma ScreeningMovesBelowSaturation(h: PolicyDoc -> Hash, g: Guard, op: Op, now: i64)
    requires op.BumpScreeningOp? && Step(h, g, op, now).Ok?
    ensures Step(h, g, op, now).value.config.screeningEpoch > g.config.screeningEpoch <==> g.config.screeningEpoch < U64_MAX
  {
  }

  lemma SaturatedEpochHidesAChange(g: Guard, cap: u64)
    requires Coherent(g.config) && !g.config.governed && g.config.policyEpoch == U64_MAX
    requires g.config.perTxCap == 0 && cap != g.config.dailyGiftCap
    ensures var r := ConfigurePolicy(g, g.config.authority, PolicyUpdate(None, Some(cap), None, None, None, None, None, None));
      r.Ok? && r.value.config.policyEpoch == g.config.policyEpoch && r.value.config.AsPolicyDoc() != g.config.AsPolicyDoc()
  {
    var r := ConfigurePolicy(g, g.config.authority, PolicyUpdate(None, Some(cap), None, None, None, None, None, None));
    assert r.Ok? && r.value.config.dailyGiftCap == cap;
  }

  const NO_UPDATE := PolicyUpdate(None, None, None, None, None, None, None, None)

  /** Rewriting the policy it already has `k` times takes a plain guard to epoch `k`: saturation is reachable. */
  lemma {:induction false} EpochAfterRewrites(h: PolicyDoc -> Hash, k: u64) returns (tr: seq<Guard>, evs: seq<Event>)
    requires forall d :: h(d) != ZERO_HASH
    ensures IsTrace(h, tr, evs) && |evs| == k && (k > 0 ==> evs[k - 1].now == 1)
    ensures var c := tr[k].config;
      && c.policyEpoch == k && c.authority == 1 && !c.governed && Coherent(c)
      && c.AsPolicyDoc() == PolicyDoc(0, 0, 0, 0, 0, 0, 0, 0, DEFAULT_KEY)
    decreases k
  {
    hide Step;
    if k == 0 {
      var g := PlainGuard(h, 1, 9);
      tr, evs := [g], [];
      ReachableInv(h, tr, evs, 0);
    } else {
      var tr0, evs0 := EpochAfterRewrites(h, k - 1);
      var e := Event(ConfigureOp(1, NO_UPDATE), 1);
      RewriteMovesEpoch(h, tr0[k - 1], e);
      RunExtends(h, tr0, evs0, e);
      tr, evs := tr0 + [After(tr0[k - 1], Step(h, tr0[k - 1], e.op, 1))], evs0 + [e];
    }
  }

  lemma RewriteMovesEpoch(h: PolicyDoc -> Hash, g: Guard, e: Event)
    requires e.op == ConfigureOp(g.config.authority, NO_UPDATE) && Coherent(g.config) && !g.config.governed
    ensures After(g, Step(h, g, e.op, e.now)).config == g.config.(policyEpoch := SatAdd64(g.config.policyEpoch, 1))
  {
    assert Step(h, g, e.op, e.now) == ConfigurePolicy(g, g.config.authority, NO_UPDATE);
  }

  /** So there is a run whose last two states have the same epoch and different policies. */
  lemma SaturatedRunHidesAChange(h: PolicyDoc -> Hash) returns (tr: seq<Guard>, evs: seq<Event>)
    requires forall d :: h(d) != ZERO_HASH
    ensures IsTrace(h, tr, evs) && |evs| == U64_MAX + 1
    ensures var c, c' := tr[U64_MAX].config, tr[U64_MAX + 1].config;
      c'.policyEpoch == c.policyEpoch && c'.AsPolicyDoc() != c.AsPolicyDoc()
  {
    hide Step;
    var tr0, evs0 := EpochAfterRewrites(h, U64_MAX);
    var g := tr0[U64_MAX];
    var e := Event(ConfigureOp(1, PolicyUpdate(None, Some(1), None, None, None, None, None, None)), 1);
    RunExtends(h, tr0, evs0, e);
    SameDocSameFields(g.config, g.config.(policyEpoch := 0));
    SaturatedEpochHidesAChange(g, 1) by { assert g.config.perTxCap == 0 && g.config.dailyGiftCap == 0; }
    ConfigureStep(h, g, e);
    tr, evs := tr0 + [After(g, Step(h, g, e.op, 1))], evs0 + [e];
  }

  lemma ConfigureStep(h: PolicyDoc -> Hash, g: Guard, e: Event)
    requires e.op.ConfigureOp?
    ensures Step(h, g, e.op, e.now) == ConfigurePolicy(g, e.op.signer, e.op.update)
  {
  }

  /** Once pinned, the policy fields, the epoch and the active hash never change again. */
  lemma PinIsForever(h: PolicyDoc -> Hash, tr: seq<Guard>, evs: seq<Event>, i: nat, n: nat)
    requires IsTrace(h, tr, evs) && i <= n <= |evs|
    requires tr[i].pointer.Some? && tr[i].pointer.value.pinned
    ensures tr[n].pointer.Some? && tr[n].pointer.value.pinned
    ensures tr[n].pointer.value.activeHash == tr[i].pointer.value.activeHash
    ensures tr[n].config.activePolicyHash == tr[i].config.activePolicyHash
    ensures tr[n].config.policyEpoch == tr[i].config.policyEpoch
    ensures tr[n].config.AsPolicyDoc() == tr[i].config.AsPolicyDoc()
  {
    ReachableInv(h, tr, evs, i);
    ReachableInv(h, tr, evs, n);
    RunEvolves(h, tr, evs, i, n);
  }

  /** A proposal that lost the pending slot unapproved is dead: it is never active in any later state, and
      since versions are addressed by content its document cannot even be proposed again. */
  lemma AbandonedProposalIsDead(h: PolicyDoc -> Hash, tr: seq<Guard>, evs: seq<Event>, i: nat, n: nat, hash: Hash,
                                signer: Pubkey, doc: PolicyDoc, now: i64)
    requires IsTrace(h, tr, evs) && i <= n <= |evs|
    requires Settled(tr[i], hash) && tr[i].versions[hash].approvedAt == 0
    ensures tr[n].pointer.Some? && tr[n].pointer.value.activeHash != hash
    ensures h(doc) == hash ==> forall claimed :: ProposePolicy(h, tr[n], signer, claimed, doc, now).Err?
  {
    ReachableInv(h, tr, evs, n);
    RunEvolves(h, tr, evs, i, n);
  }

  /** While unpinned, any version that was ever active can be rolled back to, and doing so restores exactly
      the nine fields that were live then. */
  lemma RollbackRestores(h: PolicyDoc -> Hash, tr: seq<Guard>, evs: seq<Event>, i: nat, n: nat, signer: Pubkey)
    requires IsTrace(h, tr, evs) && i <= n <= |evs|
    requires tr[i].pointer.Some? && tr[n].pointer.Some? && !tr[n].pointer.value.pinned
    requires tr[n].registry.Some? && tr[n].registry.value.Holds(Activator, signer)
    ensures var r := RollbackPolicy(tr[n], signer, tr[i].pointer.value.activeHash);
      && r.Ok?
      && r.value.config.AsPolicyDoc() == tr[i].config.AsPolicyDoc()
      && r.value.pointer == Some(tr[n].pointer.value.(
           activeHash := tr[i].pointer.value.activeHash, pendingHash := ZERO_HASH, pendingApprovedAt := 0))
      && r.value.versions == tr[n].versions && r.value.registry == tr[n].registry
  {
    ReachableInv(h, tr, evs, i);
    ReachableInv(h, tr, evs, n);
    RunEvolves(h, tr, evs, i, n);
  }
}
