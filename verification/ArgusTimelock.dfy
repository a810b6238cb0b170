/** When a policy in force has waited out its timelock. Activation always has; rollback asks only that the
    version was approved, so it has exactly as far as the version had been in force before. */
module ArgusTimelock {
  import opened Base
  import opened History
  import opened Argus
  import opened ArgusInvariant
  import opened ArgusHistory

  /** `hash` was the active version in some state up to `m`. */
  ghost predicate WasActive(tr: seq<Guard>, m: nat, hash: Hash)
    requires m < |tr|
  {
    exists i :: 0 <= i <= m && tr[i].pointer.Some? && tr[i].pointer.value.activeHash == hash
  }

  /** By `now` the version's approval is at least the timelock old. The genesis version is exempt. */
  ghost predicate Ripe(h: PolicyDoc -> Hash, tr: seq<Guard>, evs: seq<Event>, n: nat, hash: Hash, now: i64)
    requires n <= |evs| < |tr| && tr[n].pointer.Some?
  {
    var a := Last(h, tr, evs, n, Adoption);
    || (a >= 0 && evs[a].op.InitGovernanceOp? && evs[a].op.hash == hash)
    || (hash in tr[n].versions && tr[n].versions[hash].approvedAt + tr[n].pointer.value.timelockSecs <= now)
  }

  /** How one event moves the active hash. */
  lemma StepActive(h: PolicyDoc -> Hash, g: Guard, e: Event)
    requires forall k :: k in g.versions ==> g.versions[k].policyHash == k
    ensures var r := Step(h, g, e.op, e.now); var g' := After(g, r);
      && (g'.pointer.Some? <==> g.pointer.Some? || MarkOf(h, g, e, Adoption) == Sets)
      && (g.pointer.None? && g'.pointer.Some? ==> e.op.InitGovernanceOp? && g'.pointer.value.activeHash == e.op.hash)
      && (g.pointer.Some? && g'.pointer.value.activeHash != g.pointer.value.activeHash ==>
            && r.Ok? && (e.op.ActivateOp? || e.op.RollbackOp?) && g'.pointer.value.activeHash == e.op.hash
            && g'.versions == g.versions)
  {
  }

  lemma ActivationIsRipe(h: PolicyDoc -> Hash, g: Guard, e: Event)
    requires Inv(h, g) && e.op.ActivateOp? && Step(h, g, e.op, e.now).Ok?
    ensures g.pointer.Some? && e.op.hash in g.versions
    ensures g.versions[e.op.hash].approvedAt + g.pointer.value.timelockSecs <= e.now
  {
  }

  /** Everything ever active before `n` is ripe by the last event, provided rollbacks went only to
      versions that had been active. */
  lemma {:induction false} ActiveVersionsAreRipe(h: PolicyDoc -> Hash, tr: seq<Guard>, evs: seq<Event>, n: nat, i: nat)
    requires IsTrace(h, tr, evs) && i <= n <= |evs| && tr[i].pointer.Some?
    requires forall m :: 0 <= m < n && Succeeds(h, tr, evs, m) && evs[m].op.RollbackOp? ==> WasActive(tr, m, evs[m].op.hash)
    ensures n > 0 && tr[n].pointer.Some?
    ensures Ripe(h, tr, evs, n, tr[i].pointer.value.activeHash, evs[n - 1].now)
    decreases n, i
  {
    hide Step;
    ReachableInv(h, tr, evs, i);
    assert n > 0;
    var m := n - 1;
    ReachableInv(h, tr, evs, m);
    RunEvolves(h, tr, evs, m, n);
    StepActive(h, tr[m], evs[m]);
    if i < n {
      ActiveVersionsAreRipe(h, tr, evs, m, i);
      RipeStays(h, tr, evs, n, i);
    } else if tr[m].pointer.Some? {
      if tr[n].pointer.value.activeHash == tr[m].pointer.value.activeHash {
        ActiveVersionsAreRipe(h, tr, evs, n, m);
      } else if evs[m].op.ActivateOp? {
        ActivationIsRipe(h, tr[m], evs[m]);
      } else {
        assert Succeeds(h, tr, evs, m);
        var k :| 0 <= k <= m && tr[k].pointer.Some? && tr[k].pointer.value.activeHash == evs[m].op.hash;
        ActiveVersionsAreRipe(h, tr, evs, n, k);
      }
    }
  }

  lemma RipeStays(h: PolicyDoc -> Hash, tr: seq<Guard>, evs: seq<Event>, n: nat, i: nat)
    requires IsTrace(h, tr, evs) && i < n <= |evs| && 1 < n
    requires tr[i].pointer.Some? && tr[n - 1].pointer.Some?
    requires Ripe(h, tr, evs, n - 1, tr[i].pointer.value.activeHash, evs[n - 2].now)
    ensures tr[n].pointer.Some? && Ripe(h, tr, evs, n, tr[i].pointer.value.activeHash, evs[n - 1].now)
  {
    hide Step;
    ReachableInv(h, tr, evs, i);
    ReachableInv(h, tr, evs, n - 1);
    RunEvolves(h, tr, evs, i, n);
    RunEvolves(h, tr, evs, i, n - 1);
    RunEvolves(h, tr, evs, n - 1, n);
    StepAdoption(h, tr[n - 1], evs[n - 1], RoleAdmin);
  }

  /** In such a run the policy in force has always waited out its timelock. */
  lemma PolicyInForceIsRipe(h: PolicyDoc -> Hash, tr: seq<Guard>, evs: seq<Event>, n: nat)
    requires IsTrace(h, tr, evs) && n <= |evs| && tr[n].pointer.Some?
    requires forall m :: 0 <= m < n && Succeeds(h, tr, evs, m) && evs[m].op.RollbackOp? ==> WasActive(tr, m, evs[m].op.hash)
    ensures n > 0 && Ripe(h, tr, evs, n, tr[n].pointer.value.activeHash, evs[n - 1].now)
  {
    ActiveVersionsAreRipe(h, tr, evs, n, n);
  }

  // ---------------------------------------------------------- the exact condition

  lemma GenesisStamp(h: PolicyDoc -> Hash, g: Guard, e: Event)
    requires e.op.InitGovernanceOp? && Step(h, g, e.op, e.now).Ok?
    ensures var v := Step(h, g, e.op, e.now).value.versions; e.op.hash in v && v[e.op.hash].author == v[e.op.hash].approver
  {
  }

  /** Genesis is the one version its author also approved. */
  lemma GenesisIsSelfApproved(h: PolicyDoc -> Hash, tr: seq<Guard>, evs: seq<Event>, n: nat, hash: Hash)
    requires IsTrace(h, tr, evs) && n <= |evs| && hash in tr[n].versions && tr[n].versions[hash].approvedAt != 0
    ensures var a := Last(h, tr, evs, n, Adoption); a >= 0 && evs[a].op.InitGovernanceOp?
    ensures tr[n].versions[hash].author == tr[n].versions[hash].approver
            <==> evs[Last(h, tr, evs, n, Adoption)].op.hash == hash
  {
    hide Step;
    VersionIsHistory(h, tr, evs, n, hash);
    var a := Last(h, tr, evs, n, Adoption);
    LastIsSet(h, tr, evs, n, Adoption);
    if evs[a].op.hash == hash {
      GenesisStamp(h, tr[a], evs[a]);
      GenesisIsSettled(h, tr, evs, a + 1);
      RunEvolves(h, tr, evs, a + 1, n);
      AdoptionStands(h, tr, evs, a, n);
    }
  }

  lemma AdoptionStands(h: PolicyDoc -> Hash, tr: seq<Guard>, evs: seq<Event>, a: nat, n: nat)
    requires IsTrace(h, tr, evs) && a < n <= |evs| && Last(h, tr, evs, n, Adoption) == a
    ensures Last(h, tr, evs, a + 1, Adoption) == a
  {
    hide Step;
    LastSetMeaning(Marks(h, tr, evs, Adoption), n, a);
    LastSetMeaning(Marks(h, tr, evs, Adoption), a + 1, a);
  }

  /** The guard `rollback_policy` lacks: the target is genesis, or its approval is the timelock old. */
  predicate RollbackWaits(g: Guard, e: Event)
    requires e.op.RollbackOp?
  {
    g.pointer.Some? && e.op.hash in g.versions
    && var v := g.versions[e.op.hash];
    (v.author == v.approver || v.approvedAt + g.pointer.value.timelockSecs <= e.now)
  }

  ghost predicate RollbacksWait(h: PolicyDoc -> Hash, tr: seq<Guard>, evs: seq<Event>, n: nat)
    requires n <= |evs| < |tr|
  {
    forall m :: 0 <= m < n && Succeeds(h, tr, evs, m) && evs[m].op.RollbackOp? ==> RollbackWaits(tr[m], evs[m])
  }

  ghost predicate RipeThroughout(h: PolicyDoc -> Hash, tr: seq<Guard>, evs: seq<Event>, n: nat)
    requires n <= |evs| < |tr|
  {
    forall k :: 0 < k <= n && tr[k].pointer.Some? ==> RipeAt(h, tr, evs, k)
  }

  ghost predicate RipeAt(h: PolicyDoc -> Hash, tr: seq<Guard>, evs: seq<Event>, k: nat)
    requires 0 < k <= |evs| < |tr| && tr[k].pointer.Some?
  {
    Ripe(h, tr, evs, k, tr[k].pointer.value.activeHash, evs[k - 1].now)
  }

  lemma RollbackStep(h: PolicyDoc -> Hash, g: Guard, e: Event)
    requires e.op.RollbackOp? && Step(h, g, e.op, e.now).Ok? && forall k :: k in g.versions ==> g.versions[k].policyHash == k
    ensures var g' := Step(h, g, e.op, e.now).value;
      && g.pointer.Some? && e.op.hash in g.versions && g.versions[e.op.hash].approvedAt != 0
      && g'.versions == g.versions
      && g'.pointer.Some? && g'.pointer.value.activeHash == e.op.hash
      && g'.pointer.value.timelockSecs == g.pointer.value.timelockSecs
  {
    hide ConfigurePolicy, SetGuardPaused, TransferGuardAuthority, AcceptGuardAuthority, AddListEntry, RemoveListEntry,
      InitializeGovernance, ProposePolicy, ApprovePolicy, ActivatePolicy, PinPolicy, ProposeRoleChange, ApplyRoleChange,
      RefreshEligibility, InvalidateCapability, SetTrustAnchor, ReverifyAccreditation, SetDegradeMode, BumpScreeningEpoch,
      OpenWalletState, Execute;
  }

  /** A rollback brings in a ripe policy exactly when it waited. */
  lemma RollbackRipeIffWaits(h: PolicyDoc -> Hash, tr: seq<Guard>, evs: seq<Event>, m: nat, k: nat)
    requires IsTrace(h, tr, evs) && k == m + 1 && k <= |evs| && Succeeds(h, tr, evs, m) && evs[m].op.RollbackOp?
    ensures tr[k].pointer.Some? && (RipeAt(h, tr, evs, k) <==> RollbackWaits(tr[m], evs[m]))
  {
    hide Step;
    ReachableInv(h, tr, evs, m);
    RollbackStep(h, tr[m], evs[m]);
    GenesisIsSelfApproved(h, tr, evs, k, evs[m].op.hash);
  }

  lemma OtherStepRipe(h: PolicyDoc -> Hash, tr: seq<Guard>, evs: seq<Event>, m: nat, k: nat)
    requires IsTrace(h, tr, evs) && k == m + 1 && k <= |evs| && tr[k].pointer.Some?
    requires !(Succeeds(h, tr, evs, m) && evs[m].op.RollbackOp?)
    requires m > 0 && tr[m].pointer.Some? ==> RipeAt(h, tr, evs, m)
    ensures RipeAt(h, tr, evs, k)
  {
    hide Step;
    ReachableInv(h, tr, evs, m);
    StepActive(h, tr[m], evs[m]);
    if tr[m].pointer.None? {
      LastIsSet(h, tr, evs, k, Adoption);
    } else if tr[k].pointer.value.activeHash == tr[m].pointer.value.activeHash {
      assert m > 0;
      RipeStays(h, tr, evs, k, m);
    } else {
      ActivationIsRipe(h, tr[m], evs[m]);
      RunEvolves(h, tr, evs, m, k);
    }
  }

  /** The policy in force is ripe in every state of a run if and only if every rollback in it waited: the one guard the
      code lacks is exactly what the timelock needs. */
  lemma {:induction false} RipeThroughoutIffRollbacksWait(h: PolicyDoc -> Hash, tr: seq<Guard>, evs: seq<Event>, n: nat)
    requires IsTrace(h, tr, evs) && n <= |evs|
    ensures RipeThroughout(h, tr, evs, n) <==> RollbacksWait(h, tr, evs, n)
  {
    hide Step, Ripe, RipeAt, RollbackWaits;
    if n > 0 {
      var m := n - 1;
      RipeThroughoutIffRollbacksWait(h, tr, evs, m);
      if Succeeds(h, tr, evs, m) && evs[m].op.RollbackOp? {
        RollbackRipeIffWaits(h, tr, evs, m, n);
      } else if tr[n].pointer.Some? && RipeThroughout(h, tr, evs, m) {
        OtherStepRipe(h, tr, evs, m, n);
      }
    }
  }

  const BARE_DOC := PolicyDoc(0, 0, 0, 0, 0, 0, 0, 0, 0)
  const CAPPED_DOC := PolicyDoc(0, 1, 0, 0, 0, 0, 0, 0, 0)

  /** Governance adopted with a one-day timelock, a second policy proposed and approved, all in the same second. */
  lemma ApprovedAtOnce(h: PolicyDoc -> Hash) returns (tr: seq<Guard>, evs: seq<Event>)
    requires forall d :: h(d) != ZERO_HASH
    requires h(BARE_DOC) != h(CAPPED_DOC)
    ensures IsTrace(h, tr, evs)
    ensures evs == [Event(InitGovernanceOp(1, h(BARE_DOC), RoleAssignment(1, 3, 4, 5, 6, 7), 86_400), 1),
                    Event(ProposeOp(3, h(CAPPED_DOC), CAPPED_DOC), 1), Event(ApproveOp(4, h(CAPPED_DOC)), 1)]
    ensures tr[0].pointer.None? && tr[0].registry.None? && Adopted(tr[1])
    ensures forall i :: 1 <= i <= 3 ==> tr[i].pointer.Some? && tr[i].pointer.value.activeHash == h(BARE_DOC)
    ensures tr[3].pointer == Some(PolicyPointer(h(BARE_DOC), h(CAPPED_DOC), 1, 86_400, false))
    ensures var r := RollbackPolicy(tr[3], 5, h(CAPPED_DOC));
      && r.Ok? && r.value.pointer == Some(PolicyPointer(h(CAPPED_DOC), ZERO_HASH, 0, 86_400, false))
      && r.value.versions == tr[3].versions
      && h(CAPPED_DOC) in tr[3].versions && tr[3].versions[h(CAPPED_DOC)].approvedAt == 1
  {
    hide ConfigurePolicy, SetGuardPaused, TransferGuardAuthority, AcceptGuardAuthority, AddListEntry, RemoveListEntry,
      ActivatePolicy, PinPolicy, ProposeRoleChange, ApplyRoleChange, RefreshEligibility, InvalidateCapability, SetTrustAnchor,
      ReverifyAccreditation, SetDegradeMode, BumpScreeningEpoch, OpenWalletState, Execute;
    var g0 := PlainGuard(h, 1, DEFAULT_KEY);
    evs := [Event(InitGovernanceOp(1, h(BARE_DOC), RoleAssignment(1, 3, 4, 5, 6, 7), 86_400), 1),
            Event(ProposeOp(3, h(CAPPED_DOC), CAPPED_DOC), 1), Event(ApproveOp(4, h(CAPPED_DOC)), 1)];
    var g1 := After(g0, Step(h, g0, evs[0].op, 1));
    var g2 := After(g1, Step(h, g1, evs[1].op, 1));
    var g3 := After(g2, Step(h, g2, evs[2].op, 1));
    tr := [g0, g1, g2, g3];
  }

  /** Without that proviso it can fail: a version that was never active comes into force through rollback
      the moment it is approved, under a one-day timelock. */
  lemma RollbackCanPrecedeTimelock(h: PolicyDoc -> Hash) returns (tr: seq<Guard>, evs: seq<Event>)
    requires forall d :: h(d) != ZERO_HASH
    requires h(BARE_DOC) != h(CAPPED_DOC)
    ensures IsTrace(h, tr, evs) && |evs| == 4
    ensures tr[4].pointer.Some? && tr[4].pointer.value.timelockSecs == 86_400
    ensures !WasActive(tr, 3, tr[4].pointer.value.activeHash)
    ensures !Ripe(h, tr, evs, 4, tr[4].pointer.value.activeHash, evs[3].now)
  {
    hide ConfigurePolicy, SetGuardPaused, TransferGuardAuthority, AcceptGuardAuthority, AddListEntry, RemoveListEntry,
      ActivatePolicy, PinPolicy, ProposeRoleChange, ApplyRoleChange, RefreshEligibility, InvalidateCapability, SetTrustAnchor,
      ReverifyAccreditation, SetDegradeMode, BumpScreeningEpoch, OpenWalletState, Execute, InitializeGovernance, ProposePolicy,
      ApprovePolicy;
    var tr0, evs0 := ApprovedAtOnce(h);
    var e := Event(RollbackOp(5, h(CAPPED_DOC)), 1);
    tr, evs := tr0 + [After(tr0[3], Step(h, tr0[3], e.op, 1))], evs0 + [e];
    assert Step(h, tr0[3], e.op, 1) == RollbackPolicy(tr0[3], 5, h(CAPPED_DOC));
    LastIsSet(h, tr, evs, 4, Adoption);
  }
}
