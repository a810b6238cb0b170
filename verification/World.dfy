/** argus with aegis as its oracle: both programs advance together, and every verdict argus acts on is what
    aegis returned in the state it had then. */
module World {
  import opened Base
  import opened History
  import opened Argus
  import opened ArgusInvariant
  import opened ArgusHistory
  import ArgusTrust
  import ArgusVelocity
  import Aegis
  import TrustStreak

  /** What aegis answers to `refresh_eligibility` under the rule the config holds. */
  function Oracle(a: Aegis.Registry, c: GuardConfig, subject: Pubkey, policyAccount: Pubkey,
                  attestation: Aegis.AttestationKey, now: i64): Option<Aegis.Verdict>
  {
    if c.policy != DEFAULT_KEY then Aegis.VerifyPolicy(a, policyAccount, attestation, subject, now)
    else Some(Aegis.Verify(a, attestation, c.attestationIssuer, subject, c.attestationSchema, now))
  }

  ghost predicate Consults(a: Aegis.Registry, g: Guard, e: Event) {
    match e.op
    case RefreshOp(subject, _, policyAccount, attestation, verdict) =>
      verdict == Oracle(a, g.config, subject, policyAccount, attestation, e.now)
    case ReverifyOp(_, ok) =>
      g.anchor.Some? ==>
        var t := g.anchor.value;
        ok == Aegis.VerifyAccreditation(a, t.accreditationRoot, t.subjectIssuer, t.requiredSchema, e.now).ok
    case _ => true
  }

  /** A joint history: index `i` is one instruction, `Elsewhere` in the program it does not touch. */
  ghost predicate IsWorld(h: PolicyDoc -> Hash, tr: seq<Guard>, evs: seq<Event>, ag: seq<Aegis.Registry>, aevs: seq<Aegis.Event>) {
    && IsTrace(h, tr, evs) && Aegis.IsTrace(ag, aevs) && |evs| == |aevs|
    && (forall i :: 0 <= i < |evs| ==> aevs[i].now == evs[i].now)
    && (forall i :: 0 <= i < |evs| ==> evs[i].op.Elsewhere? || aevs[i].op.Elsewhere?)
    && (forall i :: 0 <= i < |evs| ==> Consults(ag[i], tr[i], evs[i]))
  }

  // ---------------------------------------------------------- cache refinement

  /** At event `r` the subject met the rule `c` holds: a credential of the required issuer and schema had been
      issued and not ended, was in its window, and was fresh enough for the named policy, itself not retired. */
  ghost predicate Credentialed(ag: seq<Aegis.Registry>, aevs: seq<Aegis.Event>, r: nat, c: GuardConfig, subject: Pubkey, now: i64)
    requires r < |aevs| < |ag|
  {
    && (c.policy != DEFAULT_KEY ==> c.policy in ag[r].policies && !ag[r].policies[c.policy].deprecated)
    && var named := c.policy != DEFAULT_KEY;
    && var key := if named then Aegis.AttestationKey(ag[r].policies[c.policy].issuer, subject, ag[r].policies[c.policy].schemaId)
                  else Aegis.AttestationKey(c.attestationIssuer, subject, c.attestationSchema);
    && var maxAge := if named then ag[r].policies[c.policy].freshnessSecs else 0;
    && var j := Aegis.IssuedBy(ag, aevs, r, key);
    && j >= 0
    && key in ag[r].attestations && ag[r].attestations[key].IsLive(now)
    && (maxAge == 0 || now <= aevs[j].now + maxAge)
  }

  lemma RefreshNamesPolicy(h: PolicyDoc -> Hash, g: Guard, e: Event)
    requires e.op.RefreshOp? && Step(h, g, e.op, e.now).Ok?
    ensures g.config.policy != DEFAULT_KEY ==> e.op.policyAccount == g.config.policy
  {
    assert Step(h, g, e.op, e.now) == RefreshEligibility(g, e.op.subject, e.op.aegisProgram, e.op.policyAccount, e.op.verdict, e.now);
  }

  lemma PositiveVerdictMeaning(h: PolicyDoc -> Hash, tr: seq<Guard>, evs: seq<Event>, ag: seq<Aegis.Registry>, aevs: seq<Aegis.Event>, r: nat)
    requires IsWorld(h, tr, evs, ag, aevs) && r < |evs|
    requires evs[r].op.RefreshOp? && Succeeds(h, tr, evs, r) && evs[r].op.verdict.Some? && evs[r].op.verdict.value.ok
    ensures Credentialed(ag, aevs, r, tr[r].config, evs[r].op.subject, evs[r].now)
  {
    hide Step, Aegis.Step;
    var c := tr[r].config;
    RefreshNamesPolicy(h, tr[r], evs[r]);
    assert Consults(ag[r], tr[r], evs[r]);
    Aegis.TraceWellFormed(ag, aevs, r);
    if c.policy != DEFAULT_KEY {
      var p := ag[r].policies[c.policy];
      Aegis.EvaluateMeaning(ag, aevs, r, p.issuer, evs[r].op.subject, p.schemaId, p.freshnessSecs, evs[r].now);
    } else {
      Aegis.EvaluateMeaning(ag, aevs, r, c.attestationIssuer, evs[r].op.subject, c.attestationSchema, 0, evs[r].now);
    }
  }

  /** Only the rule's own three fields matter. */
  lemma SameRule(ag: seq<Aegis.Registry>, aevs: seq<Aegis.Event>, r: nat, c: GuardConfig, c': GuardConfig, subject: Pubkey, now: i64)
    requires r < |aevs| < |ag| && Credentialed(ag, aevs, r, c, subject, now)
    requires c'.policy == c.policy && c'.attestationIssuer == c.attestationIssuer && c'.attestationSchema == c.attestationSchema
    ensures Credentialed(ag, aevs, r, c', subject, now)
  {
    hide Aegis.Step;
  }

  /** Instructions that would have to lie outside the window between a cached verdict and its use. */
  predicate Disturbs(op: Op, subject: Pubkey) {
    || op.ConfigureOp? || op.ActivateOp? || op.RollbackOp? || op.BumpScreeningOp?
    || (op.RefreshOp? && op.subject == subject) || (op.InvalidateOp? && op.subject == subject)
  }

  /** A peer gift accepted under REQUIRE_ATTESTATION rests on a verdict aegis gave: the last refresh of the
      destination is less than its lifetime old, at that refresh the destination met the rule in force now,
      and no policy write, screening bump, refresh or invalidation went through in between. */
  lemma AcceptedGiftRestsOnVerdict(h: PolicyDoc -> Hash, tr: seq<Guard>, evs: seq<Event>, ag: seq<Aegis.Registry>, aevs: seq<Aegis.Event>,
                                   n: nat, w: Pubkey)
    requires IsWorld(h, tr, evs, ag, aevs) && n < |evs|
    requires ArgusVelocity.IsGift(tr[n], evs[n], w) && tr[n].config.Has(REQUIRE_ATTESTATION)
    requires tr[n].config.policyEpoch < U64_MAX && tr[n].config.screeningEpoch < U64_MAX
    ensures var dest := evs[n].op.x.destinationOwner; var r := Last(h, tr, evs, n, Verdict(dest));
      && r >= 0 && evs[r].op.RefreshOp? && evs[r].op.subject == dest
      && evs[r].now <= evs[n].now < evs[r].now + Ttl(tr[n].config)
      && Credentialed(ag, aevs, r, tr[n].config, dest, evs[r].now)
      && forall m :: r < m < n && Succeeds(h, tr, evs, m) ==> !Disturbs(evs[m].op, dest)
  {
    hide Step, Credentialed, Disturbs;
    var dest := evs[n].op.x.destinationOwner;
    var r := Last(h, tr, evs, n, Verdict(dest));
    CapabilityMeaning(h, tr, evs, n, dest, evs[n].now);
    CapabilityIsHistory(h, tr, evs, n, dest);
    LastIsSet(h, tr, evs, n, Verdict(dest));
    PositiveVerdictMeaning(h, tr, evs, ag, aevs, r);
    EpochNamesPolicy(h, tr, evs, r, n);
    RunEvolves(h, tr, evs, r, n);
    SameDocSameFields(tr[r].config, tr[n].config);
    SameRule(ag, aevs, r, tr[r].config, tr[n].config, dest, evs[r].now);
    forall m | r < m < n && Succeeds(h, tr, evs, m)
      ensures !Disturbs(evs[m].op, dest)
    {
      Undisturbed(h, tr, evs, r, m, n, dest);
    }
  }

  /** An event that leaves the subject's verdict and both epochs where they are disturbs nothing. */
  lemma KeepsUndisturbed(h: PolicyDoc -> Hash, g: Guard, e: Event, dest: Pubkey)
    requires Step(h, g, e.op, e.now).Ok? && MarkOf(h, g, e, Verdict(dest)) == Keeps
    requires var g' := Step(h, g, e.op, e.now).value;
      && g'.config.policyEpoch == g.config.policyEpoch < U64_MAX
      && g'.config.screeningEpoch == g.config.screeningEpoch < U64_MAX
    ensures !Disturbs(e.op, dest)
  {
    if e.op.ConfigureOp? || e.op.ActivateOp? || e.op.RollbackOp? {
      EpochMovesBelowSaturation(h, g, e.op, e.now);
    } else if e.op.BumpScreeningOp? {
      ScreeningMovesBelowSaturation(h, g, e.op, e.now);
    }
  }

  lemma Undisturbed(h: PolicyDoc -> Hash, tr: seq<Guard>, evs: seq<Event>, r: nat, m: nat, n: nat, dest: Pubkey)
    requires IsTrace(h, tr, evs) && r < m < n <= |evs| && Succeeds(h, tr, evs, m)
    requires r == Last(h, tr, evs, n, Verdict(dest))
    requires tr[r].config.policyEpoch == tr[n].config.policyEpoch < U64_MAX
    requires tr[r].config.screeningEpoch == tr[n].config.screeningEpoch < U64_MAX
    ensures !Disturbs(evs[m].op, dest)
  {
    hide Step, MarkOf, Disturbs;
    LastSetMeaning(Marks(h, tr, evs, Verdict(dest)), n, r);
    assert Marks(h, tr, evs, Verdict(dest))[m] == Keeps;
    RunEvolves(h, tr, evs, r, m);
    RunEvolves(h, tr, evs, m, m + 1);
    RunEvolves(h, tr, evs, m + 1, n);
    KeepsUndisturbed(h, tr[m], evs[m], dest);
  }

  // ------------------------------------------------------- permanent de-trust

  /** The guard's anchor is bound to this accreditation edge. */
  predicate BoundTo(g: Guard, key: Aegis.EdgeKey) {
    g.anchor.Some? && Aegis.EdgeKey(g.anchor.value.accreditationRoot, g.anchor.value.subjectIssuer) == key
  }

  /** No re-binding and no manual restore went through from `i` to `n`. */
  ghost predicate LeftAlone(h: PolicyDoc -> Hash, tr: seq<Guard>, evs: seq<Event>, i: nat, n: nat)
    requires n <= |evs| <= |tr|
  {
    forall m :: i <= m < n && Succeeds(h, tr, evs, m) ==>
      !evs[m].op.SetAnchorOp? && !(evs[m].op.SetDegradeOp? && evs[m].op.mode == TrustStreak.NORMAL)
  }

  lemma StepBinding(h: PolicyDoc -> Hash, g: Guard, e: Event)
    requires g.anchor.Some? && (Step(h, g, e.op, e.now).Ok? ==> !e.op.SetAnchorOp?)
    ensures var g' := After(g, Step(h, g, e.op, e.now));
      && g'.anchor.Some? && g'.anchor.value.accreditationRoot == g.anchor.value.accreditationRoot
      && g'.anchor.value.subjectIssuer == g.anchor.value.subjectIssuer
  {
    if e.op.ReverifyOp? {
      assert Step(h, g, e.op, e.now) == ReverifyAccreditation(g, e.op.aegisProgram, e.op.ok, e.now);
    } else if e.op.SetDegradeOp? {
      assert Step(h, g, e.op, e.now) == SetDegradeMode(g, e.op.signer, e.op.mode);
    } else {
      StepAnchorFrame(h, g, e);
    }
  }

  lemma PolicyOpAnchorFrame(h: PolicyDoc -> Hash, g: Guard, e: Event)
    requires WritesPolicy(e.op)
    ensures After(g, Step(h, g, e.op, e.now)).anchor == g.anchor
  {
    hide SetGuardPaused, TransferGuardAuthority, AcceptGuardAuthority, AddListEntry, RemoveListEntry, ProposeRoleChange,
      ApplyRoleChange, RefreshEligibility, InvalidateCapability, SetTrustAnchor, ReverifyAccreditation, SetDegradeMode,
      BumpScreeningEpoch, OpenWalletState, Execute;
  }

  lemma OffPolicyAnchorFrame(h: PolicyDoc -> Hash, g: Guard, e: Event)
    requires !WritesPolicy(e.op) && !e.op.SetAnchorOp? && !e.op.SetDegradeOp? && !e.op.ReverifyOp?
    ensures After(g, Step(h, g, e.op, e.now)).anchor == g.anchor
  {
    hide ConfigurePolicy, InitializeGovernance, ProposePolicy, ApprovePolicy, ActivatePolicy, RollbackPolicy, PinPolicy,
      SetTrustAnchor, ReverifyAccreditation, SetDegradeMode, Decide;
  }

  lemma StepAnchorFrame(h: PolicyDoc -> Hash, g: Guard, e: Event)
    requires Step(h, g, e.op, e.now).Ok? ==> !e.op.SetAnchorOp? && !e.op.SetDegradeOp? && !e.op.ReverifyOp?
    ensures After(g, Step(h, g, e.op, e.now)).anchor == g.anchor
  {
    hide Step;
    if WritesPolicy(e.op) {
      PolicyOpAnchorFrame(h, g, e);
    } else if Step(h, g, e.op, e.now).Ok? {
      OffPolicyAnchorFrame(h, g, e);
    }
  }

  lemma CrankOnDeadEdgeFails(h: PolicyDoc -> Hash, tr: seq<Guard>, evs: seq<Event>, ag: seq<Aegis.Registry>,
                             aevs: seq<Aegis.Event>, i: nat, m: nat, key: Aegis.EdgeKey)
    requires IsWorld(h, tr, evs, ag, aevs) && i <= m < |evs|
    requires key in ag[i].edges && !ag[i].edges[key].IsLive(evs[i].now) && BoundTo(tr[m], key)
    ensures evs[m].op.ReverifyOp? ==> !evs[m].op.ok
  {
    hide Step;
    assert Consults(ag[m], tr[m], evs[m]);
    Aegis.DeadEdgeStaysDead(ag, aevs, i, m, key, evs[i].now);
  }

  /** One event of a guard left alone with a dead edge: a failing crank leaves a streak begun by then, and degrades the
      posture once the streak has lasted the grace window. */
  lemma StepOnDeadEdge(h: PolicyDoc -> Hash, tr: seq<Guard>, evs: seq<Event>, ag: seq<Aegis.Registry>, aevs: seq<Aegis.Event>,
                       i: nat, m: nat, n: nat, key: Aegis.EdgeKey)
    requires IsWorld(h, tr, evs, ag, aevs) && i <= m < |evs| && n == m + 1
    requires key in ag[i].edges && !ag[i].edges[key].IsLive(evs[i].now) && BoundTo(tr[m], key) && LeftAlone(h, tr, evs, m, n)
    ensures BoundTo(tr[n], key)
    ensures var b, b' := ArgusTrust.Health(tr[m]), ArgusTrust.Health(tr[n]);
      && TrustStreak.StillFailing(b, b')
      && (evs[m].op.ReverifyOp? && Succeeds(h, tr, evs, m) ==>
            && 0 < b'.failingSince <= evs[m].now
            && (evs[m].now - b'.failingSince >= b.graceSecs ==> b'.posture != TrustStreak.NORMAL))
  {
    hide Step, TrustStreak.Apply, TrustStreak.StillFailing;
    StepBinding(h, tr[m], evs[m]);
    CrankOnDeadEdgeFails(h, tr, evs, ag, aevs, i, m, key);
    ArgusTrust.TargetsAreValid(h, tr, evs, m);
    ArgusTrust.StepHealth(h, tr[m], evs[m]);
    var t := ArgusTrust.TrustEvent(h, tr[m], evs[m]);
    if t.Some? {
      TrustStreak.ApplyStillFailing(ArgusTrust.Health(tr[m]), t.value);
      if t.value.Cranked? {
        ArgusTrust.StreakIsPast(h, tr, evs, n);
      }
    } else {
      TrustStreak.StillFailingItself(ArgusTrust.Health(tr[m]));
    }
  }

  /** Once the edge behind a guard is revoked or expired, no crank clears the streak or restores the posture;
      only a manual restore or a re-binding can. */
  lemma {:induction false} DeTrustIsPermanent(h: PolicyDoc -> Hash, tr: seq<Guard>, evs: seq<Event>, ag: seq<Aegis.Registry>,
                                              aevs: seq<Aegis.Event>, i: nat, k: nat, n: nat, key: Aegis.EdgeKey)
    requires IsWorld(h, tr, evs, ag, aevs) && i <= k <= n <= |evs| && i < |evs|
    requires BoundTo(tr[k], key) && key in ag[i].edges && !ag[i].edges[key].IsLive(evs[i].now)
    requires LeftAlone(h, tr, evs, k, n)
    ensures BoundTo(tr[n], key) && TrustStreak.StillFailing(ArgusTrust.Health(tr[k]), ArgusTrust.Health(tr[n]))
    decreases n
  {
    hide Step, ArgusTrust.Health;
    if k < n {
      DeTrustIsPermanent(h, tr, evs, ag, aevs, i, k, n - 1, key);
      StepOnDeadEdge(h, tr, evs, ag, aevs, i, n - 1, n, key);
    }
  }

  /** A crank at `m` that finds the grace window spent degrades the posture. The window runs from the streak already
      begun at `i` or, failing one, from any later crank `f`. */
  lemma CrankDegrades(h: PolicyDoc -> Hash, tr: seq<Guard>, evs: seq<Event>, ag: seq<Aegis.Registry>, aevs: seq<Aegis.Event>,
                      i: nat, f: nat, m: nat, n: nat, key: Aegis.EdgeKey)
    requires IsWorld(h, tr, evs, ag, aevs) && i <= f <= m < |evs| && n == m + 1
    requires BoundTo(tr[i], key) && key in ag[i].edges && !ag[i].edges[key].IsLive(evs[i].now)
    requires LeftAlone(h, tr, evs, i, n)
    requires evs[f].op.ReverifyOp? && Succeeds(h, tr, evs, f) && evs[m].op.ReverifyOp? && Succeeds(h, tr, evs, m)
    requires var b := ArgusTrust.Health(tr[i]);
      evs[m].now >= (if b.failingSince != 0 then b.failingSince else evs[f].now) + b.graceSecs
    ensures BoundTo(tr[n], key) && ArgusTrust.Health(tr[n]).posture != TrustStreak.NORMAL
  {
    hide Step, ArgusTrust.Health, BoundTo, Succeeds;
    DeTrustIsPermanent(h, tr, evs, ag, aevs, i, i, f, key);
    StepOnDeadEdge(h, tr, evs, ag, aevs, i, f, f + 1, key);
    if f < m {
      DeTrustIsPermanent(h, tr, evs, ag, aevs, i, f + 1, m, key);
      StepOnDeadEdge(h, tr, evs, ag, aevs, i, m, n, key);
    }
  }

  /** Nor does any peer gift pass after such a crank, until someone restores or re-binds the guard. */
  lemma NoGiftAfterDeTrust(h: PolicyDoc -> Hash, tr: seq<Guard>, evs: seq<Event>, ag: seq<Aegis.Registry>, aevs: seq<Aegis.Event>,
                           i: nat, f: nat, m: nat, n: nat, key: Aegis.EdgeKey, w: Pubkey)
    requires IsWorld(h, tr, evs, ag, aevs) && i <= f <= m < n < |evs|
    requires BoundTo(tr[i], key) && key in ag[i].edges && !ag[i].edges[key].IsLive(evs[i].now)
    requires LeftAlone(h, tr, evs, i, n)
    requires evs[f].op.ReverifyOp? && Succeeds(h, tr, evs, f) && evs[m].op.ReverifyOp? && Succeeds(h, tr, evs, m)
    requires var b := ArgusTrust.Health(tr[i]);
      evs[m].now >= (if b.failingSince != 0 then b.failingSince else evs[f].now) + b.graceSecs
    ensures !ArgusVelocity.IsGift(tr[n], evs[n], w)
  {
    hide Step, BoundTo, Succeeds, ArgusVelocity.IsGift;
    var k := m + 1;
    CrankDegrades(h, tr, evs, ag, aevs, i, f, m, k, key);
    DeTrustIsPermanent(h, tr, evs, ag, aevs, i, k, n, key);
    if ArgusVelocity.IsGift(tr[n], evs[n], w) {
      GiftNeedsNormal(tr[n], evs[n], w);
    }
  }

  lemma GiftNeedsNormal(g: Guard, e: Event, w: Pubkey)
    requires ArgusVelocity.IsGift(g, e, w)
    ensures g.config.degradeMode == TrustStreak.NORMAL
  {
  }
}
