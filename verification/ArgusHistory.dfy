/** The guard's stored facts read back from its history: who proposed and approved what, since when a
    change has been waiting, how each role was filled, and where each cached verdict came from. */
module ArgusHistory {
  import opened Base
  import opened History
  import opened Argus
  import opened ArgusInvariant

  datatype Watch =
    | Adoption
    | Proposal(hash: Hash)
    | Approval(hash: Hash)
    | PendingApproval  // the pending version has been approved
    | QueuedRole
    | Appointment(role: Role)  // a queued change of this role took effect
    | Verdict(subject: Pubkey)  // a cached capability was written

  /** What one event does to a watched fact. A failed instruction does nothing. */
  function MarkOf(h: PolicyDoc -> Hash, g: Guard, e: Event, w: Watch): Mark {
    if Step(h, g, e.op, e.now).Err? then Keeps
    else match (w, e.op)
      case (Adoption, InitGovernanceOp(_, _, _, _)) => Sets
      case (Proposal(hash), ProposeOp(_, k, _)) => if k == hash then Sets else Keeps
      case (Approval(hash), ApproveOp(_, k)) => if k == hash then Sets else Keeps
      case (PendingApproval, ApproveOp(_, _)) => Sets
      case (PendingApproval, ProposeOp(_, _, _)) => Clears
      case (PendingApproval, ActivateOp(_, _)) => Clears
      case (PendingApproval, RollbackOp(_, _)) => Clears
      case (QueuedRole, ProposeRoleOp(_, _, _)) => Sets
      case (QueuedRole, ApplyRoleOp(_)) => Clears
      case (Appointment(role), ApplyRoleOp(_)) =>
        if g.registry.Some? && RoleFrom(g.registry.value.pendingRole) == Some(role) then Sets else Keeps
      case (Verdict(subject), RefreshOp(s, _, _, _, _)) => if s == subject then Sets else Keeps
      case (Verdict(subject), InvalidateOp(_, s)) => if s == subject then Clears else Keeps
      case _ => Keeps
  }

  function Marks(h: PolicyDoc -> Hash, tr: seq<Guard>, evs: seq<Event>, w: Watch): seq<Mark>
    requires |evs| <= |tr|
  {
    seq(|evs|, i requires 0 <= i < |evs| => MarkOf(h, tr[i], evs[i], w))
  }

  /** The event before `n` that established the watched fact as it stands at `n`; -1 if none. */
  function Last(h: PolicyDoc -> Hash, tr: seq<Guard>, evs: seq<Event>, n: nat, w: Watch): (j: int)
    requires n <= |evs| <= |tr|
    ensures -1 <= j < n
  {
    LastSet(Marks(h, tr, evs, w), n)
  }

  lemma {:induction false} LastIsSet(h: PolicyDoc -> Hash, tr: seq<Guard>, evs: seq<Event>, n: nat, w: Watch)
    requires n <= |evs| <= |tr|
    ensures var j := Last(h, tr, evs, n, w); j >= 0 ==> MarkOf(h, tr[j], evs[j], w) == Sets
  {
    var j := Last(h, tr, evs, n, w);
    if j >= 0 {
      LastSetMeaning(Marks(h, tr, evs, w), n, j);
    }
  }

  // ---------------------------------------------------------------- timelocks

  lemma StepPending(h: PolicyDoc -> Hash, g: Guard, e: Event)
    requires Inv(h, g) && e.now > 0
    ensures var g' := After(g, Step(h, g, e.op, e.now));
      match MarkOf(h, g, e, PendingApproval)
      case Sets => e.op.ApproveOp? && g'.pointer.Some? && g'.pointer.value.pendingApprovedAt == e.now
                   && g'.pointer.value.pendingHash == e.op.hash
      case Clears => g'.pointer.Some? && g'.pointer.value.pendingApprovedAt == 0
      case Keeps =>
        if g.pointer.None? then g'.pointer.Some? ==> g'.pointer.value.pendingApprovedAt == 0
        else && g'.pointer.Some? && g'.pointer.value.pendingApprovedAt == g.pointer.value.pendingApprovedAt
             && g'.pointer.value.pendingHash == g.pointer.value.pendingHash
  {
  }

  /** `pendingApprovedAt` is the time of the latest approval of the version now pending. */
  lemma {:induction false} PendingApprovalIsHistory(h: PolicyDoc -> Hash, tr: seq<Guard>, evs: seq<Event>, n: nat)
    requires IsTrace(h, tr, evs) && n <= |evs| && tr[n].pointer.Some?
    ensures var j := Last(h, tr, evs, n, PendingApproval); var p := tr[n].pointer.value;
      && (p.pendingApprovedAt != 0 <==> j >= 0)
      && (j >= 0 ==> evs[j].op.ApproveOp? && evs[j].op.hash == p.pendingHash && evs[j].now == p.pendingApprovedAt)
  {
    hide Step;
    if n > 0 {
      ReachableInv(h, tr, evs, n - 1);
      StepPending(h, tr[n - 1], evs[n - 1]);
      if tr[n - 1].pointer.Some? {
        PendingApprovalIsHistory(h, tr, evs, n - 1);
      } else {
        NothingBeforeAdoption(h, tr, evs, n - 1, PendingApproval);
      }
    }
  }

  predicate IsGovernance(w: Watch) {
    w.Adoption? || w.PendingApproval? || w.QueuedRole? || w.Appointment?
  }

  lemma StepUngoverned(h: PolicyDoc -> Hash, g: Guard, e: Event, w: Watch)
    requires g.pointer.None? && g.registry.None? && IsGovernance(w)
    ensures var g' := After(g, Step(h, g, e.op, e.now));
      g'.pointer.None? ==> g'.registry.None? && MarkOf(h, g, e, w) == Keeps
  {
  }

  lemma {:induction false} NothingBeforeAdoption(h: PolicyDoc -> Hash, tr: seq<Guard>, evs: seq<Event>, n: nat, w: Watch)
    requires IsTrace(h, tr, evs) && n <= |evs| && tr[n].pointer.None? && IsGovernance(w)
    ensures Last(h, tr, evs, n, w) == -1
  {
    hide Step;
    if n > 0 {
      ReachableInv(h, tr, evs, n - 1);
      RunEvolves(h, tr, evs, n - 1, n);
      StepUngoverned(h, tr[n - 1], evs[n - 1], w);
      NothingBeforeAdoption(h, tr, evs, n - 1, w);
    }
  }

  /** Every activation comes at least the timelock after the latest approval of the version it activates,
      with no other change of the pending slot in between. */
  lemma ActivationWaitsOutTimelock(h: PolicyDoc -> Hash, tr: seq<Guard>, evs: seq<Event>, n: nat)
    requires IsTrace(h, tr, evs) && n < |evs|
    requires evs[n].op.ActivateOp? && Succeeds(h, tr, evs, n)
    ensures tr[n].pointer.Some?
    ensures var j := Last(h, tr, evs, n, PendingApproval);
      && j >= 0
      && evs[j].op.ApproveOp? && Succeeds(h, tr, evs, j) && evs[j].op.hash == evs[n].op.hash
      && evs[n].now >= evs[j].now + tr[n].pointer.value.timelockSecs
  {
    ReachableInv(h, tr, evs, n);
    PendingApprovalIsHistory(h, tr, evs, n);
    LastIsSet(h, tr, evs, n, PendingApproval);
  }

  lemma StepQueue(h: PolicyDoc -> Hash, g: Guard, e: Event)
    requires Inv(h, g) && e.now > 0
    ensures var g' := After(g, Step(h, g, e.op, e.now));
      match MarkOf(h, g, e, QueuedRole)
      case Sets => && e.op.ProposeRoleOp? && Adopted(g) && e.op.signer == g.registry.value.roleAdmin
                   && Adopted(g') && var r := g'.registry.value;
                   && r.pendingRole == e.op.role && r.pendingAuthority == e.op.key
                   && r.pendingAfter == e.now + g'.pointer.value.timelockSecs > 0
      case Clears => g'.registry.Some? && g'.registry.value.pendingAfter == 0
      case Keeps =>
        if g.registry.None? then g'.registry.Some? ==> g'.registry.value.pendingAfter == 0
        else && g'.registry.Some? && g'.registry.value.pendingAfter == g.registry.value.pendingAfter
             && g'.registry.value.pendingRole == g.registry.value.pendingRole
             && g'.registry.value.pendingAuthority == g.registry.value.pendingAuthority
  {
  }

  /** The queued role change is the last one proposed and not yet applied. */
  lemma {:induction false} QueuedRoleIsHistory(h: PolicyDoc -> Hash, tr: seq<Guard>, evs: seq<Event>, n: nat)
    requires IsTrace(h, tr, evs) && n <= |evs| && Adopted(tr[n])
    ensures var j := Last(h, tr, evs, n, QueuedRole); var r := tr[n].registry.value;
      && (r.pendingAfter != 0 <==> j >= 0)
      && (j >= 0 ==> && evs[j].op.ProposeRoleOp?
                     && evs[j].op.role == r.pendingRole && evs[j].op.key == r.pendingAuthority
                     && r.pendingAfter == evs[j].now + tr[n].pointer.value.timelockSecs
                     && Adopted(tr[j]) && evs[j].op.signer == tr[j].registry.value.roleAdmin)
  {
    hide Step;
    if n > 0 {
      ReachableInv(h, tr, evs, n - 1);
      RunEvolves(h, tr, evs, n - 1, n);
      StepQueue(h, tr[n - 1], evs[n - 1]);
      if tr[n - 1].pointer.Some? {
        QueuedRoleIsHistory(h, tr, evs, n - 1);
      } else {
        NothingBeforeAdoption(h, tr, evs, n - 1, QueuedRole);
      }
    }
  }

  function Assigned(roles: RoleAssignment, role: Role): Pubkey {
    match role
    case RoleAdmin => roles.roleAdmin
    case Author => roles.author
    case Approver => roles.approver
    case Activator => roles.activator
    case PauseOperator => roles.pauseOperator
    case Reporter => roles.reporter
  }

  lemma StepAdoption(h: PolicyDoc -> Hash, g: Guard, e: Event, role: Role)
    requires Inv(h, g)
    ensures var g' := After(g, Step(h, g, e.op, e.now));
      if MarkOf(h, g, e, Adoption) == Sets then
        && e.op.InitGovernanceOp? && !Adopted(g)
        && g'.registry.Some? && g'.registry.value.AuthorityFor(role) == Assigned(e.op.roles, role)
      else MarkOf(h, g, e, Adoption) == Keeps && (g'.registry.Some? <==> g.registry.Some?)
  {
  }

  lemma StepAppointment(h: PolicyDoc -> Hash, g: Guard, e: Event, role: Role)
    requires g.registry.Some?
    ensures var g' := After(g, Step(h, g, e.op, e.now));
      && MarkOf(h, g, e, Appointment(role)) != Clears && g'.registry.Some?
      && g'.registry.value.AuthorityFor(role) ==
           if MarkOf(h, g, e, Appointment(role)) == Sets then g.registry.value.pendingAuthority
           else g.registry.value.AuthorityFor(role)
  {
  }

  /** Each role is held by the key adoption assigned, or by the key whose appointment last took effect. */
  lemma {:induction false} RoleHolderIsHistory(h: PolicyDoc -> Hash, tr: seq<Guard>, evs: seq<Event>, n: nat, role: Role)
    requires IsTrace(h, tr, evs) && n <= |evs| && Adopted(tr[n])
    ensures var a := Last(h, tr, evs, n, Adoption); var k := Last(h, tr, evs, n, Appointment(role));
      && a >= 0 && evs[a].op.InitGovernanceOp?
      && tr[n].registry.value.AuthorityFor(role) ==
           if k < 0 then Assigned(evs[a].op.roles, role)
           else if tr[k].registry.Some? then tr[k].registry.value.pendingAuthority else DEFAULT_KEY
  {
    hide Step;
    if n > 0 {
      ReachableInv(h, tr, evs, n - 1);
      StepAdoption(h, tr[n - 1], evs[n - 1], role);
      if tr[n - 1].pointer.Some? {
        RoleHolderIsHistory(h, tr, evs, n - 1, role);
        StepAppointment(h, tr[n - 1], evs[n - 1], role);
      } else {
        NothingBeforeAdoption(h, tr, evs, n - 1, Appointment(role));
      }
    }
  }

  /** Every holder other than the one adoption assigned was queued for that role by whoever was RoleAdmin
      then, and took effect at least the timelock later; RoleAdmin is never unset. */
  lemma RoleChangesWaitOutTimelock(h: PolicyDoc -> Hash, tr: seq<Guard>, evs: seq<Event>, n: nat, role: Role)
    requires IsTrace(h, tr, evs) && n <= |evs| && Adopted(tr[n])
    ensures tr[n].registry.value.roleAdmin != DEFAULT_KEY
    ensures var k := Last(h, tr, evs, n, Appointment(role));
      k >= 0 ==>
        && evs[k].op.ApplyRoleOp?
        && var j := Last(h, tr, evs, k, QueuedRole);
        && j >= 0 && evs[j].op.ProposeRoleOp?
        && RoleFrom(evs[j].op.role) == Some(role)
        && evs[j].op.key == tr[n].registry.value.AuthorityFor(role)
        && Adopted(tr[j]) && evs[j].op.signer == tr[j].registry.value.roleAdmin
        && evs[k].now >= evs[j].now + tr[n].pointer.value.timelockSecs
  {
    ReachableInv(h, tr, evs, n);
    RoleHolderIsHistory(h, tr, evs, n, role);
    LastIsSet(h, tr, evs, n, Appointment(role));
    var k := Last(h, tr, evs, n, Appointment(role));
    if k >= 0 {
      ReachableInv(h, tr, evs, k);
      RunEvolves(h, tr, evs, k, n);
      QueuedRoleIsHistory(h, tr, evs, k);
    }
  }

  // --------------------------------------------------------------- provenance

  /** The four things an event can do to one version. */
  ghost predicate VersionStep(h: PolicyDoc -> Hash, g: Guard, e: Event, g': Guard, hash: Hash) {
    match (MarkOf(h, g, e, Adoption), MarkOf(h, g, e, Proposal(hash)), MarkOf(h, g, e, Approval(hash)))
    case (Sets, Keeps, Keeps) =>
      e.op.InitGovernanceOp? && hash !in g.versions && !Adopted(g) && (hash in g'.versions <==> e.op.hash == hash)
    case (Keeps, Sets, Keeps) =>
      && hash !in g.versions && Adopted(g) && hash in g'.versions
      && e.op.ProposeOp? && e.op == ProposeOp(e.op.signer, hash, e.op.doc)
      && g'.versions[hash] == PolicyVersion(hash, e.op.doc, e.op.signer, DEFAULT_KEY, e.now, 0)
    case (Keeps, Keeps, Sets) =>
      && hash in g.versions && !Settled(g, hash) && hash in g'.versions
      && e.op.ApproveOp? && e.op == ApproveOp(e.op.signer, hash) && e.op.signer != g.versions[hash].author
      && e.now != 0
      && g'.versions[hash] == g.versions[hash].(approver := e.op.signer, approvedAt := e.now)
    case (Keeps, Keeps, Keeps) =>
      && (hash in g'.versions <==> hash in g.versions)
      && (hash in g.versions ==> g'.versions[hash] == g.versions[hash])
    case _ => false
  }

  lemma PolicyOpVersion(h: PolicyDoc -> Hash, g: Guard, e: Event, hash: Hash)
    requires Inv(h, g) && e.now > 0 && WritesPolicy(e.op)
    ensures VersionStep(h, g, e, After(g, Step(h, g, e.op, e.now)), hash)
  {
    hide SetGuardPaused, TransferGuardAuthority, AcceptGuardAuthority, AddListEntry, RemoveListEntry, ProposeRoleChange,
      ApplyRoleChange, RefreshEligibility, InvalidateCapability, SetTrustAnchor, ReverifyAccreditation, SetDegradeMode,
      BumpScreeningEpoch, OpenWalletState, Execute;
  }

  lemma StepVersion(h: PolicyDoc -> Hash, g: Guard, e: Event, hash: Hash)
    requires Inv(h, g) && e.now > 0
    ensures VersionStep(h, g, e, After(g, Step(h, g, e.op, e.now)), hash)
  {
    hide Step;
    if WritesPolicy(e.op) {
      PolicyOpVersion(h, g, e, hash);
    } else {
      OffPolicy(h, g, e.op, e.now);
    }
  }

  ghost predicate Provenance(h: PolicyDoc -> Hash, tr: seq<Guard>, evs: seq<Event>, n: nat, hash: Hash)
    requires n <= |evs| < |tr| && hash in tr[n].versions
  {
    var a := Last(h, tr, evs, n, Adoption);
    var p := Last(h, tr, evs, n, Proposal(hash));
    var q := Last(h, tr, evs, n, Approval(hash));
    var v := tr[n].versions[hash];
    && a >= 0 && evs[a].op.InitGovernanceOp?
    && if evs[a].op.hash == hash then p < 0 && q < 0
       else && a < p && evs[p].op == ProposeOp(v.author, hash, v.doc)
            && (v.approvedAt == 0 <==> q < 0)
            && (q >= 0 ==> p < q && evs[q].op == ApproveOp(v.approver, hash) && evs[q].now == v.approvedAt
                           && v.approver != v.author)
  }

  lemma ProvenanceKept(h: PolicyDoc -> Hash, tr: seq<Guard>, evs: seq<Event>, n: nat, hash: Hash)
    requires 0 < n <= |evs| < |tr|
    requires hash in tr[n - 1].versions && Provenance(h, tr, evs, n - 1, hash)
    requires VersionStep(h, tr[n - 1], evs[n - 1], tr[n], hash)
    requires evs[Last(h, tr, evs, n - 1, Adoption)].op.hash == hash ==> Settled(tr[n - 1], hash)
    ensures hash in tr[n].versions && Provenance(h, tr, evs, n, hash)
  {
    hide Step;
  }

  lemma ProvenanceBegins(h: PolicyDoc -> Hash, tr: seq<Guard>, evs: seq<Event>, n: nat, hash: Hash)
    requires IsTrace(h, tr, evs) && 0 < n <= |evs|
    requires hash !in tr[n - 1].versions && hash in tr[n].versions
    requires VersionStep(h, tr[n - 1], evs[n - 1], tr[n], hash)
    requires Adopted(tr[n - 1]) ==> Last(h, tr, evs, n - 1, Adoption) >= 0
    ensures Provenance(h, tr, evs, n, hash)
  {
    hide Step;
    UnknownVersion(h, tr, evs, n - 1, hash);
  }

  /** A version's author and approver are the signers of the events that proposed and last approved it. */
  lemma {:induction false} VersionIsHistory(h: PolicyDoc -> Hash, tr: seq<Guard>, evs: seq<Event>, n: nat, hash: Hash)
    requires IsTrace(h, tr, evs) && n <= |evs| && hash in tr[n].versions
    ensures Provenance(h, tr, evs, n, hash)
  {
    hide Step;
    if n > 0 {
      ReachableInv(h, tr, evs, n - 1);
      StepVersion(h, tr[n - 1], evs[n - 1], hash);
      if hash in tr[n - 1].versions {
        VersionIsHistory(h, tr, evs, n - 1, hash);
        GenesisIsSettled(h, tr, evs, n - 1);
        ProvenanceKept(h, tr, evs, n, hash);
      } else {
        if Adopted(tr[n - 1]) {
          RoleHolderIsHistory(h, tr, evs, n - 1, RoleAdmin);
        }
        ProvenanceBegins(h, tr, evs, n, hash);
      }
    }
  }

  lemma GenesisIsSettled(h: PolicyDoc -> Hash, tr: seq<Guard>, evs: seq<Event>, n: nat)
    requires IsTrace(h, tr, evs) && n <= |evs|
    ensures var a := Last(h, tr, evs, n, Adoption);
      a >= 0 ==> evs[a].op.InitGovernanceOp? && Settled(tr[n], evs[a].op.hash)
  {
    var a := Last(h, tr, evs, n, Adoption);
    LastIsSet(h, tr, evs, n, Adoption);
    if a >= 0 {
      RunEvolves(h, tr, evs, a + 1, n);
      assert Settled(tr[a + 1], evs[a].op.hash);
    }
  }

  lemma {:induction false} UnknownVersion(h: PolicyDoc -> Hash, tr: seq<Guard>, evs: seq<Event>, n: nat, hash: Hash)
    requires IsTrace(h, tr, evs) && n <= |evs| && hash !in tr[n].versions
    ensures Last(h, tr, evs, n, Proposal(hash)) == -1 && Last(h, tr, evs, n, Approval(hash)) == -1
    ensures var a := Last(h, tr, evs, n, Adoption); a >= 0 ==> evs[a].op.InitGovernanceOp? && evs[a].op.hash != hash
  {
    hide Step;
    if n > 0 {
      ReachableInv(h, tr, evs, n - 1);
      RunEvolves(h, tr, evs, n - 1, n);
      StepVersion(h, tr[n - 1], evs[n - 1], hash);
      UnknownVersion(h, tr, evs, n - 1, hash);
    }
  }

  /** The policy in force under governance is the genesis document, or one proposed by whoever was Author
      then and approved by a different key that was Approver then, whatever happened to the roles since. */
  lemma GovernedPolicyProvenance(h: PolicyDoc -> Hash, tr: seq<Guard>, evs: seq<Event>, n: nat)
    requires IsTrace(h, tr, evs) && n <= |evs| && tr[n].config.governed
    ensures var hash := tr[n].config.activePolicyHash; var a := Last(h, tr, evs, n, Adoption);
      var p := Last(h, tr, evs, n, Proposal(hash)); var q := Last(h, tr, evs, n, Approval(hash));
      && a >= 0 && evs[a].op.InitGovernanceOp?
      && (if evs[a].op.hash == hash then tr[n].config.AsPolicyDoc() == tr[a].config.AsPolicyDoc()
          else && a < p < q
               && evs[p].op.ProposeOp? && evs[p].op.doc == tr[n].config.AsPolicyDoc()
               && Adopted(tr[p]) && tr[p].registry.value.author == evs[p].op.signer != DEFAULT_KEY
               && evs[q].op.ApproveOp? && evs[q].op.hash == hash
               && Adopted(tr[q]) && tr[q].registry.value.approver == evs[q].op.signer != DEFAULT_KEY
               && evs[p].op.signer != evs[q].op.signer)
  {
    var hash := tr[n].config.activePolicyHash;
    ReachableInv(h, tr, evs, n);
    VersionIsHistory(h, tr, evs, n, hash);
    LastIsSet(h, tr, evs, n, Proposal(hash));
    LastIsSet(h, tr, evs, n, Approval(hash));
    LastIsSet(h, tr, evs, n, Adoption);
    var a := Last(h, tr, evs, n, Adoption);
    if evs[a].op.hash == hash {
      RunEvolves(h, tr, evs, a + 1, n);
      assert tr[a + 1].versions[hash].doc == tr[a].config.AsPolicyDoc();
    }
  }

  // --------------------------------------------------------- cached verdicts

  lemma StepCapability(h: PolicyDoc -> Hash, g: Guard, e: Event, subject: Pubkey)
    ensures var g' := After(g, Step(h, g, e.op, e.now));
      match MarkOf(h, g, e, Verdict(subject))
      case Sets => && e.op.RefreshOp? && e.op.subject == subject && e.op.verdict.Some?
                   && FitsI64(e.now + Ttl(g.config)) && subject in g'.capabilities
                   && var v := e.op.verdict.value;
                      g'.capabilities[subject] == EligibilityCapability(
                        if v.ok then PREDICATE_ATTESTATION_BIT else 0, g.config.aegisProgram, g.config.policyEpoch,
                        g.config.screeningEpoch, v.jurisdiction, v.tier, e.now, e.now + Ttl(g.config))
      case Clears => subject in g'.capabilities && g'.capabilities[subject].verdicts == 0
      case Keeps => && (subject in g'.capabilities <==> subject in g.capabilities)
                    && (subject in g.capabilities ==> g'.capabilities[subject] == g.capabilities[subject])
  {
  }

  /** A cached capability is the verdict of the last refresh of its subject, unless invalidated since. */
  lemma {:induction false} CapabilityIsHistory(h: PolicyDoc -> Hash, tr: seq<Guard>, evs: seq<Event>, n: nat, subject: Pubkey)
    requires IsTrace(h, tr, evs) && n <= |evs|
    ensures var r := Last(h, tr, evs, n, Verdict(subject));
      if r < 0 then subject in tr[n].capabilities ==> tr[n].capabilities[subject].verdicts == 0
      else
        && evs[r].op.RefreshOp? && evs[r].op.subject == subject && evs[r].op.verdict.Some?
        && subject in tr[n].capabilities
        && var cap := tr[n].capabilities[subject];
        && cap.verdicts == (if evs[r].op.verdict.value.ok then PREDICATE_ATTESTATION_BIT else 0)
        && cap.policyEpoch == tr[r].config.policyEpoch && cap.screeningEpoch == tr[r].config.screeningEpoch
        && cap.aegisProgram == tr[r].config.aegisProgram
        && cap.expiresAt == evs[r].now + Ttl(tr[r].config)
  {
    hide Step;
    if n > 0 {
      CapabilityIsHistory(h, tr, evs, n - 1, subject);
      StepCapability(h, tr[n - 1], evs[n - 1], subject);
    }
  }

  /** The cache read passes exactly when the last write for the subject was a refresh with a positive
      verdict that has not expired, and neither epoch has moved since. */
  lemma CapabilityMeaning(h: PolicyDoc -> Hash, tr: seq<Guard>, evs: seq<Event>, n: nat, subject: Pubkey, now: i64)
    requires IsTrace(h, tr, evs) && n <= |evs|
    ensures var r := Last(h, tr, evs, n, Verdict(subject));
      CapabilityOk(tr[n], subject, now) <==>
        && r >= 0
        && evs[r].op.RefreshOp? && evs[r].op.verdict.Some? && evs[r].op.verdict.value.ok
        && now < evs[r].now + Ttl(tr[r].config)
        && tr[r].config.policyEpoch == tr[n].config.policyEpoch
        && tr[r].config.screeningEpoch == tr[n].config.screeningEpoch
  {
    hide Step;
    CapabilityIsHistory(h, tr, evs, n, subject);
    var r := Last(h, tr, evs, n, Verdict(subject));
    if r >= 0 {
      RunEvolves(h, tr, evs, r, n);
    }
  }
}
