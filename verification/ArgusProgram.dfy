/** The argus handlers as they run: each works on the loaded accounts step by step and stops at the first
    failed requirement. An instruction's writes survive only if it succeeds, so a handler that writes before
    it validates does so on a local copy and stores it at the end. */
module ArgusProgram {
  import opened Base
  import opened Argus
  import Aegis
  import TrustStreak

  class GuardAccounts {
    var config: GuardConfig
    var pointer: Option<PolicyPointer>
    var registry: Option<RoleRegistry>
    var versions: map<Hash, PolicyVersion>
    var capabilities: map<Pubkey, EligibilityCapability>
    var anchor: Option<TrustAnchor>
    var wallets: map<Pubkey, WalletPolicyState>
    var entries: set<Pubkey>

    function State(): Guard
      reads this
    {
      Guard(config, pointer, registry, versions, capabilities, anchor, wallets, entries)
    }

    constructor (g: Guard)
      ensures State() == g
    {
      config, pointer, registry, versions := g.config, g.pointer, g.registry, g.versions;
      capabilities, anchor, wallets, entries := g.capabilities, g.anchor, g.wallets, g.entries;
    }

    // ------------------------------------------------------------- configuration

    method HandleConfigurePolicy(signer: Pubkey, update: PolicyUpdate) returns (out: Outcome<Error>)
      modifies this
      ensures Commits(ConfigurePolicy(old(State()), signer, update), old(State()), State(), out)
    {
      if signer != config.authority { return Fail(Unauthorized); }
      if config.governed { return Fail(RoleUnauthorized); }
      var r := ApplyFields(update, config);
      if r.Err? { return Fail(r.error); }
      config := r.value;
      out := Pass;
    }

    /** Writes the fields the update names, one by one, then validates the result as a whole. */
    static method ApplyFields(u: PolicyUpdate, config: GuardConfig) returns (r: Result<GuardConfig, Error>)
      ensures r == ApplyUpdate(u, config)
    {
      var c := config;
      c := c.(flags := Or(u.flags, c.flags));
      c := c.(dailyGiftCap := Or(u.dailyGiftCap, c.dailyGiftCap));
      c := c.(perTxCap := Or(u.perTxCap, c.perTxCap));
      c := c.(maxWalletBalance := Or(u.maxWalletBalance, c.maxWalletBalance));
      c := c.(transfersPerDayCap := Or(u.transfersPerDayCap, c.transfersPerDayCap));
      c := c.(cooldownSecs := Or(u.cooldownSecs, c.cooldownSecs));
      c := c.(attestationSchema := Or(u.attestationSchema, c.attestationSchema));
      if u.capabilityTtlSecs.Some? {
        if u.capabilityTtlSecs.value < 0 { return Err(InvalidPolicy); }
        c := c.(capabilityTtlSecs := u.capabilityTtlSecs.value);
      }
      c := c.(policyEpoch := SatAdd64(c.policyEpoch, 1));
      var checked := ValidatePolicy(c.flags, c.dailyGiftCap, c.perTxCap, c.aegisProgram, c.policy, c.attestationIssuer);
      r := if checked.Fail? then Err(checked.error) else Ok(c);
    }

    method HandleSetGuardPaused(signer: Pubkey, paused: bool) returns (out: Outcome<Error>)
      modifies this`config
      ensures Commits(SetGuardPaused(old(State()), signer, paused), old(State()), State(), out)
    {
      if signer != config.authority { return Fail(Unauthorized); }
      config := config.(paused := paused);
      out := Pass;
    }

    method HandleAcceptGuardAuthority(signer: Pubkey) returns (out: Outcome<Error>)
      modifies this`config
      ensures Commits(AcceptGuardAuthority(old(State()), signer), old(State()), State(), out)
    {
      if config.pendingAuthority != Some(signer) { return Fail(PendingAuthorityMismatch); }
      config := config.(authority := signer);
      config := config.(pendingAuthority := None);
      out := Pass;
    }

    // ---------------------------------------------------------------- governance

    method HandleInitializeGovernance(h: PolicyDoc -> Hash, signer: Pubkey, genesisHash: Hash, roles: RoleAssignment,
                                      timelockSecs: i64, now: i64) returns (out: Outcome<Error>)
      modifies this`config, this`pointer, this`registry, this`versions
      ensures Commits(InitializeGovernance(h, old(State()), signer, genesisHash, roles, timelockSecs, now),
                      old(State()), State(), out)
    {
      if registry.Some? || pointer.Some? || genesisHash in versions { return Fail(AccountConstraint); }
      if signer != config.authority { return Fail(Unauthorized); }
      if config.governed { return Fail(PolicyPinned); }
      if timelockSecs < 0 || timelockSecs > MAX_GOVERNANCE_TIMELOCK_SECS { return Fail(InvalidTimelock); }
      if roles.roleAdmin == DEFAULT_KEY { return Fail(RoleUnauthorized); }
      var doc := config.AsPolicyDoc();
      if h(doc) != genesisHash { return Fail(PolicyHashMismatch); }
      versions := versions[genesisHash := PolicyVersion(genesisHash, doc, signer, signer, now, now)];
      registry := Some(RoleRegistry(roles.roleAdmin, roles.author, roles.approver, roles.activator,
                                    roles.pauseOperator, roles.reporter, 0, DEFAULT_KEY, 0));
      pointer := Some(PolicyPointer(genesisHash, ZERO_HASH, 0, timelockSecs, false));
      config := config.(governed := true);
      config := config.(activePolicyHash := genesisHash);
      out := Pass;
    }

    method HandleProposePolicy(h: PolicyDoc -> Hash, signer: Pubkey, hash: Hash, doc: PolicyDoc, now: i64)
      returns (out: Outcome<Error>)
      modifies this`versions, this`pointer
      ensures Commits(ProposePolicy(h, old(State()), signer, hash, doc, now), old(State()), State(), out)
    {
      if pointer.None? || registry.None? || hash in versions { return Fail(AccountConstraint); }
      if !registry.value.Holds(Author, signer) { return Fail(RoleUnauthorized); }
      if pointer.value.pinned { return Fail(PolicyPinned); }
      if h(doc) != hash { return Fail(PolicyHashMismatch); }
      versions := versions[hash := PolicyVersion(hash, doc, signer, DEFAULT_KEY, now, 0)];
      pointer := Some(pointer.value.(pendingHash := hash));
      pointer := Some(pointer.value.(pendingApprovedAt := 0));
      out := Pass;
    }

    method HandleApprovePolicy(signer: Pubkey, hash: Hash, now: i64) returns (out: Outcome<Error>)
      modifies this`versions, this`pointer
      ensures Commits(ApprovePolicy(old(State()), signer, hash, now), old(State()), State(), out)
    {
      if pointer.None? || registry.None? || hash !in versions { return Fail(AccountConstraint); }
      if !registry.value.Holds(Approver, signer) { return Fail(RoleUnauthorized); }
      if pointer.value.pinned { return Fail(PolicyPinned); }
      if pointer.value.pendingHash != versions[hash].policyHash { return Fail(PolicyVersionMismatch); }
      if signer == versions[hash].author { return Fail(SelfApproval); }
      if !FitsI64(now + pointer.value.timelockSecs) { return Fail(Overflow); }
      versions := versions[hash := versions[hash].(approver := signer)];
      versions := versions[hash := versions[hash].(approvedAt := now)];
      pointer := Some(pointer.value.(pendingApprovedAt := now));
      out := Pass;
    }

    /** The shared tail of activation and rollback: nine fields, the epoch, the active hash. */
    method WriteAndRepoint(doc: PolicyDoc, newHash: Hash) returns (out: Outcome<Error>)
      requires pointer.Some?
      modifies this`config, this`pointer
      ensures Commits(ApplyAndRepoint(old(State()), doc, newHash), old(State()), State(), out)
    {
      if doc.capabilityTtlSecs < 0 { return Fail(InvalidPolicy); }
      out := ValidatePolicy(doc.flags, doc.dailyGiftCap, doc.perTxCap, config.aegisProgram, doc.policy, config.attestationIssuer);
      if out.Fail? { return; }
      config := config.(flags := doc.flags);
      config := config.(dailyGiftCap := doc.dailyGiftCap);
      config := config.(perTxCap := doc.perTxCap);
      config := config.(maxWalletBalance := doc.maxWalletBalance);
      config := config.(transfersPerDayCap := doc.transfersPerDayCap);
      config := config.(cooldownSecs := doc.cooldownSecs);
      config := config.(attestationSchema := doc.attestationSchema);
      config := config.(capabilityTtlSecs := doc.capabilityTtlSecs);
      config := config.(policy := doc.policy);
      config := config.(policyEpoch := SatAdd64(config.policyEpoch, 1));
      pointer := Some(pointer.value.(activeHash := newHash));
      pointer := Some(pointer.value.(pendingHash := ZERO_HASH));
      pointer := Some(pointer.value.(pendingApprovedAt := 0));
      config := config.(activePolicyHash := newHash);
    }

    method HandleActivatePolicy(signer: Pubkey, hash: Hash, now: i64) returns (out: Outcome<Error>)
      modifies this`config, this`pointer
      ensures Commits(ActivatePolicy(old(State()), signer, hash, now), old(State()), State(), out)
    {
      if pointer.None? || registry.None? || hash !in versions { return Fail(AccountConstraint); }
      if !registry.value.Holds(Activator, signer) { return Fail(RoleUnauthorized); }
      var p, v := pointer.value, versions[hash];
      if p.pinned { return Fail(PolicyPinned); }
      if p.pendingHash != v.policyHash { return Fail(PolicyVersionMismatch); }
      if p.pendingApprovedAt == 0 { return Fail(PolicyNotApproved); }
      var readyAt := p.pendingApprovedAt + p.timelockSecs;
      if !FitsI64(readyAt) { return Fail(Overflow); }
      if now < readyAt { return Fail(TimelockActive); }
      out := WriteAndRepoint(v.doc, v.policyHash);
    }

    method HandleRollbackPolicy(signer: Pubkey, hash: Hash) returns (out: Outcome<Error>)
      modifies this`config, this`pointer
      ensures Commits(RollbackPolicy(old(State()), signer, hash), old(State()), State(), out)
    {
      if pointer.None? || registry.None? || hash !in versions { return Fail(AccountConstraint); }
      if !registry.value.Holds(Activator, signer) { return Fail(RoleUnauthorized); }
      if pointer.value.pinned { return Fail(PolicyPinned); }
      if versions[hash].approvedAt == 0 { return Fail(PolicyNotApproved); }
      out := WriteAndRepoint(versions[hash].doc, versions[hash].policyHash);
    }

    method HandlePinPolicy(signer: Pubkey) returns (out: Outcome<Error>)
      modifies this`pointer
      ensures Commits(PinPolicy(old(State()), signer), old(State()), State(), out)
    {
      if pointer.None? || registry.None? { return Fail(AccountConstraint); }
      if !registry.value.Holds(RoleAdmin, signer) { return Fail(RoleUnauthorized); }
      pointer := Some(pointer.value.(pinned := true));
      out := Pass;
    }

    method HandleProposeRoleChange(signer: Pubkey, role: u8, key: Pubkey, now: i64) returns (out: Outcome<Error>)
      modifies this`registry
      ensures Commits(ProposeRoleChange(old(State()), signer, role, key, now), old(State()), State(), out)
    {
      if pointer.None? || registry.None? { return Fail(AccountConstraint); }
      if !registry.value.Holds(RoleAdmin, signer) { return Fail(RoleUnauthorized); }
      var target := RoleFrom(role);
      if target.None? { return Fail(InvalidRole); }
      if target == Some(RoleAdmin) && key == DEFAULT_KEY { return Fail(RoleUnauthorized); }
      var applyAfter := now + pointer.value.timelockSecs;
      if !FitsI64(applyAfter) { return Fail(Overflow); }
      registry := Some(registry.value.(pendingRole := role));
      registry := Some(registry.value.(pendingAuthority := key));
      registry := Some(registry.value.(pendingAfter := applyAfter));
      out := Pass;
    }

    method HandleApplyRoleChange(signer: Pubkey, now: i64) returns (out: Outcome<Error>)
      modifies this`registry
      ensures Commits(ApplyRoleChange(old(State()), signer, now), old(State()), State(), out)
    {
      if pointer.None? || registry.None? { return Fail(AccountConstraint); }
      var r := registry.value;
      if !r.Holds(RoleAdmin, signer) { return Fail(RoleUnauthorized); }
      if r.pendingAfter == 0 { return Fail(NoPendingChange); }
      if now < r.pendingAfter { return Fail(TimelockActive); }
      var role := RoleFrom(r.pendingRole);
      if role.None? { return Fail(InvalidRole); }
      r := r.Set(role.value, r.pendingAuthority);
      r := r.(pendingRole := 0);
      r := r.(pendingAuthority := DEFAULT_KEY);
      r := r.(pendingAfter := 0);
      registry := Some(r);
      out := Pass;
    }

    // --------------------------------------------------------------- capabilities

    method HandleRefreshEligibility(subject: Pubkey, aegisProgram: Pubkey, policyAccount: Pubkey,
                                    verdict: Option<Aegis.Verdict>, now: i64) returns (out: Outcome<Error>)
      modifies this`capabilities
      ensures Commits(RefreshEligibility(old(State()), subject, aegisProgram, policyAccount, verdict, now),
                      old(State()), State(), out)
    {
      if aegisProgram != config.aegisProgram { return Fail(AegisProgramMismatch); }
      if config.policy != DEFAULT_KEY {
        if policyAccount != config.policy { return Fail(MetaListMismatch); }
      }
      if verdict.None? { return Fail(EligibilityStale); }
      var bits: bv32 := 0;
      if verdict.value.ok {
        bits := PREDICATE_ATTESTATION_BIT;
      }
      var ttl := CAPABILITY_TTL_SECS;
      if config.capabilityTtlSecs > 0 {
        ttl := config.capabilityTtlSecs;
      }
      var expiresAt := now + ttl;
      if !FitsI64(expiresAt) { return Fail(Overflow); }
      capabilities := capabilities[subject := EligibilityCapability(
        bits, config.aegisProgram, config.policyEpoch, config.screeningEpoch,
        verdict.value.jurisdiction, verdict.value.tier, now, expiresAt)];
      out := Pass;
    }

    method HandleInvalidateCapability(signer: Pubkey, subject: Pubkey) returns (out: Outcome<Error>)
      modifies this`capabilities
      ensures Commits(InvalidateCapability(old(State()), signer, subject), old(State()), State(), out)
    {
      if signer != config.authority { return Fail(Unauthorized); }
      if subject !in capabilities { return Fail(AccountConstraint); }
      capabilities := capabilities[subject := capabilities[subject].(verdicts := 0)];
      capabilities := capabilities[subject := capabilities[subject].(expiresAt := 0)];
      out := Pass;
    }

    // ----------------------------------------------------------------------- trust

    method HandleSetTrustAnchor(signer: Pubkey, root: Pubkey, subjectIssuer: Pubkey, requiredSchema: u64,
                                degradeTarget: u8, graceSecs: i64, now: i64) returns (out: Outcome<Error>)
      modifies this`anchor
      ensures Commits(SetTrustAnchor(old(State()), signer, root, subjectIssuer, requiredSchema, degradeTarget, graceSecs, now),
                      old(State()), State(), out)
    {
      if signer != config.authority { return Fail(Unauthorized); }
      if !TrustStreak.IsValidTarget(degradeTarget) { return Fail(InvalidDegradeTarget); }
      if graceSecs < 0 { return Fail(InvalidTimelock); }
      if root == DEFAULT_KEY { return Fail(TrustAnchorMissing); }
      anchor := Some(TrustAnchor(root, subjectIssuer, requiredSchema, config.aegisProgram, degradeTarget, graceSecs, 0, now));
      out := Pass;
    }

    method HandleReverifyAccreditation(aegisProgram: Pubkey, ok: bool, now: i64) returns (out: Outcome<Error>)
      modifies this`anchor, this`config
      ensures Commits(ReverifyAccreditation(old(State()), aegisProgram, ok, now), old(State()), State(), out)
    {
      if anchor.None? { return Fail(AccountConstraint); }
      var a := anchor.value;
      if aegisProgram != a.aegisProgram { return Fail(AegisProgramMismatch); }
      var newMode := config.degradeMode;
      if ok {
        a := a.(failingSince := 0);
        a := a.(lastVerifiedAt := now);
        newMode := TrustStreak.NORMAL;
      } else {
        if a.failingSince == 0 {
          a := a.(failingSince := now);
        }
        var elapsed := if FitsI64(now - a.failingSince) then now - a.failingSince else 0;
        if elapsed >= a.graceSecs {
          newMode := a.degradeTarget;
        }
      }
      anchor := Some(a);
      config := config.(degradeMode := newMode);
      out := Pass;
    }

    method HandleSetDegradeMode(signer: Pubkey, mode: u8) returns (out: Outcome<Error>)
      modifies this`anchor, this`config
      ensures Commits(SetDegradeMode(old(State()), signer, mode), old(State()), State(), out)
    {
      if anchor.None? { return Fail(AccountConstraint); }
      if signer != config.authority { return Fail(Unauthorized); }
      if mode != TrustStreak.NORMAL && !TrustStreak.IsValidTarget(mode) { return Fail(InvalidDegradeTarget); }
      config := config.(degradeMode := mode);
      if mode == TrustStreak.NORMAL {
        anchor := Some(anchor.value.(failingSince := 0));
      }
      out := Pass;
    }

    // -------------------------------------------------------------------- transfers

    /** The transfer hook: the ordered rules, then the velocity commit. */
    method HandleExecute(x: Transfer, now: i64) returns (out: Outcome<Error>)
      modifies this`wallets
      ensures Commits(Execute(old(State()), x, now), old(State()), State(), out)
    {
      if x.permanentDelegate == Some(x.authority) { return Pass; }
      if x.destination == config.treasury { return Pass; }
      if config.paused { return Fail(MintPaused); }
      if config.degradeMode != TrustStreak.NORMAL { return Fail(TrustDegraded); }
      if x.amount == 0 { return Pass; }
      if config.Has(GIFTING_DISABLED) { return Fail(GiftingDisabled); }
      if x.destinationOwner != x.suppliedOwner { return Fail(MetaListMismatch); }
      if config.Has(BLOCK_PROGRAM_OWNED) && !x.ownerIsSystemOwned { return Fail(ProgramOwnedDestination); }
      var listed := x.destinationOwner in entries;
      if config.Has(ALLOWLIST_ONLY) && !listed { return Fail(NotAllowlisted); }
      if config.Has(DENYLIST) && listed { return Fail(DenyListed); }
      if config.Has(REQUIRE_ATTESTATION) && !CapabilityOk(State(), x.destinationOwner, now) { return Fail(EligibilityStale); }
      if config.perTxCap != 0 && x.amount > config.perTxCap { return Fail(PerTxExceeded); }
      if config.maxWalletBalance != 0 && x.destinationBalance > config.maxWalletBalance { return Fail(BalanceCapExceeded); }
      if x.sourceOwner !in wallets { return Fail(StateNotOpened); }

      var r := CommitVelocity(config, wallets[x.sourceOwner], x.amount, now);
      if r.Err? { return Fail(r.error); }
      wallets := wallets[x.sourceOwner := r.value];
      out := Pass;
    }

    /** Rolls the day, checks cooldown, count and volume, then counts the gift. */
    static method CommitVelocity(config: GuardConfig, w: WalletPolicyState, amount: u64, now: i64)
      returns (r: Result<WalletPolicyState, Error>)
      ensures r == Velocity(config, w, amount, now)
    {
      var state := w;
      var today := UnixDay(now);
      if today.None? { return Err(Overflow); }
      if state.day != today.value {
        state := state.(day := today.value);
        state := state.(sentToday := 0);
        state := state.(transfersToday := 0);
      }
      if config.cooldownSecs > 0 && state.lastTransferAt != 0 {
        var elapsed := if FitsI64(now - state.lastTransferAt) then now - state.lastTransferAt else 0;
        if elapsed < config.cooldownSecs { return Err(CooldownActive); }
      }
      if config.transfersPerDayCap != 0 && state.transfersToday >= config.transfersPerDayCap {
        return Err(TransferCountExceeded);
      }
      var newSent := state.sentToday + amount;
      if newSent > U64_MAX { return Err(Overflow); }
      if newSent > config.dailyGiftCap { return Err(GiftCapExceeded); }
      state := state.(sentToday := newSent);
      state := state.(transfersToday := SatAdd16(state.transfersToday, 1));
      state := state.(lastTransferAt := now);
      r := Ok(state);
    }
  }
}
