/** argus: the transfer guard of one mint. Each instruction is a function from the guard's accounts to
    its accounts after the instruction, or the error that reverts it. */
module Argus {
  import opened Base
  import Aegis
  import TrustStreak

  /** Content address of a policy document; the hash function is a parameter of the model. */
  type Hash = nat
  const ZERO_HASH: Hash := 0

  const MAX_GOVERNANCE_TIMELOCK_SECS := 365 * 86_400
  const CAPABILITY_TTL_SECS: i64 := 86_400

  // Policy flags.
  const BLOCK_PROGRAM_OWNED: bv16 := 1
  const ALLOWLIST_ONLY: bv16 := 2
  const DENYLIST: bv16 := 4
  const REQUIRE_ATTESTATION: bv16 := 8
  const GIFTING_DISABLED: bv16 := 16
  const KNOWN_FLAGS: bv16 := 31

  // Decision reasons of accepted transfers.
  const ISSUER_FLOW: u16 := 0
  const TREASURY_FLOW: u16 := 1
  const GIFT: u16 := 2
  const NOOP: u16 := 3

  datatype Error =
    | AccountConstraint  // a missing, existing or mismatched account
    | StateNotOpened | Unauthorized | PendingAuthorityMismatch | InvalidPolicy | UnknownFlag
    | MintPaused | GiftingDisabled | PerTxExceeded | BalanceCapExceeded | CooldownActive
    | TransferCountExceeded | GiftCapExceeded | NotAllowlisted | DenyListed | ProgramOwnedDestination
    | MetaListMismatch | EligibilityStale | AegisProgramMismatch | Overflow
    | RoleUnauthorized | InvalidRole | SelfApproval | PolicyNotApproved | TimelockActive | PolicyPinned
    | PolicyVersionMismatch | PolicyHashMismatch | NoPendingChange | InvalidTimelock
    | TrustDegraded | InvalidDegradeTarget | TrustAnchorMissing

  datatype PolicyDoc = PolicyDoc(
    flags: bv16, dailyGiftCap: u64, perTxCap: u64, maxWalletBalance: u64, transfersPerDayCap: u16,
    cooldownSecs: u32, attestationSchema: u64, capabilityTtlSecs: i64, policy: Pubkey)

  datatype GuardConfig = GuardConfig(
    authority: Pubkey, pendingAuthority: Option<Pubkey>, treasury: Pubkey,
    aegisProgram: Pubkey, attestationIssuer: Pubkey, policy: Pubkey,
    policyEpoch: u64, screeningEpoch: u64, paused: bool,
    flags: bv16, dailyGiftCap: u64, perTxCap: u64, maxWalletBalance: u64, transfersPerDayCap: u16,
    cooldownSecs: u32, attestationSchema: u64, capabilityTtlSecs: i64,
    governed: bool, activePolicyHash: Hash, degradeMode: u8)
  {
    function AsPolicyDoc(): PolicyDoc {
      PolicyDoc(flags, dailyGiftCap, perTxCap, maxWalletBalance, transfersPerDayCap, cooldownSecs,
                attestationSchema, capabilityTtlSecs, policy)
    }

    predicate Has(flag: bv16) {
      flags & flag != 0
    }
  }

  datatype WalletPolicyState = WalletPolicyState(
    day: u32, sentToday: u64, transfersToday: u16, lastTransferAt: i64)

  datatype EligibilityCapability = EligibilityCapability(
    verdicts: bv32, aegisProgram: Pubkey, policyEpoch: u64, screeningEpoch: u64,
    jurisdiction: u16, tier: u8, issuedAt: i64, expiresAt: i64)

  const PREDICATE_ATTESTATION_BIT: bv32 := 1

  datatype PolicyVersion = PolicyVersion(
    policyHash: Hash, doc: PolicyDoc, author: Pubkey, approver: Pubkey, proposedAt: i64, approvedAt: i64)

  datatype PolicyPointer = PolicyPointer(
    activeHash: Hash, pendingHash: Hash, pendingApprovedAt: i64, timelockSecs: i64, pinned: bool)

  datatype Role = RoleAdmin | Author | Approver | Activator | PauseOperator | Reporter

  function RoleFrom(v: u8): Option<Role> {
    match v
    case 0 => Some(RoleAdmin)
    case 1 => Some(Author)
    case 2 => Some(Approver)
    case 3 => Some(Activator)
    case 4 => Some(PauseOperator)
    case 5 => Some(Reporter)
    case _ => None
  }

  datatype RoleAssignment = RoleAssignment(
    roleAdmin: Pubkey, author: Pubkey, approver: Pubkey, activator: Pubkey, pauseOperator: Pubkey, reporter: Pubkey)

  datatype RoleRegistry = RoleRegistry(
    roleAdmin: Pubkey, author: Pubkey, approver: Pubkey, activator: Pubkey, pauseOperator: Pubkey, reporter: Pubkey,
    pendingRole: u8, pendingAuthority: Pubkey, pendingAfter: i64)
  {
    function AuthorityFor(role: Role): Pubkey {
      match role
      case RoleAdmin => roleAdmin
      case Author => author
      case Approver => approver
      case Activator => activator
      case PauseOperator => pauseOperator
      case Reporter => reporter
    }

    function Set(role: Role, key: Pubkey): RoleRegistry {
      match role
      case RoleAdmin => this.(roleAdmin := key)
      case Author => this.(author := key)
      case Approver => this.(approver := key)
      case Activator => this.(activator := key)
      case PauseOperator => this.(pauseOperator := key)
      case Reporter => this.(reporter := key)
    }

    /** An unset role matches nothing. */
    predicate Holds(role: Role, signer: Pubkey) {
      AuthorityFor(role) != DEFAULT_KEY && AuthorityFor(role) == signer
    }
  }

  datatype TrustAnchor = TrustAnchor(
    accreditationRoot: Pubkey, subjectIssuer: Pubkey, requiredSchema: u64, aegisProgram: Pubkey,
    degradeTarget: u8, graceSecs: i64, failingSince: i64, lastVerifiedAt: i64)

  /** The accounts of one guarded mint; a map key is a derived address. */
  datatype Guard = Guard(
    config: GuardConfig,
    pointer: Option<PolicyPointer>,
    registry: Option<RoleRegistry>,
    versions: map<Hash, PolicyVersion>,
    capabilities: map<Pubkey, EligibilityCapability>,
    anchor: Option<TrustAnchor>,
    wallets: map<Pubkey, WalletPolicyState>,
    entries: set<Pubkey>)

  // ------------------------------------------------------------ configuration

  function ValidatePolicy(flags: bv16, dailyGiftCap: u64, perTxCap: u64, aegisProgram: Pubkey, policy: Pubkey,
                          attestationIssuer: Pubkey): Outcome<Error>
  {
    if flags & !KNOWN_FLAGS != 0 then Fail(UnknownFlag)
    else if dailyGiftCap != 0 && perTxCap != 0 && perTxCap > dailyGiftCap then Fail(InvalidPolicy)
    else if flags & REQUIRE_ATTESTATION != 0
            && (aegisProgram == DEFAULT_KEY || (policy == DEFAULT_KEY && attestationIssuer == DEFAULT_KEY))
      then Fail(InvalidPolicy)
    else Pass
  }

  datatype InitialPolicy = InitialPolicy(doc: PolicyDoc, aegisProgram: Pubkey, attestationIssuer: Pubkey)

  function InitializeTransferGuard(authority: Pubkey, treasury: Pubkey, p: InitialPolicy): Result<Guard, Error> {
    var d := p.doc;
    match ValidatePolicy(d.flags, d.dailyGiftCap, d.perTxCap, p.aegisProgram, d.policy, p.attestationIssuer)
    case Fail(e) => Err(e)
    case Pass =>
      if d.capabilityTtlSecs < 0 then Err(InvalidPolicy)
      else
        var config := GuardConfig(
          authority, None, treasury, p.aegisProgram, p.attestationIssuer, d.policy, 0, 0, false,
          d.flags, d.dailyGiftCap, d.perTxCap, d.maxWalletBalance, d.transfersPerDayCap, d.cooldownSecs,
          d.attestationSchema, d.capabilityTtlSecs, false, ZERO_HASH, TrustStreak.NORMAL);
        Ok(Guard(config, None, None, map[], map[], None, map[], {}))
  }

  datatype PolicyUpdate = PolicyUpdate(
    flags: Option<bv16>, dailyGiftCap: Option<u64>, perTxCap: Option<u64>, maxWalletBalance: Option<u64>,
    transfersPerDayCap: Option<u16>, cooldownSecs: Option<u32>, attestationSchema: Option<u64>,
    capabilityTtlSecs: Option<i64>)

  function Or<T>(o: Option<T>, default: T): T {
    if o.Some? then o.value else default
  }

  function ApplyUpdate(u: PolicyUpdate, c: GuardConfig): Result<GuardConfig, Error> {
    var c' := c.(flags := Or(u.flags, c.flags),
                 dailyGiftCap := Or(u.dailyGiftCap, c.dailyGiftCap),
                 perTxCap := Or(u.perTxCap, c.perTxCap),
                 maxWalletBalance := Or(u.maxWalletBalance, c.maxWalletBalance),
                 transfersPerDayCap := Or(u.transfersPerDayCap, c.transfersPerDayCap),
                 cooldownSecs := Or(u.cooldownSecs, c.cooldownSecs),
                 attestationSchema := Or(u.attestationSchema, c.attestationSchema),
                 capabilityTtlSecs := Or(u.capabilityTtlSecs, c.capabilityTtlSecs),
                 policyEpoch := SatAdd64(c.policyEpoch, 1));
    if u.capabilityTtlSecs.Some? && u.capabilityTtlSecs.value < 0 then Err(InvalidPolicy)
    else match ValidatePolicy(c'.flags, c'.dailyGiftCap, c'.perTxCap, c'.aegisProgram, c'.policy, c'.attestationIssuer)
      case Fail(e) => Err(e)
      case Pass => Ok(c')
  }

  function ConfigurePolicy(g: Guard, signer: Pubkey, u: PolicyUpdate): Result<Guard, Error> {
    if signer != g.config.authority then Err(Unauthorized)
    else if g.config.governed then Err(RoleUnauthorized)
    else match ApplyUpdate(u, g.config)
      case Err(e) => Err(e)
      case Ok(c) => Ok(g.(config := c))
  }

  function SetGuardPaused(g: Guard, signer: Pubkey, paused: bool): Result<Guard, Error> {
    if signer != g.config.authority then Err(Unauthorized)
    else Ok(g.(config := g.config.(paused := paused)))
  }

  function TransferGuardAuthority(g: Guard, signer: Pubkey, newAuthority: Pubkey): Result<Guard, Error> {
    if signer != g.config.authority then Err(Unauthorized)
    else Ok(g.(config := g.config.(pendingAuthority := Some(newAuthority))))
  }

  function AcceptGuardAuthority(g: Guard, signer: Pubkey): Result<Guard, Error> {
    if g.config.pendingAuthority != Some(signer) then Err(PendingAuthorityMismatch)
    else Ok(g.(config := g.config.(authority := signer, pendingAuthority := None)))
  }

  function AddListEntry(g: Guard, signer: Pubkey, target: Pubkey): Result<Guard, Error> {
    if target in g.entries then Err(AccountConstraint)
    else if signer != g.config.authority then Err(Unauthorized)
    else Ok(g.(entries := g.entries + {target}))
  }

  function RemoveListEntry(g: Guard, signer: Pubkey, target: Pubkey): Result<Guard, Error> {
    if target !in g.entries then Err(AccountConstraint)
    else if signer != g.config.authority then Err(Unauthorized)
    else Ok(g.(entries := g.entries - {target}))
  }

  // --------------------------------------------------------------- governance

  function InitializeGovernance(h: PolicyDoc -> Hash, g: Guard, signer: Pubkey, genesisHash: Hash,
                                roles: RoleAssignment, timelockSecs: i64, now: i64): Result<Guard, Error>
  {
    var doc := g.config.AsPolicyDoc();
    if g.registry.Some? || g.pointer.Some? || genesisHash in g.versions then Err(AccountConstraint)
    else if signer != g.config.authority then Err(Unauthorized)
    else if g.config.governed then Err(PolicyPinned)
    else if !(0 <= timelockSecs <= MAX_GOVERNANCE_TIMELOCK_SECS) then Err(InvalidTimelock)
    else if roles.roleAdmin == DEFAULT_KEY then Err(RoleUnauthorized)
    else if h(doc) != genesisHash then Err(PolicyHashMismatch)
    else Ok(g.(
      versions := g.versions[genesisHash := PolicyVersion(genesisHash, doc, signer, signer, now, now)],
      registry := Some(RoleRegistry(roles.roleAdmin, roles.author, roles.approver, roles.activator,
                                    roles.pauseOperator, roles.reporter, 0, DEFAULT_KEY, 0)),
      pointer := Some(PolicyPointer(genesisHash, ZERO_HASH, 0, timelockSecs, false)),
      config := g.config.(governed := true, activePolicyHash := genesisHash)))
  }

  /** The governance accounts exist. */
  predicate Adopted(g: Guard) {
    g.pointer.Some? && g.registry.Some?
  }

  function ProposePolicy(h: PolicyDoc -> Hash, g: Guard, signer: Pubkey, hash: Hash, doc: PolicyDoc, now: i64)
    : Result<Guard, Error>
  {
    if !Adopted(g) || hash in g.versions then Err(AccountConstraint)
    else if !g.registry.value.Holds(Author, signer) then Err(RoleUnauthorized)
    else if g.pointer.value.pinned then Err(PolicyPinned)
    else if h(doc) != hash then Err(PolicyHashMismatch)
    else Ok(g.(
      versions := g.versions[hash := PolicyVersion(hash, doc, signer, DEFAULT_KEY, now, 0)],
      pointer := Some(g.pointer.value.(pendingHash := hash, pendingApprovedAt := 0))))
  }

  function ApprovePolicy(g: Guard, signer: Pubkey, hash: Hash, now: i64): Result<Guard, Error> {
    if !Adopted(g) || hash !in g.versions then Err(AccountConstraint)
    else if !g.registry.value.Holds(Approver, signer) then Err(RoleUnauthorized)
    else if g.pointer.value.pinned then Err(PolicyPinned)
    else if g.pointer.value.pendingHash != g.versions[hash].policyHash then Err(PolicyVersionMismatch)
    else if signer == g.versions[hash].author then Err(SelfApproval)
    else if !FitsI64(now + g.pointer.value.timelockSecs) then Err(Overflow)
    else Ok(g.(
      versions := g.versions[hash := g.versions[hash].(approver := signer, approvedAt := now)],
      pointer := Some(g.pointer.value.(pendingApprovedAt := now))))
  }

  /** Writes a document onto the live config, bumps the epoch and repoints; shared by activation
      and rollback. */
  function ApplyAndRepoint(g: Guard, doc: PolicyDoc, newHash: Hash): Result<Guard, Error>
    requires g.pointer.Some?
  {
    var c := g.config;
    if doc.capabilityTtlSecs < 0 then Err(InvalidPolicy)
    else match ValidatePolicy(doc.flags, doc.dailyGiftCap, doc.perTxCap, c.aegisProgram, doc.policy, c.attestationIssuer)
      case Fail(e) => Err(e)
      case Pass => Ok(g.(
        config := c.(
          flags := doc.flags,
          dailyGiftCap := doc.dailyGiftCap,
          perTxCap := doc.perTxCap,
          maxWalletBalance := doc.maxWalletBalance,
          transfersPerDayCap := doc.transfersPerDayCap,
          cooldownSecs := doc.cooldownSecs,
          attestationSchema := doc.attestationSchema,
          capabilityTtlSecs := doc.capabilityTtlSecs,
          policy := doc.policy,
          policyEpoch := SatAdd64(c.policyEpoch, 1),
          activePolicyHash := newHash),
        pointer := Some(g.pointer.value.(activeHash := newHash, pendingHash := ZERO_HASH, pendingApprovedAt := 0))))
  }

  function ActivatePolicy(g: Guard, signer: Pubkey, hash: Hash, now: i64): Result<Guard, Error> {
    if !Adopted(g) || hash !in g.versions then Err(AccountConstraint)
    else if !g.registry.value.Holds(Activator, signer) then Err(RoleUnauthorized)
    else
      var p := g.pointer.value;
      if p.pinned then Err(PolicyPinned)
      else if p.pendingHash != g.versions[hash].policyHash then Err(PolicyVersionMismatch)
      else if p.pendingApprovedAt == 0 then Err(PolicyNotApproved)
      else if !FitsI64(p.pendingApprovedAt + p.timelockSecs) then Err(Overflow)
      else if now < p.pendingApprovedAt + p.timelockSecs then Err(TimelockActive)
      else ApplyAndRepoint(g, g.versions[hash].doc, g.versions[hash].policyHash)
  }

  function RollbackPolicy(g: Guard, signer: Pubkey, hash: Hash): Result<Guard, Error> {
    if !Adopted(g) || hash !in g.versions then Err(AccountConstraint)
    else if !g.registry.value.Holds(Activator, signer) then Err(RoleUnauthorized)
    else if g.pointer.value.pinned then Err(PolicyPinned)
    else if g.versions[hash].approvedAt == 0 then Err(PolicyNotApproved)
    else ApplyAndRepoint(g, g.versions[hash].doc, g.versions[hash].policyHash)
  }

  function PinPolicy(g: Guard, signer: Pubkey): Result<Guard, Error> {
    if !Adopted(g) then Err(AccountConstraint)
    else if !g.registry.value.Holds(RoleAdmin, signer) then Err(RoleUnauthorized)
    else Ok(g.(pointer := Some(g.pointer.value.(pinned := true))))
  }

  function ProposeRoleChange(g: Guard, signer: Pubkey, role: u8, key: Pubkey, now: i64): Result<Guard, Error> {
    if !Adopted(g) then Err(AccountConstraint)
    else if !g.registry.value.Holds(RoleAdmin, signer) then Err(RoleUnauthorized)
    else if RoleFrom(role).None? then Err(InvalidRole)
    else if RoleFrom(role).value == RoleAdmin && key == DEFAULT_KEY then Err(RoleUnauthorized)
    else if !FitsI64(now + g.pointer.value.timelockSecs) then Err(Overflow)
    else Ok(g.(registry := Some(g.registry.value.(
      pendingRole := role, pendingAuthority := key, pendingAfter := now + g.pointer.value.timelockSecs))))
  }

  function ApplyRoleChange(g: Guard, signer: Pubkey, now: i64): Result<Guard, Error> {
    if !Adopted(g) then Err(AccountConstraint)
    else
      var r := g.registry.value;
      if !r.Holds(RoleAdmin, signer) then Err(RoleUnauthorized)
      else if r.pendingAfter == 0 then Err(NoPendingChange)
      else if now < r.pendingAfter then Err(TimelockActive)
      else if RoleFrom(r.pendingRole).None? then Err(InvalidRole)
      else Ok(g.(registry := Some(r.Set(RoleFrom(r.pendingRole).value, r.pendingAuthority).(
        pendingRole := 0, pendingAuthority := DEFAULT_KEY, pendingAfter := 0))))
  }

  // ------------------------------------------------------ eligibility capability

  function Ttl(c: GuardConfig): i64 {
    if c.capabilityTtlSecs > 0 then c.capabilityTtlSecs else CAPABILITY_TTL_SECS
  }

  /** `verdict` is what aegis returned for the rule in force; `None` when that call itself failed. */
  function RefreshEligibility(g: Guard, subject: Pubkey, aegisProgram: Pubkey, policyAccount: Pubkey,
                              verdict: Option<Aegis.Verdict>, now: i64): Result<Guard, Error>
  {
    var c := g.config;
    if aegisProgram != c.aegisProgram then Err(AegisProgramMismatch)
    else if c.policy != DEFAULT_KEY && policyAccount != c.policy then Err(MetaListMismatch)
    else if verdict.None? then Err(EligibilityStale)
    else if !FitsI64(now + Ttl(c)) then Err(Overflow)
    else
      var v := verdict.value;
      Ok(g.(capabilities := g.capabilities[subject := EligibilityCapability(
        if v.ok then PREDICATE_ATTESTATION_BIT else 0,
        c.aegisProgram, c.policyEpoch, c.screeningEpoch, v.jurisdiction, v.tier, now, now + Ttl(c))]))
  }

  function InvalidateCapability(g: Guard, signer: Pubkey, subject: Pubkey): Result<Guard, Error> {
    if signer != g.config.authority then Err(Unauthorized)
    else if subject !in g.capabilities then Err(AccountConstraint)
    else Ok(g.(capabilities := g.capabilities[subject := g.capabilities[subject].(verdicts := 0, expiresAt := 0)]))
  }

  predicate CapabilityOk(g: Guard, destinationOwner: Pubkey, now: i64) {
    && destinationOwner in g.capabilities
    && var cap := g.capabilities[destinationOwner];
    && cap.aegisProgram == g.config.aegisProgram
    && cap.policyEpoch == g.config.policyEpoch
    && cap.screeningEpoch == g.config.screeningEpoch
    && now < cap.expiresAt
    && cap.verdicts & PREDICATE_ATTESTATION_BIT != 0
  }

  // -------------------------------------------------------------------- trust

  function HealthOf(a: TrustAnchor, mode: u8): TrustStreak.Health {
    TrustStreak.Health(a.degradeTarget, a.graceSecs, a.failingSince, a.lastVerifiedAt, mode)
  }

  function WithHealth(g: Guard, a: TrustAnchor, h: TrustStreak.Health): Guard {
    g.(anchor := Some(a.(degradeTarget := h.degradeTarget, graceSecs := h.graceSecs,
                         failingSince := h.failingSince, lastVerifiedAt := h.lastVerifiedAt)),
       config := g.config.(degradeMode := h.posture))
  }

  function SetTrustAnchor(g: Guard, signer: Pubkey, root: Pubkey, subjectIssuer: Pubkey, requiredSchema: u64,
                          degradeTarget: u8, graceSecs: i64, now: i64): Result<Guard, Error>
  {
    if signer != g.config.authority then Err(Unauthorized)
    else if !TrustStreak.IsValidTarget(degradeTarget) then Err(InvalidDegradeTarget)
    else if graceSecs < 0 then Err(InvalidTimelock)
    else if root == DEFAULT_KEY then Err(TrustAnchorMissing)
    else Ok(g.(anchor := Some(TrustAnchor(root, subjectIssuer, requiredSchema, g.config.aegisProgram,
                                          degradeTarget, graceSecs, 0, now))))
  }

  /** `ok` is aegis's accreditation verdict for the anchor's own root, subject and schema. */
  function ReverifyAccreditation(g: Guard, aegisProgram: Pubkey, ok: bool, now: i64): Result<Guard, Error> {
    if g.anchor.None? then Err(AccountConstraint)
    else if aegisProgram != g.anchor.value.aegisProgram then Err(AegisProgramMismatch)
    else
      var a := g.anchor.value;
      Ok(WithHealth(g, a, TrustStreak.Crank(HealthOf(a, g.config.degradeMode), ok, now)))
  }

  function SetDegradeMode(g: Guard, signer: Pubkey, mode: u8): Result<Guard, Error> {
    if g.anchor.None? then Err(AccountConstraint)
    else if signer != g.config.authority then Err(Unauthorized)
    else if mode != TrustStreak.NORMAL && !TrustStreak.IsValidTarget(mode) then Err(InvalidDegradeTarget)
    else
      var a := g.anchor.value;
      Ok(WithHealth(g, a, TrustStreak.Override(HealthOf(a, g.config.degradeMode), mode)))
  }

  function BumpScreeningEpoch(g: Guard, signer: Pubkey): Result<Guard, Error> {
    if signer != g.config.authority then Err(Unauthorized)
    else Ok(g.(config := g.config.(screeningEpoch := SatAdd64(g.config.screeningEpoch, 1))))
  }

  // ------------------------------------------------------------------ transfers

  function OpenWalletState(g: Guard, owner: Pubkey): Result<Guard, Error> {
    if owner in g.wallets then Err(AccountConstraint)
    else Ok(g.(wallets := g.wallets[owner := WalletPolicyState(0, 0, 0, 0)]))
  }

  /** One genuine Token-2022 transfer as the hook sees it, after balances moved. */
  datatype Transfer = Transfer(
    sourceOwner: Pubkey,
    destination: Pubkey,  // token account
    authority: Pubkey,
    permanentDelegate: Option<Pubkey>,  // of the mint
    destinationOwner: Pubkey,  // recorded in the destination token account
    suppliedOwner: Pubkey,  // the account the meta list resolved
    ownerIsSystemOwned: bool,
    destinationBalance: u64,
    amount: u64)

  /** Why a transfer passed, and the velocity state it commits. */
  datatype Allowed = Allowed(reason: u16, wallet: Option<WalletPolicyState>)

  function RollDay(w: WalletPolicyState, today: u32): WalletPolicyState {
    if w.day != today then w.(day := today, sentToday := 0, transfersToday := 0) else w
  }

  function Velocity(c: GuardConfig, w: WalletPolicyState, amount: u64, now: i64): Result<WalletPolicyState, Error> {
    if UnixDay(now).None? then Err(Overflow)
    else
      var s := RollDay(w, UnixDay(now).value);
      var elapsed := if FitsI64(now - s.lastTransferAt) then now - s.lastTransferAt else 0;
      if c.cooldownSecs > 0 && s.lastTransferAt != 0 && elapsed < c.cooldownSecs then Err(CooldownActive)
      else if c.transfersPerDayCap != 0 && s.transfersToday >= c.transfersPerDayCap then Err(TransferCountExceeded)
      else if s.sentToday + amount > U64_MAX then Err(Overflow)
      else if s.sentToday + amount > c.dailyGiftCap then Err(GiftCapExceeded)
      else Ok(s.(sentToday := s.sentToday + amount, transfersToday := SatAdd16(s.transfersToday, 1),
                 lastTransferAt := now))
  }

  function Decide(g: Guard, x: Transfer, now: i64): Result<Allowed, Error> {
    var c := g.config;
    if x.permanentDelegate == Some(x.authority) then Ok(Allowed(ISSUER_FLOW, None))
    else if x.destination == c.treasury then Ok(Allowed(TREASURY_FLOW, None))
    else if c.paused then Err(MintPaused)
    else if c.degradeMode != TrustStreak.NORMAL then Err(TrustDegraded)
    else if x.amount == 0 then Ok(Allowed(NOOP, None))
    else if c.Has(GIFTING_DISABLED) then Err(GiftingDisabled)
    else if x.destinationOwner != x.suppliedOwner then Err(MetaListMismatch)
    else if c.Has(BLOCK_PROGRAM_OWNED) && !x.ownerIsSystemOwned then Err(ProgramOwnedDestination)
    else if c.Has(ALLOWLIST_ONLY) && x.destinationOwner !in g.entries then Err(NotAllowlisted)
    else if c.Has(DENYLIST) && x.destinationOwner in g.entries then Err(DenyListed)
    else if c.Has(REQUIRE_ATTESTATION) && !CapabilityOk(g, x.destinationOwner, now) then Err(EligibilityStale)
    else if c.perTxCap != 0 && x.amount > c.perTxCap then Err(PerTxExceeded)
    else if c.maxWalletBalance != 0 && x.destinationBalance > c.maxWalletBalance then Err(BalanceCapExceeded)
    else if x.sourceOwner !in g.wallets then Err(StateNotOpened)
    else match Velocity(c, g.wallets[x.sourceOwner], x.amount, now)
      case Err(e) => Err(e)
      case Ok(w) => Ok(Allowed(GIFT, Some(w)))
  }

  function Execute(g: Guard, x: Transfer, now: i64): Result<Guard, Error> {
    match Decide(g, x, now)
    case Err(e) => Err(e)
    case Ok(a) => Ok(if a.wallet.Some? then g.(wallets := g.wallets[x.sourceOwner := a.wallet.value]) else g)
  }

  // --------------------------------------------------------------------- runs

  datatype Op =
    | ConfigureOp(signer: Pubkey, update: PolicyUpdate)
    | SetPausedOp(signer: Pubkey, paused: bool)
    | TransferAuthorityOp(signer: Pubkey, newAuthority: Pubkey)
    | AcceptAuthorityOp(signer: Pubkey)
    | AddEntryOp(signer: Pubkey, target: Pubkey)
    | RemoveEntryOp(signer: Pubkey, target: Pubkey)
    | InitGovernanceOp(signer: Pubkey, hash: Hash, roles: RoleAssignment, timelockSecs: i64)
    | ProposeOp(signer: Pubkey, hash: Hash, doc: PolicyDoc)
    | ApproveOp(signer: Pubkey, hash: Hash)
    | ActivateOp(signer: Pubkey, hash: Hash)
    | RollbackOp(signer: Pubkey, hash: Hash)
    | PinOp(signer: Pubkey)
    | ProposeRoleOp(signer: Pubkey, role: u8, key: Pubkey)
    | ApplyRoleOp(signer: Pubkey)
    | RefreshOp(subject: Pubkey, aegisProgram: Pubkey, policyAccount: Pubkey, attestation: Aegis.AttestationKey,
                verdict: Option<Aegis.Verdict>)
    | InvalidateOp(signer: Pubkey, subject: Pubkey)
    | SetAnchorOp(signer: Pubkey, root: Pubkey, subjectIssuer: Pubkey, requiredSchema: u64, degradeTarget: u8, graceSecs: i64)
    | ReverifyOp(aegisProgram: Pubkey, ok: bool)
    | SetDegradeOp(signer: Pubkey, mode: u8)
    | BumpScreeningOp(signer: Pubkey)
    | OpenWalletOp(owner: Pubkey)
    | ExecuteOp(x: Transfer)
    | Elsewhere  // another program's instruction

  function Step(h: PolicyDoc -> Hash, g: Guard, op: Op, now: i64): Result<Guard, Error> {
    match op
    case ConfigureOp(s, u) => ConfigurePolicy(g, s, u)
    case SetPausedOp(s, p) => SetGuardPaused(g, s, p)
    case TransferAuthorityOp(s, n) => TransferGuardAuthority(g, s, n)
    case AcceptAuthorityOp(s) => AcceptGuardAuthority(g, s)
    case AddEntryOp(s, t) => AddListEntry(g, s, t)
    case RemoveEntryOp(s, t) => RemoveListEntry(g, s, t)
    case InitGovernanceOp(s, hash, roles, t) => InitializeGovernance(h, g, s, hash, roles, t, now)
    case ProposeOp(s, hash, doc) => ProposePolicy(h, g, s, hash, doc, now)
    case ApproveOp(s, hash) => ApprovePolicy(g, s, hash, now)
    case ActivateOp(s, hash) => ActivatePolicy(g, s, hash, now)
    case RollbackOp(s, hash) => RollbackPolicy(g, s, hash)
    case PinOp(s) => PinPolicy(g, s)
    case ProposeRoleOp(s, r, k) => ProposeRoleChange(g, s, r, k, now)
    case ApplyRoleOp(s) => ApplyRoleChange(g, s, now)
    case RefreshOp(subj, prog, pol, _, v) => RefreshEligibility(g, subj, prog, pol, v, now)
    case InvalidateOp(s, subj) => InvalidateCapability(g, s, subj)
    case SetAnchorOp(s, r, subj, sch, t, gr) => SetTrustAnchor(g, s, r, subj, sch, t, gr, now)
    case ReverifyOp(prog, ok) => ReverifyAccreditation(g, prog, ok, now)
    case SetDegradeOp(s, m) => SetDegradeMode(g, s, m)
    case BumpScreeningOp(s) => BumpScreeningEpoch(g, s)
    case OpenWalletOp(o) => OpenWalletState(g, o)
    case ExecuteOp(x) => Execute(g, x, now)
    case Elsewhere => Ok(g)
  }

  datatype Event = Event(op: Op, now: i64)

  ghost predicate Initial(g: Guard) {
    exists authority, treasury, p :: InitializeTransferGuard(authority, treasury, p) == Ok(g)
  }

  /** Every reachable history of a guard: `tr[i]` is its accounts before event `i`. A failed instruction
      leaves them as they were; the clock is positive and never goes back; no hash is all-zero. */
  ghost predicate IsTrace(h: PolicyDoc -> Hash, tr: seq<Guard>, evs: seq<Event>) {
    && |tr| == |evs| + 1
    && Initial(tr[0])
    && (forall i :: 0 <= i < |evs| ==> tr[i + 1] == After(tr[i], Step(h, tr[i], evs[i].op, evs[i].now)))
    && (forall i :: 0 <= i < |evs| ==> evs[i].now > 0)
    && (forall i, j :: 0 <= i <= j < |evs| ==> evs[i].now <= evs[j].now)
    && (forall d :: h(d) != ZERO_HASH)
  }

  /** Event `i` is an instruction that went through. */
  predicate Succeeds(h: PolicyDoc -> Hash, tr: seq<Guard>, evs: seq<Event>, i: int)
    requires 0 <= i < |evs| <= |tr|
  {
    Step(h, tr[i], evs[i].op, evs[i].now).Ok?
  }

  /** A plain guard at the start of its run: no rules, no caps, no governance. */
  lemma PlainGuard(h: PolicyDoc -> Hash, authority: Pubkey, aegisProgram: Pubkey) returns (g: Guard)
    requires forall d :: h(d) != ZERO_HASH
    ensures IsTrace(h, [g], []) && g.config.authority == authority && g.config.aegisProgram == aegisProgram
    ensures g.config.AsPolicyDoc() == PolicyDoc(0, 0, 0, 0, 0, 0, 0, 0, DEFAULT_KEY)
    ensures g.config.policyEpoch == 0 && g.config.screeningEpoch == 0 && !g.config.governed
    ensures g.pointer.None? && g.registry.None? && g.versions == map[] && g.capabilities == map[] && g.anchor.None?
  {
    var p := InitialPolicy(PolicyDoc(0, 0, 0, 0, 0, 0, 0, 0, DEFAULT_KEY), aegisProgram, DEFAULT_KEY);
    g := InitializeTransferGuard(authority, authority, p).value;
  }

  /** A run goes on with any event no earlier than its last. */
  lemma RunExtends(h: PolicyDoc -> Hash, tr: seq<Guard>, evs: seq<Event>, e: Event)
    requires IsTrace(h, tr, evs) && e.now > 0 && (|evs| > 0 ==> evs[|evs| - 1].now <= e.now)
    ensures IsTrace(h, tr + [After(tr[|evs|], Step(h, tr[|evs|], e.op, e.now))], evs + [e])
  {
    hide Step, Initial;
  }
}
