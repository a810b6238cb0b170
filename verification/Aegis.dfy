/** aegis: issuers, credentials, verifier policies, trust roots and accreditation edges,
    with the two verdict primitives the other programs consume. */
module Aegis {
  import opened Base
  import opened History

  const MAX_PERMITTED_SCHEMAS := 8

  // Verdict reason codes.
  const OK: u16 := 0
  const NOT_FOUND: u16 := 1
  const WRONG_ISSUER: u16 := 2
  const WRONG_SCHEMA: u16 := 3
  const NOT_ACTIVE: u16 := 4
  const OUT_OF_WINDOW: u16 := 5
  const TOO_OLD: u16 := 9
  const ROOT_INACTIVE: u16 := 10
  const NOT_ACCREDITED: u16 := 11
  const SCHEMA_NOT_PERMITTED: u16 := 12
  const POLICY_DEPRECATED: u16 := 13

  datatype Error =
    | AccountConstraint
    | Unauthorized
    | IssuerPaused
    | InvalidValidFrom
    | InvalidExpiry
    | AlreadyRevoked
    | SchemaMismatch
    | PermittedSchemasRequired
    | StringTooLong

  datatype Status = Active | Revoked | Erased

  datatype Issuer = Issuer(authority: Pubkey, operator: Option<Pubkey>, issued: u64, paused: bool) {
    predicate IsSignerAuthorized(signer: Pubkey) {
      signer == authority || operator == Some(signer)
    }
  }

  datatype Attestation = Attestation(
    issuer: Pubkey, subject: Pubkey, schemaId: u64,
    issuedAt: i64, validFrom: i64, expiresAt: i64, status: Status)
  {
    predicate IsLive(now: i64) {
      && status == Active
      && (validFrom == 0 || now >= validFrom)
      && (expiresAt == 0 || now < expiresAt)
    }
  }

  /** The seeds of an attestation address. */
  datatype AttestationKey = AttestationKey(issuer: Pubkey, subject: Pubkey, schemaId: u64)

  datatype AttestationData = AttestationData(schemaId: u64, validFrom: i64, expiresAt: i64)

  datatype Policy = Policy(
    authority: Pubkey, jurisdiction: u16, issuer: Pubkey, schemaId: u64,
    freshnessSecs: i64, deprecated: bool, successor: Option<Pubkey>)

  datatype Accreditation = Accreditation(
    tier: u8, permittedSchemas: seq<u64>, permittedCount: u8, jurisdiction: u16,
    status: Status, issuedAt: i64, expiresAt: i64)
  {
    predicate IsLive(now: i64) {
      status == Active && (expiresAt == 0 || now < expiresAt)
    }

    predicate Permits(schemaId: u64) {
      permittedCount != 0 && schemaId in permittedSchemas[..Min(permittedCount, |permittedSchemas|)]
    }
  }

  /** The seeds of an accreditation edge. */
  datatype EdgeKey = EdgeKey(root: Pubkey, subjectIssuer: Pubkey)

  datatype Verdict = Verdict(
    ok: bool, reasonCode: u16, issuer: Pubkey, schemaId: u64, expiresAt: i64, jurisdiction: u16, tier: u8)

  datatype Registry = Registry(
    issuers: map<Pubkey, Issuer>,
    attestations: map<AttestationKey, Attestation>,
    policies: map<Pubkey, Policy>,
    roots: map<Pubkey, bool>,
    edges: map<EdgeKey, Accreditation>)

  // ---------------------------------------------------------------- verdicts

  function Denied(reason: u16): Verdict {
    Verdict(false, reason, DEFAULT_KEY, 0, 0, 0, 0)
  }

  function SatSubI64(a: i64, b: i64): i64 {
    Max(-I64_MAX - 1, Min(I64_MAX, a - b))
  }

  /** The credential verdict. `account` is whatever address the caller supplied. */
  function Evaluate(a: Registry, account: AttestationKey, issuer: Pubkey, subject: Pubkey,
                    schemaId: u64, maxAgeSecs: i64, now: i64): Verdict
  {
    if account != AttestationKey(issuer, subject, schemaId) then Denied(NOT_FOUND)
    else if account !in a.attestations then Denied(NOT_FOUND)
    else
      var att := a.attestations[account];
      if att.issuer != issuer then Denied(WRONG_ISSUER)
      else if att.schemaId != schemaId then Denied(WRONG_SCHEMA)
      else if att.status != Active then Denied(NOT_ACTIVE)
      else if !att.IsLive(now) then Denied(OUT_OF_WINDOW)
      else if maxAgeSecs > 0 && SatSubI64(now, att.issuedAt) > maxAgeSecs then Denied(TOO_OLD)
      else Verdict(true, OK, att.issuer, att.schemaId, att.expiresAt, 0, 0)
  }

  function Verify(a: Registry, account: AttestationKey, issuer: Pubkey, subject: Pubkey,
                  schemaId: u64, now: i64): Verdict
  {
    Evaluate(a, account, issuer, subject, schemaId, 0, now)
  }

  /** `None` when the supplied policy account is not a policy: the call itself fails. */
  function VerifyPolicy(a: Registry, policy: Pubkey, account: AttestationKey, subject: Pubkey, now: i64)
    : Option<Verdict>
  {
    if policy !in a.policies then None
    else
      var p := a.policies[policy];
      var verdict := if p.deprecated then Denied(POLICY_DEPRECATED)
                     else Evaluate(a, account, p.issuer, subject, p.schemaId, p.freshnessSecs, now);
      Some(verdict.(jurisdiction := p.jurisdiction))
  }

  function VerifyAccreditation(a: Registry, root: Pubkey, subjectIssuer: Pubkey, schemaId: u64, now: i64)
    : Verdict
  {
    if root !in a.roots || !a.roots[root] then Denied(ROOT_INACTIVE)
    else if EdgeKey(root, subjectIssuer) !in a.edges then Denied(NOT_ACCREDITED)
    else
      var acc := a.edges[EdgeKey(root, subjectIssuer)];
      if !acc.IsLive(now) then Denied(NOT_ACCREDITED)
      else if !acc.Permits(schemaId) then Denied(SCHEMA_NOT_PERMITTED)
      else Verdict(true, OK, subjectIssuer, schemaId, acc.expiresAt, acc.jurisdiction, acc.tier)
  }

  // ------------------------------------------------------------ instructions

  function Validate(data: AttestationData, now: i64): Outcome<Error> {
    if data.validFrom < 0 then Fail(InvalidValidFrom)
    else if data.expiresAt != 0 && (data.expiresAt <= now || data.expiresAt <= data.validFrom)
      then Fail(InvalidExpiry)
    else Pass
  }

  function InitIssuer(a: Registry, signer: Pubkey, issuer: Pubkey): Result<Registry, Error> {
    if issuer in a.issuers then Err(AccountConstraint)
    else Ok(a.(issuers := a.issuers[issuer := Issuer(signer, None, 0, false)]))
  }

  function SetIssuerPaused(a: Registry, signer: Pubkey, issuer: Pubkey, paused: bool): Result<Registry, Error> {
    if issuer !in a.issuers || a.issuers[issuer].authority != signer then Err(AccountConstraint)
    else Ok(a.(issuers := a.issuers[issuer := a.issuers[issuer].(paused := paused)]))
  }

  function SetOperator(a: Registry, signer: Pubkey, issuer: Pubkey, operator: Option<Pubkey>)
    : Result<Registry, Error>
  {
    if issuer !in a.issuers || a.issuers[issuer].authority != signer then Err(AccountConstraint)
    else Ok(a.(issuers := a.issuers[issuer := a.issuers[issuer].(operator := operator)]))
  }

  function IssueAttestation(a: Registry, signer: Pubkey, issuer: Pubkey, subject: Pubkey,
                            data: AttestationData, now: i64): Result<Registry, Error>
  {
    var key := AttestationKey(issuer, subject, data.schemaId);
    if issuer !in a.issuers || key in a.attestations then Err(AccountConstraint)
    else if !a.issuers[issuer].IsSignerAuthorized(signer) then Err(Unauthorized)
    else if a.issuers[issuer].paused then Err(IssuerPaused)
    else match Validate(data, now)
      case Fail(e) => Err(e)
      case Pass =>
        var att := Attestation(issuer, subject, data.schemaId, now, data.validFrom, data.expiresAt, Active);
        var i := a.issuers[issuer];
        Ok(a.(attestations := a.attestations[key := att],
              issuers := a.issuers[issuer := i.(issued := SatAdd64(i.issued, 1))]))
  }

  function UpdateAttestation(a: Registry, signer: Pubkey, key: AttestationKey, data: AttestationData, now: i64)
    : Result<Registry, Error>
  {
    if key.issuer !in a.issuers || key !in a.attestations then Err(AccountConstraint)
    else if !a.issuers[key.issuer].IsSignerAuthorized(signer) then Err(Unauthorized)
    else if a.issuers[key.issuer].paused then Err(IssuerPaused)
    else if a.attestations[key].status != Active then Err(AlreadyRevoked)
    else if data.schemaId != a.attestations[key].schemaId then Err(SchemaMismatch)
    else match Validate(data, now)
      case Fail(e) => Err(e)
      case Pass =>
        var att := a.attestations[key].(validFrom := data.validFrom, expiresAt := data.expiresAt);
        Ok(a.(attestations := a.attestations[key := att]))
  }

  function RevokeAttestation(a: Registry, signer: Pubkey, key: AttestationKey): Result<Registry, Error> {
    if key.issuer !in a.issuers || key !in a.attestations then Err(AccountConstraint)
    else if !a.issuers[key.issuer].IsSignerAuthorized(signer) then Err(Unauthorized)
    else if a.attestations[key].status != Active then Err(AlreadyRevoked)
    else Ok(a.(attestations := a.attestations[key := a.attestations[key].(status := Revoked)]))
  }

  function EraseAttestation(a: Registry, signer: Pubkey, key: AttestationKey): Result<Registry, Error> {
    if key.issuer !in a.issuers || key !in a.attestations then Err(AccountConstraint)
    else if !a.issuers[key.issuer].IsSignerAuthorized(signer) then Err(Unauthorized)
    else if a.attestations[key].status == Erased then Err(AlreadyRevoked)
    else Ok(a.(attestations := a.attestations[key := a.attestations[key].(status := Erased)]))
  }

  function CloseAttestation(a: Registry, signer: Pubkey, key: AttestationKey): Result<Registry, Error> {
    if key.issuer !in a.issuers || key !in a.attestations then Err(AccountConstraint)
    else if !a.issuers[key.issuer].IsSignerAuthorized(signer) then Err(Unauthorized)
    else Ok(a.(attestations := a.attestations - {key}))
  }

  function RegisterPolicy(a: Registry, signer: Pubkey, policy: Pubkey, jurisdiction: u16, issuer: Pubkey,
                          schemaId: u64, freshnessSecs: i64): Result<Registry, Error>
  {
    if policy in a.policies then Err(AccountConstraint)
    else if freshnessSecs < 0 then Err(InvalidValidFrom)
    else Ok(a.(policies := a.policies[policy := Policy(signer, jurisdiction, issuer, schemaId, freshnessSecs, false, None)]))
  }

  function DeprecatePolicy(a: Registry, signer: Pubkey, policy: Pubkey, successor: Option<Pubkey>)
    : Result<Registry, Error>
  {
    if policy !in a.policies || a.policies[policy].authority != signer then Err(AccountConstraint)
    else
      var p := a.policies[policy].(deprecated := true, successor := successor);
      Ok(a.(policies := a.policies[policy := p]))
  }

  function RegisterTrustRoot(a: Registry, signer: Pubkey): Result<Registry, Error> {
    if signer in a.roots then Err(AccountConstraint)
    else Ok(a.(roots := a.roots[signer := true]))
  }

  function SetRootActive(a: Registry, signer: Pubkey, active: bool): Result<Registry, Error> {
    if signer !in a.roots then Err(AccountConstraint)
    else Ok(a.(roots := a.roots[signer := active]))
  }

  /** `[0; 8]` with the named schemas copied over its first slots. */
  function SchemaSlots(schemas: seq<u64>): (slots: seq<u64>)
    requires |schemas| <= MAX_PERMITTED_SCHEMAS
    ensures |slots| == MAX_PERMITTED_SCHEMAS
  {
    schemas + seq(MAX_PERMITTED_SCHEMAS - |schemas|, _ => 0)
  }

  function AccreditIssuer(a: Registry, signer: Pubkey, subjectIssuer: Pubkey, tier: u8, schemas: seq<u64>,
                          jurisdiction: u16, expiresAt: i64, now: i64): Result<Registry, Error>
  {
    var key := EdgeKey(signer, subjectIssuer);
    if signer !in a.roots || key in a.edges then Err(AccountConstraint)
    else if !a.roots[signer] then Err(Unauthorized)
    else if schemas == [] then Err(PermittedSchemasRequired)
    else if |schemas| > MAX_PERMITTED_SCHEMAS then Err(StringTooLong)
    else if expiresAt != 0 && expiresAt <= now then Err(InvalidExpiry)
    else Ok(a.(edges := a.edges[key := Accreditation(tier, SchemaSlots(schemas), |schemas|, jurisdiction,
                                                     Active, now, expiresAt)]))
  }

  function RevokeAccreditation(a: Registry, signer: Pubkey, subjectIssuer: Pubkey): Result<Registry, Error> {
    var key := EdgeKey(signer, subjectIssuer);
    if signer !in a.roots || key !in a.edges then Err(AccountConstraint)
    else Ok(a.(edges := a.edges[key := a.edges[key].(status := Revoked)]))
  }

  // -------------------------------------------------------------------- runs

  datatype Op =
    | InitIssuerOp(signer: Pubkey, issuer: Pubkey)
    | SetIssuerPausedOp(signer: Pubkey, issuer: Pubkey, paused: bool)
    | SetOperatorOp(signer: Pubkey, issuer: Pubkey, operator: Option<Pubkey>)
    | IssueOp(signer: Pubkey, issuer: Pubkey, subject: Pubkey, data: AttestationData)
    | UpdateOp(signer: Pubkey, key: AttestationKey, data: AttestationData)
    | RevokeOp(signer: Pubkey, key: AttestationKey)
    | EraseOp(signer: Pubkey, key: AttestationKey)
    | CloseOp(signer: Pubkey, key: AttestationKey)
    | RegisterPolicyOp(signer: Pubkey, policy: Pubkey, jurisdiction: u16, issuer: Pubkey, schemaId: u64, freshnessSecs: i64)
    | DeprecatePolicyOp(signer: Pubkey, policy: Pubkey, successor: Option<Pubkey>)
    | RegisterTrustRootOp(signer: Pubkey)
    | SetRootActiveOp(signer: Pubkey, active: bool)
    | AccreditOp(signer: Pubkey, subjectIssuer: Pubkey, tier: u8, schemas: seq<u64>, jurisdiction: u16, expiresAt: i64)
    | RevokeAccreditationOp(signer: Pubkey, subjectIssuer: Pubkey)
    | Elsewhere  // another program's instruction

  function Step(a: Registry, op: Op, now: i64): Result<Registry, Error> {
    match op
    case InitIssuerOp(s, i) => InitIssuer(a, s, i)
    case SetIssuerPausedOp(s, i, p) => SetIssuerPaused(a, s, i, p)
    case SetOperatorOp(s, i, o) => SetOperator(a, s, i, o)
    case IssueOp(s, i, subj, d) => IssueAttestation(a, s, i, subj, d, now)
    case UpdateOp(s, k, d) => UpdateAttestation(a, s, k, d, now)
    case RevokeOp(s, k) => RevokeAttestation(a, s, k)
    case EraseOp(s, k) => EraseAttestation(a, s, k)
    case CloseOp(s, k) => CloseAttestation(a, s, k)
    case RegisterPolicyOp(s, p, j, i, sch, f) => RegisterPolicy(a, s, p, j, i, sch, f)
    case DeprecatePolicyOp(s, p, n) => DeprecatePolicy(a, s, p, n)
    case RegisterTrustRootOp(s) => RegisterTrustRoot(a, s)
    case SetRootActiveOp(s, active) => SetRootActive(a, s, active)
    case AccreditOp(s, subj, t, sch, j, e) => AccreditIssuer(a, s, subj, t, sch, j, e, now)
    case RevokeAccreditationOp(s, subj) => RevokeAccreditation(a, s, subj)
    case Elsewhere => Ok(a)
  }

  datatype Event = Event(op: Op, now: i64)

  /** Every reachable history: `tr[i]` is the registry before event `i`; a failed
      instruction leaves it as it was; the clock is positive and never goes back. */
  ghost predicate IsTrace(tr: seq<Registry>, evs: seq<Event>) {
    && |tr| == |evs| + 1
    && tr[0] == Registry(map[], map[], map[], map[], map[])
    && (forall i :: 0 <= i < |evs| ==> tr[i + 1] == After(tr[i], Step(tr[i], evs[i].op, evs[i].now)))
    && (forall i :: 0 <= i < |evs| ==> evs[i].now > 0)
    && (forall i, j :: 0 <= i <= j < |evs| ==> evs[i].now <= evs[j].now)
  }

  // ----------------------------------------------------- credential lifecycle

  /** What event `i` does to one credential: issue it, end it (revoke, erase or close) or neither. */
  function MarkOf(a: Registry, e: Event, key: AttestationKey): Mark {
    if Step(a, e.op, e.now).Err? then Keeps
    else match e.op
      case IssueOp(_, issuer, subject, data) =>
        if AttestationKey(issuer, subject, data.schemaId) == key then Sets else Keeps
      case RevokeOp(_, k) => if k == key then Clears else Keeps
      case EraseOp(_, k) => if k == key then Clears else Keeps
      case CloseOp(_, k) => if k == key then Clears else Keeps
      case _ => Keeps
  }

  function Marks(tr: seq<Registry>, evs: seq<Event>, key: AttestationKey): seq<Mark>
    requires |evs| <= |tr|
  {
    seq(|evs|, i requires 0 <= i < |evs| => MarkOf(tr[i], evs[i], key))
  }

  /** The event that issued the credential standing at `n`, -1 if none stands. */
  function IssuedBy(tr: seq<Registry>, evs: seq<Event>, n: nat, key: AttestationKey): (j: int)
    requires n <= |evs| <= |tr|
    ensures -1 <= j < n
  {
    LastSet(Marks(tr, evs, key), n)
  }

  /** Accounts sit at the address their contents derive; no policy has a negative freshness bound. */
  ghost predicate WellFormed(a: Registry) {
    && (forall k :: k in a.attestations ==>
          var att := a.attestations[k]; AttestationKey(att.issuer, att.subject, att.schemaId) == k)
    && (forall p :: p in a.policies ==> a.policies[p].freshnessSecs >= 0)
  }

  lemma StepWellFormed(a: Registry, op: Op, now: i64)
    requires WellFormed(a)
    ensures WellFormed(After(a, Step(a, op, now)))
  {
  }

  lemma TraceWellFormed(tr: seq<Registry>, evs: seq<Event>, n: nat)
    requires IsTrace(tr, evs) && n <= |evs|
    ensures WellFormed(tr[n])
  {
    hide Step;
    if n > 0 {
      TraceWellFormed(tr, evs, n - 1);
      StepWellFormed(tr[n - 1], evs[n - 1].op, evs[n - 1].now);
    }
  }

  predicate Standing(a: Registry, key: AttestationKey) {
    key in a.attestations && a.attestations[key].status == Active
  }

  predicate WritesAttestations(op: Op) {
    op.IssueOp? || op.UpdateOp? || op.RevokeOp? || op.EraseOp? || op.CloseOp?
  }

  lemma OffAttestations(a: Registry, e: Event)
    requires !WritesAttestations(e.op)
    ensures After(a, Step(a, e.op, e.now)).attestations == a.attestations
  {
    hide IssueAttestation, UpdateAttestation, RevokeAttestation, EraseAttestation, CloseAttestation, SchemaSlots;
  }

  /** How one event moves one credential. */
  predicate CredentialStep(a: Registry, a': Registry, e: Event, key: AttestationKey) {
    match MarkOf(a, e, key)
    case Sets => Standing(a', key) && a'.attestations[key].issuedAt == e.now
    case Clears => !Standing(a', key)
    case Keeps => && (Standing(a', key) <==> Standing(a, key))
                  && (Standing(a, key) ==> a'.attestations[key].issuedAt == a.attestations[key].issuedAt)
  }

  lemma AttestationOpCredential(a: Registry, e: Event, key: AttestationKey)
    requires WritesAttestations(e.op)
    ensures CredentialStep(a, After(a, Step(a, e.op, e.now)), e, key)
  {
    hide InitIssuer, SetIssuerPaused, SetOperator, RegisterPolicy, DeprecatePolicy, RegisterTrustRoot, SetRootActive,
      AccreditIssuer, RevokeAccreditation, Validate, Issuer.IsSignerAuthorized;
  }

  lemma StepCredential(a: Registry, e: Event, key: AttestationKey)
    ensures CredentialStep(a, After(a, Step(a, e.op, e.now)), e, key)
  {
    hide Step;
    if WritesAttestations(e.op) {
      AttestationOpCredential(a, e, key);
    } else {
      OffAttestations(a, e);
    }
  }

  /** A credential stands exactly when it was issued and never ended since, and its recorded
      issue time is the time of that issue: no update moves it. */
  lemma {:induction false} StandingIsHistory(tr: seq<Registry>, evs: seq<Event>, n: nat, key: AttestationKey)
    requires IsTrace(tr, evs) && n <= |evs|
    ensures Standing(tr[n], key) <==> IssuedBy(tr, evs, n, key) >= 0
    ensures Standing(tr[n], key) ==> tr[n].attestations[key].issuedAt == evs[IssuedBy(tr, evs, n, key)].now
  {
    hide Step;
    if n > 0 {
      StandingIsHistory(tr, evs, n - 1, key);
      TraceWellFormed(tr, evs, n - 1);
      StepCredential(tr[n - 1], evs[n - 1], key);
    }
  }

  /** A positive verdict means a credential issued and not ended since, in its validity window, and
      issued within the freshness bound; and every such credential gets one. The mismatch
      reasons never arise. */
  lemma EvaluateMeaning(tr: seq<Registry>, evs: seq<Event>, n: nat, issuer: Pubkey, subject: Pubkey,
                        schemaId: u64, maxAgeSecs: i64, now: i64)
    requires IsTrace(tr, evs) && n <= |evs|
    requires now > 0 && maxAgeSecs >= 0
    ensures var key := AttestationKey(issuer, subject, schemaId);
      var verdict := Evaluate(tr[n], key, issuer, subject, schemaId, maxAgeSecs, now);
      var j := IssuedBy(tr, evs, n, key);
      && (verdict.ok <==>
          j >= 0 && key in tr[n].attestations && tr[n].attestations[key].IsLive(now)
          && (maxAgeSecs == 0 || now <= evs[j].now + maxAgeSecs))
      && verdict.reasonCode != WRONG_ISSUER && verdict.reasonCode != WRONG_SCHEMA
  {
    hide Step;
    StandingIsHistory(tr, evs, n, AttestationKey(issuer, subject, schemaId));
    TraceWellFormed(tr, evs, n);
  }

  // ------------------------------------------------------------ accreditation

  /** The verdict, with the schema list read back as the set it was written from. */
  lemma AccreditationMeaning(a: Registry, signer: Pubkey, subjectIssuer: Pubkey, tier: u8, schemas: seq<u64>,
                             jurisdiction: u16, expiresAt: i64, now: i64, schemaId: u64, later: i64)
    requires AccreditIssuer(a, signer, subjectIssuer, tier, schemas, jurisdiction, expiresAt, now).Ok?
    ensures var a' := AccreditIssuer(a, signer, subjectIssuer, tier, schemas, jurisdiction, expiresAt, now).value;
      && (VerifyAccreditation(a', signer, subjectIssuer, schemaId, later).ok
          <==> schemaId in schemas && (expiresAt == 0 || later < expiresAt))
      && !VerifyAccreditation(After(a', SetRootActive(a', signer, false)), signer, subjectIssuer, schemaId, later).ok
  {
    assert SchemaSlots(schemas)[..|schemas|] == schemas;
  }

  lemma StepKeepsEdges(a: Registry, op: Op, now: i64, key: EdgeKey)
    requires key in a.edges
    ensures var a' := After(a, Step(a, op, now));
      && key in a'.edges
      && a'.edges[key].expiresAt == a.edges[key].expiresAt
      && (a.edges[key].status != Active ==> a'.edges[key].status != Active)
  {
  }

  /** An edge that is revoked or past its expiry is never positive again, for any schema. */
  lemma {:induction false} DeadEdgeStaysDead(tr: seq<Registry>, evs: seq<Event>, i: nat, n: nat, key: EdgeKey, then_: i64)
    requires IsTrace(tr, evs) && i <= n <= |evs|
    requires key in tr[i].edges && !tr[i].edges[key].IsLive(then_)
    ensures key in tr[n].edges
    ensures forall schemaId: u64, now: i64 :: then_ <= now ==>
      !VerifyAccreditation(tr[n], key.root, key.subjectIssuer, schemaId, now).ok
    ensures forall now: i64 :: then_ <= now ==> !tr[n].edges[key].IsLive(now)
    decreases n - i
  {
    hide Step;
    if i < n {
      StepKeepsEdges(tr[i], evs[i].op, evs[i].now, key);
      DeadEdgeStaysDead(tr, evs, i + 1, n, key, then_);
    }
  }
}
