/** The aegis handlers as they run on the loaded accounts. */
module AegisProgram {
  import opened Base
  import opened Aegis

  class RegistryAccounts {
    var issuers: map<Pubkey, Issuer>
    var attestations: map<AttestationKey, Attestation>
    var policies: map<Pubkey, Policy>
    var roots: map<Pubkey, bool>
    var edges: map<EdgeKey, Accreditation>

    function State(): Registry
      reads this
    {
      Registry(issuers, attestations, policies, roots, edges)
    }

    constructor (a: Registry)
      ensures State() == a
    {
      issuers, attestations, policies, roots, edges := a.issuers, a.attestations, a.policies, a.roots, a.edges;
    }

    // ------------------------------------------------------------------ attestations

    method HandleIssueAttestation(signer: Pubkey, issuer: Pubkey, subject: Pubkey, data: AttestationData, now: i64)
      returns (out: Outcome<Error>)
      modifies this`attestations, this`issuers
      ensures Commits(IssueAttestation(old(State()), signer, issuer, subject, data, now), old(State()), State(), out)
    {
      var key := AttestationKey(issuer, subject, data.schemaId);
      if issuer !in issuers || key in attestations { return Fail(AccountConstraint); }
      if !issuers[issuer].IsSignerAuthorized(signer) { return Fail(Unauthorized); }
      if issuers[issuer].paused { return Fail(IssuerPaused); }
      out := Validate(data, now);
      if out.Fail? { return; }
      attestations := attestations[key :=
        Attestation(issuer, subject, data.schemaId, now, data.validFrom, data.expiresAt, Active)];
      issuers := issuers[issuer := issuers[issuer].(issued := SatAdd64(issuers[issuer].issued, 1))];
    }

    method HandleUpdateAttestation(signer: Pubkey, key: AttestationKey, data: AttestationData, now: i64)
      returns (out: Outcome<Error>)
      modifies this`attestations
      ensures Commits(UpdateAttestation(old(State()), signer, key, data, now), old(State()), State(), out)
    {
      if key.issuer !in issuers || key !in attestations { return Fail(AccountConstraint); }
      if !issuers[key.issuer].IsSignerAuthorized(signer) { return Fail(Unauthorized); }
      if issuers[key.issuer].paused { return Fail(IssuerPaused); }
      var att := attestations[key];
      if att.status != Active { return Fail(AlreadyRevoked); }
      if data.schemaId != att.schemaId { return Fail(SchemaMismatch); }
      out := Validate(data, now);
      if out.Fail? { return; }
      att := att.(validFrom := data.validFrom);
      att := att.(expiresAt := data.expiresAt);
      attestations := attestations[key := att];
    }

    method HandleRevokeAttestation(signer: Pubkey, key: AttestationKey) returns (out: Outcome<Error>)
      modifies this`attestations
      ensures Commits(RevokeAttestation(old(State()), signer, key), old(State()), State(), out)
    {
      if key.issuer !in issuers || key !in attestations { return Fail(AccountConstraint); }
      if !issuers[key.issuer].IsSignerAuthorized(signer) { return Fail(Unauthorized); }
      if attestations[key].status != Active { return Fail(AlreadyRevoked); }
      attestations := attestations[key := attestations[key].(status := Revoked)];
      out := Pass;
    }

    method HandleEraseAttestation(signer: Pubkey, key: AttestationKey) returns (out: Outcome<Error>)
      modifies this`attestations
      ensures Commits(EraseAttestation(old(State()), signer, key), old(State()), State(), out)
    {
      if key.issuer !in issuers || key !in attestations { return Fail(AccountConstraint); }
      if !issuers[key.issuer].IsSignerAuthorized(signer) { return Fail(Unauthorized); }
      if attestations[key].status == Erased { return Fail(AlreadyRevoked); }
      attestations := attestations[key := attestations[key].(status := Erased)];
      out := Pass;
    }

    // ------------------------------------------------------------ policies, roots, edges

    method HandleDeprecatePolicy(signer: Pubkey, policy: Pubkey, successor: Option<Pubkey>) returns (out: Outcome<Error>)
      modifies this`policies
      ensures Commits(DeprecatePolicy(old(State()), signer, policy, successor), old(State()), State(), out)
    {
      if policy !in policies || policies[policy].authority != signer { return Fail(AccountConstraint); }
      policies := policies[policy := policies[policy].(deprecated := true)];
      policies := policies[policy := policies[policy].(successor := successor)];
      out := Pass;
    }

    method HandleSetRootActive(signer: Pubkey, active: bool) returns (out: Outcome<Error>)
      modifies this`roots
      ensures Commits(SetRootActive(old(State()), signer, active), old(State()), State(), out)
    {
      if signer !in roots { return Fail(AccountConstraint); }
      roots := roots[signer := active];
      out := Pass;
    }

    /** Zeroes the eight schema slots, then copies the named schemas over the first of them. */
    method HandleAccreditIssuer(signer: Pubkey, subjectIssuer: Pubkey, tier: u8, schemas: seq<u64>, jurisdiction: u16,
                                expiresAt: i64, now: i64) returns (out: Outcome<Error>)
      modifies this`edges
      ensures Commits(AccreditIssuer(old(State()), signer, subjectIssuer, tier, schemas, jurisdiction, expiresAt, now),
                      old(State()), State(), out)
    {
      var key := EdgeKey(signer, subjectIssuer);
      if signer !in roots || key in edges { return Fail(AccountConstraint); }
      if !roots[signer] { return Fail(Unauthorized); }
      if schemas == [] { return Fail(PermittedSchemasRequired); }
      if |schemas| > MAX_PERMITTED_SCHEMAS { return Fail(StringTooLong); }
      if expiresAt != 0 && expiresAt <= now { return Fail(InvalidExpiry); }
      var slots := new u64[MAX_PERMITTED_SCHEMAS](_ => 0);
      for i := 0 to |schemas|
        modifies slots
        invariant forall j :: 0 <= j < i ==> slots[j] == schemas[j]
        invariant forall j :: i <= j < MAX_PERMITTED_SCHEMAS ==> slots[j] == 0
      {
        slots[i] := schemas[i];
      }
      assert slots[..] == SchemaSlots(schemas);
      edges := edges[key := Accreditation(tier, slots[..], |schemas|, jurisdiction, Active, now, expiresAt)];
      out := Pass;
    }

    method HandleRevokeAccreditation(signer: Pubkey, subjectIssuer: Pubkey) returns (out: Outcome<Error>)
      modifies this`edges
      ensures Commits(RevokeAccreditation(old(State()), signer, subjectIssuer), old(State()), State(), out)
    {
      var key := EdgeKey(signer, subjectIssuer);
      if signer !in roots || key !in edges { return Fail(AccountConstraint); }
      edges := edges[key := edges[key].(status := Revoked)];
      out := Pass;
    }
  }
}
