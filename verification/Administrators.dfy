/**
 Configured-administrator credentials: epochs of the startup key, the credentials issued under
 each, and their revocation (src/db/configured-administrator.ts, src/middleware/catalog-identity.ts).
 */
module Administrators {
  import opened Json
  import opened Prelude

  const MAX_SAFE_INTEGER: int := 9007199254740991
  const ACTOR: string := "administrator:configured-master-key"
  const PREFIX: string := "administrator:"

  datatype Failure = InvalidRequest | VersionConflict | CredentialRevoked

  datatype Configuration = Configuration(fingerprint: Option<string>, epoch: nat)
  datatype Authority = Authority(customerId: Option<string>, actorId: string, credentialVersion: nat, permissionEpoch: nat, revoked: bool)
  datatype Principal = Principal(credentialId: string, credentialVersion: nat, permissionEpoch: nat)

  /** The catalog records these functions read and write; a provenance is a configuration of the past. */
  datatype Catalog = Catalog(configuration: Option<Configuration>, authorities: map<string, Authority>, provenance: map<string, Configuration>)

  // ---------------------------------------------------------------- digests and identifiers

  predicate HexText(text: string) {
    |text| == 64 && forall i :: 0 <= i < |text| ==> '0' <= text[i] <= '9' || 'a' <= text[i] <= 'f'
  }

  /** SHA-256 in hexadecimal, without a collision among the finitely many texts at hand. */
  ghost predicate Digests(hex: string -> string, texts: set<string>) {
    && (forall text :: HexText(hex(text)))
    && (forall a, b :: a in texts && b in texts && hex(a) == hex(b) ==> a == b)
  }

  function KeyText(key: string): string { "ContextVault configured administrator v1\0" + key }

  function Fingerprint(key: string, hex: string -> string): string { hex(KeyText(key)) }

  lemma FingerprintHex(key: string, hex: string -> string, texts: set<string>)
    requires Digests(hex, texts)
    ensures HexText(Fingerprint(key, hex))
  {
  }

  lemma DistinctFingerprints(a: string, b: string, hex: string -> string, texts: set<string>)
    requires Digests(hex, texts) && KeyText(a) in texts && KeyText(b) in texts && a != b
    ensures Fingerprint(a, hex) != Fingerprint(b, hex)
  {
    if KeyText(a) == KeyText(b) { SameTail("ContextVault configured administrator v1\0", a, b); }
  }

  lemma SameTail(salt: string, a: string, b: string)
    requires salt + a == salt + b
    ensures a == b
  {
    assert (salt + a)[|salt|..] == a && (salt + b)[|salt|..] == b;
  }

  function Preimage(fingerprint: string, epoch: nat, tenant: string): string {
    fingerprint + "\0" + (Decimal(epoch) + "\0" + tenant)
  }

  function CredentialId(fingerprint: string, epoch: nat, tenant: string, hex: string -> string): string {
    PREFIX + hex(Preimage(fingerprint, epoch, tenant))
  }

  predicate ConfiguredId(id: string) { PREFIX <= id && HexText(id[|PREFIX|..]) }

  predicate LegacyIdentity(id: string, authority: Authority) {
    authority.customerId.None? && authority.actorId == ACTOR && ConfiguredId(id)
  }

  lemma DigitsUntilNul(a: string, b: string, x: string, y: string)
    requires a + "\0" + x == b + "\0" + y
    requires forall i :: 0 <= i < |a| ==> IsDigit(a[i])
    requires forall i :: 0 <= i < |b| ==> IsDigit(b[i])
    ensures a == b && x == y
  {
    var whole := a + "\0" + x;
    assert whole[|a|] == '\0' && whole[|b|] == '\0';
    assert a == whole[..|a|] == b;
    assert x == whole[|a| + 1..] == y;
  }

  lemma PreimageInjective(f: string, e: nat, t: string, g: string, d: nat, u: string)
    requires |f| == |g| && Preimage(f, e, t) == Preimage(g, d, u)
    ensures f == g && e == d && t == u
  {
    var whole := Preimage(f, e, t);
    assert f == whole[..|f|] == g;
    assert whole[|f| + 1..] == Decimal(e) + "\0" + t == Decimal(d) + "\0" + u;
    DecimalInverse(e);
    DecimalInverse(d);
    DigitsUntilNul(Decimal(e), Decimal(d), t, u);
  }

  /** A credential id belongs to one fingerprint, one epoch and one selected tenant. */
  lemma CredentialIdInjective(f: string, e: nat, t: string, g: string, d: nat, u: string, hex: string -> string, texts: set<string>)
    requires Digests(hex, texts) && Preimage(f, e, t) in texts && Preimage(g, d, u) in texts
    requires |f| == |g| && CredentialId(f, e, t, hex) == CredentialId(g, d, u, hex)
    ensures f == g && e == d && t == u
  {
    var x, y := hex(Preimage(f, e, t)), hex(Preimage(g, d, u));
    assert x == (PREFIX + x)[|PREFIX|..] == (PREFIX + y)[|PREFIX|..] == y;
    PreimageInjective(f, e, t, g, d, u);
  }

  lemma IssuedIdForm(f: string, e: nat, t: string, hex: string -> string, texts: set<string>)
    requires Digests(hex, texts)
    ensures ConfiguredId(CredentialId(f, e, t, hex))
  {
    assert (PREFIX + hex(Preimage(f, e, t)))[|PREFIX|..] == hex(Preimage(f, e, t));
  }

  // ---------------------------------------------------------------- what the operations do to the catalog

  function KeyFingerprint(key: Option<string>, hex: string -> string): Result<Option<string>, Failure> {
    if key.None? then Ok(None)
    else if key.value == "" then Err(InvalidRequest)
    else Ok(Some(Fingerprint(key.value, hex)))
  }

  const BEFORE_PROVENANCE := Configuration(None, 0)

  /** The provenance a global authority has once the revocation pass has looked at it. */
  function KnownProvenance(id: string, authority: Authority, provenance: map<string, Configuration>): Option<Configuration> {
    if id in provenance then Some(provenance[id])
    else if LegacyIdentity(id, authority) then Some(BEFORE_PROVENANCE)
    else None
  }

  predicate Stale(id: string, authority: Authority, provenance: map<string, Configuration>, current: Configuration) {
    && authority.customerId.None?
    && KnownProvenance(id, authority, provenance).Some?
    && (current.fingerprint.None? || KnownProvenance(id, authority, provenance).value != current)
  }

  function Revoke(authority: Authority): Authority {
    if authority.revoked then authority
    else authority.(revoked := true, credentialVersion := authority.credentialVersion + 1, permissionEpoch := authority.permissionEpoch + 1)
  }

  /** Every stale credential revoked, and every legacy identity marked as such. */
  function AfterRevocation(catalog: Catalog, current: Configuration): Catalog {
    Catalog(
      Some(current),
      map id | id in catalog.authorities ::
        if Stale(id, catalog.authorities[id], catalog.provenance, current) then Revoke(catalog.authorities[id]) else catalog.authorities[id],
      catalog.provenance + (map id | id in catalog.authorities && id !in catalog.provenance && LegacyIdentity(id, catalog.authorities[id])
                            :: BEFORE_PROVENANCE))
  }

  function Epoch(catalog: Catalog): nat { if catalog.configuration.Some? then catalog.configuration.value.epoch else 0 }

  function Installed(catalog: Catalog, fingerprint: Option<string>): Result<Catalog, Failure> {
    var epoch := Epoch(catalog) + 1;
    if epoch > MAX_SAFE_INTEGER then Err(VersionConflict)
    else Ok(AfterRevocation(catalog, Configuration(fingerprint, epoch)))
  }

  function Synchronized(catalog: Catalog, key: Option<string>, hex: string -> string): Result<Catalog, Failure> {
    var fingerprint := KeyFingerprint(key, hex);
    if fingerprint.Err? then Err(fingerprint.error)
    else if catalog.configuration.Some? && catalog.configuration.value.fingerprint == fingerprint.value then
      Ok(AfterRevocation(catalog, catalog.configuration.value))
    else Installed(catalog, fingerprint.value)
  }

  /** The catalog a login works on, once its key is known to be current. */
  function Verified(catalog: Catalog, key: string, hex: string -> string): (r: Result<Catalog, Failure>)
    ensures r.Ok? ==> r.value.configuration.Some? && r.value.configuration.value.fingerprint == Some(Fingerprint(key, hex))
  {
    var fingerprint := KeyFingerprint(Some(key), hex);
    if fingerprint.Err? then Err(fingerprint.error)
    else
      var ready: Result<Catalog, Failure> := if catalog.configuration.Some? then Ok(catalog) else Installed(catalog, fingerprint.value);
      if ready.Err? then ready
      else if ready.value.configuration.value.fingerprint != fingerprint.value then Err(CredentialRevoked)
      else ready
  }

  const FIRST_AUTHORITY := Authority(None, ACTOR, 1, 1, false)

  function LoggedIn(catalog: Catalog, key: string, tenant: string, hex: string -> string): Result<(Catalog, Principal), Failure> {
    var verified := Verified(catalog, key, hex);
    if verified.Err? then Err(verified.error)
    else
      var current := verified.value.configuration.value;
      var id := CredentialId(Fingerprint(key, hex), current.epoch, tenant, hex);
      var authorities := verified.value.authorities;
      var authority := if id in authorities then authorities[id] else FIRST_AUTHORITY;
      if authority.revoked || authority.actorId != ACTOR || authority.customerId.Some? then Err(CredentialRevoked)
      else if id in verified.value.provenance && verified.value.provenance[id] != current then Err(CredentialRevoked)
      else
        Ok((Catalog(Some(current), authorities[id := authority], verified.value.provenance[id := current]),
            Principal(id, authority.credentialVersion, authority.permissionEpoch)))
  }

  predicate IsCurrent(catalog: Catalog, id: string, authority: Authority) {
    if id !in catalog.provenance then !LegacyIdentity(id, authority)
    else
      && authority.customerId.None? && authority.actorId == ACTOR
      && catalog.configuration.Some? && catalog.configuration.value.fingerprint.Some?
      && catalog.provenance[id] == catalog.configuration.value
  }

  // ---------------------------------------------------------------- what every history keeps

  /** One unrevoked credential with provenance must carry the present configuration. */
  ghost predicate OnlyCurrentLive(catalog: Catalog) {
    forall id :: id in catalog.provenance && id in catalog.authorities && !catalog.authorities[id].revoked ==>
      && catalog.configuration == Some(catalog.provenance[id]) && catalog.provenance[id].fingerprint.Some?
  }

  ghost predicate EpochsBounded(catalog: Catalog) {
    && (forall id :: id in catalog.provenance ==> id in catalog.authorities && catalog.authorities[id].customerId.None?)
    && (forall id :: id in catalog.provenance ==> catalog.configuration.Some? && catalog.provenance[id].epoch <= Epoch(catalog))
    && (catalog.configuration.Some? ==> Epoch(catalog) >= 1)
  }

  ghost predicate LegacyMarked(catalog: Catalog) {
    catalog.configuration.Some? ==>
      forall id :: id in catalog.authorities && LegacyIdentity(id, catalog.authorities[id]) ==> id in catalog.provenance
  }

  /** Whatever bears an epoch-bound id, hashed from one of the texts, was issued in that epoch. */
  ghost predicate IssuedInEpoch(catalog: Catalog, hex: string -> string, texts: set<string>) {
    forall f, e: nat, t :: Preimage(f, e, t) in texts && HexText(f) && e >= 1 && CredentialId(f, e, t, hex) in catalog.authorities ==>
      CredentialId(f, e, t, hex) in catalog.provenance && catalog.provenance[CredentialId(f, e, t, hex)] == Configuration(Some(f), e)
  }

  ghost predicate FingerprintsHex(catalog: Catalog) {
    catalog.configuration.Some? && catalog.configuration.value.fingerprint.Some? ==>
      HexText(catalog.configuration.value.fingerprint.value)
  }

  ghost predicate Sound(catalog: Catalog, hex: string -> string, texts: set<string>) {
    && OnlyCurrentLive(catalog) && EpochsBounded(catalog) && LegacyMarked(catalog) && IssuedInEpoch(catalog, hex, texts)
    && FingerprintsHex(catalog)
  }

  /** A catalog from before provenance was recorded: no configuration, any authorities of any age. */
  ghost predicate Upgraded(catalog: Catalog, hex: string -> string, texts: set<string>) {
    && catalog.configuration.None? && catalog.provenance == map[]
    && forall f, e: nat, t :: Preimage(f, e, t) in texts && HexText(f) && e >= 1 ==> CredentialId(f, e, t, hex) !in catalog.authorities
  }

  const EMPTY := Catalog(None, map[], map[])

  /** Startups, logins, and what the rest of the system does to authorities. */
  datatype Step =
    | Startup(configured: Option<string>)
    | Login(key: string, tenant: string)
    | OtherIssued(id: string, authority: Authority)
    | OtherRevoked(id: string)

  /** A failed step changes nothing; other authorities bear ids of their own. */
  function After(catalog: Catalog, step: Step, hex: string -> string): Catalog {
    match step
    case Startup(key) => var r := Synchronized(catalog, key, hex); if r.Ok? then r.value else catalog
    case Login(key, tenant) => var r := LoggedIn(catalog, key, tenant, hex); if r.Ok? then r.value.0 else catalog
    case OtherIssued(id, authority) =>
      if ConfiguredId(id) || id in catalog.authorities then catalog
      else catalog.(authorities := catalog.authorities[id := authority])
    case OtherRevoked(id) =>
      if id in catalog.authorities then catalog.(authorities := catalog.authorities[id := Revoke(catalog.authorities[id])])
      else catalog
  }

  /** The text a login hashes into a credential id. */
  function IdText(catalog: Catalog, key: string, tenant: string, hex: string -> string): string {
    var verified := Verified(catalog, key, hex);
    Preimage(Fingerprint(key, hex), if verified.Ok? then Epoch(verified.value) else 0, tenant)
  }

  predicate IdTextIn(catalog: Catalog, step: Step, hex: string -> string, texts: set<string>) {
    step.Login? ==> IdText(catalog, step.key, step.tenant, hex) in texts
  }

  /** Every text a history hashes into a credential id is among the texts. */
  predicate IdTextsIn(catalog: Catalog, steps: seq<Step>, hex: string -> string, texts: set<string>)
    decreases |steps|
  {
    steps == [] || (IdTextIn(catalog, steps[0], hex, texts) && IdTextsIn(After(catalog, steps[0], hex), steps[1..], hex, texts))
  }

  function Run(catalog: Catalog, steps: seq<Step>, hex: string -> string): Catalog
    decreases |steps|
  {
    if steps == [] then catalog else Run(After(catalog, steps[0], hex), steps[1..], hex)
  }

  lemma UpgradedSound(catalog: Catalog, hex: string -> string, texts: set<string>)
    requires Upgraded(catalog, hex, texts)
    ensures Sound(catalog, hex, texts)
  {
  }

  /** What is known before a revocation pass under `current`, whose epoch may be new. */
  ghost predicate Ready(catalog: Catalog, current: Configuration, hex: string -> string, texts: set<string>) {
    && (forall id :: id in catalog.provenance ==> id in catalog.authorities && catalog.authorities[id].customerId.None?)
    && (forall id :: id in catalog.provenance ==> catalog.provenance[id].epoch <= current.epoch)
    && IssuedInEpoch(catalog, hex, texts)
    && current.epoch >= 1 && (current.fingerprint.Some? ==> HexText(current.fingerprint.value))
  }

  lemma RevocationKeepsIssued(catalog: Catalog, current: Configuration, hex: string -> string, texts: set<string>)
    requires IssuedInEpoch(catalog, hex, texts)
    ensures IssuedInEpoch(AfterRevocation(catalog, current), hex, texts)
  {
    var after := AfterRevocation(catalog, current);
    forall f, e: nat, t | Preimage(f, e, t) in texts && HexText(f) && e >= 1 && CredentialId(f, e, t, hex) in after.authorities
      ensures CredentialId(f, e, t, hex) in after.provenance && after.provenance[CredentialId(f, e, t, hex)] == Configuration(Some(f), e)
    {
      assert CredentialId(f, e, t, hex) in catalog.authorities;
    }
  }

  /** The revocation pass leaves a sound catalog. */
  lemma RevocationSound(catalog: Catalog, current: Configuration, hex: string -> string, texts: set<string>)
    requires Ready(catalog, current, hex, texts)
    ensures Sound(AfterRevocation(catalog, current), hex, texts)
  {
    var after := AfterRevocation(catalog, current);
    RevocationKeepsIssued(catalog, current, hex, texts);
    forall id | id in after.provenance && id in after.authorities && !after.authorities[id].revoked
      ensures after.configuration == Some(after.provenance[id]) && after.provenance[id].fingerprint.Some?
    {
      assert KnownProvenance(id, catalog.authorities[id], catalog.provenance) == Some(after.provenance[id]);
    }
  }

  lemma InstallSound(catalog: Catalog, fingerprint: Option<string>, hex: string -> string, texts: set<string>)
    requires Sound(catalog, hex, texts) && (fingerprint.Some? ==> HexText(fingerprint.value))
    ensures Installed(catalog, fingerprint).Ok? ==> Sound(Installed(catalog, fingerprint).value, hex, texts)
  {
    RevocationSound(catalog, Configuration(fingerprint, Epoch(catalog) + 1), hex, texts);
  }

  lemma SynchronizeSound(catalog: Catalog, key: Option<string>, hex: string -> string, texts: set<string>)
    requires Digests(hex, texts) && Sound(catalog, hex, texts)
    ensures Synchronized(catalog, key, hex).Ok? ==> Sound(Synchronized(catalog, key, hex).value, hex, texts)
  {
    var fingerprint := KeyFingerprint(key, hex);
    if fingerprint.Ok? {
      if key.Some? { FingerprintHex(key.value, hex, texts); }
      InstallSound(catalog, fingerprint.value, hex, texts);
      if catalog.configuration.Some? { RevocationSound(catalog, catalog.configuration.value, hex, texts); }
    }
  }

  lemma VerifiedSound(catalog: Catalog, key: string, hex: string -> string, texts: set<string>)
    requires Digests(hex, texts) && Sound(catalog, hex, texts)
    ensures Verified(catalog, key, hex).Ok? ==> Sound(Verified(catalog, key, hex).value, hex, texts)
  {
    FingerprintHex(key, hex, texts);
    InstallSound(catalog, Some(Fingerprint(key, hex)), hex, texts);
  }

  /** Registering a credential of the present configuration. */
  function Registered(catalog: Catalog, id: string, authority: Authority, current: Configuration): Catalog {
    Catalog(Some(current), catalog.authorities[id := authority], catalog.provenance[id := current])
  }

  lemma RegisterKeepsIssued(catalog: Catalog, key: string, tenant: string, authority: Authority, hex: string -> string, texts: set<string>)
    requires Digests(hex, texts) && Sound(catalog, hex, texts) && catalog.configuration.Some?
    requires catalog.configuration.value.fingerprint == Some(Fingerprint(key, hex))
    requires Preimage(Fingerprint(key, hex), Epoch(catalog), tenant) in texts
    ensures IssuedInEpoch(Registered(catalog, CredentialId(Fingerprint(key, hex), Epoch(catalog), tenant, hex), authority,
                                     catalog.configuration.value), hex, texts)
  {
    FingerprintHex(key, hex, texts);
    var current := catalog.configuration.value;
    var id := CredentialId(Fingerprint(key, hex), current.epoch, tenant, hex);
    var after := Registered(catalog, id, authority, current);
    forall f, e: nat, t | Preimage(f, e, t) in texts && HexText(f) && e >= 1 && CredentialId(f, e, t, hex) in after.authorities
      ensures CredentialId(f, e, t, hex) in after.provenance && after.provenance[CredentialId(f, e, t, hex)] == Configuration(Some(f), e)
    {
      if CredentialId(f, e, t, hex) == id {
        CredentialIdInjective(f, e, t, Fingerprint(key, hex), current.epoch, tenant, hex, texts);
      }
    }
  }

  lemma LoginSound(catalog: Catalog, key: string, tenant: string, hex: string -> string, texts: set<string>)
    requires Digests(hex, texts) && Sound(catalog, hex, texts) && IdText(catalog, key, tenant, hex) in texts
    ensures LoggedIn(catalog, key, tenant, hex).Ok? ==> Sound(LoggedIn(catalog, key, tenant, hex).value.0, hex, texts)
  {
    VerifiedSound(catalog, key, hex, texts);
    var verified := Verified(catalog, key, hex);
    if LoggedIn(catalog, key, tenant, hex).Ok? {
      var id := CredentialId(Fingerprint(key, hex), Epoch(verified.value), tenant, hex);
      var authority := if id in verified.value.authorities then verified.value.authorities[id] else FIRST_AUTHORITY;
      RegisterKeepsIssued(verified.value, key, tenant, authority, hex, texts);
      assert LoggedIn(catalog, key, tenant, hex).value.0
        == Registered(verified.value, id, authority, verified.value.configuration.value);
    }
  }

  lemma OtherIssuedSound(catalog: Catalog, id: string, authority: Authority, hex: string -> string, texts: set<string>)
    requires Digests(hex, texts) && Sound(catalog, hex, texts) && !ConfiguredId(id) && id !in catalog.authorities
    ensures Sound(catalog.(authorities := catalog.authorities[id := authority]), hex, texts)
  {
    var after := catalog.(authorities := catalog.authorities[id := authority]);
    forall f, e: nat, t | Preimage(f, e, t) in texts && HexText(f) && e >= 1 && CredentialId(f, e, t, hex) in after.authorities
      ensures CredentialId(f, e, t, hex) in after.provenance && after.provenance[CredentialId(f, e, t, hex)] == Configuration(Some(f), e)
    {
      IssuedIdForm(f, e, t, hex, texts);
      assert CredentialId(f, e, t, hex) in catalog.authorities;
    }
  }

  lemma OtherRevokedSound(catalog: Catalog, id: string, hex: string -> string, texts: set<string>)
    requires Sound(catalog, hex, texts) && id in catalog.authorities
    ensures Sound(catalog.(authorities := catalog.authorities[id := Revoke(catalog.authorities[id])]), hex, texts)
  {
    var after := catalog.(authorities := catalog.authorities[id := Revoke(catalog.authorities[id])]);
    assert after.authorities.Keys == catalog.authorities.Keys;
  }

  /** Every step keeps a catalog sound. */
  lemma StepSound(catalog: Catalog, step: Step, hex: string -> string, texts: set<string>)
    requires Digests(hex, texts) && Sound(catalog, hex, texts) && IdTextIn(catalog, step, hex, texts)
    ensures Sound(After(catalog, step, hex), hex, texts)
  {
    match step
    case Startup(key) => SynchronizeSound(catalog, key, hex, texts);
    case Login(key, tenant) => LoginSound(catalog, key, tenant, hex, texts);
    case OtherIssued(id, authority) =>
      if !ConfiguredId(id) && id !in catalog.authorities { OtherIssuedSound(catalog, id, authority, hex, texts); }
    case OtherRevoked(id) => if id in catalog.authorities { OtherRevokedSound(catalog, id, hex, texts); }
  }

  lemma {:induction false} RunSound(catalog: Catalog, steps: seq<Step>, hex: string -> string, texts: set<string>)
    requires Digests(hex, texts) && Sound(catalog, hex, texts) && IdTextsIn(catalog, steps, hex, texts)
    ensures Sound(Run(catalog, steps, hex), hex, texts)
    decreases |steps|
  {
    if steps != [] {
      StepSound(catalog, steps[0], hex, texts);
      RunSound(After(catalog, steps[0], hex), steps[1..], hex, texts);
    }
  }

  // ---------------------------------------------------------------- epochs

  function Present(catalog: Catalog): Option<Option<string>> {
    if catalog.configuration.Some? then Some(catalog.configuration.value.fingerprint) else None
  }

  /** A step raises the epoch by one when it changes the fingerprint and leaves it alone otherwise. */
  lemma EpochGrowsExactlyOnChange(catalog: Catalog, step: Step, hex: string -> string)
    ensures Epoch(After(catalog, step, hex)) == Epoch(catalog) + (if Present(After(catalog, step, hex)) != Present(catalog) then 1 else 0)
  {
  }

  lemma {:induction false} EpochNeverFalls(catalog: Catalog, steps: seq<Step>, hex: string -> string)
    ensures Epoch(Run(catalog, steps, hex)) >= Epoch(catalog)
    ensures Epoch(Run(catalog, steps, hex)) == Epoch(catalog) ==> Present(Run(catalog, steps, hex)) == Present(catalog)
    decreases |steps|
  {
    if steps != [] {
      EpochGrowsExactlyOnChange(catalog, steps[0], hex);
      EpochNeverFalls(After(catalog, steps[0], hex), steps[1..], hex);
    }
  }

  // ---------------------------------------------------------------- revocation

  /** An authority is never revived, its versions never fall, and a revocation raises both, so that earlier principals are stale. */
  predicate LaterAuthority(before: Authority, after: Authority) {
    && after.customerId == before.customerId && after.actorId == before.actorId
    && (before.revoked ==> after.revoked)
    && after.credentialVersion >= before.credentialVersion && after.permissionEpoch >= before.permissionEpoch
    && (after.revoked && !before.revoked ==>
         after.credentialVersion > before.credentialVersion && after.permissionEpoch > before.permissionEpoch)
  }

  /** Authorities are never removed, and provenance never changes. */
  ghost predicate Later(before: Catalog, after: Catalog) {
    && (forall id :: id in before.authorities ==> id in after.authorities && LaterAuthority(before.authorities[id], after.authorities[id]))
    && (forall id :: id in before.provenance ==> id in after.provenance && after.provenance[id] == before.provenance[id])
  }

  lemma RevocationLater(catalog: Catalog, current: Configuration)
    ensures Later(catalog, AfterRevocation(catalog, current))
  {
  }

  /** A startup of any catalog whatsoever leaves no global credential of another configuration unrevoked, and none without a key. */
  lemma StartupRevokesStale(catalog: Catalog, key: Option<string>, hex: string -> string, id: string)
    requires Synchronized(catalog, key, hex).Ok?
    ensures var now := Synchronized(catalog, key, hex).value;
      && now.configuration.Some?
      && (id in now.authorities && now.authorities[id].customerId.None? && !now.authorities[id].revoked ==>
           && (LegacyIdentity(id, now.authorities[id]) ==> id in now.provenance)
           && (id in now.provenance ==> key.Some? && now.provenance[id] == now.configuration.value))
  {
    var now := Synchronized(catalog, key, hex).value;
    if id in now.authorities && now.authorities[id].customerId.None? && !now.authorities[id].revoked {
      assert !Stale(id, catalog.authorities[id], catalog.provenance, now.configuration.value);
    }
  }

  lemma StartupLater(catalog: Catalog, key: Option<string>, hex: string -> string)
    ensures Later(catalog, After(catalog, Startup(key), hex))
  {
    var fingerprint := KeyFingerprint(key, hex);
    if fingerprint.Err? {
    } else if catalog.configuration.Some? && catalog.configuration.value.fingerprint == fingerprint.value {
      RevocationLater(catalog, catalog.configuration.value);
    } else {
      RevocationLater(catalog, Configuration(fingerprint.value, Epoch(catalog) + 1));
    }
  }

  lemma LoginLater(catalog: Catalog, key: string, tenant: string, hex: string -> string)
    ensures Later(catalog, After(catalog, Login(key, tenant), hex))
  {
    RevocationLater(catalog, Configuration(Some(Fingerprint(key, hex)), Epoch(catalog) + 1));
    if LoggedIn(catalog, key, tenant, hex).Ok? {
      var verified := Verified(catalog, key, hex).value;
      assert Later(catalog, verified);
    }
  }

  lemma StepLater(catalog: Catalog, step: Step, hex: string -> string)
    ensures Later(catalog, After(catalog, step, hex))
  {
    match step
    case Startup(key) => StartupLater(catalog, key, hex);
    case Login(key, tenant) => LoginLater(catalog, key, tenant, hex);
    case OtherIssued(id, authority) =>
    case OtherRevoked(id) =>
  }

  lemma {:induction false} RunLater(catalog: Catalog, steps: seq<Step>, hex: string -> string)
    ensures Later(catalog, Run(catalog, steps, hex))
    decreases |steps|
  {
    if steps != [] {
      StepLater(catalog, steps[0], hex);
      RunLater(After(catalog, steps[0], hex), steps[1..], hex);
    }
  }

  /**
   A credential of an earlier configuration is revoked, not current, and no login ever returns it
   again, even when the same key comes back.
   */
  lemma NeverRevived(catalog: Catalog, steps: seq<Step>, id: string, key: string, tenant: string, hex: string -> string, texts: set<string>)
    requires Digests(hex, texts) && Sound(catalog, hex, texts) && IdTextsIn(catalog, steps, hex, texts)
    requires id in catalog.provenance
    requires catalog.provenance[id].epoch != Epoch(Run(catalog, steps, hex))
    ensures var now := Run(catalog, steps, hex);
      && id in now.authorities && now.authorities[id].revoked && !IsCurrent(now, id, now.authorities[id])
      && (LoggedIn(now, key, tenant, hex).Ok? ==> LoggedIn(now, key, tenant, hex).value.1.credentialId != id)
  {
    RunSound(catalog, steps, hex, texts);
    RunLater(catalog, steps, hex);
    var now := Run(catalog, steps, hex);
    assert now.provenance[id] == catalog.provenance[id];
    assert now.configuration != Some(now.provenance[id]);
  }

  /** A configured credential whose provenance is the present configuration. */
  predicate Held(catalog: Catalog, id: string) {
    id in catalog.authorities && id in catalog.provenance && IsCurrent(catalog, id, catalog.authorities[id])
  }

  /** A step ends it by changing the epoch, and revokes it within the epoch only by name. */
  lemma HeldStep(catalog: Catalog, step: Step, id: string, hex: string -> string)
    requires Held(catalog, id) && Epoch(After(catalog, step, hex)) == Epoch(catalog)
    ensures var after := After(catalog, step, hex);
      && Held(after, id)
      && after.authorities[id] == if step == OtherRevoked(id) then Revoke(catalog.authorities[id]) else catalog.authorities[id]
  {
    EpochGrowsExactlyOnChange(catalog, step, hex);
  }

  lemma {:induction false} HeldRun(catalog: Catalog, steps: seq<Step>, id: string, hex: string -> string)
    requires Held(catalog, id)
    ensures var now := Run(catalog, steps, hex);
      && id in now.authorities && id in now.provenance
      && (Held(now, id) <==> Epoch(now) == Epoch(catalog))
      && (Held(now, id) ==>
           now.authorities[id] == if OtherRevoked(id) in steps then Revoke(catalog.authorities[id]) else catalog.authorities[id])
    decreases |steps|
  {
    if steps != [] {
      var next := After(catalog, steps[0], hex);
      EpochNeverFalls(next, steps[1..], hex);
      EpochGrowsExactlyOnChange(catalog, steps[0], hex);
      assert steps == [steps[0]] + steps[1..];
      if Epoch(next) == Epoch(catalog) {
        HeldStep(catalog, steps[0], id, hex);
        HeldRun(next, steps[1..], id, hex);
      } else {
        RunLater(catalog, steps, hex);
      }
    }
  }

  /** `isCurrentConfiguredAdministrator` holds for a revoked credential exactly when it was revoked by name within its epoch. */
  lemma CurrentThoughRevokedExactly(catalog: Catalog, steps: seq<Step>, id: string, hex: string -> string)
    requires Held(catalog, id) && !catalog.authorities[id].revoked
    ensures var now := Run(catalog, steps, hex);
      && id in now.authorities
      && (IsCurrent(now, id, now.authorities[id]) && now.authorities[id].revoked <==>
           Epoch(now) == Epoch(catalog) && OtherRevoked(id) in steps)
  {
    HeldRun(catalog, steps, id, hex);
  }

  /** It happens: a startup, a login, and a revocation by name. The login itself is then refused. */
  lemma CurrentThoughRevoked(key: string, tenant: string, hex: string -> string) returns (id: string, now: Catalog)
    requires key != ""
    ensures var used := After(After(EMPTY, Startup(Some(key)), hex), Login(key, tenant), hex);
      && id in used.authorities && !used.authorities[id].revoked && now == After(used, OtherRevoked(id), hex)
    ensures id in now.authorities && now.authorities[id].revoked && IsCurrent(now, id, now.authorities[id])
    ensures LoggedIn(now, key, tenant, hex) == Err(CredentialRevoked)
  {
    var first := After(EMPTY, Startup(Some(key)), hex);
    assert first == Catalog(Some(Configuration(Some(Fingerprint(key, hex)), 1)), map[], map[]);
    id := CredentialId(Fingerprint(key, hex), 1, tenant, hex);
    var used := After(first, Login(key, tenant), hex);
    now := After(used, OtherRevoked(id), hex);
  }

  /** What an access decision asks of an administrator's credential: the authority is loaded as current, then it must not be revoked or stale. */
  predicate Admits(catalog: Catalog, principal: Principal) {
    var id := principal.credentialId;
    && id in catalog.authorities && IsCurrent(catalog, id, catalog.authorities[id])
    && catalog.authorities[id].customerId.None? && catalog.authorities[id].actorId == ACTOR
    && !catalog.authorities[id].revoked
    && catalog.authorities[id].credentialVersion == principal.credentialVersion
    && catalog.authorities[id].permissionEpoch == principal.permissionEpoch
  }

  /** A login is good until the configuration changes or its credential is revoked by name, and no longer. */
  lemma AdmittedExactly(catalog: Catalog, key: string, tenant: string, steps: seq<Step>, hex: string -> string)
    requires LoggedIn(catalog, key, tenant, hex).Ok?
    ensures var (start, principal) := LoggedIn(catalog, key, tenant, hex).value;
      var now := Run(start, steps, hex);
      Admits(now, principal) <==> Epoch(now) == Epoch(start) && OtherRevoked(principal.credentialId) !in steps
  {
    var (start, principal) := LoggedIn(catalog, key, tenant, hex).value;
    HeldRun(start, steps, principal.credentialId, hex);
  }

  /** In a sound catalog a login succeeds exactly when its key is current and its credential is not revoked. */
  lemma LoginExactly(catalog: Catalog, key: string, tenant: string, hex: string -> string, texts: set<string>)
    requires Digests(hex, texts) && Sound(catalog, hex, texts) && catalog.configuration.Some?
    requires Preimage(Fingerprint(key, hex), Epoch(catalog), tenant) in texts
    ensures LoggedIn(catalog, key, tenant, hex).Ok? <==>
      && key != "" && catalog.configuration.value.fingerprint == Some(Fingerprint(key, hex))
      && var id := CredentialId(Fingerprint(key, hex), Epoch(catalog), tenant, hex);
        id in catalog.authorities ==>
          !catalog.authorities[id].revoked && catalog.authorities[id].actorId == ACTOR
  {
    var id := CredentialId(Fingerprint(key, hex), Epoch(catalog), tenant, hex);
    FingerprintHex(key, hex, texts);
    if key != "" && catalog.configuration.value.fingerprint == Some(Fingerprint(key, hex)) && id in catalog.authorities {
      assert id in catalog.provenance;
    }
  }

  /** Right after a startup that changes the key, every login with the new key succeeds. */
  lemma FreshLoginSucceeds(catalog: Catalog, key: string, tenant: string, hex: string -> string, texts: set<string>)
    requires Digests(hex, texts) && Sound(catalog, hex, texts) && Synchronized(catalog, Some(key), hex).Ok?
    requires Present(catalog) != Some(Some(Fingerprint(key, hex)))
    requires Preimage(Fingerprint(key, hex), Epoch(catalog) + 1, tenant) in texts
    ensures var now := Synchronized(catalog, Some(key), hex).value;
      && LoggedIn(now, key, tenant, hex).Ok?
      && var login := LoggedIn(now, key, tenant, hex).value;
        && login.1.credentialId !in catalog.authorities
        && IsCurrent(login.0, login.1.credentialId, login.0.authorities[login.1.credentialId])
  {
    SynchronizeSound(catalog, Some(key), hex, texts);
    var now := Synchronized(catalog, Some(key), hex).value;
    var id := CredentialId(Fingerprint(key, hex), Epoch(now), tenant, hex);
    assert Epoch(now) == Epoch(catalog) + 1;
    FingerprintHex(key, hex, texts);
    if id in catalog.authorities { assert false; }
  }

  /** The texts hashed while A, B and A again are configured and A logs in under each of its epochs. */
  predicate RotationTexts(a: string, b: string, tenant: string, epoch: nat, hex: string -> string, texts: set<string>) {
    && KeyText(a) in texts && KeyText(b) in texts
    && Preimage(Fingerprint(a, hex), epoch + 1, tenant) in texts && Preimage(Fingerprint(a, hex), epoch + 3, tenant) in texts
  }

  /** A, then B, then A again: the old credential stays dead, and a new one is issued. */
  lemma KeyComesBack(start: Catalog, first: Catalog, used: Catalog, other: Catalog, again: Catalog,
                     a: string, b: string, tenant: string, hex: string -> string, texts: set<string>)
    requires Digests(hex, texts) && Sound(start, hex, texts) && a != "" && b != "" && a != b
    requires RotationTexts(a, b, tenant, Epoch(start), hex, texts)
    requires Epoch(start) + 3 <= MAX_SAFE_INTEGER && Present(start) != Some(Some(Fingerprint(a, hex)))
    requires first == After(start, Startup(Some(a)), hex) && used == After(first, Login(a, tenant), hex)
    requires other == After(used, Startup(Some(b)), hex) && again == After(other, Startup(Some(a)), hex)
    ensures LoggedIn(first, a, tenant, hex).Ok? && LoggedIn(again, a, tenant, hex).Ok?
    ensures var issued := LoggedIn(first, a, tenant, hex).value.1.credentialId;
      && issued in used.authorities && !used.authorities[issued].revoked
      && issued in again.authorities && again.authorities[issued].revoked
      && LoggedIn(again, a, tenant, hex).value.1.credentialId != issued
  {
    KeyIssued(start, first, used, a, tenant, hex, texts);
    KeyReturns(used, other, again, a, b, tenant, hex, texts);
    TwoStartups(used, Some(b), Some(a), hex, texts);
    NeverRevived(used, [Startup(Some(b)), Startup(Some(a))], LoggedIn(first, a, tenant, hex).value.1.credentialId, a, tenant, hex, texts);
  }

  lemma KeyReturns(used: Catalog, other: Catalog, again: Catalog, a: string, b: string, tenant: string,
                   hex: string -> string, texts: set<string>)
    requires Digests(hex, texts) && Sound(used, hex, texts) && a != "" && b != "" && a != b
    requires KeyText(a) in texts && KeyText(b) in texts && Preimage(Fingerprint(a, hex), Epoch(used) + 2, tenant) in texts
    requires Epoch(used) + 2 <= MAX_SAFE_INTEGER && Present(used) == Some(Some(Fingerprint(a, hex)))
    requires other == After(used, Startup(Some(b)), hex) && again == After(other, Startup(Some(a)), hex)
    ensures Epoch(again) == Epoch(used) + 2 && LoggedIn(again, a, tenant, hex).Ok?
  {
    DistinctFingerprints(a, b, hex, texts);
    KeyInstalled(used, other, b, hex, texts);
    KeyInstalled(other, again, a, hex, texts);
    FreshLoginSucceeds(other, a, tenant, hex, texts);
  }

  lemma TwoStartups(catalog: Catalog, one: Option<string>, two: Option<string>, hex: string -> string, texts: set<string>)
    ensures var steps := [Startup(one), Startup(two)];
      && Run(catalog, steps, hex) == After(After(catalog, Startup(one), hex), Startup(two), hex)
      && IdTextsIn(catalog, steps, hex, texts)
  {
    var steps, middle := [Startup(one), Startup(two)], After(catalog, Startup(one), hex);
    assert steps[1..] == [Startup(two)] && [Startup(two)][1..] == [];
    assert Run(middle, [Startup(two)], hex) == Run(After(middle, Startup(two), hex), [], hex);
  }

  function Fill(digit: char): string { seq(64, _ => digit) }

  lemma KeyTextsDiffer(a: string, b: string, text: string)
    requires a != b && text != "" && text[0] == '0'
    ensures KeyText(a) != KeyText(b) && KeyText(a) != text
  {
    if KeyText(a) == KeyText(b) { SameTail("ContextVault configured administrator v1\0", a, b); }
    assert KeyText(a)[0] == 'C';
  }

  /** One digit for each of four texts. */
  function FourDigests(w: string, x: string, y: string, text: string): string {
    Fill(if text == w then '0' else if text == x then '1' else if text == y then '2' else '3')
  }

  lemma FourDistinct(w: string, x: string, y: string, z: string) returns (hex: string -> string)
    requires w != x && w != y && w != z && x != y && x != z && y != z
    ensures Digests(hex, {w, x, y, z}) && hex(w) == Fill('0')
  {
    hex := text => FourDigests(w, x, y, text);
    assert hex(w)[0] == '0' && hex(x)[0] == '1' && hex(y)[0] == '2' && hex(z)[0] == '3';
  }

  /** Such digests exist, whatever the keys, the tenant and the epoch. */
  lemma RotationDigests(a: string, b: string, tenant: string, epoch: nat) returns (hex: string -> string, texts: set<string>)
    requires a != b
    ensures Digests(hex, texts) && RotationTexts(a, b, tenant, epoch, hex, texts)
  {
    var first, last := Preimage(Fill('0'), epoch + 1, tenant), Preimage(Fill('0'), epoch + 3, tenant);
    if first == last { PreimageInjective(Fill('0'), epoch + 1, tenant, Fill('0'), epoch + 3, tenant); }
    assert first[0] == last[0] == '0';
    KeyTextsDiffer(a, b, first);
    KeyTextsDiffer(b, a, last);
    KeyTextsDiffer(a, b, last);
    KeyTextsDiffer(b, a, first);
    hex := FourDistinct(KeyText(a), KeyText(b), first, last);
    texts := {KeyText(a), KeyText(b), first, last};
  }

  /** The rotation of KeyComesBack happens, starting from an empty catalog. */
  lemma KeyComesBackHappens(a: string, b: string, tenant: string)
    returns (hex: string -> string, texts: set<string>, first: Catalog, used: Catalog, other: Catalog, again: Catalog)
    requires a != "" && b != "" && a != b
    ensures Digests(hex, texts) && Sound(EMPTY, hex, texts)
    ensures first == After(EMPTY, Startup(Some(a)), hex) && used == After(first, Login(a, tenant), hex)
    ensures other == After(used, Startup(Some(b)), hex) && again == After(other, Startup(Some(a)), hex)
    ensures LoggedIn(first, a, tenant, hex).Ok? && LoggedIn(again, a, tenant, hex).Ok?
    ensures var issued := LoggedIn(first, a, tenant, hex).value.1.credentialId;
      issued in again.authorities && again.authorities[issued].revoked && LoggedIn(again, a, tenant, hex).value.1.credentialId != issued
  {
    hex, texts := RotationDigests(a, b, tenant, 0);
    UpgradedSound(EMPTY, hex, texts);
    first := After(EMPTY, Startup(Some(a)), hex);
    used := After(first, Login(a, tenant), hex);
    other := After(used, Startup(Some(b)), hex);
    again := After(other, Startup(Some(a)), hex);
    KeyComesBack(EMPTY, first, used, other, again, a, b, tenant, hex, texts);
  }

  lemma KeyInstalled(before: Catalog, after: Catalog, key: string, hex: string -> string, texts: set<string>)
    requires Digests(hex, texts) && Sound(before, hex, texts) && key != "" && Epoch(before) < MAX_SAFE_INTEGER
    requires Present(before) != Some(Some(Fingerprint(key, hex))) && after == After(before, Startup(Some(key)), hex)
    ensures Synchronized(before, Some(key), hex).Ok? && after == Synchronized(before, Some(key), hex).value
    ensures Sound(after, hex, texts) && Epoch(after) == Epoch(before) + 1 && Present(after) == Some(Some(Fingerprint(key, hex)))
  {
    StepSound(before, Startup(Some(key)), hex, texts);
  }

  lemma KeyIssued(start: Catalog, first: Catalog, used: Catalog, key: string, tenant: string, hex: string -> string, texts: set<string>)
    requires Digests(hex, texts) && Sound(start, hex, texts) && key != "" && Epoch(start) < MAX_SAFE_INTEGER
    requires Present(start) != Some(Some(Fingerprint(key, hex)))
    requires Preimage(Fingerprint(key, hex), Epoch(start) + 1, tenant) in texts
    requires first == After(start, Startup(Some(key)), hex) && used == After(first, Login(key, tenant), hex)
    ensures Sound(used, hex, texts) && Epoch(used) == Epoch(start) + 1 && Present(used) == Some(Some(Fingerprint(key, hex)))
    ensures LoggedIn(first, key, tenant, hex).Ok?
    ensures var issued := LoggedIn(first, key, tenant, hex).value.1.credentialId;
      && issued in used.authorities && !used.authorities[issued].revoked
      && issued in used.provenance && used.provenance[issued].epoch == Epoch(used)
  {
    KeyInstalled(start, first, key, hex, texts);
    FreshLoginSucceeds(start, key, tenant, hex, texts);
    StepSound(first, Login(key, tenant), hex, texts);
  }

  // ---------------------------------------------------------------- the revocation pass, row by row

  /** The catalog while the rows in `rows` are still to be visited. */
  ghost predicate Passing(now: Catalog, start: Catalog, final: Catalog, rows: set<string>) {
    && now.configuration == final.configuration
    && now.authorities.Keys == start.authorities.Keys == final.authorities.Keys
    && (forall id :: id in rows ==> id in start.authorities && start.authorities[id].customerId.None?)
    && (forall id :: id in now.authorities ==>
         now.authorities[id] == if id in rows then start.authorities[id] else final.authorities[id])
    && start.provenance.Keys <= now.provenance.Keys <= final.provenance.Keys
    && (forall id :: id in rows && id !in start.provenance ==> id !in now.provenance)
    && (forall id :: id in final.provenance && id !in rows ==> id in now.provenance)
    && (forall id :: id in now.provenance ==> now.provenance[id] == final.provenance[id])
  }

  lemma PassStarts(start: Catalog, final: Catalog, rows: set<string>, current: Configuration)
    requires start.configuration == Some(current) && final == AfterRevocation(start, current)
    requires rows == set id | id in start.authorities && start.authorities[id].customerId.None?
    ensures Passing(start, start, final, rows)
  {
  }

  lemma PassContinues(before: Catalog, after: Catalog, start: Catalog, final: Catalog, rows: set<string>, id: string)
    requires Passing(before, start, final, rows) && id in rows && after.configuration == before.configuration
    requires after.authorities == before.authorities[id := final.authorities[id]]
    requires after.provenance == if id in final.provenance then before.provenance[id := final.provenance[id]] else before.provenance
    ensures Passing(after, start, final, rows - {id})
  {
  }

  // ---------------------------------------------------------------- the database

  /** The catalog tables, updated in place inside transactions that roll back on failure. */
  class CatalogDatabase {
    const hex: string -> string
    var configuration: Option<Configuration>
    var authorities: map<string, Authority>
    var provenance: map<string, Configuration>

    constructor (hex: string -> string, authorities: map<string, Authority>)
      ensures this.hex == hex && State() == Catalog(None, authorities, map[])
    {
      this.hex := hex;
      this.configuration, this.authorities, this.provenance := None, authorities, map[];
    }

    function State(): Catalog
      reads this
    {
      Catalog(configuration, authorities, provenance)
    }

    /** One row of the pass over the global authorities. */
    method RevokeRow(id: string, current: Configuration, ghost start: Catalog)
      requires id in start.authorities && start.authorities[id].customerId.None?
      requires id in authorities && authorities[id] == start.authorities[id]
      requires id in provenance <==> id in start.provenance
      requires id in start.provenance ==> provenance[id] == start.provenance[id]
      modifies this`authorities, this`provenance
      ensures authorities == old(authorities)[id := AfterRevocation(start, current).authorities[id]]
      ensures provenance == if id in AfterRevocation(start, current).provenance
        then old(provenance)[id := AfterRevocation(start, current).provenance[id]] else old(provenance)
    {
      var authority := authorities[id];
      if id !in provenance && LegacyIdentity(id, authority) { provenance := provenance[id := BEFORE_PROVENANCE]; }
      if id !in provenance { return; }
      if current.fingerprint.Some? && provenance[id] == current { return; }
      if !authority.revoked { authorities := authorities[id := Revoke(authority)]; }
    }

    method RevokePreviousConfiguredCredentials(current: Configuration)
      requires configuration == Some(current)
      modifies this`authorities, this`provenance
      ensures State() == AfterRevocation(old(State()), current)
    {
      ghost var start := State();
      ghost var final := AfterRevocation(start, current);
      var rows := set id | id in authorities && authorities[id].customerId.None?;
      PassStarts(start, final, rows, current);
      while rows != {}
        invariant Passing(State(), start, final, rows)
        decreases |rows|
      {
        var id :| id in rows;
        ghost var before := State();
        RevokeRow(id, current, start);
        PassContinues(before, State(), start, final, rows, id);
        rows := rows - {id};
      }
      assert authorities == final.authorities && provenance == final.provenance;
    }

    method InstallConfiguration(fingerprint: Option<string>) returns (r: Result<(), Failure>)
      modifies this
      ensures Installed(old(State()), fingerprint) == if r.Ok? then Ok(State()) else Err(r.error)
      ensures r.Err? ==> State() == old(State())
    {
      var epoch := (if configuration.Some? then configuration.value.epoch else 0) + 1;
      if epoch > MAX_SAFE_INTEGER { return Err(VersionConflict); }
      var current := Configuration(fingerprint, epoch);
      configuration := Some(current);
      RevokePreviousConfiguredCredentials(current);
      r := Ok(());
    }

    method SynchronizeConfiguredAdministrator(key: Option<string>) returns (r: Result<(), Failure>)
      modifies this
      ensures Synchronized(old(State()), key, hex) == if r.Ok? then Ok(State()) else Err(r.error)
      ensures r.Err? ==> State() == old(State())
    {
      var value := KeyFingerprint(key, hex);
      if value.Err? { return Err(value.error); }
      if configuration.Some? && configuration.value.fingerprint == value.value {
        RevokePreviousConfiguredCredentials(configuration.value);
        return Ok(());
      }
      r := InstallConfiguration(value.value);
    }

    method ConfigurationForVerifiedAdministrator(key: string) returns (r: Result<Configuration, Failure>)
      modifies this
      ensures match Verified(old(State()), key, hex)
        case Ok(ready) => r.Ok? && State() == ready && configuration == Some(r.value)
        case Err(error) => r == Err(error)
    {
      var value := KeyFingerprint(Some(key), hex);
      if value.Err? { return Err(value.error); }
      if configuration.None? {
        var installed := InstallConfiguration(value.value);
        assert installed.Ok?;
      }
      if configuration.value.fingerprint != value.value { return Err(CredentialRevoked); }
      r := Ok(configuration.value);
    }

    method RegisterConfiguredAdministratorProvenance(id: string, current: Configuration) returns (r: Result<(), Failure>)
      modifies this`provenance
      ensures r.Ok? <==>
        && configuration == Some(current) && current.fingerprint.Some?
        && id in authorities && !authorities[id].revoked && authorities[id].customerId.None? && authorities[id].actorId == ACTOR
        && (id in old(provenance) ==> old(provenance)[id] == current)
      ensures provenance == if r.Ok? then old(provenance)[id := current] else old(provenance)
      ensures r.Err? ==> r.error == CredentialRevoked
    {
      if configuration.None? || configuration.value.fingerprint.None? || configuration.value != current { return Err(CredentialRevoked); }
      if id !in authorities || authorities[id].revoked || authorities[id].customerId.Some? || authorities[id].actorId != ACTOR {
        return Err(CredentialRevoked);
      }
      if id in provenance && provenance[id] != configuration.value { return Err(CredentialRevoked); }
      if id !in provenance { provenance := provenance[id := configuration.value]; }
      r := Ok(());
    }

    /** A failure anywhere rolls the transaction back. */
    method PrincipalForVerifiedAdministrator(key: string, tenant: string) returns (r: Result<Principal, Failure>)
      modifies this
      ensures match LoggedIn(old(State()), key, tenant, hex)
        case Ok(login) => r == Ok(login.1) && State() == login.0
        case Err(error) => r == Err(error) && State() == old(State())
    {
      var savepoint := State();
      r := Login(key, tenant);
      if r.Err? { configuration, authorities, provenance := savepoint.configuration, savepoint.authorities, savepoint.provenance; }
    }

    method Login(key: string, tenant: string) returns (r: Result<Principal, Failure>)
      modifies this
      ensures match LoggedIn(old(State()), key, tenant, hex)
        case Ok(login) => r == Ok(login.1) && State() == login.0
        case Err(error) => r == Err(error)
    {
      var verified := ConfigurationForVerifiedAdministrator(key);
      if verified.Err? { return Err(verified.error); }
      var current := verified.value;
      var id := CredentialId(current.fingerprint.value, current.epoch, tenant, hex);
      var principal := Principal(id, 1, 1);
      if id !in authorities {
        authorities := authorities[id := FIRST_AUTHORITY];
      } else {
        var authority := authorities[id];
        if authority.revoked || authority.actorId != ACTOR || authority.customerId.Some? { return Err(CredentialRevoked); }
        principal := Principal(id, authority.credentialVersion, authority.permissionEpoch);
      }
      var registered := RegisterConfiguredAdministratorProvenance(id, current);
      if registered.Err? { return Err(registered.error); }
      r := Ok(principal);
    }

    /** Every authorization check of a configured identity asks for the present configuration. */
    method IsCurrentConfiguredAdministrator(id: string, authority: Authority) returns (current: bool)
      ensures current == IsCurrent(State(), id, authority)
      ensures current && (LegacyIdentity(id, authority) || id in provenance) ==>
        && authority.actorId == ACTOR && authority.customerId.None?
        && configuration.Some? && configuration.value.fingerprint.Some? && id in provenance && provenance[id] == configuration.value
    {
      if id !in provenance { return !LegacyIdentity(id, authority); }
      return authority.customerId.None? && authority.actorId == ACTOR && configuration.Some?
        && configuration.value.fingerprint.Some? && provenance[id] == configuration.value;
    }
  }
}
