/**
 The connector_credential table under every write the connector service makes.
 Cryptography is abstract: opening a sealed value gives back what was sealed,
 and the blind index is injective.
 */
module ConnectorTable {
  import opened Wrappers
  import opened ConnectorKinds
  import K = PartitionKeys

  type Id = nat
  type Tenant = string

  datatype Credentials = Credentials(
    apiKey: string,
    walletTenant: Option<string>,
    webhookSecret: Option<string>,
    agentLogId: Option<string>)

  /** Ciphertext: the nonce makes two encryptions of the same value differ. */
  datatype Sealed = Sealed(plain: Credentials, nonce: nat)

  datatype BlindIndex = BlindIndex(bindingKey: string)

  datatype Connector = Connector(
    id: Id,
    tenant: Tenant,
    kind: ConnectorType,
    endpoint: string,
    credentials: Sealed,
    keyVersion: nat,
    active: bool,
    hash: Option<BlindIndex>)

  /** Rows newest first, the order in which they are listed. */
  type Table = seq<Connector>

  // ----------------------------------------------------- building requests

  function WithAgentLogId(c: Credentials, captured: Option<string>): Credentials {
    c.(agentLogId := captured)
  }

  /** None is a thrown error; Some(None) is a row without a binding. */
  function HashAgentLogId(kind: ConnectorType, captured: Option<string>): Option<Option<BlindIndex>> {
    match captured
    case None => Some(None)
    case Some(id) =>
      match K.BindingKey(kind, id)
      case None => None
      case Some(key) => Some(Some(BlindIndex(key)))
  }

  datatype CredentialPatch = CredentialPatch(
    apiKey: Option<string>, walletTenant: Option<string>, webhookSecret: Option<string>)

  datatype UpdateRequest = UpdateRequest(endpoint: Option<string>, credentials: Option<CredentialPatch>)

  /** What the outside world answers while one update is being prepared. */
  datatype Answers = Answers(
    healthy: bool,
    captured: Option<string>,
    otherActive: bool,
    registered: bool,
    nonce: nat,
    keyVersion: nat)

  datatype UpdateError = Unhealthy | BindingLost | BindingTaken | NothingToUpdate | NotRegistered | BadIdentifier

  /** A partial row: only the fields an update sets. */
  datatype Updates = Updates(
    endpoint: Option<string>, credentials: Option<Sealed>, keyVersion: Option<nat>, hash: Option<Option<BlindIndex>>)

  function Merge(kind: ConnectorType, c: Credentials, p: CredentialPatch): Credentials {
    c.(apiKey := if p.apiKey.Some? then p.apiKey.value else c.apiKey,
       walletTenant := if kind == Traction && p.walletTenant.Some? then p.walletTenant else c.walletTenant,
       webhookSecret := if p.webhookSecret.Some? then p.webhookSecret else c.webhookSecret)
  }

  /** The binding an update may store, or why it may not. */
  function AssertAvailable(existing: Connector, a: Answers): Result<Option<BlindIndex>, UpdateError> {
    match HashAgentLogId(existing.kind, a.captured)
    case None => Err(BadIdentifier)
    case Some(hash) =>
      if hash.None? && (existing.hash.Some? || existing.credentials.plain.agentLogId.Some?) then Err(BindingLost)
      else if hash.Some? && a.otherActive then Err(BindingTaken)
      else Ok(hash)
  }

  function BuildUpdates(existing: Connector, dto: UpdateRequest, a: Answers): Result<Updates, UpdateError> {
    if dto.credentials.Some? then
      var merged := Merge(existing.kind, existing.credentials.plain, dto.credentials.value);
      if !a.healthy then Err(Unhealthy)
      else
        match AssertAvailable(existing, a)
        case Err(e) => Err(e)
        case Ok(hash) =>
          if existing.kind == Traction && !a.registered then Err(NotRegistered)
          else Ok(Updates(dto.endpoint, Some(Sealed(WithAgentLogId(merged, a.captured), a.nonce)),
                          Some(a.keyVersion), Some(hash)))
    else if dto.endpoint.Some? then
      if !a.healthy then Err(Unhealthy)
      else if a.captured == existing.credentials.plain.agentLogId then Ok(Updates(dto.endpoint, None, None, None))
      else
        match AssertAvailable(existing, a)
        case Err(e) => Err(e)
        case Ok(hash) =>
          Ok(Updates(dto.endpoint, Some(Sealed(WithAgentLogId(existing.credentials.plain, a.captured), a.nonce)),
                     Some(a.keyVersion), Some(hash)))
    else Err(NothingToUpdate)
  }

  function ApplyUpdates(row: Connector, u: Updates): Connector {
    row.(endpoint := if u.endpoint.Some? then u.endpoint.value else row.endpoint,
         credentials := if u.credentials.Some? then u.credentials.value else row.credentials,
         keyVersion := if u.keyVersion.Some? then u.keyVersion.value else row.keyVersion,
         hash := if u.hash.Some? then u.hash.value else row.hash)
  }

  // -------------------------------------------------------- committed writes

  /** The position of a tenant's connector, or the length when it has none by that id. */
  function Find(t: Table, tenant: Tenant, id: Id): (i: nat)
    ensures i <= |t|
    ensures i < |t| ==> t[i].tenant == tenant && t[i].id == id
  {
    if t == [] || (t[0].tenant == tenant && t[0].id == id) then 0 else 1 + Find(t[1..], tenant, id)
  }

  lemma {:induction false} FindMissesNothing(t: Table, tenant: Tenant, id: Id, j: nat)
    requires j < |t| && t[j].tenant == tenant && t[j].id == id
    ensures Find(t, tenant, id) <= j
  {
    if !(t[0].tenant == tenant && t[0].id == id) {
      FindMissesNothing(t[1..], tenant, id, j - 1);
    }
  }

  /** The partial unique index over active, bound rows. */
  predicate IndexHolds(t: Table) {
    forall i, j | 0 <= i < j < |t| && t[i].active && t[j].active && t[i].hash.Some? :: t[i].hash != t[j].hash
  }

  function Commit(before: Table, after: Table): Table {
    if IndexHolds(after) then after else before
  }

  /** Every write the service can commit. Refused writes leave the table as it was. */
  datatype Write =
    | Create(id: Id, tenant: Tenant, kind: ConnectorType, endpoint: string, credentials: Credentials, answers: Answers)
    | Patch(tenant: Tenant, id: Id, dto: UpdateRequest, answers: Answers)
    | Rotate(tenant: Tenant, id: Id, nonce: nat, keyVersion: nat)
    | Delete(tenant: Tenant, id: Id)
    | DeactivateAll(tenant: Tenant)

  function Deactivated(t: Table, tenant: Tenant): (r: Table)
    ensures |r| == |t|
    ensures forall i | 0 <= i < |t| :: r[i] == if t[i].tenant == tenant then t[i].(active := false) else t[i]
  {
    if t == [] then []
    else [if t[0].tenant == tenant then t[0].(active := false) else t[0]] + Deactivated(t[1..], tenant)
  }

  function ApplyWrite(t: Table, w: Write): Table {
    match w
    case Create(id, tenant, kind, endpoint, credentials, a) =>
      if !a.healthy || HashAgentLogId(kind, a.captured).None? || exists i :: 0 <= i < |t| && t[i].id == id then t
      else
        var row := Connector(id, tenant, kind, endpoint, Sealed(WithAgentLogId(credentials, a.captured), a.nonce),
                             a.keyVersion, true, HashAgentLogId(kind, a.captured).value);
        Commit(t, [row] + t)
    case Patch(tenant, id, dto, a) =>
      var i := Find(t, tenant, id);
      if i == |t| || BuildUpdates(t[i], dto, a).Err? then t
      else Commit(t, t[i := ApplyUpdates(t[i], BuildUpdates(t[i], dto, a).value)])
    case Rotate(tenant, id, nonce, keyVersion) =>
      var i := Find(t, tenant, id);
      if i == |t| || t[i].keyVersion == keyVersion then t
      else t[i := t[i].(credentials := Sealed(t[i].credentials.plain, nonce), keyVersion := keyVersion)]
    case Delete(tenant, id) =>
      var i := Find(t, tenant, id);
      if i == |t| then t else t[..i] + t[i + 1..]
    case DeactivateAll(tenant) => Deactivated(t, tenant)
  }

  function ApplyAll(t: Table, writes: seq<Write>): Table
    decreases |writes|
  {
    if writes == [] then t else ApplyAll(ApplyWrite(t, writes[0]), writes[1..])
  }

  lemma {:induction false} ApplyAllAppend(t: Table, xs: seq<Write>, ys: seq<Write>)
    ensures ApplyAll(t, xs + ys) == ApplyAll(ApplyAll(t, xs), ys)
    decreases |xs|
  {
    if xs == [] {
      assert xs + ys == ys;
    } else {
      assert (xs + ys)[0] == xs[0] && (xs + ys)[1..] == xs[1..] + ys;
      ApplyAllAppend(ApplyWrite(t, xs[0]), xs[1..], ys);
    }
  }

  // ------------------------------------------------------------- invariant

  /** The stored hash is that of the stored agent identifier, which is always well formed. */
  predicate Bound(row: Connector) {
    HashAgentLogId(row.kind, row.credentials.plain.agentLogId) == Some(row.hash)
  }

  ghost predicate AllBound(t: Table) {
    forall row | row in t :: Bound(row)
  }

  ghost predicate TableOk(t: Table) {
    && AllBound(t)
    && (forall i, j | 0 <= i < j < |t| :: t[i].id != t[j].id)
    && IndexHolds(t)
  }

  lemma BuiltUpdatesKeepBinding(row: Connector, dto: UpdateRequest, a: Answers)
    requires Bound(row) && BuildUpdates(row, dto, a).Ok?
    ensures Bound(ApplyUpdates(row, BuildUpdates(row, dto, a).value))
    ensures row.hash.Some? ==> ApplyUpdates(row, BuildUpdates(row, dto, a).value).hash.Some?
  {
  }

  lemma CreateKeepsTable(t: Table, w: Write)
    requires TableOk(t) && w.Create?
    ensures TableOk(ApplyWrite(t, w))
  {
    var u := ApplyWrite(t, w);
    if u != t {
      assert Bound(u[0]) && u[0].id == w.id;
      forall i | 1 <= i < |u| ensures Bound(u[i]) && u[i].id != u[0].id {
        assert u[i] == t[i - 1];
      }
    }
  }

  lemma PatchKeepsTable(t: Table, w: Write)
    requires TableOk(t) && w.Patch?
    ensures TableOk(ApplyWrite(t, w))
  {
    var i := Find(t, w.tenant, w.id);
    if i < |t| && BuildUpdates(t[i], w.dto, w.answers).Ok? {
      BuiltUpdatesKeepBinding(t[i], w.dto, w.answers);
    }
  }

  lemma RowwiseKeepsTable(t: Table, w: Write)
    requires TableOk(t) && (w.Rotate? || w.DeactivateAll?)
    ensures TableOk(ApplyWrite(t, w))
  {
    var u := ApplyWrite(t, w);
    assert |u| == |t|;
    forall i | 0 <= i < |u|
      ensures u[i].id == t[i].id && u[i].hash == t[i].hash && (u[i].active ==> t[i].active) && Bound(u[i])
    {
      assert Bound(t[i]);
    }
  }

  lemma DeleteKeepsTable(t: Table, w: Write)
    requires TableOk(t) && w.Delete?
    ensures TableOk(ApplyWrite(t, w))
  {
    var k, u := Find(t, w.tenant, w.id), ApplyWrite(t, w);
    if k < |t| {
      assert forall i | 0 <= i < |u| :: u[i] == if i < k then t[i] else t[i + 1];
    }
  }

  lemma ApplyWriteKeepsTable(t: Table, w: Write)
    requires TableOk(t)
    ensures TableOk(ApplyWrite(t, w))
  {
    match w
    case Create(_, _, _, _, _, _) => CreateKeepsTable(t, w);
    case Patch(_, _, _, _) => PatchKeepsTable(t, w);
    case Rotate(_, _, _, _) => RowwiseKeepsTable(t, w);
    case Delete(_, _) => DeleteKeepsTable(t, w);
    case DeactivateAll(_) => RowwiseKeepsTable(t, w);
  }

  lemma {:induction false} RunKeepsTable(t: Table, writes: seq<Write>)
    requires TableOk(t)
    ensures TableOk(ApplyAll(t, writes))
    decreases |writes|
  {
    if writes != [] {
      ApplyWriteKeepsTable(t, writes[0]);
      RunKeepsTable(ApplyWrite(t, writes[0]), writes[1..]);
    }
  }

  /** No update, rotation or deactivation erases a binding; only deletion removes the row. */
  lemma BindingsAreNeverErased(t: Table, w: Write, i: nat)
    requires TableOk(t) && i < |t| && t[i].hash.Some? && !w.Delete?
    ensures exists j :: 0 <= j < |ApplyWrite(t, w)| && ApplyWrite(t, w)[j].id == t[i].id
                        && ApplyWrite(t, w)[j].tenant == t[i].tenant && ApplyWrite(t, w)[j].hash.Some?
  {
    var u := ApplyWrite(t, w);
    if w.Create? && u != t {
      assert u[i + 1] == t[i];
    } else {
      if w.Patch? {
        var k := Find(t, w.tenant, w.id);
        if k < |t| && BuildUpdates(t[k], w.dto, w.answers).Ok? {
          BuiltUpdatesKeepBinding(t[k], w.dto, w.answers);
        }
      }
      assert u[i].id == t[i].id;
    }
  }

  // ------------------------------------------------------------ resolution

  /** What one row adds to a tenant's partitions; None when its stored identifier is unusable. */
  function Contribution(row: Connector, tenant: Tenant): Option<seq<string>> {
    if row.tenant != tenant || !row.active || row.credentials.plain.agentLogId.None? then Some([])
    else
      match K.AgentPartitionKey(row.kind, row.credentials.plain.agentLogId.value)
      case None => None
      case Some(key) => Some([key])
  }

  function Both(x: Option<seq<string>>, y: Option<seq<string>>): Option<seq<string>> {
    if x.Some? && y.Some? then Some(x.value + y.value) else None
  }

  lemma BothAssociates(x: Option<seq<string>>, y: Option<seq<string>>, z: Option<seq<string>>)
    ensures Both(Both(x, y), z) == Both(x, Both(y, z))
    ensures Both(Some([]), x) == x == Both(x, Some([]))
  {
    if x.Some? {
      assert [] + x.value == x.value == x.value + [];
      if y.Some? && z.Some? {
        assert (x.value + y.value) + z.value == x.value + (y.value + z.value);
      }
    }
  }

  /** A tenant's agent partitions, newest connector first; None when any stored identifier is unusable. */
  function Resolve(t: Table, tenant: Tenant): Option<seq<string>> {
    if t == [] then Some([]) else Both(Contribution(t[0], tenant), Resolve(t[1..], tenant))
  }

  /** A partition is resolved exactly for the tenant of an active connector bound to it. */
  predicate Serves(row: Connector, tenant: Tenant, key: string) {
    && row.tenant == tenant && row.active && row.credentials.plain.agentLogId.Some?
    && K.AgentPartitionKey(row.kind, row.credentials.plain.agentLogId.value) == Some(key)
  }

  lemma {:induction false} BoundTableResolves(t: Table, tenant: Tenant)
    requires AllBound(t)
    ensures Resolve(t, tenant).Some?
  {
    if t != [] {
      assert Bound(t[0]);
      BoundTableResolves(t[1..], tenant);
    }
  }

  lemma {:induction false} ResolvesExactlyServed(t: Table, tenant: Tenant, key: string)
    requires Resolve(t, tenant).Some?
    ensures key in Resolve(t, tenant).value <==> exists i :: 0 <= i < |t| && Serves(t[i], tenant, key)
  {
    if t != [] {
      ResolvesExactlyServed(t[1..], tenant, key);
      assert Serves(t[0], tenant, key) <==> key in Contribution(t[0], tenant).value;
      if i :| 0 <= i < |t| && Serves(t[i], tenant, key) {
        assert i > 0 ==> Serves(t[1..][i - 1], tenant, key);
      }
      if key in Resolve(t[1..], tenant).value {
        var i :| 0 <= i < |t[1..]| && Serves(t[1..][i], tenant, key);
        assert Serves(t[i + 1], tenant, key);
      }
    }
  }

  /** Concatenating tables concatenates what they resolve to. */
  lemma {:induction false} ResolveConcat(xs: Table, ys: Table, tenant: Tenant)
    ensures Resolve(xs + ys, tenant) == Both(Resolve(xs, tenant), Resolve(ys, tenant))
  {
    if xs == [] {
      assert xs + ys == ys;
      BothAssociates(Resolve(ys, tenant), None, None);
    } else {
      assert (xs + ys)[0] == xs[0] && (xs + ys)[1..] == xs[1..] + ys;
      ResolveConcat(xs[1..], ys, tenant);
      BothAssociates(Contribution(xs[0], tenant), Resolve(xs[1..], tenant), Resolve(ys, tenant));
    }
  }

  /** A table split around one of its rows. */
  lemma ResolveAround(t: Table, i: nat, tenant: Tenant)
    requires i < |t|
    ensures Resolve(t, tenant) ==
            Both(Resolve(t[..i], tenant), Both(Contribution(t[i], tenant), Resolve(t[i + 1..], tenant)))
  {
    assert t == t[..i] + t[i..] && t[i..][1..] == t[i + 1..];
    ResolveConcat(t[..i], t[i..], tenant);
  }

  lemma {:induction false} DeactivatingForeignRows(t: Table, owner: Tenant, tenant: Tenant)
    requires owner != tenant
    ensures Resolve(Deactivated(t, owner), tenant) == Resolve(t, tenant)
  {
    if t != [] {
      DeactivatingForeignRows(t[1..], owner, tenant);
    }
  }

  lemma EditingInPlace(t: Table, i: nat, row: Connector, tenant: Tenant)
    requires i < |t| && Contribution(row, tenant) == Contribution(t[i], tenant)
    ensures Resolve(t[i := row], tenant) == Resolve(t, tenant)
  {
    var u := t[i := row];
    assert u[..i] == t[..i] && u[i + 1..] == t[i + 1..];
    ResolveAround(t, i, tenant);
    ResolveAround(u, i, tenant);
  }

  lemma RemovingForeignRow(t: Table, i: nat, tenant: Tenant)
    requires i < |t| && t[i].tenant != tenant
    ensures Resolve(t[..i] + t[i + 1..], tenant) == Resolve(t, tenant)
  {
    ResolveAround(t, i, tenant);
    ResolveConcat(t[..i], t[i + 1..], tenant);
    BothAssociates(Resolve(t[i + 1..], tenant), None, None);
  }

  /** A write changes no other tenant's partitions, and a key rotation changes nobody's. */
  lemma WritesStayInTheirTenant(t: Table, w: Write, tenant: Tenant)
    requires w.tenant != tenant || w.Rotate?
    ensures Resolve(ApplyWrite(t, w), tenant) == Resolve(t, tenant)
  {
    var u := ApplyWrite(t, w);
    if u != t {
      match w
      case Create(_, _, _, _, _, _) =>
        assert u[1..] == t;
        BothAssociates(Resolve(t, tenant), None, None);
      case DeactivateAll(owner) => DeactivatingForeignRows(t, owner, tenant);
      case Delete(owner, id) => RemovingForeignRow(t, Find(t, owner, id), tenant);
      case Patch(owner, id, _, _) =>
        var i := Find(t, owner, id);
        EditingInPlace(t, i, u[i], tenant);
      case Rotate(owner, id, _, _) =>
        var i := Find(t, owner, id);
        EditingInPlace(t, i, u[i], tenant);
    }
  }

  /** One active connector at most is bound to a partition. */
  lemma OneConnectorPerPartition(t: Table, i: nat, j: nat, key: string)
    requires TableOk(t) && i < |t| && j < |t|
    requires Serves(t[i], t[i].tenant, key) && Serves(t[j], t[j].tenant, key)
    ensures i == j
  {
    assert Bound(t[i]) && Bound(t[j]);
    K.AgentKeysInjective(t[i].kind, t[i].credentials.plain.agentLogId.value,
                         t[j].kind, t[j].credentials.plain.agentLogId.value);
  }

  /** Two tenants never resolve the same agent partition. */
  lemma PartitionsAreDisjoint(t: Table, t1: Tenant, t2: Tenant, key: string)
    requires TableOk(t) && t1 != t2
    requires Resolve(t, t1).Some? && key in Resolve(t, t1).value
    ensures Resolve(t, t2).Some? && key !in Resolve(t, t2).value
  {
    BoundTableResolves(t, t2);
    ResolvesExactlyServed(t, t1, key);
    ResolvesExactlyServed(t, t2, key);
    var i :| 0 <= i < |t| && Serves(t[i], t1, key);
    if j :| 0 <= j < |t| && Serves(t[j], t2, key) {
      OneConnectorPerPartition(t, i, j, key);
    }
  }

  /**
   Tenant isolation. In every table reachable from a consistent one (the empty
   table is), the scopes of two tenants, read back the way the log store reads
   them, share no partition.
   */
  lemma ScopesOfTenantsAreDisjoint(start: Table, writes: seq<Write>, t1: Tenant, t2: Tenant, part: string)
    requires TableOk(start) && t1 != t2
    requires var s1 := K.ResolveScope(t1, true, Resolve(ApplyAll(start, writes), t1));
             s1.Ok? && part in K.Split(s1.value)
    requires K.ResolveScope(t2, true, Resolve(ApplyAll(start, writes), t2)).Ok?
    ensures part !in K.Split(K.ResolveScope(t2, true, Resolve(ApplyAll(start, writes), t2)).value)
  {
    var t := ApplyAll(start, writes);
    RunKeepsTable(start, writes);
    ScopeMembers(t, t1);
    ScopeMembers(t, t2);
    var own1, own2 := K.TenantPartitionKey(t1), K.TenantPartitionKey(t2);
    if Some(part) == own1 {
      TenantKeyIsForeign(t, t1, t2);
    } else if Some(part) == own2 {
      TenantKeyIsForeign(t, t2, t1);
    } else {
      PartitionsAreDisjoint(t, t1, t2, part);
    }
  }

  lemma ScopeMembers(t: Table, tenant: Tenant)
    requires TableOk(t) && K.ResolveScope(tenant, true, Resolve(t, tenant)).Ok?
    ensures K.TenantPartitionKey(tenant).Some? && Resolve(t, tenant).Some?
    ensures forall part :: part in K.Split(K.ResolveScope(tenant, true, Resolve(t, tenant)).value)
                           <==> Some(part) == K.TenantPartitionKey(tenant) || part in Resolve(t, tenant).value
  {
    var keys := Resolve(t, tenant).value;
    K.ScopeReadsBackExactly(tenant, keys);
    var parts := K.Split(K.ResolveScope(tenant, true, Some(keys)).value);
    assert parts == [parts[0]] + parts[1..];
  }

  /** A tenant's own key is neither another tenant's key nor anyone's agent key. */
  lemma TenantKeyIsForeign(t: Table, owner: Tenant, other: Tenant)
    requires TableOk(t) && owner != other && K.TenantPartitionKey(owner).Some?
    ensures K.TenantPartitionKey(owner) != K.TenantPartitionKey(other)
    ensures Resolve(t, other).Some? && K.TenantPartitionKey(owner).value !in Resolve(t, other).value
  {
    var key := K.TenantPartitionKey(owner).value;
    BoundTableResolves(t, other);
    ResolvesExactlyServed(t, other, key);
    if i :| 0 <= i < |t| && Serves(t[i], other, key) {
      K.NamespacesDisjoint(owner, t[i].kind, t[i].credentials.plain.agentLogId.value);
    }
    if K.TenantPartitionKey(owner) == K.TenantPartitionKey(other) {
      K.TenantKeysInjective(owner, other);
    }
  }

  // ------------------------------------------------------ what a write means

  /** The reported identifier may replace the stored one: well formed, not lost, not another active connector's. */
  predicate IdentifierAcceptable(existing: Connector, a: Answers) {
    match a.captured
    case None => existing.hash.None? && existing.credentials.plain.agentLogId.None?
    case Some(id) => K.BindingKey(existing.kind, id).Some? && !a.otherActive
  }

  /**
   An update is accepted exactly when something is asked for, the endpoint is
   healthy, a changed identifier is acceptable, and new credentials of a Traction
   connector got their webhook registered.
   */
  lemma UpdateAcceptedIff(existing: Connector, dto: UpdateRequest, a: Answers)
    ensures BuildUpdates(existing, dto, a).Ok? <==>
            && (dto.credentials.Some? || dto.endpoint.Some?)
            && a.healthy
            && (dto.credentials.Some? || a.captured != existing.credentials.plain.agentLogId ==>
                  IdentifierAcceptable(existing, a))
            && (dto.credentials.Some? && existing.kind == Traction ==> a.registered)
  {
  }

  /** A field of the patch, or the field it leaves alone. */
  function Given<T>(x: Option<T>, y: T): T {
    if x.Some? then x.value else y
  }

  /** An accepted update changes the fields given and takes the identifier from the health check, nothing else. */
  lemma UpdateReplacesOnlyGivenFields(row: Connector, dto: UpdateRequest, a: Answers)
    requires BuildUpdates(row, dto, a).Ok?
    ensures var after := ApplyUpdates(row, BuildUpdates(row, dto, a).value);
            var was, now := row.credentials.plain, after.credentials.plain;
            && after.id == row.id && after.tenant == row.tenant && after.kind == row.kind && after.active == row.active
            && after.endpoint == Given(dto.endpoint, row.endpoint)
            && now.agentLogId == a.captured
            && (dto.credentials.None? ==> now == was.(agentLogId := a.captured))
            && (dto.credentials.Some? ==>
                  && now.apiKey == Given(dto.credentials.value.apiKey, was.apiKey)
                  && (now.webhookSecret == dto.credentials.value.webhookSecret
                      || (dto.credentials.value.webhookSecret.None? && now.webhookSecret == was.webhookSecret))
                  && (row.kind == Credo ==> now.walletTenant == was.walletTenant)
                  && (row.kind == Traction ==>
                        now.walletTenant == if dto.credentials.value.walletTenant.Some?
                                             then dto.credentials.value.walletTenant else was.walletTenant))
  {
  }

  /** A connector whose creation commits is served at once, ahead of the tenant's others. */
  lemma CreatedConnectorIsServed(t: Table, w: Write)
    requires w.Create? && ApplyWrite(t, w) != t
    ensures w.answers.healthy && HashAgentLogId(w.kind, w.answers.captured).Some?
    ensures Resolve(ApplyWrite(t, w), w.tenant) ==
            match w.answers.captured
            case None => Resolve(t, w.tenant)
            case Some(id) => Both(Some([K.AgentPartitionKey(w.kind, id).value]), Resolve(t, w.tenant))
  {
    var u := ApplyWrite(t, w);
    assert u[1..] == t;
    BothAssociates(Resolve(t, w.tenant), None, None);
  }

  /** A deactivated tenant resolves no agent partition. */
  lemma {:induction false} DeactivatedTenantResolvesNothing(t: Table, tenant: Tenant)
    ensures Resolve(ApplyWrite(t, DeactivateAll(tenant)), tenant) == Some([])
  {
    if t != [] {
      DeactivatedTenantResolvesNothing(t[1..], tenant);
      assert Deactivated(t, tenant)[1..] == Deactivated(t[1..], tenant);
      BothAssociates(Some([]), None, None);
    }
  }

  // ---------------------------------------------------------------- service

  datatype UpdateFailure = NotFound | Rejected(reason: UpdateError) | Taken | Changed

  /** The table before anyone interfered (n = 0) or as the n-th locked transaction finds it. */
  function Seen(start: Table, seen: seq<Table>, n: nat): Table
    requires n <= |seen|
  {
    if n == 0 then start else seen[n - 1]
  }

  /** A tenant's row, if it has one by this id. */
  function RowOf(t: Table, tenant: Tenant, id: Id): Option<Connector> {
    var i := Find(t, tenant, id);
    if i == |t| then None else Some(t[i])
  }

  /** The tenant's row, if present, is bound; so it is in every consistent table. */
  ghost predicate RowBound(t: Table, tenant: Tenant, id: Id) {
    RowOf(t, tenant, id).Some? ==> Bound(RowOf(t, tenant, id).value)
  }

  /** Somebody else changed the row between the k-th read and the transaction that followed it. */
  ghost predicate RowChangesIn(start: Table, seen: seq<Table>, k: nat, tenant: Tenant, id: Id)
    requires k < |seen|
  {
    RowOf(Seen(start, seen, k), tenant, id) != RowOf(Seen(start, seen, k + 1), tenant, id)
  }

  /** The table t is base after one patch, which left this row behind. */
  ghost predicate PatchedAtomically(base: Table, tenant: Tenant, id: Id, dto: UpdateRequest, a: Answers,
                                    row: Connector, t: Table)
  {
    var was := RowOf(base, tenant, id);
    && was.Some?
    && BuildUpdates(was.value, dto, a).Ok?
    && row == ApplyUpdates(was.value, BuildUpdates(was.value, dto, a).value)
    && t == ApplyWrite(base, Patch(tenant, id, dto, a))
    && RowOf(t, tenant, id) == Some(row)
  }

  /** A patch of this table would break the unique index. */
  ghost predicate PatchCollides(t: Table, tenant: Tenant, id: Id, dto: UpdateRequest, a: Answers) {
    var i := Find(t, tenant, id);
    && i < |t|
    && BuildUpdates(t[i], dto, a).Ok?
    && !IndexHolds(t[i := ApplyUpdates(t[i], BuildUpdates(t[i], dto, a).value)])
  }

  datatype Outcome = Done(row: Connector) | Failed(failure: UpdateFailure) | Retry(row: Connector)

  /** What an attempt that reached its transaction did to the table it found there. */
  ghost predicate Committed(base: Table, tenant: Tenant, id: Id, dto: UpdateRequest, a: Answers, snapshot: Connector,
                            r: Outcome, t: Table)
  {
    match r
    case Done(row) => PatchedAtomically(base, tenant, id, dto, a, row, t)
    case Retry(row) => t == base && RowOf(base, tenant, id) == Some(row) && row != snapshot
    case Failed(failure) =>
      && t == base
      && ((failure == NotFound && RowOf(base, tenant, id) == None)
          || (failure == Taken && PatchCollides(base, tenant, id, dto, a)))
  }

  const MAX_ATTEMPTS := 3

  class Connectors {
    var table: Table

    /** One locked read-compare-write transaction of an update. */
    method CommitIfUnchanged(tenant: Tenant, id: Id, snapshot: Connector, updates: Updates)
      returns (current: Option<Connector>, stale: bool, conflict: bool)
      requires RowBound(table, tenant, id) && Bound(snapshot) && snapshot.tenant == tenant && snapshot.id == id
      modifies this
      ensures old(RowOf(table, tenant, id)).None? <==> current.None?
      ensures current.None? ==> table == old(table) && !stale && !conflict
      ensures current.Some? ==> (stale <==> old(RowOf(table, tenant, id)) != Some(snapshot))
      ensures stale ==> table == old(table) && !conflict && current == old(RowOf(table, tenant, id))
      ensures current.Some? && !stale ==>
                var i := old(Find(table, tenant, id));
                var patched := old(table)[i := ApplyUpdates(snapshot, updates)];
                && conflict == !IndexHolds(patched)
                && table == Commit(old(table), patched)
                && current == Some(table[i])
    {
      var i := Find(table, tenant, id);
      current, stale, conflict := None, false, false;
      if i < |table| {
        var row := table[i];
        stale := row.endpoint != snapshot.endpoint || row.kind != snapshot.kind || row.active != snapshot.active
                 || row.keyVersion != snapshot.keyVersion || row.credentials != snapshot.credentials;
        if !stale {
          var patched := table[i := ApplyUpdates(row, updates)];
          if IndexHolds(patched) {
            table := patched;
          } else {
            conflict := true;
          }
        }
        current := Some(table[i]);
      }
    }

    /** One attempt: build from the snapshot, let the others write, then commit if nothing changed. */
    method Attempt(tenant: Tenant, id: Id, dto: UpdateRequest, a: Answers, others: Table, snapshot: Connector)
      returns (r: Outcome)
      requires Bound(snapshot) && RowBound(others, tenant, id) && RowOf(table, tenant, id) == Some(snapshot)
      modifies this
      ensures r.Failed? && r.failure.Rejected? ==>
                BuildUpdates(snapshot, dto, a) == Err(r.failure.reason) && table == old(table)
      ensures !(r.Failed? && r.failure.Rejected?) ==> Committed(others, tenant, id, dto, a, snapshot, r, table)
    {
      var updates := BuildUpdates(snapshot, dto, a);
      if updates.Err? {
        return Failed(Rejected(updates.error));
      }
      table := others;
      var current, stale, conflict := CommitIfUnchanged(tenant, id, snapshot, updates.value);
      if current.None? {
        return Failed(NotFound);
      }
      if conflict {
        return Failed(Taken);
      }
      if stale {
        return Retry(current.value);
      }
      PatchedRowIsFound(others, tenant, id, table);
      r := Done(current.value);
    }

    /**
     Update a connector while others write: seen[k] is the table others have left
     by the time the k-th locked transaction starts, whatever they did to it. The
     call behaves as one atomic patch of the row that was current at its commit.
     */
    method Update(tenant: Tenant, id: Id, dto: UpdateRequest, answers: seq<Answers>, seen: seq<Table>)
      returns (r: Result<Connector, UpdateFailure>, n: nat)
      requires RowBound(table, tenant, id) && forall k | 0 <= k < |seen| :: RowBound(seen[k], tenant, id)
      requires |answers| == |seen| == MAX_ATTEMPTS
      modifies this
      ensures n <= MAX_ATTEMPTS
      ensures r.Err? ==> table == Seen(old(table), seen, n)
      ensures r.Ok? ==> n > 0 && PatchedAtomically(seen[n - 1], tenant, id, dto, answers[n - 1], r.value, table)
      ensures r == Err(NotFound) ==> RowOf(table, tenant, id) == None
      ensures r.Err? && r.error.Rejected? ==>
                && n < MAX_ATTEMPTS && RowOf(table, tenant, id).Some?
                && BuildUpdates(RowOf(table, tenant, id).value, dto, answers[n]) == Err(r.error.reason)
      ensures r == Err(Taken) ==> n > 0 && PatchCollides(table, tenant, id, dto, answers[n - 1])
      ensures r == Err(Changed) ==>
                n == MAX_ATTEMPTS && forall k | 0 <= k < n :: RowChangesIn(old(table), seen, k, tenant, id)
    {
      ghost var start := table;
      n := 0;
      var i := Find(table, tenant, id);
      if i == |table| {
        return Err(NotFound), 0;
      }
      var snapshot := table[i];
      while n < MAX_ATTEMPTS
        invariant n <= MAX_ATTEMPTS
        invariant table == Seen(start, seen, n) && Bound(snapshot)
        invariant RowOf(table, tenant, id) == Some(snapshot)
        invariant forall k | 0 <= k < n :: RowChangesIn(start, seen, k, tenant, id)
      {
        var attempt := Attempt(tenant, id, dto, answers[n], seen[n], snapshot);
        if attempt.Failed? && attempt.failure.Rejected? {
          return Err(attempt.failure), n;
        }
        n := n + 1;
        match attempt {
          case Failed(failure) => return Err(failure), n;
          case Done(row) => return Ok(row), n;
          case Retry(row) => snapshot := row;
        }
      }
      r := Err(Changed);
    }
  }

  lemma PatchedRowIsFound(t: Table, tenant: Tenant, id: Id, u: Table)
    requires Find(t, tenant, id) < |t| == |u|
    requires forall j | 0 <= j < |t| :: u[j].tenant == t[j].tenant && u[j].id == t[j].id
    ensures Find(u, tenant, id) == Find(t, tenant, id)
  {
    var i := Find(t, tenant, id);
    FindMissesNothing(u, tenant, id, i);
    FindMissesNothing(t, tenant, id, Find(u, tenant, id));
  }

  /** The partitions of a tenant, gathered connector by connector. */
  method ReadPartitions(t: Table, tenant: Tenant) returns (r: Option<seq<string>>)
    ensures r == Resolve(t, tenant)
  {
    var partitions, i := [], 0;
    BothAssociates(Resolve(t, tenant), None, None);
    while i < |t|
      invariant i <= |t|
      invariant Resolve(t, tenant) == Both(Some(partitions), Resolve(t[i..], tenant))
    {
      assert t[i..][1..] == t[i + 1..];
      BothAssociates(Some(partitions), Contribution(t[i], tenant), Resolve(t[i + 1..], tenant));
      if t[i].tenant == tenant && t[i].active && t[i].credentials.plain.agentLogId.Some? {
        var key := K.AgentPartitionKey(t[i].kind, t[i].credentials.plain.agentLogId.value);
        if key.None? {
          return None;
        }
        partitions := partitions + [key.value];
      } else {
        BothAssociates(Some(partitions), None, None);
      }
      i := i + 1;
    }
    BothAssociates(Some(partitions), None, None);
    r := Some(partitions);
  }
}
