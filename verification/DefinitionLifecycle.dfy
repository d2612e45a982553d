/**
 The service's own transactions on one AnonCreds credential definition: edits and
 create replays, and what they may never undo.
 */
module DefinitionLifecycle {
  import opened Wrappers
  import SM = StateMapping
  import RW = RegistrationWorker
  import opened ConnectorKinds

  type Id = nat

  datatype Status = Draft | Published | Deprecated

  function StatusRank(s: Status): nat {
    match s
    case Draft => 0
    case Published => 1
    case Deprecated => 2
  }

  /** The row with the tables a registration touches; `nextOperation` exceeds every id handed out. */
  datatype Record = Record(
    status: Status,
    name: string,
    version: string,
    metadata: string,
    nextOperation: Id,
    tables: RW.Tables)

  datatype EditRequest = EditRequest(
    name: Option<string>,
    schema: Option<Option<RW.SchemaDefinition>>,
    connector: Option<Id>,
    metadata: Option<string>,
    status: Option<Status>)

  /** What the other tables say during an edit. */
  datatype EditContext = EditContext(nameTaken: bool, connector: Option<Id>, connectorType: Option<ConnectorType>)

  datatype EditError =
    | NotFound | BackToDraft | PublishByRegistration | OnlyDraftsEditable | NameTaken | BadSchema | BadConnector

  datatype CreateRequest = CreateRequest(
    schemaId: Option<string>,
    connector: Option<Id>,
    connectorType: ConnectorType,
    schema: RW.SchemaDefinition,
    options: RW.Options,
    registration: Option<RW.Registration>)

  datatype ReplayError = ReplayUnavailable | SettingsDiffer | NotContinuable

  predicate Blank(s: string) {
    forall c | c in s :: c in " \t\n\r"
  }

  // -------------------------------------------------------------- editing

  function EditStatus(r: Record, dto: EditRequest): Option<EditError> {
    if dto.status == Some(Draft) && r.status != Draft then Some(BackToDraft)
    else if dto.status == Some(Published) && r.status != Published then Some(PublishByRegistration)
    else if (dto.schema.Some? || dto.connector.Some?) && r.status != Draft then Some(OnlyDraftsEditable)
    else None
  }

  function WithSchema(r: Record, schema: RW.SchemaDefinition): Record {
    var settings := r.tables.row.settings.(schema := schema);
    r.(tables := r.tables.(row := r.tables.row.(settings := settings)),
       version := if schema.version.Some? && !Blank(schema.version.value) then schema.version.value else r.version)
  }

  function WithConnector(r: Record, connector: Id, connectorType: ConnectorType): Record {
    var settings := r.tables.row.settings.(connector := Some(connector), connectorType := connectorType);
    r.(tables := r.tables.(row := r.tables.row.(settings := settings)))
  }

  /** The locked update: every field of the request applied, or none. */
  function Edit(r: Record, dto: EditRequest, ctx: EditContext): Result<Record, EditError> {
    if !r.tables.row.active then Err(NotFound)
    else if EditStatus(r, dto).Some? then Err(EditStatus(r, dto).value)
    else if dto.name.Some? && dto.name.value != r.name && ctx.nameTaken then Err(NameTaken)
    else if dto.schema == Some(None) then Err(BadSchema)
    else if dto.connector.Some? && (ctx.connector != dto.connector || ctx.connectorType.None?) then Err(BadConnector)
    else
      var named := if dto.name.Some? then r.(name := dto.name.value) else r;
      var shaped := if dto.schema.Some? then WithSchema(named, dto.schema.value.value) else named;
      var bound :=
        if dto.connector.Some? then WithConnector(shaped, dto.connector.value, ctx.connectorType.value) else shaped;
      var noted := if dto.metadata.Some? then bound.(metadata := dto.metadata.value) else bound;
      Ok(if dto.status.Some? then noted.(status := dto.status.value) else noted)
  }

  // -------------------------------------------------------- create replay

  predicate IsLocalDraft(r: Record) {
    r.tables.row.active && r.status == Draft && r.tables.row.state == RW.Unverified
  }

  function Issuer(registration: Option<RW.Registration>): Option<string> {
    if registration.Some? then Some(registration.value.issuer) else None
  }

  function SchemaId(registration: Option<RW.Registration>): Option<string> {
    if registration.Some? then Some(registration.value.schema.id) else None
  }

  predicate SettingsMatch(r: Record, dto: CreateRequest) {
    var row := r.tables.row;
    && row.settings.connector == dto.connector
    && row.settings.connectorType == dto.connectorType
    && row.settings.schema == dto.schema
    && (dto.schemaId.None? || SchemaId(row.registration) == SchemaId(dto.registration))
    && row.settings.options == dto.options
    && (IsLocalDraft(r) || Issuer(row.registration) == Issuer(dto.registration))
  }

  /** Opens a fresh operation and job for a definition that is to be registered (again). */
  function Start(r: Record, status: Status, registration: Option<RW.Registration>): Record {
    var t := r.tables;
    r.(status := status,
       nextOperation := r.nextOperation + 1,
       tables := t.(row := t.row.(active := true, state := RW.Pending, operation := Some(r.nextOperation),
                                  registration := registration),
                    operations := t.operations[r.nextOperation := SM.OperationState.Pending],
                    queued := RW.Send(t.queued, 0)))
  }

  function CurrentOperation(r: Record): Option<SM.OperationState> {
    var row := r.tables.row;
    if row.operation.Some? && row.operation.value in r.tables.operations
    then Some(r.tables.operations[row.operation.value]) else None
  }

  /** A create request for a name that already has a definition. */
  function Replay(r: Record, dto: CreateRequest): Result<Record, ReplayError> {
    var row := r.tables.row;
    if !row.active && row.state != RW.RegistrationState.Failed then Err(ReplayUnavailable)
    else if !SettingsMatch(r, dto) then Err(SettingsDiffer)
    else if IsLocalDraft(r) then Ok(Start(r, Published, dto.registration))
    else if row.state == RW.RegistrationState.Failed then Ok(Start(r, r.status, row.registration))
    else if row.state == RW.Pending then
      if CurrentOperation(r) in {None, Some(SM.OperationState.Failed)} then Err(ReplayUnavailable)
      else Ok(r.(tables := r.tables.(queued := RW.Send(r.tables.queued, 0))))
    else if row.state == RW.Ready then
      if CurrentOperation(r) == Some(SM.Completed) then Ok(r) else Err(ReplayUnavailable)
    else Err(NotContinuable)
  }

  // ------------------------------------------------------- statement form

  /** The stored record, changed the way the service changes it. */
  class DefinitionRow {
    var record: Record

    /** The callback works on the loaded entity; nothing is saved when it throws. */
    method Update(dto: EditRequest, ctx: EditContext) returns (error: Option<EditError>)
      modifies this
      ensures match Edit(old(record), dto, ctx)
              case Ok(r) => error.None? && record == r
              case Err(e) => error == Some(e) && record == old(record)
    {
      if !record.tables.row.active {
        return Some(NotFound);
      }
      var definition := record;
      if dto.status == Some(Draft) && definition.status != Draft {
        return Some(BackToDraft);
      }
      if dto.status == Some(Published) && definition.status != Published {
        return Some(PublishByRegistration);
      }
      var changesSchema := dto.schema.Some? || dto.connector.Some?;
      if changesSchema && definition.status != Draft {
        return Some(OnlyDraftsEditable);
      }
      if dto.name.Some? && dto.name.value != definition.name {
        if ctx.nameTaken {
          return Some(NameTaken);
        }
      }
      if dto.name.Some? {
        definition := definition.(name := dto.name.value);
      }
      if dto.schema.Some? {
        if dto.schema.value.None? {
          return Some(BadSchema);
        }
        var schema := dto.schema.value.value;
        var row := definition.tables.row;
        var shaped := row.(settings := row.settings.(schema := schema));
        definition := definition.(tables := definition.tables.(row := shaped));
        if schema.version.Some? && !Blank(schema.version.value) {
          definition := definition.(version := schema.version.value);
        }
      }
      if dto.connector.Some? {
        if ctx.connector != dto.connector || ctx.connectorType.None? {
          return Some(BadConnector);
        }
        definition := WithConnector(definition, dto.connector.value, ctx.connectorType.value);
      }
      if dto.metadata.Some? {
        definition := definition.(metadata := dto.metadata.value);
      }
      if dto.status.Some? {
        definition := definition.(status := dto.status.value);
      }
      record := definition;
      error := None;
    }

    method StartExistingRegistration(status: Status, registration: Option<RW.Registration>)
      modifies this
      ensures record == Start(old(record), status, registration)
    {
      var operation := record.nextOperation;
      var tables := record.tables;
      tables := tables.(operations := tables.operations[operation := SM.OperationState.Pending]);
      var row := tables.row.(registration := registration, active := true);
      row := row.(state := RW.Pending, operation := Some(operation));
      tables := tables.(row := row, queued := RW.Send(tables.queued, 0));
      record := record.(status := status, tables := tables, nextOperation := operation + 1);
    }

    method ContinueExisting(dto: CreateRequest) returns (error: Option<ReplayError>)
      modifies this
      ensures match Replay(old(record), dto)
              case Ok(r) => error.None? && record == r
              case Err(e) => error == Some(e) && record == old(record)
    {
      var row := record.tables.row;
      if !row.active && row.state == RW.Ready {
        return Some(ReplayUnavailable);
      }
      if !row.active && row.state != RW.RegistrationState.Failed {
        return Some(ReplayUnavailable);
      }
      var isLocalDraft := row.active && record.status == Draft && row.state == RW.Unverified;
      if row.settings.connector != dto.connector || row.settings.connectorType != dto.connectorType
         || row.settings.schema != dto.schema
         || (dto.schemaId.Some? && SchemaId(row.registration) != SchemaId(dto.registration))
         || row.settings.options != dto.options
         || (!isLocalDraft && Issuer(row.registration) != Issuer(dto.registration)) {
        return Some(SettingsDiffer);
      }
      if isLocalDraft {
        StartExistingRegistration(Published, dto.registration);
        return None;
      }
      if row.state == RW.RegistrationState.Failed {
        StartExistingRegistration(record.status, row.registration);
        return None;
      }
      var operation := CurrentOperation(record);
      if row.state == RW.Pending {
        if !row.active || operation.None? || operation.value == SM.OperationState.Failed {
          return Some(ReplayUnavailable);
        }
        record := record.(tables := record.tables.(queued := RW.Send(record.tables.queued, 0)));
        return None;
      }
      if row.state == RW.Ready {
        return if !row.active || operation != Some(SM.Completed) then Some(ReplayUnavailable) else None;
      }
      error := Some(NotContinuable);
    }
  }

  // ------------------------------------------------------------- lifecycle

  /** What one step may never undo. */
  ghost predicate Onward(a: Record, b: Record) {
    && StatusRank(a.status) <= StatusRank(b.status)
    && (a.status != Draft ==> b.tables.row.settings == a.tables.row.settings)
    && (a.status != Draft && a.tables.row.registration.Some? && RW.Finished(a.tables.row.registration.value.schema) ==>
          b.tables.row.registration.Some?
          && b.tables.row.registration.value.schema == a.tables.row.registration.value.schema)
    && (a.tables.row.state == RW.Ready && a.status != Draft ==>
          b.tables.row.state == RW.Ready && b.tables.row.externalId == a.tables.row.externalId
          && b.tables.row.registration == a.tables.row.registration)
  }

  /** Ready definitions are fully registered; drafts are never registered. */
  ghost predicate Sound(r: Record) {
    && (r.tables.row.state == RW.Ready ==> RW.Registered(r.tables.row))
    && (r.status == Draft ==> r.tables.row.state == RW.Unverified)
  }

  lemma EditIsOnward(a: Record, dto: EditRequest, ctx: EditContext)
    requires Sound(a) && Edit(a, dto, ctx).Ok?
    ensures Onward(a, Edit(a, dto, ctx).value) && Sound(Edit(a, dto, ctx).value)
  {
  }

  lemma ReplayIsOnward(a: Record, dto: CreateRequest)
    requires Sound(a) && Replay(a, dto).Ok?
    ensures Onward(a, Replay(a, dto).value) && Sound(Replay(a, dto).value)
  {
  }

  lemma OnwardIsTransitive(a: Record, b: Record, c: Record)
    requires Onward(a, b) && Onward(b, c)
    ensures Onward(a, c)
  {
  }
}
