/**
 The AnonCreds registration job: one resumable pass over schema, credential
 definition and revocation registry, with the backend as a script of replies.
 Every port method is called at most once per pass, so one reply each suffices.
 */
module RegistrationWorker {
  import opened Wrappers
  import SM = StateMapping
  import PI = PublicationIntents
  import opened ConnectorKinds

  type Id = nat

  const MAX_WAIT_CHECKS: nat := 20

  datatype RegistrationState = Unverified | Pending | Ready | Failed

  /** Recorded progress of one artifact; the empty string stands for an absent field. */
  datatype Progress = Progress(id: string, jobId: string, transactionId: string, state: Option<PI.SubmissionState>)

  datatype Registration = Registration(issuer: string, schema: Progress, definition: Progress)

  datatype SchemaDefinition = SchemaDefinition(
    name: string, schemaVersion: string, version: Option<string>, attributes: seq<string>)

  datatype Options = Options(tag: Option<string>, revocation: Option<bool>)

  /** What of the definition a registration never changes. */
  datatype Settings = Settings(
    tenant: Id,
    connector: Option<Id>,
    connectorType: ConnectorType,
    schema: SchemaDefinition,
    options: Options)

  function Tag(o: Options): string {
    if o.tag.Some? then o.tag.value else "default"
  }

  /** Revocation is on unless the options turn it off. */
  predicate Revocable(o: Options) {
    o.revocation.None? || o.revocation.value
  }

  datatype Definition = Definition(
    settings: Settings,
    active: bool,
    state: RegistrationState,
    registration: Option<Registration>,
    operation: Option<Id>,
    externalId: string)

  datatype Lookup = Found(id: string) | Absent | Unavailable

  /** One pass's worth of backend behaviour. */
  datatype Port = Port(
    resolves: bool,
    issuer: Option<string>,
    schemaResolves: bool,
    findSchema: Lookup,
    publishSchema: PI.Response,
    findDefinition: Lookup,
    publishDefinition: PI.Response,
    revocationReady: Option<bool>,
    deletedBeforeSchemaSave: bool,
    deletedBeforeDefinitionSave: bool)

  /**
   The tables a pass can change. The queue holds at most one waiting job per
   definition, here its check count; a running job is no longer waiting.
   */
  datatype Tables = Tables(
    row: Definition,
    operations: map<Id, SM.OperationState>,
    queued: Option<nat>)

  /** Sending a job for a definition that already has one waiting does nothing. */
  function Send(queued: Option<nat>, checks: nat): Option<nat> {
    if queued.Some? then queued else Some(checks)
  }

  /** Which publish calls a pass made. */
  datatype Sent = Sent(schema: bool, definition: bool)

  predicate Finished(p: Progress) {
    p.state == Some(PI.Finished) && p.id != ""
  }

  function ToProgress(s: PI.Submission): Progress {
    Progress(s.id, s.jobId, s.transactionId, Some(s.state))
  }

  /** An attempt that may still come through, so must not be repeated. */
  predicate HasSubmission(p: Progress) {
    p.state != Some(PI.Failed) && (p.id != "" || p.jobId != "" || p.transactionId != "" || p.state.Some?)
  }

  function SchemaKey(settings: Settings, connector: Id, issuer: string): PI.Key {
    PI.Key(settings.tenant, connector, PI.Schema(issuer, settings.schema.name, settings.schema.schemaVersion))
  }

  function DefinitionKey(settings: Settings, connector: Id, issuer: string, schemaId: string): PI.Key {
    PI.Key(settings.tenant, connector, PI.CredentialDefinition(issuer, schemaId, Tag(settings.options)))
  }

  // ------------------------------------------------------- what a pass does

  /** Everything a definition must have recorded by the time it is ready. */
  ghost predicate Registered(row: Definition) {
    && row.registration.Some?
    && Finished(row.registration.value.schema)
    && Finished(row.registration.value.definition)
    && row.externalId == row.registration.value.definition.id
  }

  /** A pass publishes only what has no attempt outstanding, and the definition only on a finished schema. */
  ghost predicate InStageOrder(before: Registration, after: Registration, sent: Sent) {
    && (sent.schema ==> !Finished(before.schema) && !HasSubmission(before.schema))
    && (sent.definition ==> Finished(after.schema) && !HasSubmission(before.definition))
    && (Finished(before.schema) ==> after.schema == before.schema)
    && after.issuer == before.issuer
  }

  /** The publish calls that the flags stand for, in the order they were made. */
  function Calls(settings: Settings, after: Registration, sent: Sent): seq<PI.Key> {
    if settings.connector.None? then []
    else
      (if sent.schema then [SchemaKey(settings, settings.connector.value, after.issuer)] else [])
      + (if sent.definition
         then [DefinitionKey(settings, settings.connector.value, after.issuer, after.schema.id)] else [])
  }

  /** One pass over a definition that is not pending leaves everything alone. */
  ghost predicate PassOutcome(before: Tables, after: Tables, checks: nat, port: Port, sent: Sent) {
    if before.row.state != Pending then after == before && sent == Sent(false, false)
    else
      && after.row.settings == before.row.settings
      && after.row.operation == before.row.operation
      && (after.row.active ==> before.row.active)
      && (before.row.registration.Some? <==> after.row.registration.Some?)
      && (if before.row.registration.None? then sent == Sent(false, false)
          else InStageOrder(before.row.registration.value, after.row.registration.value, sent))
      && match after.row.state
         case Ready =>
           && Registered(after.row)
           && (Revocable(after.row.settings.options) ==> port.revocationReady == Some(true))
           && after.row.operation.Some?
           && after.operations == before.operations[after.row.operation.value := SM.Completed]
           && after.queued == before.queued
         case Pending =>
           && checks < MAX_WAIT_CHECKS
           && after.row.operation.Some?
           && after.operations == before.operations[after.row.operation.value := SM.Processing]
           && after.queued == Send(before.queued, checks + 1)
         case Failed =>
           && after.queued == before.queued
           && (after.operations == before.operations
               || (after.row.operation.Some?
                   && after.operations == before.operations[after.row.operation.value := SM.OperationState.Failed]))
         case Unverified => false
  }

  // ------------------------------------------------- the pass's transactions

  /** Saving progress on an active row; None is the error thrown for an inactive one. */
  function Save(t: Tables, registration: Registration, externalId: string): Option<Tables> {
    if t.row.active then Some(t.(row := t.row.(registration := Some(registration), externalId := externalId))) else None
  }

  /** The operation state that goes with a registration state. */
  function OperationFor(state: RegistrationState): SM.OperationState {
    match state
    case Ready => SM.Completed
    case Failed => SM.OperationState.Failed
    case _ => SM.Processing
  }

  /** The final transaction of a pass; None is the error thrown when its operation is gone. */
  function Settle(t: Tables, operation: Id, checks: nat, registration: Registration, externalId: string,
                  state: RegistrationState): Option<Tables> {
    if operation !in t.operations then None
    else Some(Tables(
      t.row.(state := state, registration := Some(registration), externalId := externalId),
      t.operations[operation := OperationFor(state)],
      if state == Pending && checks < MAX_WAIT_CHECKS then Send(t.queued, checks + 1) else t.queued))
  }

  // ------------------------------------------------- where a pass ends up

  /** How far one artifact gets in a pass. */
  datatype Stage = Settled(id: string) | Waiting | Broken

  /** Reading the reply of a publish call that was allowed to go out. */
  function PublishStage(response: PI.Response, deleted: bool): Stage {
    match response
    case Throw(_) => Broken
    case Answer(s) =>
      if s.state == PI.Finished then (if s.id == "" || deleted then Broken else Settled(s.id))
      else if s.state == PI.Failed || deleted then Broken
      else Waiting
  }

  function SchemaStage(progress: Progress, port: Port, claimable: bool): Stage {
    if progress.state == Some(PI.Finished) then
      if progress.id != "" && port.schemaResolves then Settled(progress.id) else Broken
    else
      match port.findSchema
      case Unavailable => Broken
      case Found(id) =>
        if port.deletedBeforeSchemaSave then Broken else if id == "" then Waiting else Settled(id)
      case Absent =>
        if HasSubmission(progress) || !claimable then Waiting
        else PublishStage(port.publishSchema, port.deletedBeforeSchemaSave)
  }

  function DefinitionStage(progress: Progress, port: Port, claimable: bool): Stage {
    if port.findDefinition.Unavailable? then Broken
    else if port.findDefinition.Found? && port.findDefinition.id != "" then
      if port.deletedBeforeDefinitionSave then Broken else Settled(port.findDefinition.id)
    else if HasSubmission(progress) then
      if progress.state == Some(PI.Finished) && progress.id == "" then Broken else Waiting
    else if !claimable then Waiting
    else PublishStage(port.publishDefinition, port.deletedBeforeDefinitionSave)
  }

  /** Settled, waiting or broken, for the stages of a pass taken together. */
  function PassStage(row: Definition, connector: Id, registration: Registration, port: Port,
                     intents: map<PI.Key, PI.IntentState>): Stage {
    var schema := SchemaStage(registration.schema, port,
      PI.Claimable(intents, SchemaKey(row.settings, connector, registration.issuer)));
    if !schema.Settled? then schema
    else
      var definition := DefinitionStage(registration.definition, port,
        PI.Claimable(intents, DefinitionKey(row.settings, connector, registration.issuer, schema.id)));
      if !definition.Settled? || !Revocable(row.settings.options) then definition
      else match port.revocationReady
           case None => Broken
           case Some(ready) => if ready then definition else Waiting
  }

  /** The registration state a pass over a pending definition ends in. */
  function Verdict(t: Tables, checks: nat, port: Port, intents: map<PI.Key, PI.IntentState>): RegistrationState {
    var row := t.row;
    if row.registration.None? || row.operation.None? || row.operation.value !in t.operations
       || t.operations[row.operation.value] == SM.OperationState.Failed
       || !row.active || row.settings.connector.None? || !port.resolves
       || port.issuer != Some(row.registration.value.issuer)
    then Failed
    else
      match PassStage(row, row.settings.connector.value, row.registration.value, port, intents)
      case Settled(_) => Ready
      case Waiting => if checks < MAX_WAIT_CHECKS then Pending else Failed
      case Broken => Failed
  }

  /** The worker's in-memory copy of the row it is registering. */
  class Work {
    const checks: nat
    const operation: Id
    var registration: Registration
    var externalId: string
    var state: RegistrationState

    constructor (checks: nat, operation: Id, registration: Registration, externalId: string)
      ensures this.checks == checks && this.operation == operation && this.registration == registration
      ensures this.externalId == externalId && state == Pending
    {
      this.checks := checks;
      this.operation := operation;
      this.registration := registration;
      this.externalId := externalId;
      state := Pending;
    }
  }

  class Worker {
    var row: Definition
    var operations: map<Id, SM.OperationState>
    var queued: Option<nat>
    const intents: PI.IntentTable

    constructor (tables: Tables, intents: PI.IntentTable)
      ensures Now() == tables && this.intents == intents
    {
      row := tables.row;
      operations := tables.operations;
      queued := tables.queued;
      this.intents := intents;
    }

    function Now(): Tables
      reads this
    {
      Tables(row, operations, queued)
    }

    /** Guarded on the definition still being active; a concurrent delete makes it throw. */
    method SaveProgress(work: Work, deletedFirst: bool) returns (saved: bool)
      modifies this`row
      ensures var found := Tables(old(row).(active := old(row).active && !deletedFirst), operations, queued);
              Save(found, work.registration, work.externalId) == if saved then Some(Now()) else None
      ensures saved == row.active
      ensures row == old(row).(active := old(row).active && !deletedFirst,
                               registration := row.registration, externalId := row.externalId)
      ensures saved ==> row.registration == Some(work.registration) && row.externalId == work.externalId
      ensures !saved ==> row.registration == old(row).registration && row.externalId == old(row).externalId
    {
      if deletedFirst {
        row := row.(active := false);
      }
      if row.active {
        row := row.(registration := Some(work.registration), externalId := work.externalId);
      }
      saved := row.active;
    }

    /** Definition, operation and follow-up job in one transaction. */
    method PersistOutcome(work: Work, operationState: SM.OperationState, scheduleFollowUp: bool)
      modifies this`row, this`operations, this`queued
      ensures row == old(row).(state := work.state, registration := Some(work.registration),
                               externalId := work.externalId)
      ensures operations == old(operations)[work.operation := operationState]
      ensures queued == if scheduleFollowUp && work.checks < MAX_WAIT_CHECKS
                        then Send(old(queued), work.checks + 1) else old(queued)
    {
      row := row.(state := work.state);
      row := row.(registration := Some(work.registration));
      row := row.(externalId := work.externalId);
      operations := operations[work.operation := operationState];
      if scheduleFollowUp && work.checks < MAX_WAIT_CHECKS && queued.None? {
        queued := Some(work.checks + 1);
      }
    }

    method PersistFailure(work: Work)
      requires work.operation in operations
      modifies this`row, this`operations, this`queued, work`state
      ensures Some(Now()) == Settle(old(Now()), work.operation, work.checks, work.registration, work.externalId, Failed)
      ensures queued == old(queued)
    {
      work.state := Failed;
      PersistOutcome(work, SM.OperationState.Failed, false);
    }

    /** Polling is bounded: past the limit, waiting becomes failing. */
    method PersistWaiting(work: Work)
      requires work.operation in operations
      modifies this`row, this`operations, this`queued, work`state
      ensures Some(Now()) == Settle(old(Now()), work.operation, work.checks, work.registration, work.externalId,
                                    if work.checks >= MAX_WAIT_CHECKS then Failed else Pending)
      ensures queued.Some? && old(queued).None? ==>
                queued == Some(work.checks + 1) && work.checks + 1 <= MAX_WAIT_CHECKS
    {
      if work.checks >= MAX_WAIT_CHECKS {
        PersistFailure(work);
        return;
      }
      work.state := Pending;
      PersistOutcome(work, SM.Processing, true);
    }

    /** `Ok("")` means the schema is not there yet; `Err` is a thrown error. */
    method AdvanceSchema(work: Work, port: Port, connector: Id) returns (result: Result<string, ()>, sent: bool)
      requires row.settings.connector == Some(connector) && row.active
      modifies this, work`registration, intents
      ensures var stage := SchemaStage(old(work.registration.schema), port, PI.Claimable(old(intents.intents),
                SchemaKey(row.settings, connector, work.registration.issuer)));
              && (result.Err? <==> stage.Broken?)
              && (result.Ok? && result.value != "" <==> stage.Settled?)
              && (stage.Settled? ==> result == Ok(stage.id) && row.active)
      ensures forall k: PI.Key | k.artifact.CredentialDefinition? ::
                PI.Claimable(intents.intents, k) == PI.Claimable(old(intents.intents), k)
      ensures row.settings == old(row.settings) && row.operation == old(row.operation) && row.state == old(row.state)
      ensures row.active ==> old(row.active)
      ensures operations == old(operations) && queued == old(queued)
      ensures work.registration.definition == old(work.registration.definition)
      ensures result.Ok? && result.value != "" ==>
                Finished(work.registration.schema) && work.registration.schema.id == result.value
      ensures Finished(old(work.registration.schema)) ==> work.registration.schema == old(work.registration.schema)
      ensures work.registration.issuer == old(work.registration.issuer)
      ensures sent ==> !Finished(old(work.registration.schema)) && !HasSubmission(old(work.registration.schema))
      ensures intents.published == old(intents.published)
              + if sent then [SchemaKey(row.settings, connector, work.registration.issuer)] else []
    {
      sent := false;
      var progress := work.registration.schema;
      if progress.state == Some(PI.Finished) && progress.id == "" {
        return Err(()), sent;
      }
      if progress.state == Some(PI.Finished) {
        return if port.schemaResolves then Ok(progress.id) else Err(()), sent;
      }
      match port.findSchema {
        case Unavailable =>
          return Err(()), sent;
        case Found(id) =>
          work.registration := work.registration.(schema := progress.(id := id, state := Some(PI.Finished)));
          var saved := SaveProgress(work, port.deletedBeforeSchemaSave);
          return if saved then Ok(id) else Err(()), sent;
        case Absent =>
      }
      if HasSubmission(progress) {
        return Ok(""), sent;
      }
      var key := SchemaKey(row.settings, connector, work.registration.issuer);
      var published := intents.Publish(key, port.publishSchema);
      sent := published.Err? || published.value.Some?;
      if published.Err? {
        return Err(()), sent;
      }
      if published.value.None? {
        return Ok(""), sent;
      }
      var submitted := published.value.value;
      work.registration := work.registration.(schema := ToProgress(submitted));
      var saved := SaveProgress(work, port.deletedBeforeSchemaSave);
      if !saved || submitted.state == PI.Failed {
        return Err(()), sent;
      }
      if submitted.state != PI.Finished {
        return Ok(""), sent;
      }
      result := if submitted.id == "" then Err(()) else Ok(submitted.id);
    }

    /** `Ok(true)` when the definition is recorded as finished, `Ok(false)` to wait. */
    method AdvanceDefinition(work: Work, port: Port, connector: Id, schemaId: string)
      returns (result: Result<bool, ()>, sent: bool)
      requires row.settings.connector == Some(connector) && row.active
      requires Finished(work.registration.schema) && work.registration.schema.id == schemaId
      modifies this, work`registration, work`externalId, intents
      ensures var stage := DefinitionStage(old(work.registration.definition), port, PI.Claimable(old(intents.intents),
                DefinitionKey(row.settings, connector, work.registration.issuer, schemaId)));
              && (result == Ok(true) <==> stage.Settled?)
              && (result == Ok(false) <==> stage.Waiting?)
              && (stage.Settled? ==> work.externalId == stage.id)
      ensures row.settings == old(row.settings) && row.operation == old(row.operation) && row.state == old(row.state)
      ensures row.active ==> old(row.active)
      ensures operations == old(operations) && queued == old(queued)
      ensures work.registration.schema == old(work.registration.schema)
      ensures result == Ok(true) ==>
                Finished(work.registration.definition) && work.externalId == work.registration.definition.id
      ensures work.registration.issuer == old(work.registration.issuer)
      ensures sent ==> !HasSubmission(old(work.registration.definition))
      ensures intents.published == old(intents.published)
              + if sent then [DefinitionKey(row.settings, connector,
                                            work.registration.issuer, schemaId)] else []
    {
      sent := false;
      var progress := work.registration.definition;
      if port.findDefinition.Unavailable? {
        return Err(()), sent;
      }
      if port.findDefinition.Found? && port.findDefinition.id != "" {
        var found := port.findDefinition.id;
        work.externalId := found;
        work.registration := work.registration.(definition := progress.(id := found, state := Some(PI.Finished)));
        var saved := SaveProgress(work, port.deletedBeforeDefinitionSave);
        return if saved then Ok(true) else Err(()), sent;
      }
      if HasSubmission(progress) {
        return if progress.state == Some(PI.Finished) && progress.id == "" then Err(()) else Ok(false), sent;
      }
      var key := DefinitionKey(row.settings, connector, work.registration.issuer, schemaId);
      var published := intents.Publish(key, port.publishDefinition);
      sent := published.Err? || published.value.Some?;
      if published.Err? {
        return Err(()), sent;
      }
      if published.value.None? {
        return Ok(false), sent;
      }
      var submitted := published.value.value;
      work.registration := work.registration.(definition := ToProgress(submitted));
      if submitted.state == PI.Failed {
        var _ := SaveProgress(work, port.deletedBeforeDefinitionSave);
        return Err(()), sent;
      }
      if submitted.state != PI.Finished {
        var saved := SaveProgress(work, port.deletedBeforeDefinitionSave);
        return if saved then Ok(false) else Err(()), sent;
      }
      if submitted.id == "" {
        return Err(()), sent;
      }
      work.externalId := submitted.id;
      var saved := SaveProgress(work, port.deletedBeforeDefinitionSave);
      result := if saved then Ok(true) else Err(());
    }

    /** All stages of one pass, up to but not including its final transaction. */
    method RunStages(work: Work, port: Port, connector: Id) returns (stage: Stage, sent: Sent)
      requires row.settings.connector == Some(connector) && row.active
      modifies this, work`registration, work`externalId, intents
      ensures stage == PassStage(old(row), connector, old(work.registration), port, old(intents.intents))
      ensures row.settings == old(row.settings) && row.operation == old(row.operation) && row.state == old(row.state)
      ensures row.active ==> old(row.active)
      ensures operations == old(operations) && queued == old(queued)
      ensures InStageOrder(old(work.registration), work.registration, sent)
      ensures intents.published == old(intents.published) + Calls(row.settings, work.registration, sent)
      ensures stage.Settled? ==>
                && Finished(work.registration.schema) && Finished(work.registration.definition)
                && work.externalId == work.registration.definition.id == stage.id
                && (Revocable(row.settings.options) ==> port.revocationReady == Some(true))
    {
      sent := Sent(false, false);
      var schema, schemaSent := AdvanceSchema(work, port, connector);
      sent := sent.(schema := schemaSent);
      if schema.Err? {
        return Broken, sent;
      }
      if schema.value == "" {
        return Waiting, sent;
      }
      var definition, definitionSent := AdvanceDefinition(work, port, connector, schema.value);
      sent := sent.(definition := definitionSent);
      if definition.Err? {
        return Broken, sent;
      }
      if !definition.value {
        return Waiting, sent;
      }
      if Revocable(row.settings.options) {
        if port.revocationReady.None? {
          return Broken, sent;
        }
        if !port.revocationReady.value {
          return Waiting, sent;
        }
      }
      stage := Settled(work.externalId);
    }

    /** A pass past its preflight checks, with the transaction that settles it. */
    method Advance(work: Work, port: Port, connector: Id) returns (sent: Sent)
      requires row.settings.connector == Some(connector) && row.state == Pending && row.active
      requires work.operation in operations
      modifies this, work, intents
      ensures row.settings == old(row.settings) && row.operation == old(row.operation)
      ensures row.active ==> old(row.active)
      ensures InStageOrder(old(work.registration), work.registration, sent)
      ensures intents.published == old(intents.published) + Calls(row.settings, work.registration, sent)
      ensures row.registration == Some(work.registration) && row.externalId == work.externalId
      ensures row.state == match PassStage(old(row), connector, old(work.registration), port, old(intents.intents))
                           case Settled(_) => Ready
                           case Waiting => if work.checks < MAX_WAIT_CHECKS then Pending else Failed
                           case Broken => Failed
      ensures row.state == Ready ==>
                Registered(row) && (Revocable(row.settings.options) ==> port.revocationReady == Some(true))
      ensures operations == old(operations)[work.operation :=
                if row.state == Ready then SM.Completed
                else if row.state == Pending then SM.Processing else SM.OperationState.Failed]
      ensures queued == if row.state == Pending then Send(old(queued), work.checks + 1) else old(queued)
    {
      var stage;
      stage, sent := RunStages(work, port, connector);
      match stage {
        case Broken =>
          PersistFailure(work);
        case Waiting =>
          PersistWaiting(work);
        case Settled(_) =>
          work.state := Ready;
          PersistOutcome(work, SM.Completed, false);
      }
    }

    /** One job: the whole pass, with its failure handling. */
    method Process(checks: nat, port: Port) returns (sent: Sent)
      modifies this, intents
      ensures PassOutcome(old(Now()), Now(), checks, port, sent)
      ensures old(row.state) == Pending ==> row.state == Verdict(old(Now()), checks, port, old(intents.intents))
      ensures intents.published == old(intents.published)
              + if row.registration.Some? then Calls(row.settings, row.registration.value, sent) else []
    {
      sent := Sent(false, false);
      if row.state != Pending {
        return;
      }
      if row.registration.None? || row.operation.None?
         || row.operation.value !in operations || operations[row.operation.value] == SM.OperationState.Failed {
        row := row.(state := Failed);
        return;
      }
      var work := new Work(checks, row.operation.value, row.registration.value, row.externalId);
      if !row.active || row.settings.connector.None? || !port.resolves {
        PersistFailure(work);
        return;
      }
      operations := operations[work.operation := SM.Processing];
      if port.issuer != Some(work.registration.issuer) {
        PersistFailure(work);
        return;
      }
      sent := Advance(work, port, row.settings.connector.value);
    }
  }
}
