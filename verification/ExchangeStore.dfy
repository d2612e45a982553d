/**
 The credential_exchange and operation tables as one value, and every
 transaction that touches an exchange. Each function below is one committed
 transaction; the class at the end performs the same transactions statement by
 statement and is proved to agree with them.
 */
module ExchangeStore {
  import opened Wrappers
  import opened StateMapping
  import P = ExchangeProgress

  type Id = nat

  datatype Submission = NotSubmitted | Submitting | Submitted | Uncertain

  datatype Exchange = Exchange(
    tenant: Id,
    connector: Id,
    issuer: bool,
    state: P.State,
    externalId: Option<string>,
    submission: Submission,
    issueOperation: Option<Id>)

  /** An operation of type credential.issue. */
  datatype Operation = Operation(tenant: Id, exchange: Id, state: OperationState)

  /** What the webhook-dispatch queue is told. */
  datatype Notification = HolderRequested(exchange: Id) | IssueFailed(operation: Id)

  /** `nextOperation` bounds every operation id handed out so far: purged ids are never reused. */
  datatype Store = Store(
    exchanges: map<Id, Exchange>,
    operations: map<Id, Operation>,
    nextOperation: Id,
    outbox: seq<Notification>)

  datatype ClaimOutcome =
    | Claimed(operation: Id)
    | Retained(operation: Id)
    | AlreadyAttempted
    | NotRequested
    | NotFound

  datatype ReleaseOutcome = Reopened | Unchanged | OperationMissing

  datatype ObserveError = CorrelationChanged | DuplicateBackend

  // -------------------------------------------------------------- lookups

  /** `SELECT ... WHERE tenant_id AND id FOR UPDATE`. */
  predicate Owned(s: Store, tenant: Id, id: Id) {
    id in s.exchanges && s.exchanges[id].tenant == tenant
  }

  predicate BackendTaken(exchanges: map<Id, Exchange>, id: Id, row: Exchange, externalId: string) {
    exists j :: j in exchanges && j != id && exchanges[j].tenant == row.tenant
                && exchanges[j].connector == row.connector && exchanges[j].externalId == Some(externalId)
  }

  /** The operation a submitted exchange still names, unless it was purged. */
  function RetainedOperation(s: Store, id: Id): Option<Id>
    requires id in s.exchanges
  {
    var row := s.exchanges[id];
    if row.issueOperation.Some? && row.issueOperation.value in s.operations
       && s.operations[row.issueOperation.value].tenant == row.tenant
       && s.operations[row.issueOperation.value].exchange == id
    then row.issueOperation else None
  }

  // --------------------------------------------------------- transactions

  /** The claim: the row and a fresh processing operation change together, or nothing does. */
  function Claim(s: Store, tenant: Id, id: Id, remote: P.State): (Store, ClaimOutcome) {
    if !Owned(s, tenant, id) then (s, NotFound)
    else
      var row := s.exchanges[id];
      if row.submission != NotSubmitted then
        match RetainedOperation(s, id)
        case Some(operation) => (s, Retained(operation))
        case None => (s, AlreadyAttempted)
      else if row.state != P.RequestReceived || remote != P.RequestReceived then (s, NotRequested)
      else
        var operation := s.nextOperation;
        (s.(exchanges := s.exchanges[id := row.(submission := Submitting, issueOperation := Some(operation))],
            operations := s.operations[operation := Operation(tenant, id, Processing)],
            nextOperation := operation + 1),
         Claimed(operation))
  }

  /** The release after a definitive refusal: reopen, fail the operation, notify; all or nothing. */
  function Release(s: Store, tenant: Id, id: Id, operation: Id): (Store, ReleaseOutcome) {
    if !Owned(s, tenant, id) || s.exchanges[id].submission != Submitting
       || s.exchanges[id].issueOperation != Some(operation)
    then (s, Unchanged)
    else if operation !in s.operations then (s, OperationMissing)
    else if s.operations[operation].state != Processing then (s, Unchanged)
    else
      (s.(exchanges := s.exchanges[id := s.exchanges[id].(submission := NotSubmitted)],
          operations := s.operations[operation := s.operations[operation].(state := OperationState.Failed)],
          outbox := s.outbox + [IssueFailed(operation)]),
       Reopened)
  }

  /** `UPDATE ... SET issue_submission WHERE issue_submission = 'submitting'`. */
  function SetSubmission(s: Store, tenant: Id, id: Id, submission: Submission): Store {
    if Owned(s, tenant, id) && s.exchanges[id].submission == Submitting
    then s.(exchanges := s.exchanges[id := s.exchanges[id].(submission := submission)])
    else s
  }

  function Settled(row: Exchange): Exchange {
    if row.state in {P.CredentialIssued, P.CredentialReceived, P.Done} && row.submission != NotSubmitted
    then row.(submission := Submitted) else row
  }

  /** The row after an observation of its backend exchange; `seen` is None for an unknown state. */
  function Observed(row: Exchange, externalId: string, seen: Option<P.State>): Exchange {
    var bound := row.(externalId := Some(externalId));
    match seen
    case None => bound
    case Some(next) => Settled(bound.(state := P.Advance(row.state, next)))
  }

  /** Observing an exchange, with the holder-request notification its callers enqueue. */
  function Observe(s: Store, id: Id, externalId: string, seen: Option<P.State>): (r: Result<Store, ObserveError>)
    requires id in s.exchanges
  {
    var row := s.exchanges[id];
    if row.externalId.Some? && row.externalId.value != externalId then Err(CorrelationChanged)
    else if BackendTaken(s.exchanges, id, row, externalId) then Err(DuplicateBackend)
    else
      var after := Observed(row, externalId, seen);
      Ok(s.(exchanges := s.exchanges[id := after],
            outbox := if after.state != row.state && after.state == P.RequestReceived
                      then s.outbox + [HolderRequested(id)] else s.outbox))
  }

  /** The operation state an issue_credential delivery asks for; None drops the delivery. */
  function DeliveryTarget(seen: Option<P.State>): Option<OperationState> {
    match seen
    case None => None
    case Some(state) =>
      match state
      case Pending => None
      case Failed => None
      case CredentialIssued => Some(Completed)
      case Done => Some(Completed)
      case Abandoned => Some(OperationState.Failed)
      case _ => Some(Processing)
  }

  /** A guarded operation update: applies only from a state strictly below the target. */
  function TransitionIfForward(s: Store, operation: Id, target: OperationState): Store {
    if operation in s.operations && s.operations[operation].state in OperationStatesBelow(target)
    then s.(operations := s.operations[operation := s.operations[operation].(state := target)])
    else s
  }

  /**
   One protocol delivery: the exchange row it was correlated to, if any, and the
   issue operation it was correlated to, if any, change in one transaction.
   */
  function Deliver(s: Store, id: Option<Id>, externalId: string, seen: Option<P.State>, operation: Option<Id>): Store
    requires id.Some? ==> id.value in s.exchanges
  {
    match DeliveryTarget(seen)
    case None => s
    case Some(target) =>
      var observed := if id.None? then Ok(s) else Observe(s, id.value, externalId, seen);
      match observed
      case Err(_) => s
      case Ok(s') => if operation.None? then s' else TransitionIfForward(s', operation.value, target)
  }

  /** The offer transaction marking its exchange failed. */
  function MarkFailed(s: Store, tenant: Id, id: Id): Store {
    if Owned(s, tenant, id)
    then s.(exchanges := s.exchanges[id := s.exchanges[id].(state := P.Advance(s.exchanges[id].state, P.Failed))])
    else s
  }

  /** The hourly purge removing one expired operation row; the foreign key clears the exchange that names it. */
  function Purge(s: Store, operation: Id): Store {
    s.(operations := s.operations - {operation},
       exchanges := map id | id in s.exchanges ::
         if s.exchanges[id].issueOperation == Some(operation) then s.exchanges[id].(issueOperation := None)
         else s.exchanges[id])
  }

  /** An observation of a state this service does not know binds the row and moves nothing. */
  lemma UnknownStateMovesNothing(s: Store, id: Id, externalId: string, wire: string)
    requires id in s.exchanges && P.ParseWire(wire).None? && Observe(s, id, externalId, P.ParseWire(wire)).Ok?
    ensures var t := Observe(s, id, externalId, P.ParseWire(wire)).value;
            && t == s.(exchanges := t.exchanges)
            && t.exchanges == s.exchanges[id := s.exchanges[id].(externalId := Some(externalId))]
  {
  }

  // ------------------------------------------------------- statement form

  /** An accepted request comes back with a state, and with or without the correlation it should have. */
  datatype Reply = Accepted(state: P.State, correlated: bool) | Refused | Ambiguous

  datatype IssueResult =
    | Issued(operation: Id)
    | Existing(operation: Id)
    | Rejected(operation: Id)
    | Unknown(operation: Id)
    | Conflict
    | Missing

  /** The service's view of both tables, changed one statement at a time. */
  class Database {
    var exchanges: map<Id, Exchange>
    var operations: map<Id, Operation>
    var nextOperation: Id
    var outbox: seq<Notification>
    /** Backend issue requests sent so far, by exchange. */
    var sent: seq<Id>

    function Contents(): Store
      reads this
    {
      Store(exchanges, operations, nextOperation, outbox)
    }

    method ClaimIssue(tenant: Id, id: Id, remote: P.State) returns (outcome: ClaimOutcome)
      modifies this`exchanges, this`operations, this`nextOperation
      ensures (Contents(), outcome) == Claim(old(Contents()), tenant, id, remote)
    {
      if id !in exchanges || exchanges[id].tenant != tenant {
        return NotFound;
      }
      var locked := exchanges[id];
      if locked.submission != NotSubmitted {
        var existing := RetainedOperation(Contents(), id);
        return if existing.Some? then Retained(existing.value) else AlreadyAttempted;
      }
      if locked.state != P.RequestReceived || remote != P.RequestReceived {
        return NotRequested;
      }
      var operation := nextOperation;
      nextOperation := nextOperation + 1;
      operations := operations[operation := Operation(tenant, id, OperationState.Pending)];
      locked := locked.(submission := Submitting);
      locked := locked.(issueOperation := Some(operation));
      exchanges := exchanges[id := locked];
      if operations[operation].state in {OperationState.Pending} {
        operations := operations[operation := operations[operation].(state := Processing)];
      }
      assert operations == old(operations)[operation := Operation(tenant, id, Processing)];
      outcome := Claimed(operation);
    }

    method ReleaseIssue(tenant: Id, id: Id, operation: Id) returns (outcome: ReleaseOutcome)
      modifies this`exchanges, this`operations, this`outbox
      ensures (Contents(), outcome) == Release(old(Contents()), tenant, id, operation)
    {
      if id !in exchanges || exchanges[id].tenant != tenant {
        return Unchanged;
      }
      var locked := exchanges[id];
      if locked.submission != Submitting || locked.issueOperation != Some(operation) {
        return Unchanged;
      }
      if operation !in operations {
        return OperationMissing;
      }
      if operations[operation].state !in {Processing} {
        return Unchanged;
      }
      operations := operations[operation := operations[operation].(state := OperationState.Failed)];
      locked := locked.(submission := NotSubmitted);
      exchanges := exchanges[id := locked];
      outbox := outbox + [IssueFailed(operation)];
      outcome := Reopened;
    }

    method WriteSubmission(tenant: Id, id: Id, submission: Submission)
      modifies this`exchanges
      ensures Contents() == SetSubmission(old(Contents()), tenant, id, submission)
    {
      if id in exchanges && exchanges[id].tenant == tenant && exchanges[id].submission == Submitting {
        exchanges := exchanges[id := exchanges[id].(submission := submission)];
      }
    }

    method ObserveExchange(id: Id, externalId: string, seen: Option<P.State>) returns (error: Option<ObserveError>)
      requires id in exchanges
      modifies this`exchanges, this`outbox
      ensures error.None? <==> Observe(old(Contents()), id, externalId, seen).Ok?
      ensures Contents() == match Observe(old(Contents()), id, externalId, seen)
                            case Ok(s) => s
                            case Err(_) => old(Contents())
    {
      var row := exchanges[id];
      if row.externalId.Some? && row.externalId.value != externalId {
        return Some(CorrelationChanged);
      }
      if BackendTaken(exchanges, id, row, externalId) {
        return Some(DuplicateBackend);
      }
      var from := row.state;
      row := row.(externalId := Some(externalId));
      if seen.Some? {
        if P.Accepts(row.state, seen.value) {
          row := row.(state := seen.value);
        }
        if row.state in {P.CredentialIssued, P.CredentialReceived, P.Done} && row.submission != NotSubmitted {
          row := row.(submission := Submitted);
        }
      }
      exchanges := exchanges[id := row];
      if row.state != from && row.state == P.RequestReceived {
        outbox := outbox + [HolderRequested(id)];
      }
      error := None;
    }

    /** The repository entry point: the backend's spelling of the state is read first. */
    method ObserveWire(id: Id, externalId: string, wire: string) returns (error: Option<ObserveError>)
      requires id in exchanges
      modifies this`exchanges, this`outbox
      ensures error.None? <==> Observe(old(Contents()), id, externalId, P.ParseWire(wire)).Ok?
      ensures error.None? ==> Contents() == Observe(old(Contents()), id, externalId, P.ParseWire(wire)).value
      ensures error.Some? ==> Contents() == old(Contents())
    {
      var seen := P.ParseWire(wire);
      error := ObserveExchange(id, externalId, seen);
    }

    /** One protocol delivery; reports an observation error, which aborts the transaction. */
    method ApplyDelivery(id: Id, externalId: string, seen: Option<P.State>, operation: Option<Id>)
      returns (error: Option<ObserveError>)
      requires id in exchanges
      modifies this`exchanges, this`operations, this`outbox
      ensures Contents() == Deliver(old(Contents()), Some(id), externalId, seen, operation)
      ensures error.Some? <==> DeliveryTarget(seen).Some? && Observe(old(Contents()), id, externalId, seen).Err?
    {
      var target := DeliveryTarget(seen);
      if target.None? {
        return None;
      }
      error := ObserveExchange(id, externalId, seen);
      if error.None? && operation.Some? && operation.value in operations {
        if operations[operation.value].state in OperationStatesBelow(target.value) {
          operations := operations[operation.value := operations[operation.value].(state := target.value)];
        }
      }
    }

    /** Sends the one request a claim allows and records what came back. */
    method SubmitClaimed(tenant: Id, id: Id, externalId: string, operation: Id, reply: Reply)
      returns (result: IssueResult)
      requires Owned(Contents(), tenant, id) && operation in operations
      requires exchanges[id].submission == Submitting && exchanges[id].issueOperation == Some(operation)
      requires operations[operation].state == Processing
      modifies this
      ensures sent == old(sent) + [id] && id in exchanges && operation in operations
      ensures exchanges[id].issueOperation == Some(operation) && nextOperation == old(nextOperation)
      ensures match reply {
                case Accepted(_, correlated) =>
                  && (result == IssueResult.Issued(operation) || result == Unknown(operation))
                  && (!correlated ==> result == Unknown(operation))
                  && exchanges[id].submission == if correlated then Submitted else Uncertain
                case Ambiguous => result == Unknown(operation) && exchanges[id].submission == Uncertain
                case Refused =>
                  && result == Rejected(operation) && exchanges[id].submission == NotSubmitted
                  && operations[operation].state == OperationState.Failed
                  && outbox == old(outbox) + [IssueFailed(operation)]
              }
    {
      sent := sent + [id];
      match reply {
        case Accepted(state, correlated) =>
          if !correlated {
            WriteSubmission(tenant, id, Uncertain);
            return Unknown(operation);
          }
          WriteSubmission(tenant, id, Submitted);
          var error := ApplyDelivery(id, externalId, Some(state), Some(operation));
          if error.Some? {
            WriteSubmission(tenant, id, Uncertain);
            return Unknown(operation);
          }
          result := IssueResult.Issued(operation);
        case Refused =>
          var _ := ReleaseIssue(tenant, id, operation);
          result := Rejected(operation);
        case Ambiguous =>
          WriteSubmission(tenant, id, Uncertain);
          result := Unknown(operation);
      }
    }

    /**
     The whole issue call when nobody else writes in between: exactly which
     calls reach the backend, and what each backend reply leaves behind.
     */
    method Issue(tenant: Id, id: Id, remote: P.State, correlated: bool, reply: Reply) returns (result: IssueResult)
      modifies this
      ensures sent == if old(Issuable(Contents(), tenant, id, remote, correlated))
                      then old(sent) + [id] else old(sent)
      ensures result.Missing? <==> !old(Owned(Contents(), tenant, id))
      ensures result.Missing? || result.Existing? ==> Contents() == old(Contents())
      ensures result.Existing? <==>
                old(Owned(Contents(), tenant, id) && exchanges[id].issuer && exchanges[id].submission != NotSubmitted
                    && RetainedOperation(Contents(), id).Some?)
      ensures result.Existing? ==> id in exchanges && Some(result.operation) == exchanges[id].issueOperation
      ensures result.Conflict? ==>
                id in exchanges && exchanges[id].submission == old(exchanges[id].submission)
                && exchanges[id].issueOperation == old(exchanges[id].issueOperation)
      ensures old(Issuable(Contents(), tenant, id, remote, correlated)) ==>
                && id in exchanges && exchanges[id].issueOperation == Some(old(nextOperation))
                && old(nextOperation) in operations
                && match reply {
                     case Accepted(_, asExpected) =>
                       exchanges[id].submission == if asExpected then Submitted else Uncertain
                     case Ambiguous => result == Unknown(old(nextOperation)) && exchanges[id].submission == Uncertain
                     case Refused =>
                       && result == Rejected(old(nextOperation)) && exchanges[id].submission == NotSubmitted
                       && operations[old(nextOperation)].state == OperationState.Failed
                       && |outbox| > 0 && outbox[|outbox| - 1] == IssueFailed(old(nextOperation))
                   }
    {
      if id !in exchanges || exchanges[id].tenant != tenant {
        return Missing;
      }
      var exchange := exchanges[id];
      if !exchange.issuer {
        return Conflict;
      }
      if exchange.submission != NotSubmitted {
        var existing := RetainedOperation(Contents(), id);
        return if existing.Some? then Existing(existing.value) else Conflict;
      }
      if exchange.externalId.None? || !correlated {
        return Conflict;
      }
      var externalId := exchange.externalId.value;
      var error := ApplyDelivery(id, externalId, Some(remote), None);
      if error.Some? {
        return Conflict;
      }
      var claim := ClaimIssue(tenant, id, remote);
      if !claim.Claimed? {
        return Conflict;
      }
      result := SubmitClaimed(tenant, id, externalId, claim.operation, reply);
    }
  }

  /**
   The calls that reach the backend: an issuer's own exchange, correlated, never
   submitted, for which both sides stand at the holder's request.
   */
  predicate Issuable(s: Store, tenant: Id, id: Id, remote: P.State, correlated: bool) {
    && Owned(s, tenant, id)
    && var row := s.exchanges[id];
    && row.issuer && correlated && row.submission == NotSubmitted && row.externalId.Some?
    && !BackendTaken(s.exchanges, id, row, row.externalId.value)
    && remote == P.RequestReceived
    && P.Advance(row.state, P.RequestReceived) == P.RequestReceived
  }
}
