/**
 The claim / submit / settle protocol of issuance as a state machine. A world is
 both tables, every issue call in progress, and every request ever sent to a
 backend. A step is one transaction, one network event or one crash, so a list
 of steps is an arbitrary interleaving of any number of callers.
 */
module IssueProtocol {
  import opened Wrappers
  import opened StateMapping
  import P = ExchangeProgress
  import opened ExchangeStore

  datatype Backend = Backend(tenant: Id, connector: Id, externalId: string)

  /** One issue call, by how far it got. Calls that returned, threw or crashed are gone. */
  datatype Caller =
    | Ready(tenant: Id, exchange: Id, externalId: string, remote: P.State)
    | Holding(tenant: Id, exchange: Id, externalId: string, operation: Id)
    | Waiting(tenant: Id, exchange: Id, externalId: string, operation: Id, request: nat)
    | Declined(tenant: Id, exchange: Id, externalId: string, operation: Id, request: nat)
    | Answered(tenant: Id, exchange: Id, externalId: string, operation: Id, request: nat)
    | Recorded(tenant: Id, exchange: Id, externalId: string, operation: Id, request: nat)
    | Doubtful(tenant: Id, exchange: Id, externalId: string, operation: Id, request: nat)

  /** `refused` is set only by a definitive refusal; otherwise the request may have taken effect. */
  datatype Request = Request(exchange: Id, backend: Backend, refused: bool)

  datatype World = World(store: Store, callers: map<Id, Caller>, requests: seq<Request>)

  datatype BackendReply = Refusal | Acceptance | Lost

  datatype Step =
    | Open(id: Id, tenant: Id, connector: Id, issuer: bool)
    | Begin(caller: Id, tenant: Id, id: Id, remote: P.State)
    | Commit(caller: Id)
    | Send(caller: Id)
    | Hear(caller: Id, reply: BackendReply)
    | Settle(caller: Id, healthy: bool)
    | Crash(caller: Id)
    | Delivery(row: Option<Id>, externalId: string, seen: Option<P.State>, operation: Option<Id>)
    | OfferResult(id: Id, externalId: string, seen: Option<P.State>)
    | OfferFailed(tenant: Id, id: Id)
    | PurgeOperation(expired: Id)

  function Init(): World {
    World(Store(map[], map[], 0, []), map[], [])
  }

  function Finish(w: World, caller: Id): World {
    w.(callers := w.callers - {caller})
  }

  /** What a caller that has heard from the backend does next. */
  function SettleCaller(w: World, caller: Id, healthy: bool): World
    requires caller in w.callers
  {
    match w.callers[caller]
    case Declined(tenant, id, _, operation, _) =>
      Finish(w.(store := Release(w.store, tenant, id, operation).0), caller)
    case Answered(tenant, id, externalId, operation, request) =>
      if healthy then
        w.(store := SetSubmission(w.store, tenant, id, Submitted),
           callers := w.callers[caller := Recorded(tenant, id, externalId, operation, request)])
      else w.(callers := w.callers[caller := Doubtful(tenant, id, externalId, operation, request)])
    case Recorded(tenant, id, externalId, operation, request) =>
      if healthy then Finish(w, caller)
      else w.(callers := w.callers[caller := Doubtful(tenant, id, externalId, operation, request)])
    case Doubtful(tenant, id, _, _, _) =>
      Finish(w.(store := SetSubmission(w.store, tenant, id, Uncertain)), caller)
    case _ => w
  }

  /** One step; a step that is not possible in `w` changes nothing. */
  function Next(w: World, step: Step): World {
    match step
    case Open(id, tenant, connector, issuer) =>
      if id in w.store.exchanges then w
      else w.(store := w.store.(exchanges := w.store.exchanges[
          id := Exchange(tenant, connector, issuer, P.Pending, None, NotSubmitted, None)]))
    case Begin(caller, tenant, id, remote) =>
      if caller in w.callers || !Owned(w.store, tenant, id) then w
      else
        var row := w.store.exchanges[id];
        if !row.issuer || row.submission != NotSubmitted || row.externalId.None? then w
        else w.(callers := w.callers[caller := Ready(tenant, id, row.externalId.value, remote)])
    case Commit(caller) =>
      if caller in w.callers && w.callers[caller].Ready? then
        var Ready(tenant, id, externalId, remote) := w.callers[caller];
        var (store, outcome) := Claim(w.store, tenant, id, remote);
        if outcome.Claimed?
        then w.(store := store, callers := w.callers[caller := Holding(tenant, id, externalId, outcome.operation)])
        else Finish(w, caller)
      else w
    case Send(caller) =>
      if caller in w.callers && w.callers[caller].Holding? && w.callers[caller].exchange in w.store.exchanges then
        var Holding(tenant, id, externalId, operation) := w.callers[caller];
        var backend := Backend(tenant, w.store.exchanges[id].connector, externalId);
        w.(callers := w.callers[caller := Waiting(tenant, id, externalId, operation, |w.requests|)],
           requests := w.requests + [Request(id, backend, false)])
      else w
    case Hear(caller, reply) =>
      if caller in w.callers && w.callers[caller].Waiting? && w.callers[caller].request < |w.requests| then
        var Waiting(tenant, id, externalId, operation, k) := w.callers[caller];
        (match reply
        case Refusal =>
          w.(callers := w.callers[caller := Declined(tenant, id, externalId, operation, k)],
             requests := w.requests[k := w.requests[k].(refused := true)])
        case Acceptance => w.(callers := w.callers[caller := Answered(tenant, id, externalId, operation, k)])
        case Lost => w.(callers := w.callers[caller := Doubtful(tenant, id, externalId, operation, k)]))
      else w
    case Settle(caller, healthy) => if caller in w.callers then SettleCaller(w, caller, healthy) else w
    case Crash(caller) => Finish(w, caller)
    case Delivery(row, externalId, seen, operation) =>
      if row.Some? && row.value !in w.store.exchanges then w
      else w.(store := Deliver(w.store, row, externalId, seen, operation))
    case OfferResult(id, externalId, seen) =>
      if id !in w.store.exchanges then w
      else
        var observed := Observe(w.store, id, externalId, seen);
        if observed.Ok? then w.(store := observed.value) else w
    case OfferFailed(tenant, id) => w.(store := MarkFailed(w.store, tenant, id))
    case PurgeOperation(operation) => w.(store := Purge(w.store, operation))
  }

  function Run(w: World, steps: seq<Step>): World
    decreases |steps|
  {
    if steps == [] then w else Run(Next(w, steps[0]), steps[1..])
  }

  // ------------------------------------------------------------ invariant

  /** Every request for `id`, the k-th one aside, was definitively refused. */
  ghost predicate OthersRefused(requests: seq<Request>, id: Id, k: int) {
    forall i | 0 <= i < |requests| && i != k && requests[i].exchange == id :: requests[i].refused
  }

  ghost predicate CallerOk(w: World, c: Caller) {
    && c.exchange in w.store.exchanges
    && var row := w.store.exchanges[c.exchange];
    && row.tenant == c.tenant
    && row.externalId == Some(c.externalId)
    && (!c.Ready? ==> row.submission != NotSubmitted && row.issueOperation in {None, Some(c.operation)})
    && (c.Holding? || c.Declined? ==> OthersRefused(w.requests, c.exchange, -1))
    && (c.Waiting? || c.Answered? || c.Recorded? || c.Doubtful? ==>
          c.request < |w.requests| && w.requests[c.request].exchange == c.exchange
          && OthersRefused(w.requests, c.exchange, c.request))
  }

  ghost predicate CallersOk(w: World) {
    && (forall c | c in w.callers :: CallerOk(w, w.callers[c]))
    && (forall c, d | c in w.callers && d in w.callers && Rivals(w.callers[c], w.callers[d]) :: c == d)
  }

  /** Two calls that both hold a claim on the same exchange. */
  predicate Rivals(c: Caller, d: Caller) {
    !c.Ready? && !d.Ready? && c.exchange == d.exchange
  }

  ghost predicate RowsOk(w: World) {
    forall id | id in w.store.exchanges :: RowOk(w, id, w.store.exchanges[id])
  }

  ghost predicate RowOk(w: World, id: Id, row: Exchange) {
    && (row.submission == NotSubmitted ==> OthersRefused(w.requests, id, -1))
    && (row.issueOperation.Some? ==> row.issueOperation.value < w.store.nextOperation)
  }

  ghost predicate RequestsOk(w: World) {
    && (forall i | 0 <= i < |w.requests| :: RequestOk(w.store, w.requests[i]))
    && (forall i, j | 0 <= i < j < |w.requests| && w.requests[i].exchange == w.requests[j].exchange
          :: w.requests[i].refused)
  }

  ghost predicate RequestOk(s: Store, r: Request) {
    && r.exchange in s.exchanges
    && var row := s.exchanges[r.exchange];
    r.backend.tenant == row.tenant && r.backend.connector == row.connector
    && row.externalId == Some(r.backend.externalId)
  }

  ghost predicate ProtocolOk(w: World) {
    CallersOk(w) && RowsOk(w) && RequestsOk(w)
  }

  /** Two exchanges never share a backend exchange. */
  ghost predicate BackendsUnique(s: Store) {
    forall i, j | i in s.exchanges && j in s.exchanges && SameBackend(s.exchanges[i], s.exchanges[j]) :: i == j
  }

  predicate SameBackend(a: Exchange, b: Exchange) {
    a.externalId.Some? && a.tenant == b.tenant && a.connector == b.connector && a.externalId == b.externalId
  }

  /** Every operation but the one a closed exchange names is failed. */
  ghost predicate OperationsOk(s: Store) {
    forall o | o in s.operations :: OperationOk(s, o, s.operations[o])
  }

  ghost predicate OperationOk(s: Store, o: Id, operation: Operation) {
    && o < s.nextOperation
    && operation.exchange in s.exchanges
    && var row := s.exchanges[operation.exchange];
    row.submission == NotSubmitted || row.issueOperation != Some(o) ==> operation.state == OperationState.Failed
  }

  function Occurrences(outbox: seq<Notification>, n: Notification): nat {
    multiset(outbox)[n]
  }

  /** Each failure is announced once, and only for an operation that failed. */
  ghost predicate FailuresOk(s: Store) {
    forall o: Id {:trigger Occurrences(s.outbox, IssueFailed(o))} ::
      && Occurrences(s.outbox, IssueFailed(o)) <= 1
      && (Occurrences(s.outbox, IssueFailed(o)) > 0 ==>
            o < s.nextOperation && (o in s.operations ==> s.operations[o].state == OperationState.Failed))
  }

  /** Each holder request is announced once, exactly for the exchanges that got there. */
  ghost predicate RequestedOk(s: Store) {
    forall id: Id {:trigger Occurrences(s.outbox, HolderRequested(id))} ::
      && Occurrences(s.outbox, HolderRequested(id)) <= 1
      && (Occurrences(s.outbox, HolderRequested(id)) > 0 ==>
            id in s.exchanges && P.Rank(s.exchanges[id].state) >= 3)
      && (id in s.exchanges && s.exchanges[id].state == P.RequestReceived ==>
            Occurrences(s.outbox, HolderRequested(id)) == 1)
  }

  ghost predicate StoreOk(s: Store) {
    BackendsUnique(s) && OperationsOk(s) && FailuresOk(s) && RequestedOk(s)
  }

  ghost predicate Inv(w: World) {
    ProtocolOk(w) && StoreOk(w.store)
  }

  /** What observations, purges and submission records leave alone in every row. */
  ghost predicate Quiet(s: Store, t: Store) {
    && s.exchanges.Keys <= t.exchanges.Keys
    && s.nextOperation == t.nextOperation
    && (forall id | id in s.exchanges :: QuietRow(s.exchanges[id], t.exchanges[id]))
    && (forall id | id in t.exchanges && id !in s.exchanges ::
          t.exchanges[id].submission == NotSubmitted && t.exchanges[id].issueOperation.None?)
  }

  predicate QuietRow(a: Exchange, b: Exchange) {
    && a.tenant == b.tenant && a.connector == b.connector
    && (a.externalId.Some? ==> a.externalId == b.externalId)
    && (a.submission == NotSubmitted <==> b.submission == NotSubmitted)
    && (b.issueOperation == a.issueOperation || b.issueOperation.None?)
  }

  /** Rows also keep the operation they name, as they do under everything but a purge. */
  ghost predicate Steady(s: Store, t: Store) {
    Quiet(s, t) && forall id | id in s.exchanges :: t.exchanges[id].issueOperation == s.exchanges[id].issueOperation
  }

  // ------------------------------------------------- transactions keep it

  lemma Enqueue(outbox: seq<Notification>, n: Notification)
    ensures forall m :: Occurrences(outbox + [n], m) == Occurrences(outbox, m) + if m == n then 1 else 0
  {
  }

  lemma ClaimKeepsStore(s: Store, tenant: Id, id: Id, remote: P.State)
    requires StoreOk(s)
    ensures StoreOk(Claim(s, tenant, id, remote).0)
  {
  }

  lemma ReleaseKeepsStore(s: Store, tenant: Id, id: Id, operation: Id)
    requires StoreOk(s)
    ensures StoreOk(Release(s, tenant, id, operation).0)
  {
    Enqueue(s.outbox, IssueFailed(operation));
  }

  lemma SetSubmissionKeepsStore(s: Store, tenant: Id, id: Id, submission: Submission)
    requires StoreOk(s) && submission != NotSubmitted
    ensures StoreOk(SetSubmission(s, tenant, id, submission))
  {
  }

  /** An observation keeps a row's identity and only moves its state forward. */
  lemma ObservedRow(row: Exchange, externalId: string, seen: Option<P.State>)
    requires row.externalId.None? || row.externalId == Some(externalId)
    ensures var after := Observed(row, externalId, seen);
            && QuietRow(row, after) && after.issueOperation == row.issueOperation
            && after.externalId == Some(externalId)
            && (after.state == row.state || P.Rank(after.state) > P.Rank(row.state))
  {
  }

  lemma UpdateKeepsUnique(s: Store, id: Id, after: Exchange)
    requires BackendsUnique(s) && id in s.exchanges
    requires after.externalId.Some? ==> !BackendTaken(s.exchanges, id, after, after.externalId.value)
    ensures BackendsUnique(s.(exchanges := s.exchanges[id := after]))
  {
  }

  lemma QuietKeepsOperations(s: Store, t: Store)
    requires OperationsOk(s) && Steady(s, t) && s.operations == t.operations
    ensures OperationsOk(t)
  {
    forall o | o in t.operations ensures OperationOk(t, o, t.operations[o]) {
      assert OperationOk(s, o, s.operations[o]);
    }
  }

  lemma ObserveKeepsStore(s: Store, id: Id, externalId: string, seen: Option<P.State>)
    requires StoreOk(s) && id in s.exchanges
    requires Observe(s, id, externalId, seen).Ok?
    ensures StoreOk(Observe(s, id, externalId, seen).value)
    ensures Quiet(s, Observe(s, id, externalId, seen).value)
  {
    var t := Observe(s, id, externalId, seen).value;
    var row, after := s.exchanges[id], Observed(s.exchanges[id], externalId, seen);
    ObservedRow(row, externalId, seen);
    UpdateKeepsUnique(s, id, after);
    QuietKeepsOperations(s, t);
    AnnounceKeepsOutbox(s, id, after);
  }

  lemma AnnounceKeepsOutbox(s: Store, id: Id, after: Exchange)
    requires FailuresOk(s) && RequestedOk(s) && id in s.exchanges
    requires after.state == s.exchanges[id].state || P.Rank(after.state) > P.Rank(s.exchanges[id].state)
    ensures var t := s.(exchanges := s.exchanges[id := after],
                        outbox := if after.state != s.exchanges[id].state && after.state == P.RequestReceived
                                  then s.outbox + [HolderRequested(id)] else s.outbox);
            FailuresOk(t) && RequestedOk(t)
  {
    Enqueue(s.outbox, HolderRequested(id));
    assert Occurrences(s.outbox, HolderRequested(id)) > 0 ==> P.Rank(s.exchanges[id].state) >= 3;
  }

  lemma TransitionKeepsStore(s: Store, operation: Id, target: OperationState)
    requires StoreOk(s)
    ensures StoreOk(TransitionIfForward(s, operation, target)) && Quiet(s, TransitionIfForward(s, operation, target))
  {
  }

  lemma MarkFailedKeepsStore(s: Store, tenant: Id, id: Id)
    requires StoreOk(s)
    ensures StoreOk(MarkFailed(s, tenant, id)) && Quiet(s, MarkFailed(s, tenant, id))
  {
    if Owned(s, tenant, id) {
      var after := s.exchanges[id].(state := P.Advance(s.exchanges[id].state, P.Failed));
      UpdateKeepsUniqueQuietly(s, id, after);
      QuietKeepsOperations(s, MarkFailed(s, tenant, id));
      AnnounceKeepsOutbox(s, id, after);
    }
  }

  lemma UpdateKeepsUniqueQuietly(s: Store, id: Id, after: Exchange)
    requires BackendsUnique(s) && id in s.exchanges
    requires after.tenant == s.exchanges[id].tenant && after.connector == s.exchanges[id].connector
    requires after.externalId == s.exchanges[id].externalId
    ensures BackendsUnique(s.(exchanges := s.exchanges[id := after]))
  {
  }

  lemma PurgeKeepsStore(s: Store, operation: Id)
    requires StoreOk(s)
    ensures StoreOk(Purge(s, operation)) && Quiet(s, Purge(s, operation))
  {
    var t := Purge(s, operation);
    forall o | o in t.operations ensures OperationOk(t, o, t.operations[o]) {
      assert OperationOk(s, o, s.operations[o]);
    }
  }

  // ----------------------------------------------- callers and requests

  /** No request ever named an exchange that does not exist yet. */
  lemma QuietKeepsProtocol(w: World, store: Store)
    requires ProtocolOk(w) && Quiet(w.store, store)
    ensures ProtocolOk(w.(store := store))
  {
    var v := w.(store := store);
    forall c | c in v.callers ensures CallerOk(v, v.callers[c]) {
      assert CallerOk(w, w.callers[c]);
    }
    forall id | id in v.store.exchanges ensures RowOk(v, id, v.store.exchanges[id]) {
      if id in w.store.exchanges {
        assert RowOk(w, id, w.store.exchanges[id]);
      } else {
        assert forall i | 0 <= i < |w.requests| :: RequestOk(w.store, w.requests[i]);
      }
    }
    forall i | 0 <= i < |v.requests| ensures RequestOk(v.store, v.requests[i]) {
      assert RequestOk(w.store, w.requests[i]);
    }
  }

  /** Dropping a caller, or moving it on within its claim, is harmless. */
  lemma FinishKeepsProtocol(w: World, caller: Id)
    requires ProtocolOk(w)
    ensures ProtocolOk(Finish(w, caller))
  {
    var v := Finish(w, caller);
    forall c | c in v.callers ensures CallerOk(v, v.callers[c]) {
      assert CallerOk(w, w.callers[c]);
    }
    forall id | id in v.store.exchanges ensures RowOk(v, id, v.store.exchanges[id]) {
      assert RowOk(w, id, w.store.exchanges[id]);
    }
  }

  lemma ReplaceKeepsProtocol(w: World, caller: Id, next: Caller)
    requires ProtocolOk(w) && CallerOk(w, next)
    requires caller in w.callers && w.callers[caller].exchange == next.exchange
    requires w.callers[caller].Ready? ==> next.Ready?
    ensures ProtocolOk(w.(callers := w.callers[caller := next]))
  {
    var v := w.(callers := w.callers[caller := next]);
    forall c | c in v.callers ensures CallerOk(v, v.callers[c]) {
      assert c != caller ==> CallerOk(w, w.callers[c]);
    }
    forall c, d | c in v.callers && d in v.callers && Rivals(v.callers[c], v.callers[d]) ensures c == d {
      assert Rivals(w.callers[c], w.callers[d]);
    }
    forall id | id in v.store.exchanges ensures RowOk(v, id, v.store.exchanges[id]) {
      assert RowOk(w, id, w.store.exchanges[id]);
    }
  }

  lemma CommitKeepsProtocol(w: World, caller: Id)
    requires Inv(w) && caller in w.callers && w.callers[caller].Ready?
    ensures ProtocolOk(Next(w, Commit(caller)))
  {
    var Ready(tenant, id, externalId, remote) := w.callers[caller];
    var (store, outcome) := Claim(w.store, tenant, id, remote);
    FinishKeepsProtocol(w, caller);
    if outcome.Claimed? {
      var v := Next(w, Commit(caller));
      assert RowOk(w, id, w.store.exchanges[id]);
      forall c | c in v.callers ensures CallerOk(v, v.callers[c]) {
        assert CallerOk(w, w.callers[c]);
      }
      forall c, d | c in v.callers && d in v.callers && Rivals(v.callers[c], v.callers[d]) ensures c == d {
        assert CallerOk(w, w.callers[c]) && CallerOk(w, w.callers[d]);
      }
      forall k | k in v.store.exchanges ensures RowOk(v, k, v.store.exchanges[k]) {
        assert RowOk(w, k, w.store.exchanges[k]);
      }
      forall i | 0 <= i < |v.requests| ensures RequestOk(v.store, v.requests[i]) {
        assert RequestOk(w.store, w.requests[i]);
      }
    }
  }

  lemma SendKeepsProtocol(w: World, caller: Id)
    requires ProtocolOk(w) && caller in w.callers && w.callers[caller].Holding?
    ensures ProtocolOk(Next(w, Send(caller)))
  {
    var v := Next(w, Send(caller));
    var me := w.callers[caller];
    assert CallerOk(w, me);
    forall c | c in v.callers ensures CallerOk(v, v.callers[c]) {
      assert CallerOk(w, w.callers[c]);
      assert c != caller ==> !Rivals(w.callers[c], me);
    }
    forall c, d | c in v.callers && d in v.callers && Rivals(v.callers[c], v.callers[d]) ensures c == d {
      assert Rivals(w.callers[c], w.callers[d]);
    }
    forall k | k in v.store.exchanges ensures RowOk(v, k, v.store.exchanges[k]) {
      assert RowOk(w, k, w.store.exchanges[k]);
    }
    forall i | 0 <= i < |v.requests| ensures RequestOk(v.store, v.requests[i]) {
      assert i < |w.requests| ==> RequestOk(w.store, w.requests[i]);
    }
  }

  lemma RefusalKeepsProtocol(w: World, caller: Id)
    requires ProtocolOk(w) && caller in w.callers && w.callers[caller].Waiting?
    ensures ProtocolOk(Next(w, Hear(caller, Refusal)))
  {
    var v := Next(w, Hear(caller, Refusal));
    assert CallerOk(w, w.callers[caller]);
    forall c | c in v.callers ensures CallerOk(v, v.callers[c]) {
      assert CallerOk(w, w.callers[c]);
    }
    forall c, d | c in v.callers && d in v.callers && Rivals(v.callers[c], v.callers[d]) ensures c == d {
      assert Rivals(w.callers[c], w.callers[d]);
    }
    forall k | k in v.store.exchanges ensures RowOk(v, k, v.store.exchanges[k]) {
      assert RowOk(w, k, w.store.exchanges[k]);
    }
    forall i | 0 <= i < |v.requests| ensures RequestOk(v.store, v.requests[i]) {
      assert RequestOk(w.store, w.requests[i]);
    }
  }

  lemma HearKeepsProtocol(w: World, caller: Id, reply: BackendReply)
    requires ProtocolOk(w) && caller in w.callers && w.callers[caller].Waiting?
    ensures ProtocolOk(Next(w, Hear(caller, reply)))
  {
    var Waiting(tenant, id, externalId, operation, k) := w.callers[caller];
    assert CallerOk(w, w.callers[caller]);
    match reply
    case Refusal => RefusalKeepsProtocol(w, caller);
    case Acceptance => ReplaceKeepsProtocol(w, caller, Answered(tenant, id, externalId, operation, k));
    case Lost => ReplaceKeepsProtocol(w, caller, Doubtful(tenant, id, externalId, operation, k));
  }

  /** The one step that reopens an exchange: its caller is the only one that held it. */
  lemma ReleaseKeepsProtocol(w: World, caller: Id)
    requires ProtocolOk(w) && caller in w.callers && w.callers[caller].Declined?
    ensures ProtocolOk(SettleCaller(w, caller, true))
  {
    var me := w.callers[caller];
    var v := SettleCaller(w, caller, true);
    assert CallerOk(w, me);
    forall c | c in v.callers ensures CallerOk(v, v.callers[c]) {
      assert CallerOk(w, w.callers[c]);
      assert !Rivals(w.callers[c], me);
    }
    forall k | k in v.store.exchanges ensures RowOk(v, k, v.store.exchanges[k]) {
      assert RowOk(w, k, w.store.exchanges[k]);
    }
    forall i | 0 <= i < |v.requests| ensures RequestOk(v.store, v.requests[i]) {
      assert RequestOk(w.store, w.requests[i]);
    }
  }

  lemma SettleKeepsProtocol(w: World, caller: Id, healthy: bool)
    requires ProtocolOk(w) && caller in w.callers
    ensures ProtocolOk(SettleCaller(w, caller, healthy))
  {
    assert CallerOk(w, w.callers[caller]);
    match w.callers[caller] {
      case Declined(_, _, _, _, _) =>
        ReleaseKeepsProtocol(w, caller);
      case Answered(tenant, id, externalId, operation, request) =>
        if healthy {
          var store := SetSubmission(w.store, tenant, id, Submitted);
          QuietKeepsProtocol(w, store);
          ReplaceKeepsProtocol(w.(store := store), caller, Recorded(tenant, id, externalId, operation, request));
        } else {
          ReplaceKeepsProtocol(w, caller, Doubtful(tenant, id, externalId, operation, request));
        }
      case Recorded(tenant, id, externalId, operation, request) =>
        FinishKeepsProtocol(w, caller);
        ReplaceKeepsProtocol(w, caller, Doubtful(tenant, id, externalId, operation, request));
      case Doubtful(tenant, id, _, _, _) =>
        var store := SetSubmission(w.store, tenant, id, Uncertain);
        QuietKeepsProtocol(w, store);
        FinishKeepsProtocol(w.(store := store), caller);
      case _ =>
    }
  }

  lemma DeliverIsQuiet(s: Store, row: Option<Id>, externalId: string, seen: Option<P.State>, operation: Option<Id>)
    requires row.Some? ==> row.value in s.exchanges
    requires StoreOk(s)
    ensures Quiet(s, Deliver(s, row, externalId, seen, operation))
    ensures StoreOk(Deliver(s, row, externalId, seen, operation))
  {
    var target := DeliveryTarget(seen);
    if target.Some? {
      var observed := if row.None? then Ok(s) else Observe(s, row.value, externalId, seen);
      if observed.Ok? {
        if row.Some? {
          ObserveKeepsStore(s, row.value, externalId, seen);
        }
        if operation.Some? {
          TransitionKeepsStore(observed.value, operation.value, target.value);
        }
      }
    }
  }

  lemma OpenKeepsStore(s: Store, id: Id, row: Exchange)
    requires StoreOk(s) && id !in s.exchanges
    requires row.state == P.Pending && row.externalId.None?
    ensures StoreOk(s.(exchanges := s.exchanges[id := row]))
  {
  }

  // ------------------------------------------------------------- theorems

  lemma BeginKeepsProtocol(w: World, step: Step)
    requires ProtocolOk(w) && step.Begin?
    ensures ProtocolOk(Next(w, step))
  {
    var v := Next(w, step);
    forall c | c in v.callers ensures CallerOk(v, v.callers[c]) {
      assert c in w.callers ==> CallerOk(w, w.callers[c]);
    }
    forall c, d | c in v.callers && d in v.callers && Rivals(v.callers[c], v.callers[d]) ensures c == d {
      assert Rivals(w.callers[c], w.callers[d]);
    }
    forall id | id in v.store.exchanges ensures RowOk(v, id, v.store.exchanges[id]) {
      assert RowOk(w, id, w.store.exchanges[id]);
    }
  }

  lemma SettleKeepsStore(w: World, caller: Id, healthy: bool)
    requires StoreOk(w.store) && caller in w.callers
    ensures StoreOk(SettleCaller(w, caller, healthy).store)
  {
    match w.callers[caller] {
      case Declined(tenant, id, _, operation, _) =>
        ReleaseKeepsStore(w.store, tenant, id, operation);
      case Answered(tenant, id, _, _, _) =>
        SetSubmissionKeepsStore(w.store, tenant, id, Submitted);
      case Doubtful(tenant, id, _, _, _) =>
        SetSubmissionKeepsStore(w.store, tenant, id, Uncertain);
      case _ =>
    }
  }

  lemma OpenStepIsQuiet(w: World, id: Id, tenant: Id, connector: Id, issuer: bool)
    requires StoreOk(w.store)
    ensures var v := Next(w, Open(id, tenant, connector, issuer)); Quiet(w.store, v.store) && StoreOk(v.store)
  {
    if id !in w.store.exchanges {
      OpenKeepsStore(w.store, id, Exchange(tenant, connector, issuer, P.Pending, None, NotSubmitted, None));
    }
  }

  lemma DeliveryStepIsQuiet(w: World, row: Option<Id>, externalId: string, seen: Option<P.State>, operation: Option<Id>)
    requires StoreOk(w.store)
    ensures var v := Next(w, Delivery(row, externalId, seen, operation)); Quiet(w.store, v.store) && StoreOk(v.store)
  {
    if row.Some? ==> row.value in w.store.exchanges {
      DeliverIsQuiet(w.store, row, externalId, seen, operation);
    }
  }

  lemma OfferStepIsQuiet(w: World, id: Id, externalId: string, seen: Option<P.State>)
    requires StoreOk(w.store)
    ensures var v := Next(w, OfferResult(id, externalId, seen)); Quiet(w.store, v.store) && StoreOk(v.store)
  {
    if id in w.store.exchanges && Observe(w.store, id, externalId, seen).Ok? {
      ObserveKeepsStore(w.store, id, externalId, seen);
    }
  }

  /** The steps other than claiming and settling, as far as the tables go. */
  lemma OtherStepsAreQuiet(w: World, step: Step)
    requires StoreOk(w.store) && !step.Commit? && !step.Settle?
    ensures Quiet(w.store, Next(w, step).store) && StoreOk(Next(w, step).store)
  {
    match step {
      case Open(id, tenant, connector, issuer) => OpenStepIsQuiet(w, id, tenant, connector, issuer);
      case Delivery(row, externalId, seen, operation) => DeliveryStepIsQuiet(w, row, externalId, seen, operation);
      case OfferResult(id, externalId, seen) => OfferStepIsQuiet(w, id, externalId, seen);
      case OfferFailed(tenant, id) => MarkFailedKeepsStore(w.store, tenant, id);
      case PurgeOperation(expired) => PurgeKeepsStore(w.store, expired);
      case _ =>
    }
  }

  lemma ClaimAndSettleKeepInv(w: World, step: Step)
    requires Inv(w) && (step.Commit? || step.Settle?)
    ensures Inv(Next(w, step))
  {
    if step.caller in w.callers {
      if step.Settle? {
        SettleKeepsProtocol(w, step.caller, step.healthy);
        SettleKeepsStore(w, step.caller, step.healthy);
      } else if w.callers[step.caller].Ready? {
        var Ready(tenant, id, externalId, remote) := w.callers[step.caller];
        CommitKeepsProtocol(w, step.caller);
        ClaimKeepsStore(w.store, tenant, id, remote);
      }
    }
  }

  lemma CallStepsKeepProtocol(w: World, step: Step)
    requires ProtocolOk(w) && (step.Begin? || step.Send? || step.Hear? || step.Crash?)
    ensures ProtocolOk(Next(w, step))
  {
    if step.Begin? {
      BeginKeepsProtocol(w, step);
    } else if step.Crash? {
      FinishKeepsProtocol(w, step.caller);
    } else if step.caller in w.callers {
      if step.Send? && w.callers[step.caller].Holding? {
        SendKeepsProtocol(w, step.caller);
      } else if step.Hear? && w.callers[step.caller].Waiting? {
        HearKeepsProtocol(w, step.caller, step.reply);
      }
    }
  }

  lemma NextKeepsInv(w: World, step: Step)
    requires Inv(w)
    ensures Inv(Next(w, step))
  {
    if step.Commit? || step.Settle? {
      ClaimAndSettleKeepInv(w, step);
    } else {
      OtherStepsAreQuiet(w, step);
      if step.Begin? || step.Send? || step.Hear? || step.Crash? {
        CallStepsKeepProtocol(w, step);
      } else {
        QuietKeepsProtocol(w, Next(w, step).store);
      }
    }
  }

  lemma {:induction false} RunKeepsInv(w: World, steps: seq<Step>)
    requires Inv(w)
    ensures Inv(Run(w, steps))
    decreases |steps|
  {
    if steps != [] {
      NextKeepsInv(w, steps[0]);
      RunKeepsInv(Next(w, steps[0]), steps[1..]);
    }
  }

  /** Requests to one backend exchange belong to one exchange row. */
  lemma OneRowPerBackend(w: World, i: nat, j: nat)
    requires Inv(w) && i < |w.requests| && j < |w.requests| && w.requests[i].backend == w.requests[j].backend
    ensures w.requests[i].exchange == w.requests[j].exchange
  {
    assert RequestOk(w.store, w.requests[i]) && RequestOk(w.store, w.requests[j]);
    assert SameBackend(w.store.exchanges[w.requests[i].exchange], w.store.exchanges[w.requests[j].exchange]);
  }

  /**
   Issuance safety. In every interleaving, when two requests went to the same
   backend exchange, the earlier one had been definitively refused: at most one
   request that may have taken effect ever exists.
   */
  lemma AtMostOnePossiblyEffectiveRequest(steps: seq<Step>, i: nat, j: nat)
    requires i < j < |Run(Init(), steps).requests|
    requires Run(Init(), steps).requests[i].backend == Run(Init(), steps).requests[j].backend
    ensures Run(Init(), steps).requests[i].refused
  {
    RunKeepsInv(Init(), steps);
    OneRowPerBackend(Run(Init(), steps), i, j);
  }

  lemma OnlySendGrowsRequests(w: World, step: Step)
    ensures |Next(w, step).requests| >= |w.requests|
    ensures |Next(w, step).requests| > |w.requests| ==> Next(w, step).requests[..|w.requests|] == w.requests
  {
  }

  /**
   The same, at the moment of sending: the step that puts a request on the wire
   happens only once every earlier request to that backend exchange is refused.
   */
  lemma SendsOnlyAfterEveryRefusal(steps: seq<Step>, step: Step)
    requires |Next(Run(Init(), steps), step).requests| > |Run(Init(), steps).requests|
    ensures var before := Run(Init(), steps).requests;
            var after := Next(Run(Init(), steps), step).requests;
            && after[..|before|] == before
            && forall i | 0 <= i < |before| && before[i].backend == after[|before|].backend :: before[i].refused
  {
    var w := Run(Init(), steps);
    var v := Next(w, step);
    RunKeepsInv(Init(), steps);
    NextKeepsInv(w, step);
    OnlySendGrowsRequests(w, step);
    forall i | 0 <= i < |w.requests| && w.requests[i].backend == v.requests[|w.requests|].backend
      ensures w.requests[i].refused
    {
      assert v.requests[i] == v.requests[..|w.requests|][i];
      OneRowPerBackend(v, i, |w.requests|);
    }
  }

  /** In every reachable world, all issue operations but the current one are failed or purged. */
  lemma SupersededOperationsFailed(steps: seq<Step>, o: Id)
    requires o in Run(Init(), steps).store.operations
    ensures var s := Run(Init(), steps).store;
            && s.operations[o].exchange in s.exchanges
            && var row := s.exchanges[s.operations[o].exchange];
            s.operations[o].state != OperationState.Failed ==>
              row.issueOperation == Some(o) && row.submission != NotSubmitted
  {
    RunKeepsInv(Init(), steps);
    assert OperationOk(Run(Init(), steps).store, o, Run(Init(), steps).store.operations[o]);
  }

  /** Failures and holder requests are each announced at most once over any run. */
  lemma AnnouncedAtMostOnce(steps: seq<Step>, id: Id)
    ensures var s := Run(Init(), steps).store;
            && Occurrences(s.outbox, IssueFailed(id)) <= 1
            && Occurrences(s.outbox, HolderRequested(id)) <= 1
            && (id in s.exchanges && s.exchanges[id].state == P.RequestReceived ==>
                  Occurrences(s.outbox, HolderRequested(id)) == 1)
            && (Occurrences(s.outbox, IssueFailed(id)) == 1 && id in s.operations ==>
                  s.operations[id].state == OperationState.Failed)
  {
    RunKeepsInv(Init(), steps);
  }

  /** Claiming and settling touch one row and keep what it is bound to. */
  lemma ClaimAndSettleKeepBinding(w: World, step: Step, id: Id)
    requires (step.Commit? || step.Settle?) && id in w.store.exchanges
    ensures var v := Next(w, step);
            && id in v.store.exchanges
            && v.store.exchanges[id].externalId == w.store.exchanges[id].externalId
            && v.store.exchanges[id].state == w.store.exchanges[id].state
            && (v.store.exchanges[id].submission == NotSubmitted && w.store.exchanges[id].submission != NotSubmitted ==>
                  && step.Settle? && step.caller in w.callers && w.callers[step.caller].Declined?
                  && w.callers[step.caller].exchange == id
                  && w.store.exchanges[id].issueOperation == Some(w.callers[step.caller].operation)
                  && Release(w.store, w.callers[step.caller].tenant, id, w.callers[step.caller].operation)
                     == (v.store, Reopened))
  {
  }

  /**
   Reopening is atomic: the only step that makes an exchange submittable again
   also fails the operation it named and enqueues exactly one notification.
   */
  lemma ReopeningIsAtomic(w: World, step: Step, id: Id)
    requires Inv(w)
    requires id in w.store.exchanges && w.store.exchanges[id].submission != NotSubmitted
    requires id in Next(w, step).store.exchanges && Next(w, step).store.exchanges[id].submission == NotSubmitted
    ensures var v := Next(w, step);
            && w.store.exchanges[id].issueOperation.Some?
            && var o := w.store.exchanges[id].issueOperation.value;
            && o in w.store.operations && w.store.operations[o].state == Processing
            && v.store.operations == w.store.operations[o := w.store.operations[o].(state := OperationState.Failed)]
            && v.store.outbox == w.store.outbox + [IssueFailed(o)]
            && v.store.exchanges == w.store.exchanges[id := w.store.exchanges[id].(submission := NotSubmitted)]
  {
    if step.Commit? || step.Settle? {
      ClaimAndSettleKeepBinding(w, step, id);
    } else {
      OtherStepsAreQuiet(w, step);
    }
  }

  /** Once an exchange is bound to a backend exchange, no run rebinds it. */
  lemma {:induction false} BackendBindingIsPermanent(w: World, steps: seq<Step>, id: Id)
    requires Inv(w) && id in w.store.exchanges && w.store.exchanges[id].externalId.Some?
    ensures id in Run(w, steps).store.exchanges
    ensures Run(w, steps).store.exchanges[id].externalId == w.store.exchanges[id].externalId
    decreases |steps|
  {
    if steps != [] {
      var step := steps[0];
      NextKeepsInv(w, step);
      if step.Commit? || step.Settle? {
        ClaimAndSettleKeepBinding(w, step, id);
      } else {
        OtherStepsAreQuiet(w, step);
      }
      BackendBindingIsPermanent(Next(w, step), steps[1..], id);
    }
  }

  /** A refusal is not a dead end: an exchange open for submission can always be submitted. */
  lemma OpenExchangeCanBeSubmitted(w: World, caller: Id, id: Id)
    requires id in w.store.exchanges && caller !in w.callers
    requires var row := w.store.exchanges[id];
             row.issuer && row.submission == NotSubmitted && row.externalId.Some? && row.state == P.RequestReceived
    ensures var row := w.store.exchanges[id];
            Run(w, [Begin(caller, row.tenant, id, P.RequestReceived), Commit(caller), Send(caller)]).requests
            == w.requests + [Request(id, Backend(row.tenant, row.connector, row.externalId.value), false)]
  {
    var row := w.store.exchanges[id];
    var steps := [Begin(caller, row.tenant, id, P.RequestReceived), Commit(caller), Send(caller)];
    var w1 := Next(w, steps[0]);
    var w2 := Next(w1, steps[1]);
    assert w2.callers[caller] == Holding(row.tenant, id, row.externalId.value, w.store.nextOperation);
    assert steps[1..] == [Commit(caller), Send(caller)] && steps[1..][1..] == [Send(caller)];
    assert Run(w2, [Send(caller)]) == Run(Next(w2, Send(caller)), []);
  }
}
