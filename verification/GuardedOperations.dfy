/**
 Holder actions (accept, reject) and revocations racing the protocol worker over
 the same operation and credential rows. Every write is a guarded update, and the
 notification is enqueued in the transaction whose guard won.
 */
module GuardedOperations {
  import opened Wrappers
  import SM = StateMapping

  type OpId = nat

  /** A tenant's protocol exchange: the pair of tenant id and external id. */
  type Exchange = nat

  datatype Kind = Offer | Issue | Accept | Reject | Revoke

  datatype Operation = Operation(kind: Kind, exchange: Exchange, state: SM.OperationState)

  datatype Credential = Credential(state: SM.CredentialState, offer: OpId)

  datatype Author = Service | Worker

  /** A won guarded write that made an operation terminal. */
  datatype Settlement = Settlement(op: OpId, state: SM.OperationState, author: Author)

  /** A queued webhook; op is None when only a credential moved. */
  datatype Notice = Notice(op: Option<OpId>, state: SM.OperationState, author: Author)

  datatype Store = Store(
    ops: seq<Operation>, credentials: map<Exchange, Credential>, outbox: seq<Notice>, settled: seq<Settlement>)

  predicate InFlight(o: Operation) {
    !SM.Terminal(o.state)
  }

  // --------------------------------------------------------- guarded writes

  predicate Wins(s: Store, id: OpId, target: SM.OperationState) {
    id < |s.ops| && s.ops[id].state in SM.OperationStatesBelow(target)
  }

  function Transition(s: Store, id: OpId, target: SM.OperationState, author: Author): Store {
    if !Wins(s, id, target) then s
    else s.(ops := s.ops[id := s.ops[id].(state := target)],
            settled := if SM.Terminal(target) then s.settled + [Settlement(id, target, author)] else s.settled)
  }

  function Enqueue(s: Store, n: Notice): Store {
    s.(outbox := s.outbox + [n])
  }

  predicate CredentialWins(s: Store, ex: Exchange, target: SM.CredentialState) {
    ex in s.credentials && s.credentials[ex].state in SM.CredentialStatesBelow(target)
  }

  function MoveCredential(s: Store, ex: Exchange, target: SM.CredentialState): Store {
    if !CredentialWins(s, ex, target) then s
    else s.(credentials := s.credentials[ex := s.credentials[ex].(state := target)])
  }

  // ----------------------------------------------------------- transactions

  /** The transaction that ends a holder action, or records that it is under way. */
  function SettleAction(s: Store, id: OpId, target: SM.OperationState): Store {
    if !Wins(s, id, target) then s
    else
      var t := Transition(s, id, target, Service);
      if SM.Terminal(target) then Enqueue(t, Notice(Some(id), target, Service)) else t
  }

  /** The transaction that ends a revocation. A credential that cannot be revoked undoes it. */
  function SettleRevoke(s: Store, id: OpId, target: SM.OperationState): Store {
    if !Wins(s, id, target) then s
    else if target != SM.Completed then SettleAction(s, id, target)
    else if !CredentialWins(s, s.ops[id].exchange, SM.Revoked) then s
    else Enqueue(MoveCredential(Transition(s, id, target, Service), s.ops[id].exchange, SM.Revoked),
                 Notice(Some(id), target, Service))
  }

  /**
   The transaction that ends the offer service's own call. A terminal outcome moves
   the credential too; a credential that cannot move undoes it.
   */
  function FinishOffer(s: Store, id: OpId, target: SM.OperationState, credential: Option<SM.CredentialState>): Store {
    if !Wins(s, id, target) then s
    else if credential.Some? && !CredentialWins(s, s.ops[id].exchange, credential.value) then s
    else
      var m := if credential.Some? then MoveCredential(s, s.ops[id].exchange, credential.value) else s;
      SettleAction(m, id, target)
  }

  datatype Outcome = Outcome(operation: SM.OperationState, credential: Option<SM.CredentialState>)

  /** A concluded holder action or issue also concludes the offer it belongs to. */
  function SettleOffer(s: Store, ex: Exchange, target: SM.OperationState): Store {
    if ex !in s.credentials || !Wins(s, s.credentials[ex].offer, target) then s
    else
      var offer := s.credentials[ex].offer;
      Enqueue(Transition(s, offer, target, Worker), Notice(Some(offer), target, Worker))
  }

  function ApplyOperation(s: Store, found: Option<OpId>, ex: Exchange, o: Outcome): Store {
    if found.None? || !Wins(s, found.value, o.operation) then s
    else
      var t := Transition(s, found.value, o.operation, Worker);
      if s.ops[found.value].kind in {Accept, Issue, Reject} && SM.Terminal(o.operation)
      then SettleOffer(t, ex, o.operation) else t
  }

  /** One delivery of a protocol state change, to the operation looked up beforehand. */
  function Process(s: Store, found: Option<OpId>, ex: Exchange, o: Outcome): Store {
    var won := found.Some? && Wins(s, found.value, o.operation);
    var t := ApplyOperation(s, found, ex, o);
    var moves := (found.None? || won) && o.credential.Some? && CredentialWins(t, ex, o.credential.value);
    var u := if moves then MoveCredential(t, ex, o.credential.value) else t;
    if won || moves then Enqueue(u, Notice(if won then found else None, o.operation, Worker)) else u
  }

  // ------------------------------------------------------------------ lookups

  /** The newest operation of these kinds on this exchange, in flight only if asked. */
  function Latest(ops: seq<Operation>, ex: Exchange, kinds: set<Kind>, inFlightOnly: bool): (r: Option<OpId>)
    ensures r.Some? ==> && r.value < |ops| && ops[r.value].exchange == ex && ops[r.value].kind in kinds
                        && (inFlightOnly ==> InFlight(ops[r.value]))
    ensures r.None? ==> forall o | o in ops && o.exchange == ex && o.kind in kinds :: inFlightOnly && !InFlight(o)
  {
    if ops == [] then None
    else
      var last := ops[|ops| - 1];
      assert ops == ops[..|ops| - 1] + [last];
      if last.exchange == ex && last.kind in kinds && (!inFlightOnly || InFlight(last)) then Some(|ops| - 1)
      else Latest(ops[..|ops| - 1], ex, kinds, inFlightOnly)
  }

  /** Nothing created later would have matched. */
  lemma {:induction false} LatestIsNewest(
    ops: seq<Operation>, ex: Exchange, kinds: set<Kind>, inFlightOnly: bool, j: nat)
    requires Latest(ops, ex, kinds, inFlightOnly).Some? && Latest(ops, ex, kinds, inFlightOnly).value < j < |ops|
    ensures !(ops[j].exchange == ex && ops[j].kind in kinds && (inFlightOnly ==> InFlight(ops[j])))
  {
    if j < |ops| - 1 {
      LatestIsNewest(ops[..|ops| - 1], ex, kinds, inFlightOnly, j);
    }
  }

  /** The kinds sharing one in-flight slot per exchange under the unique indexes. */
  function SlotOf(k: Kind): set<Kind> {
    match k
    case Accept => {Accept, Reject}
    case Reject => {Accept, Reject}
    case Revoke => {Revoke}
    case _ => {}
  }

  predicate SlotFree(s: Store, k: Kind, ex: Exchange) {
    Latest(s.ops, ex, SlotOf(k), true).None?
  }

  // ---------------------------------------------------------------- requests

  datatype Phase = Looking | Missing | Refused | Calling(op: OpId) | Answered(op: OpId) | Conflict | Gone

  datatype Caller = Caller(kind: Kind, exchange: Exchange, phase: Phase)

  datatype Delivery = Delivery(exchange: Exchange, found: Option<OpId>)

  datatype World = World(store: Store, callers: seq<Caller>, deliveries: seq<Delivery>)

  datatype Topic = IssueCredential | RevocationRegistry

  function TopicKinds(t: Topic): set<Kind> {
    match t
    case IssueCredential => {Offer, Issue, Accept, Reject}
    case RevocationRegistry => {Revoke}
  }

  datatype Step =
    | NewOffer(exchange: Exchange)
    | NewIssue(exchange: Exchange)
    | Request(kind: Kind, exchange: Exchange)
    | Look(caller: nat)
    | Insert(caller: nat)
    | FindWinner(caller: nat)
    | Reply(caller: nat, target: SM.OperationState)
    | OfferReply(offer: OpId, target: SM.OperationState, credential: Option<SM.CredentialState>)
    | Crash(caller: nat)
    | Arrive(exchange: Exchange, topic: Topic)
    | Deliver(delivery: nat, outcome: Outcome)

  function Goto(w: World, c: nat, p: Phase): World
    requires c < |w.callers|
  {
    w.(callers := w.callers[c := w.callers[c].(phase := p)])
  }

  function Created(s: Store, k: Kind, ex: Exchange): Store {
    s.(ops := s.ops + [Operation(k, ex, SM.Pending)])
  }

  predicate Requestable(k: Kind) {
    k in {Accept, Reject, Revoke}
  }

  /** An in-flight operation is handed back, or resumed if it never reached the agent. */
  function Resume(s: Store, id: OpId): Phase
    requires id < |s.ops|
  {
    if s.ops[id].state == SM.Pending then Calling(id) else Answered(id)
  }

  function AfterLook(s: Store, c: Caller): Phase {
    match Latest(s.ops, c.exchange, {c.kind}, true)
    case None => Missing
    case Some(id) => Resume(s, id)
  }

  function AfterRefusal(s: Store, c: Caller): Phase {
    match Latest(s.ops, c.exchange, SlotOf(c.kind), false)
    case None => Gone
    case Some(id) => if s.ops[id].kind != c.kind then Conflict else Resume(s, id)
  }

  function Settle(s: Store, k: Kind, id: OpId, target: SM.OperationState): Store {
    if k == Revoke then SettleRevoke(s, id, target) else SettleAction(s, id, target)
  }

  function Next(w: World, step: Step): World {
    var s := w.store;
    match step
    case NewOffer(ex) =>
      if ex in s.credentials then w
      else w.(store := Created(s, Offer, ex).(credentials := s.credentials[ex := Credential(SM.Offered, |s.ops|)]))
    case NewIssue(ex) => w.(store := Created(s, Issue, ex))
    case Request(k, ex) => if Requestable(k) then w.(callers := w.callers + [Caller(k, ex, Looking)]) else w
    case Look(c) =>
      if c < |w.callers| && w.callers[c].phase == Looking then Goto(w, c, AfterLook(s, w.callers[c])) else w
    case Insert(c) =>
      if c >= |w.callers| || w.callers[c].phase != Missing then w
      else if !SlotFree(s, w.callers[c].kind, w.callers[c].exchange) then Goto(w, c, Refused)
      else Goto(w, c, Calling(|s.ops|)).(store := Created(s, w.callers[c].kind, w.callers[c].exchange))
    case FindWinner(c) =>
      if c < |w.callers| && w.callers[c].phase == Refused then Goto(w, c, AfterRefusal(s, w.callers[c])) else w
    case Reply(c, target) =>
      if c >= |w.callers| || !w.callers[c].phase.Calling? then w
      else
        var id := w.callers[c].phase.op;
        Goto(w, c, Answered(id)).(store := Settle(s, w.callers[c].kind, id, target))
    case OfferReply(id, target, credential) =>
      if id < |s.ops| && s.ops[id].kind == Offer then w.(store := FinishOffer(s, id, target, credential)) else w
    case Crash(c) => if c < |w.callers| then Goto(w, c, Gone) else w
    case Arrive(ex, topic) =>
      w.(deliveries := w.deliveries + [Delivery(ex, Latest(s.ops, ex, TopicKinds(topic), true))])
    case Deliver(d, o) =>
      if d < |w.deliveries| then w.(store := Process(s, w.deliveries[d].found, w.deliveries[d].exchange, o)) else w
  }

  function Run(w: World, steps: seq<Step>): World
    decreases |steps|
  {
    if steps == [] then w else Run(Next(w, steps[0]), steps[1..])
  }

  predicate Initial(w: World) {
    w == World(Store([], map[], [], []), [], [])
  }

  // ---------------------------------------------------------------- invariant

  /** The terminal settlements the outbox announces. */
  function Announced(outbox: seq<Notice>): seq<Settlement> {
    if outbox == [] then []
    else
      var n := outbox[|outbox| - 1];
      var rest := Announced(outbox[..|outbox| - 1]);
      if n.op.Some? && SM.Terminal(n.state) then rest + [Settlement(n.op.value, n.state, n.author)] else rest
  }

  lemma AnnouncedAppend(outbox: seq<Notice>, n: Notice)
    ensures Announced(outbox + [n]) ==
            if n.op.Some? && SM.Terminal(n.state) then Announced(outbox) + [Settlement(n.op.value, n.state, n.author)]
            else Announced(outbox)
  {
    assert (outbox + [n])[..|outbox|] == outbox;
  }

  ghost predicate SettlementOk(s: Store, x: Settlement) {
    && x.op < |s.ops| && s.ops[x.op].state == x.state && SM.Terminal(x.state)
    && (x.author == Service && s.ops[x.op].kind == Revoke && x.state == SM.Completed ==>
          s.ops[x.op].exchange in s.credentials && s.credentials[s.ops[x.op].exchange].state == SM.Revoked)
  }

  ghost predicate OncePerOperation(settled: seq<Settlement>) {
    forall i, j | 0 <= i < j < |settled| :: settled[i].op != settled[j].op
  }

  /** Two in-flight operations in the same slot of the same exchange. */
  predicate Clash(ops: seq<Operation>, i: nat, j: nat)
    requires i < |ops| && j < |ops|
  {
    && InFlight(ops[i]) && InFlight(ops[j])
    && ops[i].exchange == ops[j].exchange && ops[i].kind in SlotOf(ops[j].kind)
  }

  ghost predicate OnePerSlot(ops: seq<Operation>) {
    forall i, j | 0 <= i < j < |ops| :: !Clash(ops, i, j)
  }

  ghost predicate Recorded(s: Store, i: nat)
    requires i < |s.ops|
  {
    SM.Terminal(s.ops[i].state) ==> exists x | x in s.settled :: x.op == i
  }

  /** Everything settled was settled once, and every terminal operation was settled. */
  ghost predicate Ledger(s: Store) {
    && (forall x | x in s.settled :: SettlementOk(s, x))
    && OncePerOperation(s.settled)
    && (forall i | 0 <= i < |s.ops| :: Recorded(s, i))
  }

  /** Consistent, except that the settlements in owed still wait for their notice. */
  ghost predicate Owing(s: Store, owed: multiset<Settlement>) {
    && Ledger(s)
    && OnePerSlot(s.ops)
    && multiset(Announced(s.outbox)) + owed == multiset(s.settled)
  }

  ghost predicate StoreOk(s: Store) {
    Owing(s, multiset{})
  }

  // ------------------------------------------------------- what each write owes

  ghost function Owes(s: Store, id: OpId, target: SM.OperationState, author: Author): multiset<Settlement> {
    if Wins(s, id, target) && SM.Terminal(target) then multiset{Settlement(id, target, author)} else multiset{}
  }

  ghost function Tells(n: Notice): multiset<Settlement> {
    if n.op.Some? && SM.Terminal(n.state) then multiset{Settlement(n.op.value, n.state, n.author)} else multiset{}
  }

  /** The service may complete a revocation only once the credential is revoked. */
  ghost predicate RevokedFirst(s: Store, id: OpId, target: SM.OperationState, author: Author)
    requires id < |s.ops|
  {
    author == Service && s.ops[id].kind == Revoke && target == SM.Completed ==>
      s.ops[id].exchange in s.credentials && s.credentials[s.ops[id].exchange].state == SM.Revoked
  }

  lemma TransitionKeepsLedger(s: Store, id: OpId, target: SM.OperationState, author: Author)
    requires Ledger(s) && Wins(s, id, target) && RevokedFirst(s, id, target, author)
    ensures Ledger(Transition(s, id, target, author))
  {
    var t := Transition(s, id, target, author);
    assert InFlight(s.ops[id]);
    forall x | x in t.settled ensures SettlementOk(t, x) {
      if x in s.settled {
        assert SettlementOk(s, x);
      }
    }
    assert forall x | x in s.settled :: x.op != id by {
      forall x | x in s.settled ensures x.op != id { assert SettlementOk(s, x); }
    }
    forall i | 0 <= i < |t.ops| ensures Recorded(t, i) {
      assert Recorded(s, i);
      if i == id && SM.Terminal(target) {
        assert t.settled[|t.settled| - 1].op == i;
      } else if SM.Terminal(t.ops[i].state) {
        var x :| x in s.settled && x.op == i;
        assert x in t.settled;
      }
    }
  }

  lemma TransitionOwes(s: Store, id: OpId, target: SM.OperationState, author: Author, owed: multiset<Settlement>)
    requires Owing(s, owed) && Wins(s, id, target) && RevokedFirst(s, id, target, author)
    ensures Owing(Transition(s, id, target, author), owed + Owes(s, id, target, author))
  {
    TransitionKeepsLedger(s, id, target, author);
    var t := Transition(s, id, target, author);
    forall i, j | 0 <= i < j < |t.ops| ensures !Clash(t.ops, i, j) {
      assert !Clash(s.ops, i, j);
    }
  }

  lemma EnqueuePays(s: Store, n: Notice, owed: multiset<Settlement>)
    requires Owing(s, owed + Tells(n))
    ensures Owing(Enqueue(s, n), owed)
  {
    AnnouncedAppend(s.outbox, n);
    var t := Enqueue(s, n);
    forall x | x in t.settled ensures SettlementOk(t, x) { assert SettlementOk(s, x); }
    forall i | 0 <= i < |t.ops| ensures Recorded(t, i) { assert Recorded(s, i); }
  }

  lemma MoveCredentialOwesNothing(s: Store, ex: Exchange, target: SM.CredentialState, owed: multiset<Settlement>)
    requires Owing(s, owed)
    ensures Owing(MoveCredential(s, ex, target), owed)
  {
    var t := MoveCredential(s, ex, target);
    forall x | x in t.settled ensures SettlementOk(t, x) { assert SettlementOk(s, x); }
    forall i | 0 <= i < |t.ops| ensures Recorded(t, i) { assert Recorded(s, i); }
  }

  lemma CreatedOwesNothing(s: Store, k: Kind, ex: Exchange)
    requires StoreOk(s) && SlotFree(s, k, ex)
    ensures StoreOk(Created(s, k, ex))
  {
    var t := Created(s, k, ex);
    forall x | x in t.settled ensures SettlementOk(t, x) { assert SettlementOk(s, x); }
    forall i, j | 0 <= i < j < |t.ops| ensures !Clash(t.ops, i, j) {
      assert s.ops[i] in s.ops;
      assert j < |s.ops| ==> !Clash(s.ops, i, j);
    }
    forall i | 0 <= i < |t.ops| ensures Recorded(t, i) {
      assert i < |s.ops| ==> Recorded(s, i);
    }
  }

  // ------------------------------------------------------------- transactions

  lemma SettleActionKeepsStore(s: Store, id: OpId, target: SM.OperationState)
    requires StoreOk(s) && (id < |s.ops| ==> RevokedFirst(s, id, target, Service))
    ensures StoreOk(SettleAction(s, id, target))
  {
    if Wins(s, id, target) {
      TransitionOwes(s, id, target, Service, multiset{});
      if SM.Terminal(target) {
        EnqueuePays(Transition(s, id, target, Service), Notice(Some(id), target, Service), multiset{});
      }
    }
  }

  lemma SettleRevokeKeepsStore(s: Store, id: OpId, target: SM.OperationState)
    requires StoreOk(s)
    ensures StoreOk(SettleRevoke(s, id, target))
  {
    if Wins(s, id, target) {
      var ex := s.ops[id].exchange;
      if target != SM.Completed {
        SettleActionKeepsStore(s, id, target);
      } else if CredentialWins(s, ex, SM.Revoked) {
        var m := MoveCredential(s, ex, SM.Revoked);
        MoveCredentialOwesNothing(s, ex, SM.Revoked, multiset{});
        TransitionOwes(m, id, target, Service, multiset{});
        assert Transition(m, id, target, Service) == MoveCredential(Transition(s, id, target, Service), ex, SM.Revoked);
        EnqueuePays(Transition(m, id, target, Service), Notice(Some(id), target, Service), multiset{});
      }
    }
  }

  lemma FinishOfferKeepsStore(s: Store, id: OpId, target: SM.OperationState, credential: Option<SM.CredentialState>)
    requires StoreOk(s) && id < |s.ops| && s.ops[id].kind == Offer
    ensures StoreOk(FinishOffer(s, id, target, credential))
  {
    var ex := s.ops[id].exchange;
    if credential.Some? {
      MoveCredentialOwesNothing(s, ex, credential.value, multiset{});
      SettleActionKeepsStore(MoveCredential(s, ex, credential.value), id, target);
    } else {
      SettleActionKeepsStore(s, id, target);
    }
  }

  lemma SettleOfferOwesNothing(s: Store, ex: Exchange, target: SM.OperationState, owed: multiset<Settlement>)
    requires Owing(s, owed)
    ensures Owing(SettleOffer(s, ex, target), owed)
  {
    if ex in s.credentials && Wins(s, s.credentials[ex].offer, target) {
      var offer := s.credentials[ex].offer;
      var n := Notice(Some(offer), target, Worker);
      TransitionOwes(s, offer, target, Worker, owed);
      assert Owes(s, offer, target, Worker) == Tells(n);
      EnqueuePays(Transition(s, offer, target, Worker), n, owed);
    }
  }

  ghost function OwesFound(s: Store, found: Option<OpId>, target: SM.OperationState): multiset<Settlement> {
    if found.Some? then Owes(s, found.value, target, Worker) else multiset{}
  }

  lemma ApplyOperationOwes(s: Store, found: Option<OpId>, ex: Exchange, o: Outcome)
    requires StoreOk(s)
    ensures Owing(ApplyOperation(s, found, ex, o), OwesFound(s, found, o.operation))
  {
    if found.Some? && Wins(s, found.value, o.operation) {
      var t := Transition(s, found.value, o.operation, Worker);
      var owed := Owes(s, found.value, o.operation, Worker);
      assert Owing(t, owed) by {
        TransitionOwes(s, found.value, o.operation, Worker, multiset{});
        assert multiset{} + owed == owed;
      }
      if s.ops[found.value].kind in {Accept, Issue, Reject} && SM.Terminal(o.operation) {
        SettleOfferOwesNothing(t, ex, o.operation, owed);
        assert ApplyOperation(s, found, ex, o) == SettleOffer(t, ex, o.operation);
      } else {
        assert ApplyOperation(s, found, ex, o) == t;
      }
    }
  }

  lemma ProcessKeepsStore(s: Store, found: Option<OpId>, ex: Exchange, o: Outcome)
    requires StoreOk(s)
    ensures StoreOk(Process(s, found, ex, o))
  {
    var won := found.Some? && Wins(s, found.value, o.operation);
    var owed := OwesFound(s, found, o.operation);
    var t := ApplyOperation(s, found, ex, o);
    ApplyOperationOwes(s, found, ex, o);
    var moves := (found.None? || won) && o.credential.Some? && CredentialWins(t, ex, o.credential.value);
    var u := if moves then MoveCredential(t, ex, o.credential.value) else t;
    if moves {
      MoveCredentialOwesNothing(t, ex, o.credential.value, owed);
    }
    var n := Notice(if won then found else None, o.operation, Worker);
    assert multiset{} + Tells(n) == owed;
    if won || moves {
      EnqueuePays(u, n, multiset{});
    }
  }

  lemma SettleKeepsStore(s: Store, k: Kind, id: OpId, target: SM.OperationState)
    requires StoreOk(s) && id < |s.ops| && s.ops[id].kind == k
    ensures StoreOk(Settle(s, k, id, target))
  {
    if k == Revoke {
      SettleRevokeKeepsStore(s, id, target);
    } else {
      SettleActionKeepsStore(s, id, target);
    }
  }

  // --------------------------------------------------------------------- runs

  /** A caller about to settle an operation holds one of its own kind and exchange. */
  ghost predicate CallerOk(s: Store, c: Caller) {
    && Requestable(c.kind)
    && (c.phase.Calling? ==>
          c.phase.op < |s.ops| && s.ops[c.phase.op].kind == c.kind && s.ops[c.phase.op].exchange == c.exchange)
  }

  ghost predicate Inv(w: World) {
    StoreOk(w.store) && forall c | c in w.callers :: CallerOk(w.store, c)
  }

  /** No transaction deletes an operation or changes what it is. */
  ghost predicate Extends(s: Store, t: Store) {
    && |s.ops| <= |t.ops|
    && forall i | 0 <= i < |s.ops| ::
         && t.ops[i].kind == s.ops[i].kind && t.ops[i].exchange == s.ops[i].exchange
         && (SM.Terminal(s.ops[i].state) ==> t.ops[i] == s.ops[i])
  }

  /** A credential keeps its state or moves along the transition table. */
  ghost predicate CredentialsAdvance(s: Store, t: Store) {
    forall ex | ex in s.credentials ::
      ex in t.credentials
      && (t.credentials[ex].state == s.credentials[ex].state
          || s.credentials[ex].state in SM.CredentialStatesBelow(t.credentials[ex].state))
  }

  lemma ProcessExtends(s: Store, found: Option<OpId>, ex: Exchange, o: Outcome)
    ensures Extends(s, Process(s, found, ex, o)) && CredentialsAdvance(s, Process(s, found, ex, o))
  {
    assert Extends(s, ApplyOperation(s, found, ex, o));
    assert ApplyOperation(s, found, ex, o).credentials == s.credentials;
  }

  lemma SettlingExtends(s: Store, k: Kind, id: OpId, target: SM.OperationState)
    ensures Extends(s, Settle(s, k, id, target)) && CredentialsAdvance(s, Settle(s, k, id, target))
  {
  }

  lemma FinishOfferExtends(s: Store, id: OpId, target: SM.OperationState, credential: Option<SM.CredentialState>)
    ensures Extends(s, FinishOffer(s, id, target, credential))
    ensures CredentialsAdvance(s, FinishOffer(s, id, target, credential))
  {
  }

  lemma NextExtends(w: World, step: Step)
    ensures Extends(w.store, Next(w, step).store) && CredentialsAdvance(w.store, Next(w, step).store)
  {
    match step {
      case Deliver(k, o) =>
        if k < |w.deliveries| {
          ProcessExtends(w.store, w.deliveries[k].found, w.deliveries[k].exchange, o);
        }
      case Reply(c, target) =>
        if c < |w.callers| && w.callers[c].phase.Calling? {
          SettlingExtends(w.store, w.callers[c].kind, w.callers[c].phase.op, target);
        }
      case OfferReply(id, target, credential) => FinishOfferExtends(w.store, id, target, credential);
      case _ =>
    }
  }

  lemma CallersSurvive(w: World, t: Store)
    requires Inv(w) && Extends(w.store, t)
    ensures forall c | c in w.callers :: CallerOk(t, c)
  {
    forall c | c in w.callers ensures CallerOk(t, c) { assert CallerOk(w.store, c); }
  }

  lemma NewOfferKeepsStore(w: World, ex: Exchange)
    requires Inv(w)
    ensures StoreOk(Next(w, NewOffer(ex)).store)
  {
    if ex !in w.store.credentials {
      CreatedOwesNothing(w.store, Offer, ex);
      NewCredentialOwesNothing(Created(w.store, Offer, ex), ex, Credential(SM.Offered, |w.store.ops|));
    }
  }

  lemma InsertKeepsStore(w: World, c: nat)
    requires Inv(w)
    ensures StoreOk(Next(w, Insert(c)).store)
  {
    if c < |w.callers| && SlotFree(w.store, w.callers[c].kind, w.callers[c].exchange) {
      CreatedOwesNothing(w.store, w.callers[c].kind, w.callers[c].exchange);
    }
  }

  lemma ReplyKeepsStore(w: World, c: nat, target: SM.OperationState)
    requires Inv(w)
    ensures StoreOk(Next(w, Reply(c, target)).store)
  {
    if c < |w.callers| && w.callers[c].phase.Calling? {
      assert CallerOk(w.store, w.callers[c]);
      SettleKeepsStore(w.store, w.callers[c].kind, w.callers[c].phase.op, target);
    }
  }

  lemma OfferReplyKeepsStore(w: World, id: OpId, target: SM.OperationState, credential: Option<SM.CredentialState>)
    requires Inv(w)
    ensures StoreOk(Next(w, OfferReply(id, target, credential)).store)
  {
    if id < |w.store.ops| && w.store.ops[id].kind == Offer {
      FinishOfferKeepsStore(w.store, id, target, credential);
    }
  }

  lemma DeliverKeepsStore(w: World, d: nat, o: Outcome)
    requires Inv(w)
    ensures StoreOk(Next(w, Deliver(d, o)).store)
  {
    var v := Next(w, Deliver(d, o));
    if d < |w.deliveries| {
      var x := w.deliveries[d];
      var t := Process(w.store, x.found, x.exchange, o);
      assert StoreOk(t) by {
        ProcessKeepsStore(w.store, x.found, x.exchange, o);
      }
      assert v.store == t;
    } else {
      assert v.store == w.store;
    }
  }

  lemma StoreStepKeepsStore(w: World, step: Step)
    requires Inv(w)
    ensures StoreOk(Next(w, step).store)
  {
    match step {
      case NewOffer(ex) => NewOfferKeepsStore(w, ex);
      case NewIssue(ex) => CreatedOwesNothing(w.store, Issue, ex);
      case Insert(c) => InsertKeepsStore(w, c);
      case Reply(c, target) => ReplyKeepsStore(w, c, target);
      case OfferReply(id, target, credential) => OfferReplyKeepsStore(w, id, target, credential);
      case Deliver(d, o) => DeliverKeepsStore(w, d, o);
      case _ => assert Next(w, step).store == w.store;
    }
  }

  lemma NewCredentialOwesNothing(s: Store, ex: Exchange, c: Credential)
    requires StoreOk(s) && ex !in s.credentials
    ensures StoreOk(s.(credentials := s.credentials[ex := c]))
  {
    var t := s.(credentials := s.credentials[ex := c]);
    forall x | x in t.settled ensures SettlementOk(t, x) { assert SettlementOk(s, x); }
    forall i | 0 <= i < |t.ops| ensures Recorded(t, i) { assert Recorded(s, i); }
  }

  /** What a caller decides to call is an operation of its own kind and exchange. */
  lemma PhasesOk(s: Store, c: Caller)
    requires Requestable(c.kind)
    ensures CallerOk(s, c.(phase := AfterLook(s, c))) && CallerOk(s, c.(phase := AfterRefusal(s, c)))
  {
  }

  /** The one caller a step moves is left in order. */
  lemma MovedCallerOk(w: World, step: Step, c: nat)
    requires Inv(w) && c < |w.callers|
    requires step in {Look(c), Insert(c), FindWinner(c), Crash(c)} || (step.Reply? && step.caller == c)
    ensures |Next(w, step).callers| == |w.callers| && CallerOk(Next(w, step).store, Next(w, step).callers[c])
    ensures forall k | 0 <= k < |w.callers| && k != c :: Next(w, step).callers[k] == w.callers[k]
  {
    assert CallerOk(w.store, w.callers[c]);
    PhasesOk(w.store, w.callers[c]);
    NextExtends(w, step);
  }

  lemma CallersStayOk(w: World, step: Step)
    requires Inv(w)
    ensures forall c | c in Next(w, step).callers :: CallerOk(Next(w, step).store, c)
  {
    var v := Next(w, step);
    NextExtends(w, step);
    CallersSurvive(w, v.store);
    if (step.Look? || step.Insert? || step.FindWinner? || step.Reply? || step.Crash?) && step.caller < |w.callers| {
      MovedCallerOk(w, step, step.caller);
      forall c | c in v.callers ensures CallerOk(v.store, c) {
        var k :| 0 <= k < |v.callers| && v.callers[k] == c;
        assert k != step.caller ==> c in w.callers;
      }
    }
  }

  lemma NextKeepsInv(w: World, step: Step)
    requires Inv(w)
    ensures Inv(Next(w, step))
  {
    StoreStepKeepsStore(w, step);
    CallersStayOk(w, step);
  }

  lemma {:induction false} RunKeepsInv(w: World, steps: seq<Step>)
    requires Inv(w)
    ensures Inv(Run(w, steps))
    decreases |steps|
  {
    if steps != [] {
      NextKeepsInv(w, steps[0]);
      RunKeepsInv(Next(w, steps[0]), steps[1..]);
    }
  }

  lemma RunFromInitial(w: World, steps: seq<Step>)
    requires Initial(w)
    ensures Inv(Run(w, steps))
  {
    RunKeepsInv(w, steps);
  }

  // ----------------------------------------------------------------- theorems

  /** However the race goes, each operation is settled at most once, and its row says how. */
  lemma SettledAtMostOnce(w: World, steps: seq<Step>)
    requires Initial(w)
    ensures var s := Run(w, steps).store;
            && (forall i, j | 0 <= i < j < |s.settled| :: s.settled[i].op != s.settled[j].op)
            && (forall x | x in s.settled :: x.op < |s.ops| && s.ops[x.op].state == x.state)
  {
    RunFromInitial(w, steps);
    var s := Run(w, steps).store;
    forall x | x in s.settled ensures x.op < |s.ops| && s.ops[x.op].state == x.state { assert SettlementOk(s, x); }
  }

  /** The terminal notices in the outbox are the won terminal writes, author for author, one for one. */
  lemma AnnouncedExactlyWhenWon(w: World, steps: seq<Step>)
    requires Initial(w)
    ensures multiset(Announced(Run(w, steps).store.outbox)) == multiset(Run(w, steps).store.settled)
  {
    RunFromInitial(w, steps);
  }

  /** A revocation the service completed has its credential revoked, now and from then on. */
  lemma CompletedRevocationMeansRevoked(w: World, steps: seq<Step>, id: OpId)
    requires Initial(w) && Settlement(id, SM.Completed, Service) in Run(w, steps).store.settled
    requires id < |Run(w, steps).store.ops| && Run(w, steps).store.ops[id].kind == Revoke
    ensures var s := Run(w, steps).store;
            s.ops[id].exchange in s.credentials && s.credentials[s.ops[id].exchange].state == SM.Revoked
  {
    RunFromInitial(w, steps);
    assert SettlementOk(Run(w, steps).store, Settlement(id, SM.Completed, Service));
  }

  /** An exchange never has two holder actions, nor two revocations, in flight. */
  lemma OneActionInFlight(w: World, steps: seq<Step>, i: OpId, j: OpId)
    requires Initial(w) && i < j < |Run(w, steps).store.ops|
    ensures !Clash(Run(w, steps).store.ops, i, j)
  {
    RunFromInitial(w, steps);
  }

  predicate SameSlot(ops: seq<Operation>, i: nat, j: nat)
    requires i < |ops| && j < |ops|
  {
    ops[i].exchange == ops[j].exchange && ops[i].kind in SlotOf(ops[j].kind)
  }

  /**
   A request that found nothing to resume creates its operation if and only if no
   operation sharing its slot is in flight; otherwise it is refused and writes nothing.
   */
  lemma AdmittedIffNoneInFlight(w: World, c: nat)
    requires c < |w.callers| && w.callers[c].phase == Missing
    ensures var x, v := w.callers[c], Next(w, Insert(c));
            if forall o | o in w.store.ops && o.exchange == x.exchange && o.kind in SlotOf(x.kind) :: !InFlight(o)
            then v.store.ops == w.store.ops + [Operation(x.kind, x.exchange, SM.Pending)]
                 && v.callers[c].phase == Calling(|w.store.ops|)
            else v.store == w.store && v.callers[c].phase == Refused
  {
    var x := w.callers[c];
    var r := Latest(w.store.ops, x.exchange, SlotOf(x.kind), true);
    if r.Some? {
      assert w.store.ops[r.value] in w.store.ops;
    }
  }

  lemma CreatesAtMostOne(w: World, step: Step)
    ensures |Next(w, step).store.ops| <= |w.store.ops| + 1
  {
    if step.Deliver? && step.delivery < |w.deliveries| {
      var x := w.deliveries[step.delivery];
      assert |Process(w.store, x.found, x.exchange, step.outcome).ops| == |w.store.ops|;
    }
  }

  /** Only an insert creates an operation that needs a slot, and it needs it free. */
  lemma CreatesInFreeSlot(w: World, step: Step, i: nat)
    requires i < |w.store.ops| < |Next(w, step).store.ops| && SameSlot(Next(w, step).store.ops, i, |w.store.ops|)
    ensures SM.Terminal(w.store.ops[i].state)
  {
    NextExtends(w, step);
    assert w.store.ops[i] in w.store.ops;
  }

  lemma {:induction false} RunConcat(w: World, xs: seq<Step>, ys: seq<Step>)
    ensures Run(w, xs + ys) == Run(Run(w, xs), ys)
    decreases |xs|
  {
    if xs == [] {
      assert xs + ys == ys;
    } else {
      assert (xs + ys)[0] == xs[0] && (xs + ys)[1..] == xs[1..] + ys;
      RunConcat(Next(w, xs[0]), xs[1..], ys);
    }
  }

  lemma RunSnoc(w: World, steps: seq<Step>)
    requires steps != []
    ensures Run(w, steps) == Next(Run(w, steps[..|steps| - 1]), steps[|steps| - 1])
  {
    var p := |steps| - 1;
    assert steps == steps[..p] + [steps[p]];
    RunConcat(w, steps[..p], [steps[p]]);
    assert Run(Run(w, steps[..p]), [steps[p]]) == Next(Run(w, steps[..p]), steps[p]);
  }

  /** Of two operations of one slot, both there after a step, the later is new only if the earlier was over. */
  lemma CreatedInTurn(w: World, step: Step, i: nat, j: nat)
    requires i < j < |Next(w, step).store.ops| && SameSlot(Next(w, step).store.ops, i, j)
    ensures j <= |w.store.ops|
    ensures j < |w.store.ops| ==> SameSlot(w.store.ops, i, j)
    ensures j == |w.store.ops| ==> SM.Terminal(w.store.ops[i].state)
    ensures SM.Terminal(w.store.ops[i].state) ==> Next(w, step).store.ops[i] == w.store.ops[i]
  {
    CreatesAtMostOne(w, step);
    if j == |w.store.ops| {
      CreatesInFreeSlot(w, step, i);
    }
    NextExtends(w, step);
  }

  /**
   Two operations of one slot, an accept and a reject of one offer say, coexist only
   in turn: when the later was created the earlier was over, as it still is.
   */
  lemma {:induction false} ActionsTakeTurns(w: World, steps: seq<Step>, i: OpId, j: OpId) returns (n: nat)
    requires Initial(w) && i < j < |Run(w, steps).store.ops| && SameSlot(Run(w, steps).store.ops, i, j)
    ensures n < |steps| && |Run(w, steps[..n]).store.ops| == j
    ensures SM.Terminal(Run(w, steps[..n]).store.ops[i].state)
    ensures Run(w, steps).store.ops[i] == Run(w, steps[..n]).store.ops[i]
    decreases |steps|
  {
    n := |steps| - 1;
    RunSnoc(w, steps);
    var u, last := Run(w, steps[..n]), steps[n];
    CreatedInTurn(u, last, i, j);
    if j < |u.store.ops| {
      var m := ActionsTakeTurns(w, steps[..n], i, j);
      assert steps[..n][..m] == steps[..m];
      n := m;
    }
  }

  /** The steps of a holder action that the agent completes at once. */
  function Acting(k: Kind, ex: Exchange, c: nat): seq<Step> {
    [Request(k, ex), Look(c), Insert(c), Reply(c, SM.Completed)]
  }

  lemma RunOfFour(w: World, a: Step, b: Step, c: Step, d: Step)
    ensures Run(w, [a, b, c, d]) == Next(Next(Next(Next(w, a), b), c), d)
  {
    assert [a, b, c, d] == [a] + ([b] + ([c] + [d]));
    RunConcat(w, [a], [b] + ([c] + [d]));
    RunConcat(Next(w, a), [b], [c] + [d]);
    RunConcat(Next(Next(w, a), b), [c], [d]);
  }

  lemma FreeSlotHasNone(ops: seq<Operation>, ex: Exchange, k: Kind)
    requires k in {Accept, Reject} && Latest(ops, ex, SlotOf(k), true).None?
    ensures Latest(ops, ex, {k}, true).None?
  {
  }

  lemma SettledLeavesFree(s: Store, t: Store, k: Kind, ex: Exchange)
    requires k in {Accept, Reject} && SlotFree(s, k, ex) && t.ops == s.ops + [Operation(k, ex, SM.Completed)]
    ensures SlotFree(t, Accept, ex) && SlotFree(t, Reject, ex)
  {
    var slot := SlotOf(k);
    assert slot == SlotOf(Accept) == SlotOf(Reject);
    assert t.ops[..|t.ops| - 1] == s.ops && !InFlight(t.ops[|t.ops| - 1]);
    assert Latest(t.ops, ex, slot, true) == Latest(s.ops, ex, slot, true);
  }

  /** The world in which a new caller has created its operation and is calling the agent. */
  function CallPlaced(w: World, k: Kind, ex: Exchange): World {
    w.(store := Created(w.store, k, ex), callers := w.callers + [Caller(k, ex, Calling(|w.store.ops|))])
  }

  lemma ActionInserts(w: World, k: Kind, ex: Exchange)
    requires k in {Accept, Reject} && SlotFree(w.store, k, ex)
    ensures var c := |w.callers|; Next(Next(Next(w, Request(k, ex)), Look(c)), Insert(c)) == CallPlaced(w, k, ex)
  {
    var c := |w.callers|;
    var asked := Next(w, Request(k, ex));
    assert asked == w.(callers := w.callers + [Caller(k, ex, Looking)]);
    FreeSlotHasNone(w.store.ops, ex, k);
    var looked := Next(asked, Look(c));
    assert looked == w.(callers := w.callers + [Caller(k, ex, Missing)]);
  }

  lemma ActingEnds(w: World, k: Kind, ex: Exchange)
    requires k in {Accept, Reject} && SlotFree(w.store, k, ex)
    ensures Run(w, Acting(k, ex, |w.callers|)) == Next(CallPlaced(w, k, ex), Reply(|w.callers|, SM.Completed))
  {
    var c := |w.callers|;
    RunOfFour(w, Request(k, ex), Look(c), Insert(c), Reply(c, SM.Completed));
    ActionInserts(w, k, ex);
  }

  lemma ReplyCompletes(w: World, ops: seq<Operation>, k: Kind, ex: Exchange, c: nat)
    requires k in {Accept, Reject} && w.store.ops == ops + [Operation(k, ex, SM.Pending)]
    requires c < |w.callers| && w.callers[c] == Caller(k, ex, Calling(|ops|))
    ensures Next(w, Reply(c, SM.Completed)).store.ops == ops + [Operation(k, ex, SM.Completed)]
    ensures |Next(w, Reply(c, SM.Completed)).callers| == |w.callers|
  {
    assert Wins(w.store, |ops|, SM.Completed);
    assert Next(w, Reply(c, SM.Completed)).store == SettleAction(w.store, |ops|, SM.Completed);
  }

  /** Whatever came before, a holder action completes if its slot is free, and leaves it free. */
  lemma ActionCompletes(w: World, k: Kind, ex: Exchange)
    requires k in {Accept, Reject} && SlotFree(w.store, k, ex)
    ensures var v := Run(w, Acting(k, ex, |w.callers|));
            && v.store.ops == w.store.ops + [Operation(k, ex, SM.Completed)] && |v.callers| == |w.callers| + 1
            && SlotFree(v.store, Accept, ex) && SlotFree(v.store, Reject, ex)
  {
    ActingEnds(w, k, ex);
    ReplyCompletes(CallPlaced(w, k, ex), w.store.ops, k, ex, |w.callers|);
    SettledLeavesFree(w.store, Run(w, Acting(k, ex, |w.callers|)).store, k, ex);
  }

  /** Two holder actions on one exchange, one after the other, both complete. */
  lemma BothComplete(w: World, j: Kind, k: Kind, ex: Exchange)
    requires j in {Accept, Reject} && k in {Accept, Reject} && SlotFree(w.store, j, ex)
    ensures Run(w, Acting(j, ex, |w.callers|) + Acting(k, ex, |w.callers| + 1)).store.ops ==
            w.store.ops + [Operation(j, ex, SM.Completed), Operation(k, ex, SM.Completed)]
  {
    var c, a, b := |w.callers|, Operation(j, ex, SM.Completed), Operation(k, ex, SM.Completed);
    var u := Run(w, Acting(j, ex, c));
    ActionCompletes(w, j, ex);
    assert SlotFree(u.store, k, ex) && u.store.ops == w.store.ops + [a] && |u.callers| == c + 1;
    ActionCompletes(u, k, ex);
    assert w.store.ops + [a] + [b] == w.store.ops + [a, b];
    RunConcat(w, Acting(j, ex, c), Acting(k, ex, c + 1));
  }

  /** So accept and reject of one offer can both have completed. */
  lemma AcceptedThenRejected(w: World, ex: Exchange)
    requires Initial(w)
    ensures Run(w, [NewOffer(ex)] + (Acting(Accept, ex, 0) + Acting(Reject, ex, 1))).store.ops ==
            [Operation(Offer, ex, SM.Pending), Operation(Accept, ex, SM.Completed), Operation(Reject, ex, SM.Completed)]
  {
    var offered := Next(w, NewOffer(ex));
    assert offered.store.ops == [Operation(Offer, ex, SM.Pending)] && offered.callers == [];
    RunConcat(w, [NewOffer(ex)], Acting(Accept, ex, 0) + Acting(Reject, ex, 1));
    assert Run(w, [NewOffer(ex)]) == offered;
    BothComplete(offered, Accept, Reject, ex);
  }

  lemma {:induction false} TerminalForever(w: World, steps: seq<Step>, id: OpId)
    requires id < |w.store.ops| && SM.Terminal(w.store.ops[id].state)
    ensures id < |Run(w, steps).store.ops| && Run(w, steps).store.ops[id] == w.store.ops[id]
    decreases |steps|
  {
    if steps != [] {
      NextExtends(w, steps[0]);
      TerminalForever(Next(w, steps[0]), steps[1..], id);
    }
  }

  /** Whatever is delivered late or twice, a credential once issued can only stay so or be revoked. */
  lemma {:induction false} IssuedCanOnlyBeRevoked(w: World, steps: seq<Step>, ex: Exchange)
    requires ex in w.store.credentials && w.store.credentials[ex].state in {SM.Issued, SM.Revoked}
    ensures ex in Run(w, steps).store.credentials
    ensures Run(w, steps).store.credentials[ex].state in {w.store.credentials[ex].state, SM.Revoked}
    decreases |steps|
  {
    if steps != [] {
      NextExtends(w, steps[0]);
      IssuedCanOnlyBeRevoked(Next(w, steps[0]), steps[1..], ex);
    }
  }

  // ------------------------------------------------------------ the services

  class Database {
    var ops: seq<Operation>
    var credentials: map<Exchange, Credential>
    var outbox: seq<Notice>
    var settled: seq<Settlement>

    function View(): Store
      reads this
    {
      Store(ops, credentials, outbox, settled)
    }

    /** The guarded update: it takes effect exactly on a row below the target. */
    method TransitionStateIfForward(id: OpId, target: SM.OperationState, author: Author) returns (won: bool)
      modifies this
      ensures won == Wins(old(View()), id, target)
      ensures View() == Transition(old(View()), id, target, author)
      ensures |ops| == |old(ops)| && forall k | 0 <= k < |ops| && k != id :: ops[k] == old(ops)[k]
      ensures won ==> && SM.OperationRank(ops[id].state) > SM.OperationRank(old(ops)[id].state)
                      && ops[id].kind == old(ops)[id].kind
      ensures !won ==> View() == old(View())
      ensures |settled| == |old(settled)| + if won && SM.Terminal(target) then 1 else 0
    {
      won := id < |ops| && ops[id].state in SM.OperationStatesBelow(target);
      if won {
        ops := ops[id := ops[id].(state := target)];
        if SM.Terminal(target) {
          settled := settled + [Settlement(id, target, author)];
        }
      }
    }

    method UpdateStateIfForward(ex: Exchange, target: SM.CredentialState) returns (won: bool)
      modifies this
      ensures won == CredentialWins(old(View()), ex, target)
      ensures View() == MoveCredential(old(View()), ex, target)
    {
      won := ex in credentials && credentials[ex].state in SM.CredentialStatesBelow(target);
      if won {
        credentials := credentials[ex := credentials[ex].(state := target)];
      }
    }

    method SendInTransaction(n: Notice)
      modifies this
      ensures View() == Enqueue(old(View()), n)
    {
      outbox := outbox + [n];
    }

    /** The transaction at the end of an accept or a reject. */
    method ExecuteAction(id: OpId, target: SM.OperationState) returns (won: bool)
      modifies this
      ensures View() == SettleAction(old(View()), id, target)
      ensures won <==> View() != old(View())
      ensures |outbox| == |old(outbox)| + if won && SM.Terminal(target) then 1 else 0
    {
      won := TransitionStateIfForward(id, target, Service);
      if won && SM.Terminal(target) {
        SendInTransaction(Notice(Some(id), target, Service));
      }
    }

    /**
     The transaction at the end of a revocation the agent confirmed. Operation,
     credential and notice change together, exactly when the operation is in
     flight and its credential is issued; otherwise nothing does.
     */
    method CompleteRevoke(id: OpId) returns (won: bool)
      requires id < |ops|
      modifies this
      ensures View() == SettleRevoke(old(View()), id, SM.Completed)
      ensures won <==> InFlight(old(ops[id])) && old(ops[id]).exchange in old(credentials)
                       && old(credentials)[old(ops[id]).exchange].state == SM.Issued
      ensures won ==> && ops[id].state == SM.Completed && ops[id].exchange in credentials
                      && credentials[ops[id].exchange].state == SM.Revoked
                      && outbox == old(outbox) + [Notice(Some(id), SM.Completed, Service)]
      ensures !won ==> View() == old(View())
    {
      var before := View();
      won := TransitionStateIfForward(id, SM.Completed, Service);
      if won {
        won := UpdateStateIfForward(ops[id].exchange, SM.Revoked);
        if won {
          SendInTransaction(Notice(Some(id), SM.Completed, Service));
        } else {
          ops, credentials, outbox, settled := before.ops, before.credentials, before.outbox, before.settled;
        }
      }
    }

    /**
     The transaction at the end of the offer service's own call: operation,
     credential and notice move together, or nothing does.
     */
    method ExecuteOffer(id: OpId, target: SM.OperationState, credential: Option<SM.CredentialState>) returns (won: bool)
      requires id < |ops|
      modifies this
      ensures View() == FinishOffer(old(View()), id, target, credential)
      ensures won <==> View() != old(View())
      ensures won && credential.Some? ==>
                && ops[id].state == target && ops[id].exchange in credentials
                && credentials[ops[id].exchange].state == credential.value
      ensures |outbox| == |old(outbox)| + if won && SM.Terminal(target) then 1 else 0
    {
      var before := View();
      won := TransitionStateIfForward(id, target, Service);
      if won && credential.Some? {
        won := UpdateStateIfForward(ops[id].exchange, credential.value);
        if !won {
          ops, credentials, outbox, settled := before.ops, before.credentials, before.outbox, before.settled;
        }
      }
      if won && SM.Terminal(target) {
        SendInTransaction(Notice(Some(id), target, Service));
      }
    }

    method SettleRelatedOffer(ex: Exchange, target: SM.OperationState)
      modifies this
      ensures View() == SettleOffer(old(View()), ex, target)
    {
      if ex in credentials {
        var offer := credentials[ex].offer;
        var won := TransitionStateIfForward(offer, target, Worker);
        if won {
          SendInTransaction(Notice(Some(offer), target, Worker));
        }
      }
    }

    /** The protocol worker's transaction for one delivery. */
    method ProcessDelivery(found: Option<OpId>, ex: Exchange, o: Outcome) returns (transitioned: bool)
      modifies this
      ensures View() == Process(old(View()), found, ex, o)
      ensures transitioned <==> View() != old(View())
    {
      transitioned := false;
      if found.Some? {
        transitioned := TransitionStateIfForward(found.value, o.operation, Worker);
        if transitioned && ops[found.value].kind in {Accept, Issue, Reject} && SM.Terminal(o.operation) {
          SettleRelatedOffer(ex, o.operation);
        }
      }
      var op := if transitioned then found else None;
      if (found.None? || transitioned) && o.credential.Some? {
        var moved := UpdateStateIfForward(ex, o.credential.value);
        transitioned := transitioned || moved;
      }
      if transitioned {
        SendInTransaction(Notice(op, o.operation, Worker));
        assert |outbox| > |old(outbox)|;
      }
    }
  }
}
