/**
 The row locks of the transactions that touch exchanges, operations, credentials
 and connections: claim, release, offer, holder action, revocation, protocol
 delivery and the purge of expired operations. Any number of them run at once, but
 one purge at a time; each row lock is held to the end of its transaction.
 */
module LockOrder {
  import opened Wrappers

  type Tid = nat

  /** An action is an accept, reject or issue operation; a root an offer, revoke or connection operation. */
  datatype Row =
    | ExchangeRow(id: nat)
    | ActionRow(id: nat)
    | RootRow(id: nat)
    | BatchRow(id: nat)
    | CredentialRow(id: nat)
    | ConnectionRow(id: nat)

  function Rank(r: Row): nat {
    match r
    case ExchangeRow(_) => 0
    case ActionRow(_) => 1
    case RootRow(_) => 2
    case BatchRow(_) => 3
    case CredentialRow(_) => 4
    case ConnectionRow(_) => 5
  }

  const TOP_RANK := 5

  /** What a protocol delivery found: only a root belongs to a batch, only an action has an offer behind it. */
  datatype Found = NoOperation | FoundAction(op: nat, offer: Option<nat>) | FoundRoot(op: nat, batch: Option<nat>)

  predicate Purgeable(r: Row) {
    r.ExchangeRow? || r.ActionRow? || r.RootRow? || r.BatchRow?
  }

  /**
   What a purge locks, in order: the expired operations by expiry, then what its
   foreign keys reach, the children of a batch and the exchanges that name an operation.
   */
  type PurgeList = rows: seq<Row> | forall r | r in rows :: Purgeable(r)

  datatype Work =
    | Claim(exchange: nat, op: nat)
    | Release(exchange: nat, op: nat)
    | FinishOffer(linked: Option<nat>, op: nat, credential: nat)
    | FinishAction(op: nat)
    | FinishRevoke(op: nat, credential: nat)
    | DeliverCredential(linked: Option<nat>, found: Found, subject: Option<nat>)
    | DeliverConnection(found: Found, subject: Option<nat>)
    | Reconcile(connection: nat)
    | Purge(rows: PurgeList)

  function LinkedExchange(x: Option<nat>): seq<Row> {
    if x.Some? then [ExchangeRow(x.value)] else []
  }

  function OperationLocks(f: Found): seq<Row> {
    match f
    case NoOperation => []
    case FoundAction(op, offer) => if offer.Some? then [ActionRow(op), RootRow(offer.value)] else [ActionRow(op)]
    case FoundRoot(op, batch) => if batch.Some? then [RootRow(op), BatchRow(batch.value)] else [RootRow(op)]
  }

  /** The rows a transaction locks, in the order it reaches them. */
  function Locks(work: Work): seq<Row> {
    match work
    case Claim(ex, op) => [ExchangeRow(ex), ActionRow(op)]
    case Release(ex, op) => [ExchangeRow(ex), ActionRow(op)]
    case FinishOffer(linked, op, credential) => LinkedExchange(linked) + [RootRow(op), CredentialRow(credential)]
    case FinishAction(op) => [ActionRow(op)]
    case FinishRevoke(op, credential) => [RootRow(op), CredentialRow(credential)]
    case DeliverCredential(linked, found, subject) =>
      LinkedExchange(linked) + (OperationLocks(found) + if subject.Some? then [CredentialRow(subject.value)] else [])
    case DeliverConnection(found, subject) =>
      OperationLocks(found) + if subject.Some? then [ConnectionRow(subject.value)] else []
    case Reconcile(connection) => [ConnectionRow(connection)]
    case Purge(rows) => rows
  }

  ghost predicate Ascending(rows: seq<Row>) {
    forall i, j | 0 <= i < j < |rows| :: Rank(rows[i]) < Rank(rows[j])
  }

  ghost predicate Between(rows: seq<Row>, low: nat, high: nat) {
    forall r | r in rows :: low <= Rank(r) <= high
  }

  lemma AscendingConcat(xs: seq<Row>, ys: seq<Row>, low: nat, mid: nat, high: nat)
    requires Ascending(xs) && Ascending(ys) && Between(xs, low, mid) && Between(ys, mid + 1, high) && low <= mid < high
    ensures Ascending(xs + ys) && Between(xs + ys, low, high)
  {
    forall i, j | 0 <= i < j < |xs + ys| ensures Rank((xs + ys)[i]) < Rank((xs + ys)[j]) {
      if i < |xs| <= j {
        assert xs[i] in xs && ys[j - |xs|] in ys;
      }
    }
  }

  /** No row a purge locks anew ranks below one it already holds. */
  predicate Rising(rows: seq<Row>) {
    forall i, j | 0 <= i < j < |rows| && rows[j] !in rows[..j] :: Rank(rows[i]) <= Rank(rows[j])
  }

  lemma OperationsInOrder(f: Found)
    ensures Ascending(OperationLocks(f)) && Between(OperationLocks(f), 1, 3)
  {
  }

  lemma OfferInOrder(linked: Option<nat>, op: nat, credential: nat)
    ensures Ascending(Locks(FinishOffer(linked, op, credential)))
  {
    AscendingConcat(LinkedExchange(linked), [RootRow(op), CredentialRow(credential)], 0, 0, 5);
  }

  lemma DeliveryInOrder(linked: Option<nat>, found: Found, last: seq<Row>)
    requires |last| <= 1 && Between(last, 4, 5)
    ensures Ascending(OperationLocks(found) + last)
    ensures Ascending(LinkedExchange(linked) + (OperationLocks(found) + last))
  {
    OperationsInOrder(found);
    AscendingConcat(OperationLocks(found), last, 1, 3, 5);
    AscendingConcat(LinkedExchange(linked), OperationLocks(found) + last, 0, 0, 5);
  }

  /** Exchange, then operations, then batch, then credential or connection: all but a purge of several rows. */
  lemma EveryTransactionLocksInOrder(work: Work)
    ensures (work.Purge? ==> |work.rows| <= 1) ==> Ascending(Locks(work))
  {
    match work {
      case FinishOffer(linked, op, credential) =>
        OfferInOrder(linked, op, credential);
      case DeliverCredential(linked, found, subject) =>
        DeliveryInOrder(linked, found, if subject.Some? then [CredentialRow(subject.value)] else []);
      case DeliverConnection(found, subject) =>
        DeliveryInOrder(None, found, if subject.Some? then [ConnectionRow(subject.value)] else []);
      case _ =>
    }
  }

  /** The usual shape of a purge: operations, then the exchanges naming them. */
  lemma PurgeRisesIff(operations: seq<Row>, naming: seq<Row>)
    requires forall r | r in operations :: Rank(r) > 0
    requires forall r | r in naming :: r.ExchangeRow?
    ensures Rising(operations + naming) <==> Rising(operations) && (operations == [] || naming == [])
  {
    var rows := operations + naming;
    if operations != [] && naming != [] {
      var j := |operations|;
      assert rows[..j] == operations && rows[j] == naming[0] && rows[0] == operations[0];
      assert rows[j] in naming && rows[0] in operations;
    } else if operations == [] {
      assert rows == naming;
      assert forall i | 0 <= i < |rows| :: rows[i] in naming;
    } else {
      assert rows == operations;
    }
  }

  // --------------------------------------------------------------- lock table

  /** A transaction that has taken the first `taken` of its locks, or has ended. */
  datatype Transaction = Transaction(locks: seq<Row>, taken: nat, ended: bool, purge: bool)

  datatype LockTable = LockTable(txs: seq<Transaction>, owner: map<Row, Tid>)

  datatype Step = Begin(work: Work) | Take(t: Tid) | End(t: Tid)

  predicate Open(w: LockTable, t: Tid) {
    t < |w.txs| && !w.txs[t].ended
  }

  predicate OpenPurge(w: LockTable, t: Tid) {
    Open(w, t) && w.txs[t].purge
  }

  predicate WantsMore(w: LockTable, t: Tid) {
    Open(w, t) && w.txs[t].taken < |w.txs[t].locks|
  }

  function Wanted(w: LockTable, t: Tid): Row
    requires WantsMore(w, t)
  {
    w.txs[t].locks[w.txs[t].taken]
  }

  predicate Blocked(w: LockTable, t: Tid) {
    WantsMore(w, t) && Wanted(w, t) in w.owner && w.owner[Wanted(w, t)] != t
  }

  predicate Waits(w: LockTable, t: Tid, u: Tid) {
    Blocked(w, t) && w.owner[Wanted(w, t)] == u
  }

  function Released(owner: map<Row, Tid>, t: Tid): map<Row, Tid> {
    map r | r in owner && owner[r] != t :: owner[r]
  }

  /** The purge queue starts no purge beside another. */
  predicate Admitted(w: LockTable, work: Work) {
    work.Purge? ==> forall t | 0 <= t < |w.txs| :: !OpenPurge(w, t)
  }

  /** A transaction may commit or roll back at any point; a blocked one cannot take its lock. */
  function Next(w: LockTable, step: Step): LockTable {
    match step
    case Begin(work) =>
      if Admitted(w, work) then w.(txs := w.txs + [Transaction(Locks(work), 0, false, work.Purge?)]) else w
    case Take(t) =>
      if !WantsMore(w, t) || Blocked(w, t) then w
      else LockTable(w.txs[t := w.txs[t].(taken := w.txs[t].taken + 1)], w.owner[Wanted(w, t) := t])
    case End(t) =>
      if Open(w, t) then LockTable(w.txs[t := w.txs[t].(ended := true)], Released(w.owner, t)) else w
  }

  function Run(w: LockTable, steps: seq<Step>): LockTable
    decreases |steps|
  {
    if steps == [] then w else Run(Next(w, steps[0]), steps[1..])
  }

  const EMPTY := LockTable([], map[])

  /** A locked row is one its open owner has passed in its own order. */
  ghost predicate OwnerOk(w: LockTable, r: Row)
    requires r in w.owner
  {
    var t := w.owner[r];
    && Open(w, t)
    && w.txs[t].taken <= |w.txs[t].locks|
    && r in w.txs[t].locks[..w.txs[t].taken]
  }

  /** An open transaction holds every row it has passed. */
  ghost predicate HoldsPassed(w: LockTable, t: Tid) {
    Open(w, t) ==>
      && w.txs[t].taken <= |w.txs[t].locks|
      && forall r | r in w.txs[t].locks[..w.txs[t].taken] :: r in w.owner && w.owner[r] == t
  }

  ghost predicate OrderOk(x: Transaction) {
    if x.purge then Rising(x.locks) else Ascending(x.locks)
  }

  ghost predicate OnePurge(w: LockTable) {
    forall t, u | OpenPurge(w, t) && OpenPurge(w, u) :: t == u
  }

  ghost predicate Inv(w: LockTable) {
    && (forall r | r in w.owner :: OwnerOk(w, r))
    && (forall t | 0 <= t < |w.txs| :: HoldsPassed(w, t))
    && (forall x | x in w.txs :: OrderOk(x))
    && OnePurge(w)
  }

  /** Every purge a run begins is one of these. */
  ghost predicate PurgesFrom(steps: seq<Step>, purges: iset<PurgeList>) {
    forall s | s in steps && s.Begin? && s.work.Purge? :: s.work.rows in purges
  }

  ghost predicate AllRising(purges: iset<PurgeList>) {
    forall rows | rows in purges :: Rising(rows)
  }

  /** What a transaction has passed grows by exactly the row it takes. */
  lemma PassedGrows(w: LockTable, t: Tid)
    requires WantsMore(w, t)
    ensures forall r :: r in w.txs[t].locks[..w.txs[t].taken + 1] <==>
                        r in w.txs[t].locks[..w.txs[t].taken] || r == Wanted(w, t)
  {
    var locks, k := w.txs[t].locks, w.txs[t].taken;
    assert locks[..k + 1] == locks[..k] + [locks[k]];
  }

  lemma OwnersStayOk(w: LockTable, step: Step, r: Row)
    requires Inv(w) && r in Next(w, step).owner
    ensures OwnerOk(Next(w, step), r)
  {
    if step.Take? && WantsMore(w, step.t) {
      PassedGrows(w, step.t);
    }
    if r in w.owner {
      assert OwnerOk(w, r);
    }
  }

  lemma HoldersStayOk(w: LockTable, step: Step, t: Tid)
    requires Inv(w) && t < |Next(w, step).txs|
    ensures HoldsPassed(Next(w, step), t)
  {
    if step.Take? && WantsMore(w, step.t) {
      PassedGrows(w, step.t);
    }
    if t < |w.txs| {
      assert HoldsPassed(w, t);
    }
  }

  lemma NextKeepsInv(w: LockTable, step: Step)
    requires Inv(w) && (step.Begin? && step.work.Purge? ==> Rising(step.work.rows))
    ensures Inv(Next(w, step))
  {
    var v := Next(w, step);
    forall r | r in v.owner ensures OwnerOk(v, r) { OwnersStayOk(w, step, r); }
    forall t | 0 <= t < |v.txs| ensures HoldsPassed(v, t) { HoldersStayOk(w, step, t); }
    if step.Begin? && !step.work.Purge? {
      EveryTransactionLocksInOrder(step.work);
    }
    forall x | x in v.txs ensures OrderOk(x) {
      if x !in w.txs && !step.Begin? {
        assert w.txs[step.t] in w.txs;
      }
    }
    forall t: Tid, u: Tid | OpenPurge(v, t) && OpenPurge(v, u) ensures t == u {
      assert t < |w.txs| ==> OpenPurge(w, t);
      assert u < |w.txs| ==> OpenPurge(w, u);
    }
  }

  lemma {:induction false} RunKeepsInv(w: LockTable, steps: seq<Step>, purges: iset<PurgeList>)
    requires Inv(w) && PurgesFrom(steps, purges) && AllRising(purges)
    ensures Inv(Run(w, steps))
    decreases |steps|
  {
    if steps != [] {
      assert steps[0] in steps;
      NextKeepsInv(w, steps[0]);
      RunKeepsInv(Next(w, steps[0]), steps[1..], purges);
    }
  }

  // ------------------------------------------------------ rising purges are safe

  /** Whoever waits wants a row ranked no higher than what its holder wants, and lower unless that is a purge. */
  lemma WaitingClimbs(w: LockTable, t: Tid, u: Tid)
    requires Inv(w) && Waits(w, t, u) && Blocked(w, u)
    ensures Rank(Wanted(w, t)) <= Rank(Wanted(w, u))
    ensures !w.txs[u].purge ==> Rank(Wanted(w, t)) < Rank(Wanted(w, u))
  {
    var locks := w.txs[u].locks;
    assert OwnerOk(w, Wanted(w, t)) && HoldsPassed(w, u);
    assert w.txs[u] in w.txs;
    var i :| 0 <= i < w.txs[u].taken && locks[i] == Wanted(w, t);
    assert Wanted(w, u) !in locks[..w.txs[u].taken];
  }

  ghost predicate WaitChain(w: LockTable, chain: seq<Tid>) {
    && |chain| > 0
    && (forall i | 0 <= i < |chain| :: Blocked(w, chain[i]))
    && (forall i | 0 <= i < |chain| - 1 :: Waits(w, chain[i], chain[i + 1]))
  }

  ghost predicate WaitCycle(w: LockTable, chain: seq<Tid>) {
    WaitChain(w, chain) && Waits(w, chain[|chain| - 1], chain[0])
  }

  ghost predicate Deadlocked(w: LockTable) {
    exists chain :: WaitCycle(w, chain)
  }

  /** Something is open and everything open is blocked. */
  ghost predicate Stuck(w: LockTable) {
    (exists t :: Open(w, t)) && forall t | Open(w, t) :: Blocked(w, t)
  }

  lemma {:induction false} ChainsClimb(w: LockTable, chain: seq<Tid>)
    requires Inv(w) && WaitChain(w, chain)
    ensures Rank(Wanted(w, chain[0])) <= Rank(Wanted(w, chain[|chain| - 1]))
    decreases |chain|
  {
    if |chain| > 1 {
      var rest := chain[1..];
      assert forall i | 0 <= i < |rest| - 1 :: Waits(w, rest[i], rest[i + 1]) by {
        forall i | 0 <= i < |rest| - 1 ensures Waits(w, rest[i], rest[i + 1]) {
          assert Waits(w, chain[i + 1], chain[i + 1 + 1]);
        }
      }
      ChainsClimb(w, rest);
      assert Waits(w, chain[0], chain[0 + 1]);
      WaitingClimbs(w, chain[0], chain[1]);
    }
  }

  /** A chain that starts at a purge climbs strictly: the next in it is no purge. */
  lemma ChainsFromPurgeClimb(w: LockTable, chain: seq<Tid>)
    requires Inv(w) && WaitChain(w, chain) && |chain| > 1 && w.txs[chain[0]].purge
    ensures Rank(Wanted(w, chain[0])) < Rank(Wanted(w, chain[|chain| - 1]))
  {
    assert Waits(w, chain[0], chain[0 + 1]);
    assert OpenPurge(w, chain[0]) && !OpenPurge(w, chain[1]);
    WaitingClimbs(w, chain[0], chain[1]);
    var rest := chain[1..];
    forall i | 0 <= i < |rest| - 1 ensures Waits(w, rest[i], rest[i + 1]) {
      assert Waits(w, chain[i + 1], chain[i + 1 + 1]);
    }
    ChainsClimb(w, rest);
  }

  /** No interleaving of transactions whose purges rise reaches a waits-for cycle. */
  lemma NoDeadlock(steps: seq<Step>, purges: iset<PurgeList>, chain: seq<Tid>)
    requires PurgesFrom(steps, purges) && AllRising(purges)
    ensures !WaitCycle(Run(EMPTY, steps), chain)
  {
    var w := Run(EMPTY, steps);
    RunKeepsInv(EMPTY, steps, purges);
    if WaitCycle(w, chain) {
      ChainsClimb(w, chain);
      WaitingClimbs(w, chain[|chain| - 1], chain[0]);
      if w.txs[chain[0]].purge {
        ChainsFromPurgeClimb(w, chain);
      }
    }
  }

  /** From any open transaction, following the waits leads to an open one that can go on. */
  lemma {:induction false} FollowWaits(w: LockTable, t: Tid) returns (free: Tid)
    requires Inv(w) && Open(w, t)
    ensures Open(w, free) && !Blocked(w, free)
    decreases
      if Blocked(w, t) then TOP_RANK + 1 - Rank(Wanted(w, t)) else 0,
      if w.txs[t].purge then 0 else 1
  {
    if Blocked(w, t) {
      var u := w.owner[Wanted(w, t)];
      assert OwnerOk(w, Wanted(w, t));
      if Blocked(w, u) {
        WaitingClimbs(w, t, u);
        assert OpenPurge(w, t) && OpenPurge(w, u) ==> t == u;
      }
      free := FollowWaits(w, u);
    } else {
      free := t;
    }
  }

  /** While anything is open, something open is not blocked. */
  lemma SomeTransactionCanAlwaysProceed(steps: seq<Step>, purges: iset<PurgeList>, t: Tid)
    requires PurgesFrom(steps, purges) && AllRising(purges) && Open(Run(EMPTY, steps), t)
    ensures exists u :: Open(Run(EMPTY, steps), u) && !Blocked(Run(EMPTY, steps), u)
  {
    RunKeepsInv(EMPTY, steps, purges);
    var free := FollowWaits(Run(EMPTY, steps), t);
  }

  // --------------------------------------------------- falling purges can deadlock

  lemma {:induction false} RunConcat(w: LockTable, xs: seq<Step>, ys: seq<Step>)
    ensures Run(w, xs + ys) == Run(Run(w, xs), ys)
    decreases |xs|
  {
    if xs == [] {
      assert xs + ys == ys;
    } else {
      assert (xs + ys)[0] == xs[0] && (xs + ys)[1..] == xs[1..] + ys;
      RunConcat(Next(w, xs[0]), xs[1..], ys);
    }
  }

  /** A transaction begins as number `t` and takes its first `n` locks. */
  function Advancing(work: Work, t: Tid, n: nat): seq<Step> {
    [Begin(work)] + seq(n, _ => Take(t))
  }

  function Owning(owner: map<Row, Tid>, locks: seq<Row>, t: Tid): map<Row, Tid> {
    owner + map r | r in locks :: t
  }

  /** The table once a transaction with these locks has begun and taken the first `n`. */
  function Advanced(w: LockTable, locks: seq<Row>, purge: bool, n: nat): LockTable
    requires n <= |locks|
  {
    LockTable(w.txs + [Transaction(locks, n, false, purge)], Owning(w.owner, locks[..n], |w.txs|))
  }

  lemma OwningOneMore(owner: map<Row, Tid>, locks: seq<Row>, r: Row, t: Tid)
    ensures Owning(owner, locks, t)[r := t] == Owning(owner, locks + [r], t)
  {
  }

  lemma TakesOneMore(w: LockTable, locks: seq<Row>, purge: bool, n: nat)
    requires n < |locks| && locks[n] !in w.owner
    ensures Next(Advanced(w, locks, purge, n), Take(|w.txs|)) == Advanced(w, locks, purge, n + 1)
  {
    var t, v := |w.txs|, Advanced(w, locks, purge, n);
    assert locks[..n + 1] == locks[..n] + [locks[n]];
    OwningOneMore(w.owner, locks[..n], locks[n], t);
    var x := v.txs[t];
    assert x == Transaction(locks, n, false, purge) && Wanted(v, t) == locks[n] && !Blocked(v, t);
    assert v.txs[t := x.(taken := n + 1)] == w.txs + [x.(taken := n + 1)];
  }

  lemma BeginReaches(w: LockTable, work: Work)
    requires Admitted(w, work)
    ensures Run(w, [Begin(work)]) == Advanced(w, Locks(work), work.Purge?, 0)
  {
    var v := Next(w, Begin(work));
    assert Run(w, [Begin(work)]) == v;
    assert Owning(w.owner, Locks(work)[..0], |w.txs|) == w.owner;
  }

  lemma TakeReaches(w: LockTable, steps: seq<Step>, locks: seq<Row>, purge: bool, n: nat)
    requires n < |locks| && locks[n] !in w.owner && Run(w, steps) == Advanced(w, locks, purge, n)
    ensures Run(w, steps + [Take(|w.txs|)]) == Advanced(w, locks, purge, n + 1)
  {
    var t, v := |w.txs|, Advanced(w, locks, purge, n);
    RunConcat(w, steps, [Take(t)]);
    assert Run(v, [Take(t)]) == Next(v, Take(t));
    TakesOneMore(w, locks, purge, n);
  }

  lemma {:induction false} AdvancingReaches(w: LockTable, work: Work, n: nat)
    requires Admitted(w, work) && n <= |Locks(work)|
    requires forall i | 0 <= i < n :: Locks(work)[i] !in w.owner
    ensures Run(w, Advancing(work, |w.txs|, n)) == Advanced(w, Locks(work), work.Purge?, n)
    decreases n
  {
    var t := |w.txs|;
    if n == 0 {
      BeginReaches(w, work);
      assert Advancing(work, t, n) == [Begin(work)];
    } else {
      AdvancingReaches(w, work, n - 1);
      var before := Advancing(work, t, n - 1);
      TakeReaches(w, before, Locks(work), work.Purge?, n - 1);
      assert Advancing(work, t, n) == before + [Take(t)];
    }
  }

  ghost predicate OnlyPurge(steps: seq<Step>, rows: PurgeList) {
    forall s | s in steps && s.Begin? && s.work.Purge? :: s.work.rows == rows
  }

  lemma StillWaits(w: LockTable, t: Tid, u: Tid, locks: seq<Row>, n: nat)
    requires n <= |locks| && Waits(w, t, u) && Wanted(w, t) !in locks[..n]
    ensures Waits(Advanced(w, locks, false, n), t, u)
  {
  }

  lemma WaitsForNewcomer(w: LockTable, t: Tid, locks: seq<Row>, n: nat)
    requires n <= |locks| && WantsMore(w, t) && Wanted(w, t) in locks[..n]
    ensures Waits(Advanced(w, locks, false, n), t, |w.txs|)
  {
  }

  lemma NewcomerWaits(w: LockTable, u: Tid, locks: seq<Row>, n: nat)
    requires n < |locks| && locks[n] !in locks[..n] && locks[n] in w.owner
    requires w.owner[locks[n]] == u < |w.txs|
    ensures Waits(Advanced(w, locks, false, n), |w.txs|, u)
  {
  }

  lemma PurgeTable(rows: seq<Row>, j: nat)
    requires j < |rows|
    ensures var w := Advanced(EMPTY, rows, true, j);
            && |w.txs| == 1 && WantsMore(w, 0) && Wanted(w, 0) == rows[j]
            && w.owner == map r | r in rows[..j] :: 0
  {
    assert Advanced(EMPTY, rows, true, j).txs == [Transaction(rows, j, false, true)];
  }

  /** The purge alone, holding what comes before row `j` and wanting that row. */
  lemma PurgeReaches(rows: PurgeList, j: nat) returns (steps: seq<Step>, w: LockTable)
    requires j < |rows|
    ensures steps == Advancing(Purge(rows), 0, j) && OnlyPurge(steps, rows) && w == Run(EMPTY, steps)
    ensures |w.txs| == 1 && WantsMore(w, 0) && Wanted(w, 0) == rows[j]
    ensures w.owner == map r | r in rows[..j] :: 0
  {
    steps := Advancing(Purge(rows), 0, j);
    AdvancingReaches(EMPTY, Purge(rows), j);
    w := Advanced(EMPTY, rows, true, j);
    PurgeTable(rows, j);
  }

  /** Another transaction then takes its first `n` locks, all of them free. */
  lemma OtherReaches(before: seq<Step>, w: LockTable, rows: PurgeList, work: Work, n: nat)
    returns (steps: seq<Step>, v: LockTable)
    requires OnlyPurge(before, rows) && w == Run(EMPTY, before)
    requires !work.Purge? && n <= |Locks(work)| && forall i | 0 <= i < n :: Locks(work)[i] !in w.owner
    ensures steps == before + Advancing(work, |w.txs|, n) && OnlyPurge(steps, rows)
    ensures v == Run(EMPTY, steps) == Advanced(w, Locks(work), false, n)
  {
    var more := Advancing(work, |w.txs|, n);
    AdvancingReaches(w, work, n);
    RunConcat(EMPTY, before, more);
    steps := before + more;
    v := Run(EMPTY, steps);
  }

  /** Row `j` is new to the purge and ranks below row `i`, which the purge already holds. */
  predicate FallsAt(rows: seq<Row>, i: nat, j: nat) {
    i < j < |rows| && rows[j] !in rows[..j] && Rank(rows[i]) > Rank(rows[j])
  }

  lemma PairIsStuck(w: LockTable)
    requires |w.txs| == 2 && Waits(w, 0, 1) && Waits(w, 1, 0)
    ensures Deadlocked(w) && Stuck(w)
  {
    assert WaitCycle(w, [0, 1]);
  }

  lemma TripleIsStuck(w: LockTable)
    requires |w.txs| == 3 && Waits(w, 0, 1) && Waits(w, 1, 2) && Waits(w, 2, 0)
    ensures Deadlocked(w) && Stuck(w)
  {
    assert WaitCycle(w, [0, 1, 2]);
  }

  /** A transaction that holds row `j` on its way to row `i` closes a cycle with the purge. */
  lemma TwoWayWait(rows: PurgeList, i: nat, j: nat, work: Work, n: nat) returns (steps: seq<Step>)
    requires FallsAt(rows, i, j) && !work.Purge? && n < |Locks(work)|
    requires Locks(work)[n] == rows[i] && rows[j] in Locks(work)[..n]
    requires forall k | 0 <= k < n :: Locks(work)[k] !in rows[..j]
    ensures steps == Advancing(Purge(rows), 0, j) + Advancing(work, 1, n) && OnlyPurge(steps, rows)
    ensures |Run(EMPTY, steps).txs| == 2 && Waits(Run(EMPTY, steps), 0, 1) && Waits(Run(EMPTY, steps), 1, 0)
    ensures Deadlocked(Run(EMPTY, steps)) && Stuck(Run(EMPTY, steps))
  {
    var first, w := PurgeReaches(rows, j);
    var v;
    steps, v := OtherReaches(first, w, rows, work, n);
    assert rows[i] in rows[..j];
    WaitsForNewcomer(w, 0, Locks(work), n);
    NewcomerWaits(w, 0, Locks(work), n);
    PairIsStuck(v);
  }

  /**
   No transaction locks an action and then a batch, but two can meet at an offer
   between: the purge waits for the first, the first for the second, the second for the purge.
   */
  lemma ThreeWayTable(w: LockTable, action: seq<Row>, child: seq<Row>)
    requires |w.txs| == 1 && WantsMore(w, 0) && |action| == |child| == 2
    requires Wanted(w, 0) == action[0] && action[1] == child[0] && action[0] != action[1] && child[0] != child[1]
    requires child[1] in w.owner && w.owner[child[1]] == 0 && action[0] !in w.owner && action[1] !in w.owner
    ensures var v := Advanced(Advanced(w, action, false, 1), child, false, 1);
            |v.txs| == 3 && Waits(v, 0, 1) && Waits(v, 1, 2) && Waits(v, 2, 0)
  {
    var u := Advanced(w, action, false, 1);
    assert action[..1] == [action[0]] && child[..1] == [child[0]];
    WaitsForNewcomer(w, 0, action, 1);
    StillWaits(u, 0, 1, child, 1);
    assert u.txs[1] == Transaction(action, 1, false, false);
    WaitsForNewcomer(u, 1, child, 1);
    NewcomerWaits(u, 0, child, 1);
  }

  lemma ThreeWayWait(rows: PurgeList, i: nat, j: nat, offer: nat) returns (steps: seq<Step>)
    requires FallsAt(rows, i, j) && rows[i].BatchRow? && rows[j].ActionRow? && RootRow(offer) !in rows
    ensures OnlyPurge(steps, rows) && Deadlocked(Run(EMPTY, steps)) && Stuck(Run(EMPTY, steps))
  {
    var action := DeliverCredential(None, FoundAction(rows[j].id, Some(offer)), None);
    var child := DeliverCredential(None, FoundRoot(offer, Some(rows[i].id)), None);
    assert Locks(action) == [rows[j], RootRow(offer)];
    assert Locks(child) == [RootRow(offer), rows[i]];
    var first, w := PurgeReaches(rows, j);
    assert rows[i] in rows[..j];
    var second, u := OtherReaches(first, w, rows, action, 1);
    var v;
    steps, v := OtherReaches(second, u, rows, child, 1);
    ThreeWayTable(w, Locks(action), Locks(child));
    TripleIsStuck(v);
  }

  function UnusedId(rows: seq<Row>): (n: nat)
    ensures forall r | r in rows :: r.id < n
  {
    if rows == [] then 0
    else
      var n := UnusedId(rows[1..]);
      if rows[0].id < n then n else rows[0].id + 1
  }

  /** The transaction that takes the two rows in rank order. */
  function Opposing(low: Row, high: Row, unused: nat): (work: Work)
    requires Purgeable(low) && Purgeable(high) && Rank(low) < Rank(high)
  {
    if low.ExchangeRow? then
      (match high
       case RootRow(op) => FinishOffer(Some(low.id), op, 0)
       case BatchRow(batch) => DeliverCredential(Some(low.id), FoundRoot(unused, Some(batch)), None)
       case _ => Release(low.id, high.id))
    else if low.ActionRow? then DeliverCredential(None, FoundAction(low.id, Some(high.id)), None)
    else DeliverCredential(None, FoundRoot(low.id, Some(high.id)), None)
  }

  lemma OpposingOrder(low: Row, high: Row, unused: nat) returns (n: nat)
    requires Purgeable(low) && Purgeable(high) && Rank(low) < Rank(high) && !(low.ActionRow? && high.BatchRow?)
    ensures var locks := Locks(Opposing(low, high, unused));
            && !Opposing(low, high, unused).Purge?
            && 0 < n < |locks| && locks[0] == low && locks[n] == high
            && forall k | 0 < k < n :: locks[k] == RootRow(unused)
  {
    n := if low.ExchangeRow? && high.BatchRow? then 2 else 1;
  }

  /** For every purge with a fall there are transactions that deadlock with it. */
  lemma FallingPurgeDeadlocks(rows: PurgeList) returns (steps: seq<Step>)
    requires !Rising(rows)
    ensures OnlyPurge(steps, rows) && Deadlocked(Run(EMPTY, steps)) && Stuck(Run(EMPTY, steps))
  {
    var i: nat, j: nat :| i < j < |rows| && rows[j] !in rows[..j] && Rank(rows[i]) > Rank(rows[j]);
    var low, high, unused := rows[j], rows[i], UnusedId(rows);
    assert low in rows && high in rows && RootRow(unused) !in rows;
    if low.ActionRow? && high.BatchRow? {
      steps := ThreeWayWait(rows, i, j, unused);
    } else {
      var n := OpposingOrder(low, high, unused);
      var work := Opposing(low, high, unused);
      assert Locks(work)[0] in Locks(work)[..n];
      steps := TwoWayWait(rows, i, j, work, n);
    }
  }

  /** Whatever lists a purge may carry: no run deadlocks if and only if none of them falls. */
  lemma NeverDeadlocksIffPurgesRise(purges: iset<PurgeList>)
    ensures AllRising(purges) <==> forall steps | PurgesFrom(steps, purges) :: !Deadlocked(Run(EMPTY, steps))
  {
    if AllRising(purges) {
      forall steps, chain | PurgesFrom(steps, purges) ensures !WaitCycle(Run(EMPTY, steps), chain) {
        NoDeadlock(steps, purges, chain);
      }
    } else {
      var rows :| rows in purges && !Rising(rows);
      var steps := FallingPurgeDeadlocks(rows);
      assert PurgesFrom(steps, purges);
    }
  }

  /** The same for progress: some open transaction can always go on if and only if no purge falls. */
  lemma AlwaysProgressesIffPurgesRise(purges: iset<PurgeList>)
    ensures AllRising(purges) <==> forall steps | PurgesFrom(steps, purges) :: !Stuck(Run(EMPTY, steps))
  {
    if AllRising(purges) {
      forall steps | PurgesFrom(steps, purges) ensures !Stuck(Run(EMPTY, steps)) {
        if t: Tid :| Open(Run(EMPTY, steps), t) {
          SomeTransactionCanAlwaysProceed(steps, purges, t);
        }
      }
    } else {
      var rows :| rows in purges && !Rising(rows);
      var steps := FallingPurgeDeadlocks(rows);
      assert PurgesFrom(steps, purges);
    }
  }

  lemma AdvancingOnce(work: Work, t: Tid)
    ensures Advancing(work, t, 1) == [Begin(work), Take(t)]
  {
  }

  lemma ReleaseOpposesPurge(exchange: nat, op: nat, rows: PurgeList) returns (steps: seq<Step>)
    requires rows == [ActionRow(op), ExchangeRow(exchange)]
    ensures steps == Advancing(Purge(rows), 0, 1) + Advancing(Release(exchange, op), 1, 1)
    ensures Waits(Run(EMPTY, steps), 0, 1) && Waits(Run(EMPTY, steps), 1, 0)
  {
    var locks := Locks(Release(exchange, op));
    assert locks == [ExchangeRow(exchange), ActionRow(op)];
    assert locks[..1] == [ExchangeRow(exchange)] && rows[..1] == [ActionRow(op)];
    steps := TwoWayWait(rows, 0, 1, Release(exchange, op), 1);
  }

  /** The purge of an issue operation its exchange still names, against the release of that exchange. */
  lemma PurgeAndReleaseCanDeadlock(exchange: nat, op: nat) returns (w: LockTable)
    ensures var purge := Purge([ActionRow(op), ExchangeRow(exchange)]);
            w == Run(EMPTY, [Begin(purge), Take(0), Begin(Release(exchange, op)), Take(1)])
    ensures Waits(w, 0, 1) && Waits(w, 1, 0)
  {
    var rows: PurgeList := [ActionRow(op), ExchangeRow(exchange)];
    var steps := ReleaseOpposesPurge(exchange, op, rows);
    AdvancingOnce(Purge(rows), 0);
    AdvancingOnce(Release(exchange, op), 1);
    assert steps == [Begin(Purge(rows)), Take(0), Begin(Release(exchange, op)), Take(1)];
    w := Run(EMPTY, steps);
  }
}
