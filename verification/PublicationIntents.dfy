/**
 The anoncreds_publication_intent table and the workers that publish through it.
 Any number of workers, for definitions that may share a schema, claim a key,
 call the backend, and record what they learned; each may crash at any point.
 */
module PublicationIntents {
  import opened Wrappers

  type Id = nat

  /** What makes two publications the same artifact; the stored key is its digest. */
  datatype Artifact =
    | Schema(issuer: string, name: string, version: string)
    | CredentialDefinition(issuer: string, schemaId: string, tag: string)

  datatype Key = Key(tenant: Id, connector: Id, artifact: Artifact)

  datatype IntentState = Publishing | Submitted | Rejected

  datatype SubmissionState = Finished | Wait | Action | Failed

  datatype Submission = Submission(state: SubmissionState, id: string, jobId: string, transactionId: string)

  /** A backend call answers, or throws with an HTTP status when there was a response. */
  datatype Response = Answer(submission: Submission) | Throw(status: Option<int>)

  /** A 4xx other than a timeout or a rate limit. */
  predicate DefinitiveStatus(status: Option<int>) {
    status.Some? && 400 <= status.value < 500 && status.value != 408 && status.value != 429
  }

  /** The backend certainly did not take the artifact. */
  predicate ConclusivelyRejected(r: Response) {
    match r
    case Answer(submission) => submission.state == Failed
    case Throw(status) => DefinitiveStatus(status)
  }

  /** What a worker writes back; a missing or doubtful response writes nothing. */
  function RecordedAs(r: Response): Option<IntentState> {
    match r
    case Answer(submission) => Some(if submission.state == Failed then Rejected else Submitted)
    case Throw(status) => if DefinitiveStatus(status) then Some(Rejected) else None
  }

  // ------------------------------------------------------------- one table

  /** `INSERT ... ON CONFLICT DO UPDATE ... WHERE state = 'rejected' RETURNING`. */
  predicate Claimable(intents: map<Key, IntentState>, key: Key) {
    key !in intents || intents[key] == Rejected
  }

  class IntentTable {
    var intents: map<Key, IntentState>
    /** Backend publish calls made through this table. */
    var published: seq<Key>

    method Claim(key: Key) returns (claimed: bool)
      modifies this`intents
      ensures claimed == Claimable(old(intents), key)
      ensures intents == if claimed then old(intents)[key := Publishing] else old(intents)
    {
      if key !in intents {
        intents := intents[key := Publishing];
        return true;
      }
      if intents[key] == Rejected {
        intents := intents[key := Publishing];
        return true;
      }
      claimed := false;
    }

    method Record(key: Key, state: IntentState)
      modifies this`intents
      ensures intents == if key in old(intents) then old(intents)[key := state] else old(intents)
    {
      if key in intents {
        intents := intents[key := state];
      }
    }

    /**
     One publication attempt with nobody else in between. The backend is called
     exactly when the key could be claimed, and the key stays closed to further
     calls exactly when this one was not conclusively rejected.
     */
    method Publish(key: Key, response: Response) returns (result: Result<Option<Submission>, Option<int>>)
      modifies this
      ensures published == if Claimable(old(intents), key) then old(published) + [key] else old(published)
      ensures result == if !Claimable(old(intents), key) then Ok(None)
                        else match response
                             case Answer(submission) => Ok(Some(submission))
                             case Throw(status) => Err(status)
      ensures Claimable(intents, key) <==> Claimable(old(intents), key) && ConclusivelyRejected(response)
      ensures forall k | k != key ::
                (k in intents <==> k in old(intents)) && (k in intents ==> intents[k] == old(intents)[k])
    {
      var claimed := Claim(key);
      if !claimed {
        return Ok(None);
      }
      published := published + [key];
      match response {
        case Throw(status) =>
          if DefinitiveStatus(status) {
            Record(key, Rejected);
          }
          result := Err(status);
        case Answer(submission) =>
          Record(key, if submission.state == Failed then Rejected else Submitted);
          result := Ok(Some(submission));
      }
    }
  }

  // --------------------------------------------------------- many workers

  datatype Worker =
    | Claimed(key: Key)
    | Calling(key: Key, call: nat)
    | Heard(key: Key, call: nat, response: Response)

  datatype Call = Call(key: Key, rejected: bool)

  datatype World = World(intents: map<Key, IntentState>, workers: map<Id, Worker>, calls: seq<Call>)

  datatype Step =
    | ClaimKey(worker: Id, key: Key)
    | CallBackend(worker: Id)
    | Hear(worker: Id, response: Response)
    | RecordOutcome(worker: Id)
    | Crash(worker: Id)

  function Stop(w: World, worker: Id): World {
    w.(workers := w.workers - {worker})
  }

  function Next(w: World, step: Step): World {
    match step
    case ClaimKey(worker, key) =>
      if worker in w.workers || !Claimable(w.intents, key) then w
      else w.(intents := w.intents[key := Publishing], workers := w.workers[worker := Claimed(key)])
    case CallBackend(worker) =>
      if worker in w.workers && w.workers[worker].Claimed? then
        var key := w.workers[worker].key;
        w.(workers := w.workers[worker := Calling(key, |w.calls|)], calls := w.calls + [Call(key, false)])
      else w
    case Hear(worker, response) =>
      if worker in w.workers && w.workers[worker].Calling? && w.workers[worker].call < |w.calls| then
        var Calling(key, i) := w.workers[worker];
        w.(workers := w.workers[worker := Heard(key, i, response)],
           calls := w.calls[i := Call(key, ConclusivelyRejected(response))])
      else w
    case RecordOutcome(worker) =>
      if worker in w.workers && w.workers[worker].Heard? then
        var Heard(key, _, response) := w.workers[worker];
        var recorded := RecordedAs(response);
        Stop(if recorded.Some? && key in w.intents then w.(intents := w.intents[key := recorded.value]) else w, worker)
      else w
    case Crash(worker) => Stop(w, worker)
  }

  function Run(w: World, steps: seq<Step>): World
    decreases |steps|
  {
    if steps == [] then w else Run(Next(w, steps[0]), steps[1..])
  }

  /** Before any call of this release: the table may already hold migrated rows. */
  predicate Initial(w: World) {
    w.workers == map[] && w.calls == []
  }

  ghost predicate OthersRejected(calls: seq<Call>, key: Key, k: int) {
    forall i | 0 <= i < |calls| && i != k && calls[i].key == key :: calls[i].rejected
  }

  ghost predicate WorkerOk(w: World, worker: Worker) {
    && worker.key in w.intents && w.intents[worker.key] == Publishing
    && match worker
       case Claimed(key) => OthersRejected(w.calls, key, -1)
       case Calling(key, i) => i < |w.calls| && w.calls[i] == Call(key, false) && OthersRejected(w.calls, key, i)
       case Heard(key, i, response) =>
         i < |w.calls| && w.calls[i] == Call(key, ConclusivelyRejected(response)) && OthersRejected(w.calls, key, i)
  }

  ghost predicate Inv(w: World) {
    && (forall i | i in w.workers :: WorkerOk(w, w.workers[i]))
    && (forall i, j | i in w.workers && j in w.workers && w.workers[i].key == w.workers[j].key :: i == j)
    && (forall key: Key | Claimable(w.intents, key) :: OthersRejected(w.calls, key, -1))
    && (forall i, j | 0 <= i < j < |w.calls| && w.calls[i].key == w.calls[j].key :: w.calls[i].rejected)
  }

  lemma CallKeepsInv(w: World, worker: Id)
    requires Inv(w)
    ensures Inv(Next(w, CallBackend(worker)))
  {
    var v := Next(w, CallBackend(worker));
    forall i | i in v.workers ensures WorkerOk(v, v.workers[i]) {
      assert WorkerOk(w, w.workers[i]);
    }
  }

  lemma HearKeepsInv(w: World, worker: Id, response: Response)
    requires Inv(w)
    ensures Inv(Next(w, Hear(worker, response)))
  {
    var v := Next(w, Hear(worker, response));
    forall i | i in v.workers ensures WorkerOk(v, v.workers[i]) {
      assert WorkerOk(w, w.workers[i]);
    }
  }

  lemma RecordKeepsInv(w: World, worker: Id)
    requires Inv(w)
    ensures Inv(Next(w, RecordOutcome(worker)))
  {
    var v := Next(w, RecordOutcome(worker));
    forall i | i in v.workers ensures WorkerOk(v, v.workers[i]) {
      assert WorkerOk(w, w.workers[i]);
    }
    if worker in w.workers {
      assert WorkerOk(w, w.workers[worker]);
    }
  }

  lemma NextKeepsInv(w: World, step: Step)
    requires Inv(w)
    ensures Inv(Next(w, step))
  {
    match step {
      case CallBackend(worker) => CallKeepsInv(w, worker);
      case Hear(worker, response) => HearKeepsInv(w, worker, response);
      case RecordOutcome(worker) => RecordKeepsInv(w, worker);
      case _ =>
        var v := Next(w, step);
        forall i | i in v.workers ensures WorkerOk(v, v.workers[i]) {
          assert i in w.workers ==> WorkerOk(w, w.workers[i]);
        }
    }
  }

  lemma {:induction false} RunKeepsInv(w: World, steps: seq<Step>)
    requires Inv(w)
    ensures Inv(Run(w, steps))
    decreases |steps|
  {
    if steps != [] {
      NextKeepsInv(w, steps[0]);
      RunKeepsInv(Next(w, steps[0]), steps[1..]);
    }
  }

  /**
   Publication safety. Whatever the interleaving, of two publish calls for the
   same artifact the earlier one was conclusively rejected.
   */
  lemma RepublishedOnlyAfterRejection(w: World, steps: seq<Step>, i: nat, j: nat)
    requires Initial(w)
    requires i < j < |Run(w, steps).calls| && Run(w, steps).calls[i].key == Run(w, steps).calls[j].key
    ensures Run(w, steps).calls[i].rejected
  {
    RunKeepsInv(w, steps);
  }

  /** A key whose last call is unanswered, doubtful or accepted admits no further claim. */
  lemma UnrejectedCallClosesKey(w: World, steps: seq<Step>, i: nat)
    requires Initial(w)
    requires i < |Run(w, steps).calls| && !Run(w, steps).calls[i].rejected
    ensures !Claimable(Run(w, steps).intents, Run(w, steps).calls[i].key)
  {
    RunKeepsInv(w, steps);
  }
}
