/**
 The life of one AnonCreds credential definition, statement by statement. A
 registration pass is a running job that moves through its own transactions and
 backend calls; edits, create replays, deletions and operation purges happen
 between any two of them, and the worker may crash anywhere. The queue's policy
 allows one waiting and one running job per definition, and never retries.
 */
module RegistrationRuns {
  import opened Wrappers
  import SM = StateMapping
  import RW = RegistrationWorker
  import PI = PublicationIntents
  import DL = DefinitionLifecycle

  type Id = nat

  /** The worker's copy of the row, taken when the job starts. */
  datatype Copy = Copy(
    checks: nat, operation: Id, settings: RW.Settings, active: bool, registration: RW.Registration, externalId: string)

  /** What follows a saved progress: the next stage, another poll, or failure. */
  datatype Then = GoOn | Wait | Fail

  /** Where a pass stands. */
  datatype At =
    | Loaded
    | Alive
    | Started
    | SchemaLookup
    | SchemaClaim
    | SchemaCall
    | SchemaReply(response: PI.Response)
    | SchemaSave(after: Then)
    | DefinitionLookup
    | DefinitionClaim
    | DefinitionCall
    | DefinitionReply(response: PI.Response)
    | DefinitionSave(after: Then)
    | Revocation
    | Finish(state: RW.RegistrationState)

  /** A running job; Bare has nothing to register and only fails the row. */
  datatype Pass = Bare(checks: nat) | Pass(copy: Copy, at: At, verified: bool)

  /** A publish call on the wire. */
  datatype Call = SchemaPublished | DefinitionPublished(schemaId: string)

  datatype World = World(record: DL.Record, pass: Option<Pass>, calls: seq<Call>)

  /** What the outside answers at one step; each step reads the field it asks for. */
  datatype Reply = Reply(
    resolves: bool, issuer: Option<string>, schemaResolves: bool, lookup: RW.Lookup, claimed: bool,
    response: PI.Response, ready: Option<bool>)

  datatype Event =
    | Edited(dto: DL.EditRequest, ctx: DL.EditContext)
    | Replayed(request: DL.CreateRequest)
    | Deleted
    | Purged(operation: Id)
    | Begin
    | Advance(reply: Reply)
    | Crash

  // ------------------------------------------------------------- transactions

  function Row(w: World): RW.Definition {
    w.record.tables.row
  }

  function WithTables(w: World, t: RW.Tables): World {
    w.(record := w.record.(tables := t))
  }

  function Goto(w: World, p: Pass, at: At): World
    requires p.Pass?
  {
    w.(pass := Some(p.(at := at)))
  }

  function Ended(w: World): World {
    w.(pass := None)
  }

  /** A waiting job starts once no other is running; a row that is not pending needs no pass. */
  function BeginJob(w: World): World {
    if w.pass.Some? || w.record.tables.queued.None? then w
    else
      var checks := w.record.tables.queued.value;
      var row := Row(w);
      var taken := WithTables(w, w.record.tables.(queued := None));
      if row.state != RW.Pending then taken
      else if row.registration.None? || row.operation.None? then taken.(pass := Some(Bare(checks)))
      else
        var copy :=
          Copy(checks, row.operation.value, row.settings, row.active, row.registration.value, row.externalId);
        taken.(pass := Some(Pass(copy, Loaded, false)))
  }

  /** The transaction that marks the operation as processing; a missing operation throws. */
  function Processing(w: World, p: Pass): World
    requires p.Pass?
  {
    var t := w.record.tables;
    if p.copy.operation !in t.operations then Goto(w, p, Finish(RW.RegistrationState.Failed))
    else Goto(WithTables(w, t.(operations := t.operations[p.copy.operation := SM.Processing])), p, Started)
  }

  function WithSchema(p: Pass, progress: RW.Progress): (q: Pass)
    requires p.Pass?
    ensures q.Pass?
  {
    p.(copy := p.copy.(registration := p.copy.registration.(schema := progress)))
  }

  function WithDefinition(p: Pass, progress: RW.Progress): (q: Pass)
    requires p.Pass?
    ensures q.Pass?
  {
    p.(copy := p.copy.(registration := p.copy.registration.(definition := progress)))
  }

  function AfterSchemaLookup(p: Pass, reply: Reply): Pass
    requires p.Pass?
  {
    var progress := p.copy.registration.schema;
    if progress.state == Some(PI.Finished) then
      p.(at := if progress.id != "" && reply.schemaResolves then DefinitionLookup
               else Finish(RW.RegistrationState.Failed))
    else
      match reply.lookup
      case Unavailable => p.(at := Finish(RW.RegistrationState.Failed))
      case Found(id) =>
        var found := WithSchema(p, progress.(id := id, state := Some(PI.Finished)));
        found.(at := SchemaSave(if id == "" then Wait else GoOn))
      case Absent => p.(at := if RW.HasSubmission(progress) then Finish(RW.Pending) else SchemaClaim)
  }

  function AfterDefinitionLookup(p: Pass, reply: Reply): Pass
    requires p.Pass?
  {
    var progress := p.copy.registration.definition;
    if reply.lookup.Unavailable? then p.(at := Finish(RW.RegistrationState.Failed))
    else if reply.lookup.Found? && reply.lookup.id != "" then
      var found := WithDefinition(p, progress.(id := reply.lookup.id, state := Some(PI.Finished)));
      found.(copy := found.copy.(externalId := reply.lookup.id), at := DefinitionSave(GoOn))
    else if RW.HasSubmission(progress) then
      p.(at := Finish(if progress.state == Some(PI.Finished) && progress.id == "" then RW.RegistrationState.Failed
                      else RW.Pending))
    else p.(at := DefinitionClaim)
  }

  function ThenFor(s: PI.Submission): Then {
    if s.state == PI.Failed then Fail else if s.state != PI.Finished then Wait else if s.id == "" then Fail else GoOn
  }

  function AfterSchemaReply(p: Pass, response: PI.Response): Pass
    requires p.Pass?
  {
    match response
    case Throw(_) => p.(at := Finish(RW.RegistrationState.Failed))
    case Answer(s) => WithSchema(p, RW.ToProgress(s)).(at := SchemaSave(ThenFor(s)))
  }

  /** A definition reported finished without an id is not saved before the failure. */
  function AfterDefinitionReply(p: Pass, response: PI.Response): Pass
    requires p.Pass?
  {
    match response
    case Throw(_) => p.(at := Finish(RW.RegistrationState.Failed))
    case Answer(s) =>
      var heard := WithDefinition(p, RW.ToProgress(s));
      if s.state == PI.Finished && s.id == "" then heard.(at := Finish(RW.RegistrationState.Failed))
      else if s.state == PI.Finished then heard.(copy := heard.copy.(externalId := s.id), at := DefinitionSave(GoOn))
      else heard.(at := DefinitionSave(ThenFor(s)))
  }

  function Follow(after: Then, onward: At): At {
    match after
    case GoOn => onward
    case Wait => Finish(RW.Pending)
    case Fail => Finish(RW.RegistrationState.Failed)
  }

  function SaveProgress(w: World, p: Pass, next: At): World
    requires p.Pass?
  {
    match RW.Save(w.record.tables, p.copy.registration, p.copy.externalId)
    case None => Goto(w, p, Finish(RW.RegistrationState.Failed))
    case Some(t) => Goto(WithTables(w, t), p, next)
  }

  function AfterRevocation(p: Pass, reply: Reply): Pass
    requires p.Pass?
  {
    if !RW.Revocable(p.copy.settings.options) then p.(at := Finish(RW.Ready))
    else match reply.ready
         case None => p.(at := Finish(RW.RegistrationState.Failed))
         case Some(ready) => p.(verified := ready, at := Finish(if ready then RW.Ready else RW.Pending))
  }

  /** The state a pass asks for, once polling past the limit counts as failing. */
  function Bounded(checks: nat, state: RW.RegistrationState): RW.RegistrationState {
    if state == RW.Pending && checks >= RW.MAX_WAIT_CHECKS then RW.RegistrationState.Failed else state
  }

  /** The final transaction. When it throws, failing is tried in its place; when that throws too, the job dies. */
  function Settled(w: World, p: Pass, state: RW.RegistrationState): World
    requires p.Pass?
  {
    var c := p.copy;
    match RW.Settle(w.record.tables, c.operation, c.checks, c.registration, c.externalId, state)
    case Some(t) => Ended(WithTables(w, t))
    case None =>
      if state == RW.RegistrationState.Failed then Ended(w) else Goto(w, p, Finish(RW.RegistrationState.Failed))
  }

  function Called(w: World, call: Call): World {
    w.(calls := w.calls + [call])
  }

  function AdvancePass(w: World, p: Pass, reply: Reply): World
    requires p.Pass?
  {
    var c := p.copy;
    match p.at
    case Loaded =>
      var operations := w.record.tables.operations;
      if c.operation !in operations || operations[c.operation] == SM.OperationState.Failed
      then w.(pass := Some(Bare(c.checks))) else Goto(w, p, Alive)
    case Alive =>
      if !c.active || c.settings.connector.None? || !reply.resolves then Goto(w, p, Finish(RW.RegistrationState.Failed))
      else Processing(w, p)
    case Started =>
      Goto(w, p, if reply.issuer == Some(c.registration.issuer) then SchemaLookup
                 else Finish(RW.RegistrationState.Failed))
    case SchemaLookup => w.(pass := Some(AfterSchemaLookup(p, reply)))
    case SchemaClaim => Goto(w, p, if reply.claimed then SchemaCall else Finish(RW.Pending))
    case SchemaCall => Called(Goto(w, p, SchemaReply(reply.response)), SchemaPublished)
    case SchemaReply(response) => w.(pass := Some(AfterSchemaReply(p, response)))
    case SchemaSave(after) => SaveProgress(w, p, Follow(after, DefinitionLookup))
    case DefinitionLookup => w.(pass := Some(AfterDefinitionLookup(p, reply)))
    case DefinitionClaim => Goto(w, p, if reply.claimed then DefinitionCall else Finish(RW.Pending))
    case DefinitionCall =>
      Called(Goto(w, p, DefinitionReply(reply.response)), DefinitionPublished(c.registration.schema.id))
    case DefinitionReply(response) => w.(pass := Some(AfterDefinitionReply(p, response)))
    case DefinitionSave(after) => SaveProgress(w, p, Follow(after, Revocation))
    case Revocation => w.(pass := Some(AfterRevocation(p, reply)))
    case Finish(state) => Settled(w, p, Bounded(c.checks, state))
  }

  function FailRow(w: World): World {
    var t := w.record.tables;
    Ended(WithTables(w, t.(row := t.row.(state := RW.RegistrationState.Failed))))
  }

  function Next(w: World, event: Event): World {
    var t := w.record.tables;
    match event
    case Edited(dto, ctx) => (match DL.Edit(w.record, dto, ctx) case Ok(r) => w.(record := r) case Err(_) => w)
    case Replayed(dto) => (match DL.Replay(w.record, dto) case Ok(r) => w.(record := r) case Err(_) => w)
    case Deleted => WithTables(w, t.(row := t.row.(active := false)))
    case Purged(operation) => WithTables(w, t.(operations := t.operations - {operation}))
    case Begin => BeginJob(w)
    case Advance(reply) =>
      if w.pass.None? then w
      else if w.pass.value.Bare? then FailRow(w)
      else AdvancePass(w, w.pass.value, reply)
    case Crash => Ended(w)
  }

  function Run(w: World, events: seq<Event>): World
    decreases |events|
  {
    if events == [] then w else Run(Next(w, events[0]), events[1..])
  }

  // --------------------------------------------------------------- invariant

  /** What the stage of a pass says about its copy. */
  ghost predicate StageOk(p: Pass)
    requires p.Pass?
  {
    var reg := p.copy.registration;
    match p.at
    case SchemaClaim => !RW.Finished(reg.schema) && !RW.HasSubmission(reg.schema)
    case SchemaCall => !RW.Finished(reg.schema) && !RW.HasSubmission(reg.schema)
    case SchemaReply(_) => !RW.Finished(reg.schema)
    case SchemaSave(after) => after.GoOn? ==> RW.Finished(reg.schema)
    case DefinitionLookup => RW.Finished(reg.schema)
    case DefinitionClaim => RW.Finished(reg.schema) && !RW.HasSubmission(reg.definition)
    case DefinitionCall => RW.Finished(reg.schema) && !RW.HasSubmission(reg.definition)
    case DefinitionReply(_) => RW.Finished(reg.schema)
    case DefinitionSave(after) => RW.Finished(reg.schema) && (after.GoOn? ==> Complete(p.copy))
    case Revocation => Complete(p.copy)
    case Finish(state) =>
      && state != RW.Unverified
      && (state == RW.Ready ==> Complete(p.copy) && (RW.Revocable(p.copy.settings.options) ==> p.verified))
    case _ => true
  }

  /** Everything a ready definition must have, in the worker's copy. */
  ghost predicate Complete(c: Copy) {
    && RW.Finished(c.registration.schema) && RW.Finished(c.registration.definition)
    && c.externalId == c.registration.definition.id
  }

  /** The copy is of the current registration, and knows of every schema the row records as finished. */
  ghost predicate CopyOk(w: World, c: Copy) {
    var row := Row(w);
    && row.registration.Some? && row.operation == Some(c.operation) && row.settings == c.settings
    && row.registration.value.issuer == c.registration.issuer
    && (RW.Finished(row.registration.value.schema) ==> c.registration.schema == row.registration.value.schema)
  }

  /** From the definition stages on, the row itself records the finished schema. */
  predicate PastSchema(at: At) {
    || at.DefinitionLookup? || at.DefinitionClaim? || at.DefinitionCall? || at.DefinitionReply?
    || at.DefinitionSave? || at.Revocation?
  }

  /** Until a schema reply is heard, the copy is still what the row records. */
  predicate BeforeSchema(at: At) {
    at.Loaded? || at.Alive? || at.Started? || at.SchemaLookup? || at.SchemaClaim? || at.SchemaCall? || at.SchemaReply?
  }

  function Checks(p: Pass): nat {
    if p.Bare? then p.checks else p.copy.checks
  }

  ghost predicate PassOk(w: World, p: Pass) {
    && Row(w).state == RW.Pending
    && Checks(p) <= RW.MAX_WAIT_CHECKS
    && (p.Pass? ==>
          && StageOk(p) && CopyOk(w, p.copy)
          && (PastSchema(p.at) ==> RW.Finished(Row(w).registration.value.schema))
          && (BeforeSchema(p.at) ==> Row(w).registration == Some(p.copy.registration)))
  }

  ghost predicate Inv(w: World) {
    && DL.Sound(w.record)
    && (w.record.tables.queued.Some? ==> w.record.tables.queued.value <= RW.MAX_WAIT_CHECKS)
    && (w.pass.Some? ==> PassOk(w, w.pass.value))
  }

  // -------------------------------------------------------- one step at a time

  lemma BeginKeepsInv(w: World)
    requires Inv(w)
    ensures Inv(BeginJob(w)) && DL.Onward(w.record, BeginJob(w).record)
  {
  }

  lemma EditKeepsInv(w: World, dto: DL.EditRequest, ctx: DL.EditContext)
    requires Inv(w) && DL.Edit(w.record, dto, ctx).Ok?
    ensures Inv(w.(record := DL.Edit(w.record, dto, ctx).value))
    ensures DL.Onward(w.record, DL.Edit(w.record, dto, ctx).value)
  {
    DL.EditIsOnward(w.record, dto, ctx);
    EditKeepsState(w.record, dto, ctx);
  }

  lemma ReplayKeepsInv(w: World, dto: DL.CreateRequest)
    requires Inv(w) && DL.Replay(w.record, dto).Ok?
    ensures Inv(w.(record := DL.Replay(w.record, dto).value))
    ensures DL.Onward(w.record, DL.Replay(w.record, dto).value)
  {
    DL.ReplayIsOnward(w.record, dto);
  }

  /** The service's own transactions leave a running pass's copy of the row good. */
  lemma ServiceKeepsInv(w: World, event: Event)
    requires Inv(w) && (event.Edited? || event.Replayed? || event.Deleted? || event.Purged?)
    ensures Inv(Next(w, event)) && DL.Onward(w.record, Next(w, event).record)
  {
    match event {
      case Edited(dto, ctx) => if DL.Edit(w.record, dto, ctx).Ok? { EditKeepsInv(w, dto, ctx); }
      case Replayed(dto) => if DL.Replay(w.record, dto).Ok? { ReplayKeepsInv(w, dto); }
      case _ =>
    }
  }

  lemma SavedRowKeepsInv(w: World, p: Pass, next: At)
    requires Inv(w) && w.pass == Some(p) && p.Pass? && Row(w).active && !BeforeSchema(next)
    requires StageOk(p.(at := next)) && (PastSchema(next) ==> RW.Finished(p.copy.registration.schema))
    ensures var t := RW.Save(w.record.tables, p.copy.registration, p.copy.externalId).value;
            Inv(Goto(WithTables(w, t), p, next)) && DL.Onward(w.record, WithTables(w, t).record)
  {
  }

  lemma SaveKeepsInv(w: World, p: Pass, next: At)
    requires Inv(w) && w.pass == Some(p) && p.Pass? && !BeforeSchema(next)
    requires StageOk(p.(at := next)) && (PastSchema(next) ==> RW.Finished(p.copy.registration.schema))
    ensures Inv(SaveProgress(w, p, next)) && DL.Onward(w.record, SaveProgress(w, p, next).record)
  {
    if Row(w).active {
      SavedRowKeepsInv(w, p, next);
    } else {
      MoveKeepsInv(w, p, p.(at := Finish(RW.RegistrationState.Failed)));
    }
  }

  lemma SettledKeepsInv(w: World, p: Pass, state: RW.RegistrationState)
    requires Inv(w) && w.pass == Some(p) && p.Pass? && StageOk(p.(at := Finish(state)))
    ensures Inv(Settled(w, p, state)) && DL.Onward(w.record, Settled(w, p, state).record)
  {
  }

  /** The same job, further on, with a schema it knew to be finished left alone. */
  ghost predicate MovesOn(p: Pass, q: Pass)
    requires p.Pass?
  {
    && q.Pass? && StageOk(q)
    && q.copy.operation == p.copy.operation && q.copy.settings == p.copy.settings && q.copy.checks == p.copy.checks
    && q.copy.registration.issuer == p.copy.registration.issuer
    && (RW.Finished(p.copy.registration.schema) ==> q.copy.registration.schema == p.copy.registration.schema)
    && (BeforeSchema(q.at) ==> BeforeSchema(p.at) && q.copy.registration == p.copy.registration)
    && (PastSchema(q.at) ==> PastSchema(p.at) || (BeforeSchema(p.at) && RW.Finished(p.copy.registration.schema)))
  }

  lemma MoveKeepsInv(w: World, p: Pass, q: Pass)
    requires Inv(w) && w.pass == Some(p) && p.Pass? && MovesOn(p, q)
    ensures Inv(w.(pass := Some(q)))
  {
  }

  lemma LookupsMoveOn(p: Pass, reply: Reply)
    requires p.Pass? && StageOk(p)
    ensures p.at.SchemaLookup? ==> MovesOn(p, AfterSchemaLookup(p, reply))
    ensures p.at.DefinitionLookup? ==> MovesOn(p, AfterDefinitionLookup(p, reply))
  {
  }

  lemma RepliesMoveOn(p: Pass, reply: Reply)
    requires p.Pass? && StageOk(p)
    ensures p.at.SchemaReply? ==> MovesOn(p, AfterSchemaReply(p, p.at.response))
    ensures p.at.DefinitionReply? ==> MovesOn(p, AfterDefinitionReply(p, p.at.response))
    ensures p.at.Revocation? ==> MovesOn(p, AfterRevocation(p, reply))
  {
  }

  /** The steps of a pass that touch no table. */
  predicate InMemory(at: At) {
    !at.SchemaSave? && !at.DefinitionSave? && !at.Finish? && !at.Loaded? && !at.Alive?
  }

  lemma AdvanceInMemory(w: World, p: Pass, reply: Reply)
    requires Inv(w) && w.pass == Some(p) && p.Pass? && InMemory(p.at)
    ensures var v := AdvancePass(w, p, reply);
            v.record == w.record && v.pass.Some? && MovesOn(p, v.pass.value) && Inv(v)
  {
    LookupsMoveOn(p, reply);
    RepliesMoveOn(p, reply);
    var v := AdvancePass(w, p, reply);
    MoveKeepsInv(w, p, v.pass.value);
  }

  lemma StartKeepsInv(w: World, p: Pass, reply: Reply)
    requires Inv(w) && w.pass == Some(p) && p.Pass? && (p.at.Loaded? || p.at.Alive?)
    ensures Inv(AdvancePass(w, p, reply)) && DL.Onward(w.record, AdvancePass(w, p, reply).record)
  {
  }

  lemma AdvanceKeepsInv(w: World, p: Pass, reply: Reply)
    requires Inv(w) && w.pass == Some(p) && p.Pass?
    ensures Inv(AdvancePass(w, p, reply)) && DL.Onward(w.record, AdvancePass(w, p, reply).record)
  {
    match p.at {
      case Loaded => StartKeepsInv(w, p, reply);
      case Alive => StartKeepsInv(w, p, reply);
      case SchemaSave(after) => SaveKeepsInv(w, p, Follow(after, DefinitionLookup));
      case DefinitionSave(after) => SaveKeepsInv(w, p, Follow(after, Revocation));
      case Finish(state) => SettledKeepsInv(w, p, Bounded(p.copy.checks, state));
      case _ => AdvanceInMemory(w, p, reply);
    }
  }

  lemma NextKeepsInv(w: World, event: Event)
    requires Inv(w)
    ensures Inv(Next(w, event)) && DL.Onward(w.record, Next(w, event).record)
  {
    match event {
      case Begin => BeginKeepsInv(w);
      case Advance(reply) =>
        if w.pass.Some? && w.pass.value.Pass? {
          AdvanceKeepsInv(w, w.pass.value, reply);
        }
      case Crash =>
      case _ => ServiceKeepsInv(w, event);
    }
  }

  // --------------------------------------------------------------------- runs

  lemma {:induction false} RunKeepsInv(w: World, events: seq<Event>)
    requires Inv(w)
    ensures Inv(Run(w, events)) && DL.Onward(w.record, Run(w, events).record)
    decreases |events|
  {
    if events != [] {
      var v := Next(w, events[0]);
      NextKeepsInv(w, events[0]);
      RunKeepsInv(v, events[1..]);
      DL.OnwardIsTransitive(w.record, v.record, Run(v, events[1..]).record);
    }
  }

  lemma {:induction false} RunSplits(w: World, xs: seq<Event>, ys: seq<Event>)
    ensures Run(w, xs + ys) == Run(Run(w, xs), ys)
    decreases |xs|
  {
    if xs == [] {
      assert xs + ys == ys;
    } else {
      assert (xs + ys)[0] == xs[0] && (xs + ys)[1..] == xs[1..] + ys;
      RunSplits(Next(w, xs[0]), xs[1..], ys);
    }
  }

  /**
   The lifecycle theorem: between any two moments of any run, status moved only
   forward; once out of draft, schema, connector and options stayed put; a
   finished schema stayed finished under the same id; and ready stayed ready.
   */
  lemma RunIsOnward(w: World, earlier: seq<Event>, later: seq<Event>)
    requires Inv(w)
    ensures DL.Onward(Run(w, earlier).record, Run(w, earlier + later).record)
  {
    RunSplits(w, earlier, later);
    RunKeepsInv(w, earlier);
    RunKeepsInv(Run(w, earlier), later);
  }

  /**
   Becoming ready, in any run: the step is the final transaction of a pass, both
   artifacts are recorded as finished, the external id is the definition's,
   revocation was heard ready in this pass when enabled, and the operation the
   row names is completed by the same step.
   */
  lemma BecomesReadyOnlyRegistered(start: World, events: seq<Event>, event: Event)
    requires Inv(start)
    requires var w := Run(start, events); Row(w).state != RW.Ready && Row(Next(w, event)).state == RW.Ready
    ensures var w := Run(start, events);
            && event.Advance? && w.pass.Some? && w.pass.value.Pass? && w.pass.value.at == Finish(RW.Ready)
            && RW.Registered(Row(Next(w, event)))
            && (RW.Revocable(Row(Next(w, event)).settings.options) ==> w.pass.value.verified)
            && DL.CurrentOperation(Next(w, event).record) == Some(SM.Completed)
  {
    RunKeepsInv(start, events);
    StepToReady(Run(start, events), event);
  }

  /** Nothing but the worker makes a definition ready. */
  lemma OnlyAdvanceMakesReady(w: World, event: Event)
    requires Inv(w) && Row(w).state != RW.Ready && !event.Advance?
    ensures Row(Next(w, event)).state != RW.Ready
  {
    match event {
      case Edited(dto, ctx) => if DL.Edit(w.record, dto, ctx).Ok? { EditKeepsState(w.record, dto, ctx); }
      case Replayed(dto) => if DL.Replay(w.record, dto).Ok? { ReplayNeverReadies(w.record, dto); }
      case _ =>
    }
  }

  lemma EditKeepsState(r: DL.Record, dto: DL.EditRequest, ctx: DL.EditContext)
    requires DL.Edit(r, dto, ctx).Ok?
    ensures var e := DL.Edit(r, dto, ctx).value;
            && e.tables == r.tables.(row := e.tables.row)
            && e.tables.row == r.tables.row.(settings := e.tables.row.settings)
            && (r.status != DL.Draft ==> e.tables == r.tables)
  {
  }

  lemma ReplayNeverReadies(r: DL.Record, dto: DL.CreateRequest)
    requires DL.Replay(r, dto).Ok?
    ensures DL.Replay(r, dto).value.tables.row.state in {r.tables.row.state, RW.Pending}
  {
  }

  lemma AdvanceToReady(w: World, p: Pass, reply: Reply)
    requires Inv(w) && w.pass == Some(p) && p.Pass? && Row(AdvancePass(w, p, reply)).state == RW.Ready
    ensures p.at == Finish(RW.Ready) && RW.Registered(Row(AdvancePass(w, p, reply)))
    ensures RW.Revocable(Row(AdvancePass(w, p, reply)).settings.options) ==> p.verified
    ensures DL.CurrentOperation(AdvancePass(w, p, reply).record) == Some(SM.Completed)
  {
  }

  lemma StepToReady(w: World, event: Event)
    requires Inv(w) && Row(w).state != RW.Ready && Row(Next(w, event)).state == RW.Ready
    ensures event.Advance? && w.pass.Some? && w.pass.value.Pass? && w.pass.value.at == Finish(RW.Ready)
    ensures RW.Registered(Row(Next(w, event)))
    ensures RW.Revocable(Row(Next(w, event)).settings.options) ==> w.pass.value.verified
    ensures DL.CurrentOperation(Next(w, event).record) == Some(SM.Completed)
  {
    if !event.Advance? {
      OnlyAdvanceMakesReady(w, event);
    } else if w.pass.Some? && w.pass.value.Pass? {
      AdvanceToReady(w, w.pass.value, event.reply);
    }
  }

  /** A pass counts as verified only from the moment the backend reported the registry ready to it. */
  lemma VerifiedMeansHeard(w: World, event: Event)
    requires var v := Next(w, event); v.pass.Some? && v.pass.value.Pass? && v.pass.value.verified
    requires !(w.pass.Some? && w.pass.value.Pass? && w.pass.value.verified)
    ensures event.Advance? && event.reply.ready == Some(true)
    ensures w.pass.Some? && w.pass.value.Pass? && w.pass.value.at == Revocation
  {
  }

  predicate SchemaRecorded(w: World) {
    w.record.status != DL.Draft && Row(w).registration.Some? && RW.Finished(Row(w).registration.value.schema)
  }

  lemma RecordedSchemaIsNotCalled(w: World, event: Event)
    requires Inv(w) && SchemaRecorded(w)
    ensures var v := Next(w, event);
            v.calls == w.calls || (|v.calls| == |w.calls| + 1 && v.calls[|w.calls|] != SchemaPublished)
  {
  }

  /** A schema recorded as finished is published again by nothing that happens later. */
  lemma {:induction false} FinishedSchemaNeverRepublished(w: World, events: seq<Event>)
    requires Inv(w) && SchemaRecorded(w)
    ensures |w.calls| <= |Run(w, events).calls|
    ensures forall i | |w.calls| <= i < |Run(w, events).calls| :: Run(w, events).calls[i] != SchemaPublished
    decreases |events|
  {
    if events != [] {
      var v := Next(w, events[0]);
      NextKeepsInv(w, events[0]);
      RecordedSchemaIsNotCalled(w, events[0]);
      FinishedSchemaNeverRepublished(v, events[1..]);
      CallsOnlyGrow(v, events[1..]);
    }
  }

  lemma NextOnlyAddsCalls(w: World, event: Event)
    ensures w.calls <= Next(w, event).calls
  {
  }

  lemma {:induction false} CallsOnlyGrow(w: World, events: seq<Event>)
    ensures w.calls <= Run(w, events).calls
    decreases |events|
  {
    if events != [] {
      NextOnlyAddsCalls(w, events[0]);
      CallsOnlyGrow(Next(w, events[0]), events[1..]);
    }
  }

  /** Every definition ever published was published on the schema the row records as finished. */
  ghost predicate CallsOk(w: World) {
    forall c | c in w.calls && c.DefinitionPublished? ::
      SchemaRecorded(w) && Row(w).registration.value.schema.id == c.schemaId
  }

  lemma NextKeepsCalls(w: World, event: Event)
    requires Inv(w) && CallsOk(w)
    ensures CallsOk(Next(w, event))
  {
    var v := Next(w, event);
    NextKeepsInv(w, event);
    forall c | c in v.calls && c.DefinitionPublished?
      ensures SchemaRecorded(v) && Row(v).registration.value.schema.id == c.schemaId
    {
      if c in w.calls {
        assert SchemaRecorded(w);
      } else {
        assert PassOk(w, w.pass.value);
      }
    }
  }

  /** Over the whole life of a definition, all its publications name one and the same finished schema. */
  lemma {:induction false} DefinitionFollowsSchema(w: World, events: seq<Event>)
    requires Inv(w) && CallsOk(w)
    ensures CallsOk(Run(w, events))
    decreases |events|
  {
    if events != [] {
      NextKeepsInv(w, events[0]);
      NextKeepsCalls(w, events[0]);
      DefinitionFollowsSchema(Next(w, events[0]), events[1..]);
    }
  }

  // ---------------------------------------------------------- bounded polling

  /** More than the steps any pass can take. */
  const PASS_STEPS := 16

  /** An upper bound on the steps a pass still has after this one. */
  function Left(at: At): nat {
    match at
    case Loaded => 15
    case Alive => 14
    case Started => 13
    case SchemaLookup => 12
    case SchemaClaim => 11
    case SchemaCall => 10
    case SchemaReply(_) => 9
    case SchemaSave(_) => 8
    case DefinitionLookup => 7
    case DefinitionClaim => 6
    case DefinitionCall => 5
    case DefinitionReply(_) => 4
    case DefinitionSave(_) => 3
    case Revocation => 2
    case Finish(state) => if state == RW.RegistrationState.Failed then 0 else 1
  }

  /** The steps a waiting job can still cause by itself, its follow-ups included. */
  function JobPotential(queued: Option<nat>): int {
    if queued.None? then 0 else (RW.MAX_WAIT_CHECKS + 1 - queued.value) * (PASS_STEPS + 1)
  }

  /** The same for the running job. */
  function PassPotential(pass: Option<Pass>): int {
    if pass.None? then 0
    else (RW.MAX_WAIT_CHECKS - Checks(pass.value)) * (PASS_STEPS + 1)
         + 1 + if pass.value.Bare? then 0 else Left(pass.value.at)
  }

  function Potential(w: World): int {
    JobPotential(w.record.tables.queued) + PassPotential(w.pass)
  }

  /** The worker has something to do and does it. */
  predicate Works(w: World, event: Event) {
    (event.Begin? && w.pass.None? && w.record.tables.queued.Some?) || (event.Advance? && w.pass.Some?)
  }

  lemma MemoryStepsShorten(w: World, p: Pass, reply: Reply)
    requires p.Pass? && InMemory(p.at)
    ensures var v := AdvancePass(w, p, reply);
            && v.record == w.record && v.pass.Some? && v.pass.value.Pass?
            && v.pass.value.copy.checks == p.copy.checks && Left(v.pass.value.at) < Left(p.at)
  {
  }

  lemma TableStepsShorten(w: World, p: Pass, reply: Reply)
    requires p.Pass? && w.pass == Some(p) && !InMemory(p.at) && p.copy.checks <= RW.MAX_WAIT_CHECKS
    ensures Potential(AdvancePass(w, p, reply)) < Potential(w)
  {
    var v := AdvancePass(w, p, reply);
    if v.pass.Some? {
      assert v.record.tables.queued == w.record.tables.queued && Checks(v.pass.value) == p.copy.checks;
      assert v.pass.value.Bare? || Left(v.pass.value.at) < Left(p.at);
    }
  }

  lemma AdvanceUsesPotential(w: World, p: Pass, reply: Reply)
    requires p.Pass? && w.pass == Some(p) && p.copy.checks <= RW.MAX_WAIT_CHECKS
    ensures Potential(AdvancePass(w, p, reply)) < Potential(w)
  {
    if InMemory(p.at) {
      MemoryStepsShorten(w, p, reply);
    } else {
      TableStepsShorten(w, p, reply);
    }
  }

  lemma PotentialIsNatural(w: World)
    requires Inv(w)
    ensures Potential(w) >= 0
  {
  }

  /** Only a replayed create request can add work, one fresh job at most; every step of the worker uses some up. */
  lemma WorkUsesPotential(w: World, event: Event)
    requires Inv(w)
    ensures Potential(Next(w, event)) + (if Works(w, event) then 1 else 0)
            <= Potential(w) + if event.Replayed? then JOB_WORK else 0
  {
    match event {
      case Replayed(dto) =>
        if DL.Replay(w.record, dto).Ok? {
          ReplayQueuesOneJob(w.record, dto);
        }
      case Advance(reply) =>
        if w.pass.Some? && w.pass.value.Pass? {
          AdvanceUsesPotential(w, w.pass.value, reply);
        }
      case Edited(dto, ctx) =>
        if DL.Edit(w.record, dto, ctx).Ok? {
          assert Next(w, event).record.tables.queued == w.record.tables.queued;
        }
      case _ =>
    }
  }

  /** How often the worker did something in a run, and how often it took up a job. */
  function WorkSteps(w: World, events: seq<Event>): nat
    decreases |events|
  {
    if events == [] then 0
    else (if Works(w, events[0]) then 1 else 0) + WorkSteps(Next(w, events[0]), events[1..])
  }

  function JobsTaken(w: World, events: seq<Event>): nat
    decreases |events|
  {
    if events == [] then 0
    else (if Works(w, events[0]) && events[0].Begin? then 1 else 0) + JobsTaken(Next(w, events[0]), events[1..])
  }

  /** The work a fresh job can cause: 21 passes of 17 steps. */
  const JOB_WORK: nat := 357

  /** The work replays may add. */
  function ReplayWork(events: seq<Event>): nat {
    if events == [] then 0 else (if events[0].Replayed? then JOB_WORK else 0) + ReplayWork(events[1..])
  }

  /** How often a create request was replayed. */
  function Replays(events: seq<Event>): nat {
    if events == [] then 0 else (if events[0].Replayed? then 1 else 0) + Replays(events[1..])
  }

  /** Whatever happens in between, the worker's steps on a definition are bounded, with a fixed allowance per replay. */
  lemma {:induction false} WorkIsBounded(w: World, events: seq<Event>)
    requires Inv(w)
    ensures WorkSteps(w, events) <= Potential(w) + ReplayWork(events)
    decreases |events|
  {
    if events == [] {
      PotentialIsNatural(w);
    } else {
      var v := Next(w, events[0]);
      assert Inv(v) by {
        NextKeepsInv(w, events[0]);
      }
      WorkUsesPotential(w, events[0]);
      WorkIsBounded(v, events[1..]);
    }
  }

  /** The follow-ups left: a waiting job at count c counts itself and at most 20 - c more. */
  function JobsLeft(w: World): int {
    (if w.record.tables.queued.None? then 0 else RW.MAX_WAIT_CHECKS + 1 - w.record.tables.queued.value)
    + (if w.pass.None? then 0 else RW.MAX_WAIT_CHECKS - Checks(w.pass.value))
  }

  lemma ReplayQueuesOneJob(r: DL.Record, dto: DL.CreateRequest)
    requires DL.Replay(r, dto).Ok?
    ensures var q := DL.Replay(r, dto).value.tables.queued;
            q == r.tables.queued || (r.tables.queued.None? && q == Some(0))
  {
  }

  lemma JobsLeftShrinks(w: World, event: Event)
    requires Inv(w)
    ensures JobsLeft(Next(w, event)) + (if Works(w, event) && event.Begin? then 1 else 0)
            <= JobsLeft(w) + if event.Replayed? then RW.MAX_WAIT_CHECKS + 1 else 0
  {
    if event.Replayed? && DL.Replay(w.record, event.request).Ok? {
      ReplayQueuesOneJob(w.record, event.request);
    }
    if event.Advance? && w.pass.Some? && w.pass.value.Pass? {
      if InMemory(w.pass.value.at) {
        MemoryStepsShorten(w, w.pass.value, event.reply);
      }
    }
  }

  /**
   Over any run the jobs taken up are bounded. Without a replay, a job waiting at
   count c with nothing running leads to at most 20 - c follow-ups; each replay
   allows 21 jobs more.
   */
  lemma {:induction false} FollowUpsAreBounded(w: World, events: seq<Event>)
    requires Inv(w)
    ensures JobsTaken(w, events) <= JobsLeft(w) + (RW.MAX_WAIT_CHECKS + 1) * Replays(events)
    decreases |events|
  {
    if events == [] {
      assert JobsLeft(w) >= 0;
    } else {
      NextKeepsInv(w, events[0]);
      JobsLeftShrinks(w, events[0]);
      FollowUpsAreBounded(Next(w, events[0]), events[1..]);
    }
  }

  // -------------------------------------------------------- when a chain ends

  predicate Idle(w: World) {
    w.pass.None? && w.record.tables.queued.None?
  }

  /** The row waits for a registration nobody is working on. */
  predicate Orphaned(w: World) {
    Row(w).state == RW.Pending && Idle(w)
  }

  /** The job dies: a crash, or a failing pass whose operation was purged under it. */
  predicate Dies(w: World, event: Event) {
    && w.pass.Some?
    && (event.Crash?
        || (event.Advance? && w.pass.value.Pass? && w.pass.value.at.Finish?
            && Bounded(w.pass.value.copy.checks, w.pass.value.at.state) == RW.RegistrationState.Failed
            && w.pass.value.copy.operation !in w.record.tables.operations))
  }

  /** A pass ends its job without settling the row only by dying. */
  lemma AdvanceOrphansExactly(w: World, p: Pass, reply: Reply)
    requires Inv(w) && w.pass == Some(p) && p.Pass?
    ensures Orphaned(AdvancePass(w, p, reply)) <==> Dies(w, Advance(reply)) && w.record.tables.queued.None?
  {
    if InMemory(p.at) {
      MemoryStepsShorten(w, p, reply);
    }
  }

  lemma ServiceNeverOrphans(w: World, event: Event)
    requires Inv(w) && !Orphaned(w)
    requires event.Edited? || event.Replayed? || event.Deleted? || event.Purged? || event.Begin?
    ensures !Orphaned(Next(w, event))
  {
    match event {
      case Edited(dto, ctx) => if DL.Edit(w.record, dto, ctx).Ok? { EditKeepsState(w.record, dto, ctx); }
      case Replayed(dto) => if DL.Replay(w.record, dto).Ok? { ReplayQueuesOneJob(w.record, dto); }
      case _ =>
    }
  }

  /** A pending definition loses its last job in exactly these steps. */
  lemma OrphanedExactlyByDeath(w: World, event: Event)
    requires Inv(w) && !Orphaned(w)
    ensures Orphaned(Next(w, event)) <==> Dies(w, event) && w.record.tables.queued.None?
  {
    match event {
      case Advance(reply) =>
        if w.pass.Some? && w.pass.value.Pass? {
          AdvanceOrphansExactly(w, w.pass.value, reply);
        }
      case Crash =>
      case _ => ServiceNeverOrphans(w, event);
    }
  }

  ghost predicate NothingDies(w: World, events: seq<Event>)
    decreases |events|
  {
    events == [] || (!Dies(w, events[0]) && NothingDies(Next(w, events[0]), events[1..]))
  }

  /** Unless a job dies, a definition whose queue has run empty is no longer pending. */
  lemma {:induction false} ChainEndsSettled(w: World, events: seq<Event>)
    requires Inv(w) && !Orphaned(w) && NothingDies(w, events) && Idle(Run(w, events))
    ensures Row(Run(w, events)).state != RW.Pending
    decreases |events|
  {
    if events != [] {
      NextKeepsInv(w, events[0]);
      OrphanedExactlyByDeath(w, events[0]);
      ChainEndsSettled(Next(w, events[0]), events[1..]);
    }
  }

  /** An orphan is beyond recovery once its row is inactive or its operation is gone or failed. */
  predicate Stranded(w: World) {
    Orphaned(w) && (!Row(w).active || DL.CurrentOperation(w.record) in {None, Some(SM.OperationState.Failed)})
  }

  lemma {:induction false} StrandedForever(w: World, events: seq<Event>)
    requires Inv(w) && Stranded(w)
    ensures Stranded(Run(w, events))
    decreases |events|
  {
    if events != [] {
      NextKeepsInv(w, events[0]);
      StrandedStays(w, events[0]);
      StrandedForever(Next(w, events[0]), events[1..]);
    }
  }

  lemma StrandedStays(w: World, event: Event)
    requires Inv(w) && Stranded(w)
    ensures Stranded(Next(w, event))
  {
  }

  /** Any other orphan is taken up again by the create request that made it. */
  lemma OrphanResumes(w: World, dto: DL.CreateRequest)
    requires Inv(w) && Orphaned(w) && DL.SettingsMatch(w.record, dto)
    ensures Stranded(w) <==> Next(w, Replayed(dto)) == w
    ensures !Stranded(w) ==> Next(w, Replayed(dto)).record.tables.queued == Some(0)
  {
  }

  /** Purging the operation under a pass about to finish strands the definition. */
  lemma PurgeUnderPassStrands(w: World, reply: Reply)
    requires Inv(w) && w.pass.Some? && w.pass.value.Pass? && w.pass.value.at.Finish? && w.record.tables.queued.None?
    ensures Stranded(Run(w, [Purged(w.pass.value.copy.operation), Advance(reply), Advance(reply)]))
  {
    var p := w.pass.value;
    var events := [Purged(p.copy.operation), Advance(reply), Advance(reply)];
    var v := Next(w, events[0]);
    NextKeepsInv(w, events[0]);
    assert p.copy.operation !in v.record.tables.operations;
    var u := Next(v, events[1]);
    var x := Next(u, events[2]);
    assert events[1..][0] == events[1] && events[1..][1..] == [events[2]];
    assert Run(w, events) == Run(v, events[1..]) == Run(u, [events[2]]) == Run(x, []);
  }

  // --------------------------------------------------------- whole lives

  /** A definition as its create request leaves it: pending, with an operation and a first job. */
  predicate Created(w: World) {
    var t := w.record.tables;
    && w.record.status == DL.Published && w.pass.None? && w.calls == []
    && t.row.active && t.row.state == RW.Pending && t.row.registration.Some? && t.row.externalId == ""
    && t.row.operation.Some? && t.operations == map[t.row.operation.value := SM.OperationState.Pending]
    && t.queued == Some(0)
  }

  /** A definition saved as a draft: nothing registered, nothing queued. */
  predicate Drafted(w: World) {
    var t := w.record.tables;
    && w.record.status == DL.Draft && w.pass.None? && w.calls == []
    && t.row.active && t.row.state == RW.Unverified && t.row.registration.None? && t.row.externalId == ""
    && t.row.operation.None? && t.operations == map[] && t.queued.None?
  }

  /** Both ways a definition comes into being start a life of which everything here holds. */
  lemma CreationStartsGood(w: World)
    requires Created(w) || Drafted(w)
    ensures Inv(w) && CallsOk(w) && !Orphaned(w)
  {
  }

  /**
   From creation on, whatever happens: the invariant holds, every publication named
   the recorded schema, 21 jobs were taken at most plus 21 per replay, and unless a
   job died an idle definition is not left pending.
   */
  lemma LifeFromCreation(w: World, events: seq<Event>)
    requires Created(w) || Drafted(w)
    ensures Inv(Run(w, events)) && CallsOk(Run(w, events))
    ensures JobsTaken(w, events) <= (RW.MAX_WAIT_CHECKS + 1) * (Replays(events) + if Created(w) then 1 else 0)
    ensures NothingDies(w, events) && Idle(Run(w, events)) ==> Row(Run(w, events)).state != RW.Pending
  {
    CreationStartsGood(w);
    RunKeepsInv(w, events);
    DefinitionFollowsSchema(w, events);
    FollowUpsAreBounded(w, events);
    if NothingDies(w, events) && Idle(Run(w, events)) {
      ChainEndsSettled(w, events);
    }
  }
}
