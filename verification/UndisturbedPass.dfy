/**
 The step-by-step pass and the worker's own statement form agree: a job driven to
 its end with nothing in between ends in the state the worker's verdict gives.
 */
module UndisturbedPass {
  import opened Wrappers
  import SM = StateMapping
  import RW = RegistrationWorker
  import PI = PublicationIntents
  import DL = DefinitionLifecycle
  import opened RegistrationRuns

  /** The scripted backend's answer to the step a pass is at. */
  function ReplyFor(p: Pass, port: RW.Port, intents: map<PI.Key, PI.IntentState>): Reply
    requires p.Pass?
  {
    var c := p.copy;
    var connector := if c.settings.connector.Some? then c.settings.connector.value else 0;
    var key := if PastSchema(p.at)
               then RW.DefinitionKey(c.settings, connector, c.registration.issuer, c.registration.schema.id)
               else RW.SchemaKey(c.settings, connector, c.registration.issuer);
    Reply(port.resolves, port.issuer, port.schemaResolves,
          if PastSchema(p.at) then port.findDefinition else port.findSchema,
          PI.Claimable(intents, key),
          if PastSchema(p.at) then port.publishDefinition else port.publishSchema,
          port.revocationReady)
  }

  function Step(w: World, port: RW.Port, intents: map<PI.Key, PI.IntentState>): World
    requires w.pass.Some?
  {
    if w.pass.value.Bare? then FailRow(w) else AdvancePass(w, w.pass.value, ReplyFor(w.pass.value, port, intents))
  }

  /** The job run to its end with nothing in between. */
  function Drive(w: World, port: RW.Port, intents: map<PI.Key, PI.IntentState>, n: nat): World
    decreases n
  {
    if n == 0 || w.pass.None? then w else Drive(Step(w, port, intents), port, intents, n - 1)
  }

  ghost predicate Ends(w: World, port: RW.Port, intents: map<PI.Key, PI.IntentState>, state: RW.RegistrationState) {
    exists n: nat :: Drive(w, port, intents, n).pass.None? && Row(Drive(w, port, intents, n)).state == state
  }

  lemma EndsLater(w: World, port: RW.Port, intents: map<PI.Key, PI.IntentState>, v: World, state: RW.RegistrationState)
    requires w.pass.Some? && v == Step(w, port, intents) && Ends(v, port, intents, state)
    ensures Ends(w, port, intents, state)
  {
    var n: nat :| Drive(v, port, intents, n).pass.None? && Row(Drive(v, port, intents, n)).state == state;
    assert Drive(w, port, intents, n + 1) == Drive(v, port, intents, n);
  }

  lemma EndsNow(w: World, port: RW.Port, intents: map<PI.Key, PI.IntentState>)
    requires w.pass.None?
    ensures Ends(w, port, intents, Row(w).state)
  {
    assert Drive(w, port, intents, 0) == w;
  }

  /** A pass whose operation is there and whose row is active, with a backend that deletes nothing. */
  ghost predicate Undisturbed(w: World, p: Pass, port: RW.Port) {
    && p.Pass? && w.pass == Some(p) && p.copy.operation in w.record.tables.operations && Row(w).active
    && !port.deletedBeforeSchemaSave && !port.deletedBeforeDefinitionSave
  }

  function StateFor(stage: RW.Stage, checks: nat): RW.RegistrationState {
    match stage
    case Settled(_) => RW.Ready
    case Waiting => Bounded(checks, RW.Pending)
    case Broken => RW.RegistrationState.Failed
  }

  lemma FinishEnds(w: World, p: Pass, port: RW.Port, intents: map<PI.Key, PI.IntentState>)
    requires p.Pass? && w.pass == Some(p) && p.copy.operation in w.record.tables.operations && p.at.Finish?
    ensures Ends(w, port, intents, Bounded(p.copy.checks, p.at.state))
  {
    var v := Step(w, port, intents);
    EndsNow(v, port, intents);
    EndsLater(w, port, intents, v, Bounded(p.copy.checks, p.at.state));
  }

  /** One step in memory, then wherever that leads. */
  lemma MovesAndEnds(
    w: World, p: Pass, port: RW.Port, intents: map<PI.Key, PI.IntentState>, q: Pass, state: RW.RegistrationState)
    requires Undisturbed(w, p, port) && q.Pass? && Step(w, port, intents).pass == Some(q)
    requires q.at.Finish? && q.copy.checks == p.copy.checks && q.copy.operation == p.copy.operation
    requires Step(w, port, intents).record == w.record
    requires state == Bounded(p.copy.checks, q.at.state)
    ensures Ends(w, port, intents, state)
  {
    var v := Step(w, port, intents);
    FinishEnds(v, q, port, intents);
    EndsLater(w, port, intents, v, state);
  }

  function RevocationStage(p: Pass, port: RW.Port): RW.Stage
    requires p.Pass?
  {
    if !RW.Revocable(p.copy.settings.options) then RW.Settled(p.copy.externalId)
    else match port.revocationReady
         case None => RW.Broken
         case Some(ready) => if ready then RW.Settled(p.copy.externalId) else RW.Waiting
  }

  lemma RevocationEnds(w: World, p: Pass, port: RW.Port, intents: map<PI.Key, PI.IntentState>)
    requires Undisturbed(w, p, port) && p.at == Revocation
    ensures Ends(w, port, intents, StateFor(RevocationStage(p, port), p.copy.checks))
  {
    MovesAndEnds(w, p, port, intents, AfterRevocation(p, ReplyFor(p, port, intents)),
                 StateFor(RevocationStage(p, port), p.copy.checks));
  }

  function AfterSave(after: Then, onward: RW.Stage): RW.Stage {
    match after
    case GoOn => onward
    case Wait => RW.Waiting
    case Fail => RW.Broken
  }

  lemma DefinitionSaveEnds(w: World, p: Pass, port: RW.Port, intents: map<PI.Key, PI.IntentState>)
    requires Undisturbed(w, p, port) && p.at.DefinitionSave?
    ensures Ends(w, port, intents, StateFor(AfterSave(p.at.after, RevocationStage(p, port)), p.copy.checks))
  {
    var v := Step(w, port, intents);
    var q := p.(at := Follow(p.at.after, Revocation));
    assert v.pass == Some(q) && Row(v).active;
    if p.at.after.GoOn? {
      RevocationEnds(v, q, port, intents);
    } else {
      FinishEnds(v, q, port, intents);
    }
    EndsLater(w, port, intents, v, StateFor(AfterSave(p.at.after, RevocationStage(p, port)), p.copy.checks));
  }

  /** The pass's definition stage and what follows it. */
  function DefinitionPart(p: Pass, port: RW.Port, intents: map<PI.Key, PI.IntentState>): RW.Stage
    requires p.Pass?
  {
    var stage := RW.DefinitionStage(p.copy.registration.definition, port, ReplyFor(p, port, intents).claimed);
    if !stage.Settled? then stage else RevocationStage(p, port)
  }

  lemma DefinitionReplyEnds(w: World, p: Pass, port: RW.Port, intents: map<PI.Key, PI.IntentState>)
    requires Undisturbed(w, p, port) && p.at == DefinitionReply(port.publishDefinition)
    ensures var stage := RW.PublishStage(port.publishDefinition, false);
            Ends(w, port, intents, StateFor(if stage.Settled? then RevocationStage(p, port) else stage, p.copy.checks))
  {
    var v := Step(w, port, intents);
    var q := AfterDefinitionReply(p, port.publishDefinition);
    if q.at.Finish? {
      FinishEnds(v, q, port, intents);
    } else {
      DefinitionSaveEnds(v, q, port, intents);
    }
    var stage := RW.PublishStage(port.publishDefinition, false);
    EndsLater(w, port, intents, v, StateFor(if stage.Settled? then RevocationStage(p, port) else stage, p.copy.checks));
  }

  lemma DefinitionClaimEnds(w: World, p: Pass, port: RW.Port, intents: map<PI.Key, PI.IntentState>)
    requires Undisturbed(w, p, port) && p.at == DefinitionClaim && ReplyFor(p, port, intents).claimed
    ensures var stage := RW.PublishStage(port.publishDefinition, false);
            Ends(w, port, intents, StateFor(if stage.Settled? then RevocationStage(p, port) else stage, p.copy.checks))
  {
    var stage := RW.PublishStage(port.publishDefinition, false);
    var state := StateFor(if stage.Settled? then RevocationStage(p, port) else stage, p.copy.checks);
    var v := Step(w, port, intents);
    var u := Step(v, port, intents);
    DefinitionReplyEnds(u, p.(at := DefinitionReply(port.publishDefinition)), port, intents);
    EndsLater(v, port, intents, u, state);
    EndsLater(w, port, intents, v, state);
  }

  lemma DefinitionEnds(w: World, p: Pass, port: RW.Port, intents: map<PI.Key, PI.IntentState>)
    requires Undisturbed(w, p, port) && p.at == DefinitionLookup
    ensures Ends(w, port, intents, StateFor(DefinitionPart(p, port, intents), p.copy.checks))
  {
    var state := StateFor(DefinitionPart(p, port, intents), p.copy.checks);
    var v := Step(w, port, intents);
    var q := AfterDefinitionLookup(p, ReplyFor(p, port, intents));
    if q.at.Finish? {
      FinishEnds(v, q, port, intents);
    } else if q.at.DefinitionSave? {
      DefinitionSaveEnds(v, q, port, intents);
    } else if ReplyFor(q, port, intents).claimed {
      DefinitionClaimEnds(v, q, port, intents);
    } else {
      MovesAndEnds(v, q, port, intents, q.(at := Finish(RW.Pending)), state);
    }
    EndsLater(w, port, intents, v, state);
  }

  lemma SchemaSaveEnds(w: World, p: Pass, port: RW.Port, intents: map<PI.Key, PI.IntentState>)
    requires Undisturbed(w, p, port) && p.at.SchemaSave?
    ensures Ends(w, port, intents, StateFor(
              AfterSave(p.at.after, DefinitionPart(p.(at := DefinitionLookup), port, intents)), p.copy.checks))
  {
    var v := Step(w, port, intents);
    var q := p.(at := Follow(p.at.after, DefinitionLookup));
    assert v.pass == Some(q) && Row(v).active;
    if p.at.after.GoOn? {
      DefinitionEnds(v, q, port, intents);
    } else {
      FinishEnds(v, q, port, intents);
    }
    EndsLater(w, port, intents, v, StateFor(
              AfterSave(p.at.after, DefinitionPart(p.(at := DefinitionLookup), port, intents)), p.copy.checks));
  }

  /** The pass at its definition stage, with this progress of its schema. */
  function AtDefinition(p: Pass, progress: RW.Progress): (q: Pass)
    requires p.Pass?
    ensures q.Pass?
  {
    p.(copy := p.copy.(registration := p.copy.registration.(schema := progress)), at := DefinitionLookup)
  }

  /** The pass from its definition stage on, with this schema id in its copy. */
  function Onward(p: Pass, id: string, port: RW.Port, intents: map<PI.Key, PI.IntentState>): RW.Stage
    requires p.Pass?
  {
    DefinitionPart(AtDefinition(p, p.copy.registration.schema.(id := id)), port, intents)
  }

  /** Only the schema's id matters from then on. */
  lemma OnlyTheIdMatters(p: Pass, progress: RW.Progress, port: RW.Port, intents: map<PI.Key, PI.IntentState>)
    requires p.Pass?
    ensures DefinitionPart(AtDefinition(p, progress), port, intents) == Onward(p, progress.id, port, intents)
  {
  }

  lemma SchemaReplyEnds(w: World, p: Pass, port: RW.Port, intents: map<PI.Key, PI.IntentState>)
    requires Undisturbed(w, p, port) && p.at == SchemaReply(port.publishSchema)
    ensures var stage := RW.PublishStage(port.publishSchema, false);
            Ends(w, port, intents,
                 StateFor(if stage.Settled? then Onward(p, stage.id, port, intents) else stage, p.copy.checks))
  {
    var stage := RW.PublishStage(port.publishSchema, false);
    var v := Step(w, port, intents);
    var q := AfterSchemaReply(p, port.publishSchema);
    if q.at.Finish? {
      FinishEnds(v, q, port, intents);
    } else {
      SchemaSaveEnds(v, q, port, intents);
      OnlyTheIdMatters(p, q.copy.registration.schema, port, intents);
      assert AtDefinition(p, q.copy.registration.schema) == q.(at := DefinitionLookup);
    }
    EndsLater(w, port, intents, v,
              StateFor(if stage.Settled? then Onward(p, stage.id, port, intents) else stage, p.copy.checks));
  }

  lemma SchemaClaimEnds(w: World, p: Pass, port: RW.Port, intents: map<PI.Key, PI.IntentState>)
    requires Undisturbed(w, p, port) && p.at == SchemaClaim && ReplyFor(p, port, intents).claimed
    ensures var stage := RW.PublishStage(port.publishSchema, false);
            Ends(w, port, intents,
                 StateFor(if stage.Settled? then Onward(p, stage.id, port, intents) else stage, p.copy.checks))
  {
    var stage := RW.PublishStage(port.publishSchema, false);
    var state := StateFor(if stage.Settled? then Onward(p, stage.id, port, intents) else stage, p.copy.checks);
    var v := Step(w, port, intents);
    var u := Step(v, port, intents);
    SchemaReplyEnds(u, p.(at := SchemaReply(port.publishSchema)), port, intents);
    EndsLater(v, port, intents, u, state);
    EndsLater(w, port, intents, v, state);
  }

  /** A schema known to be finished is only resolved again. */
  lemma FinishedSchemaEnds(w: World, p: Pass, port: RW.Port, intents: map<PI.Key, PI.IntentState>)
    requires Undisturbed(w, p, port) && p.at == SchemaLookup && p.copy.registration.schema.state == Some(PI.Finished)
    ensures Ends(w, port, intents, StateFor(SchemaPart(p, port, intents), p.copy.checks))
  {
    var v := Step(w, port, intents);
    var q := AfterSchemaLookup(p, ReplyFor(p, port, intents));
    if q.at.Finish? {
      FinishEnds(v, q, port, intents);
    } else {
      DefinitionEnds(v, q, port, intents);
      OnlyTheIdMatters(p, p.copy.registration.schema, port, intents);
      assert AtDefinition(p, p.copy.registration.schema) == q;
    }
    EndsLater(w, port, intents, v, StateFor(SchemaPart(p, port, intents), p.copy.checks));
  }

  /** The stages of a pass from the schema lookup on. */
  function SchemaPart(p: Pass, port: RW.Port, intents: map<PI.Key, PI.IntentState>): RW.Stage
    requires p.Pass?
  {
    var stage := RW.SchemaStage(p.copy.registration.schema, port, ReplyFor(p, port, intents).claimed);
    if stage.Settled? then Onward(p, stage.id, port, intents) else stage
  }

  lemma FoundSchemaEnds(w: World, p: Pass, port: RW.Port, intents: map<PI.Key, PI.IntentState>)
    requires Undisturbed(w, p, port) && p.at == SchemaLookup && p.copy.registration.schema.state != Some(PI.Finished)
    requires port.findSchema.Found?
    ensures Ends(w, port, intents, StateFor(SchemaPart(p, port, intents), p.copy.checks))
  {
    var v := Step(w, port, intents);
    var q := AfterSchemaLookup(p, ReplyFor(p, port, intents));
    SchemaSaveEnds(v, q, port, intents);
    OnlyTheIdMatters(p, q.copy.registration.schema, port, intents);
    assert AtDefinition(p, q.copy.registration.schema) == q.(at := DefinitionLookup);
    EndsLater(w, port, intents, v, StateFor(SchemaPart(p, port, intents), p.copy.checks));
  }

  lemma MissingSchemaEnds(w: World, p: Pass, port: RW.Port, intents: map<PI.Key, PI.IntentState>)
    requires Undisturbed(w, p, port) && p.at == SchemaLookup && p.copy.registration.schema.state != Some(PI.Finished)
    requires !port.findSchema.Found?
    ensures Ends(w, port, intents, StateFor(SchemaPart(p, port, intents), p.copy.checks))
  {
    var v := Step(w, port, intents);
    var q := p.(at := v.pass.value.at);
    var state := StateFor(SchemaPart(p, port, intents), p.copy.checks);
    if q.at.Finish? {
      FinishEnds(v, q, port, intents);
    } else if ReplyFor(q, port, intents).claimed {
      SchemaClaimEnds(v, q, port, intents);
    } else {
      MovesAndEnds(v, q, port, intents, q.(at := Finish(RW.Pending)), state);
    }
    EndsLater(w, port, intents, v, state);
  }

  lemma StartedEnds(w: World, p: Pass, port: RW.Port, intents: map<PI.Key, PI.IntentState>)
    requires Undisturbed(w, p, port) && p.at == Started
    ensures Ends(w, port, intents,
              if port.issuer == Some(p.copy.registration.issuer)
              then StateFor(SchemaPart(p.(at := SchemaLookup), port, intents), p.copy.checks)
              else RW.RegistrationState.Failed)
  {
    var v := Step(w, port, intents);
    var q := v.pass.value;
    if q.at.Finish? {
      FinishEnds(v, q, port, intents);
      EndsLater(w, port, intents, v, RW.RegistrationState.Failed);
    } else {
      if q.copy.registration.schema.state == Some(PI.Finished) {
        FinishedSchemaEnds(v, q, port, intents);
      } else if port.findSchema.Found? {
        FoundSchemaEnds(v, q, port, intents);
      } else {
        MissingSchemaEnds(v, q, port, intents);
      }
      EndsLater(w, port, intents, v, StateFor(SchemaPart(q, port, intents), p.copy.checks));
    }
  }

  /** The worker's own reading of the stages is the same. */
  lemma StagesAgree(p: Pass, row: RW.Definition, port: RW.Port, intents: map<PI.Key, PI.IntentState>)
    requires p.Pass? && p.at == SchemaLookup && row.settings == p.copy.settings && p.copy.settings.connector.Some?
    ensures var stage := RW.PassStage(row, row.settings.connector.value, p.copy.registration, port, intents);
            StateFor(SchemaPart(p, port, intents), p.copy.checks) == StateFor(stage, p.copy.checks)
  {
  }

  lemma BareEnds(w: World, port: RW.Port, intents: map<PI.Key, PI.IntentState>)
    requires w.pass.Some? && w.pass.value.Bare?
    ensures Ends(w, port, intents, RW.RegistrationState.Failed)
  {
    EndsNow(FailRow(w), port, intents);
    EndsLater(w, port, intents, FailRow(w), RW.RegistrationState.Failed);
  }

  lemma AliveEnds(w: World, p: Pass, port: RW.Port, intents: map<PI.Key, PI.IntentState>)
    requires p.Pass? && w.pass == Some(p) && p.at == Alive && p.copy.operation in w.record.tables.operations
    requires Row(w).active == p.copy.active && !port.deletedBeforeSchemaSave && !port.deletedBeforeDefinitionSave
    ensures Ends(w, port, intents,
              if !p.copy.active || p.copy.settings.connector.None? || !port.resolves
                 || port.issuer != Some(p.copy.registration.issuer)
              then RW.RegistrationState.Failed
              else StateFor(SchemaPart(p.(at := SchemaLookup), port, intents), p.copy.checks))
  {
    var v := Step(w, port, intents);
    var q := v.pass.value;
    if q.at.Finish? {
      FinishEnds(v, q, port, intents);
      EndsLater(w, port, intents, v, RW.RegistrationState.Failed);
    } else {
      StartedEnds(v, q, port, intents);
      EndsLater(w, port, intents, v, if port.issuer == Some(p.copy.registration.issuer)
                then StateFor(SchemaPart(q.(at := SchemaLookup), port, intents), p.copy.checks)
                else RW.RegistrationState.Failed);
    }
  }

  /** A job left alone ends in exactly the state the worker's verdict names. */
  lemma UndisturbedJobMeetsVerdict(w: World, port: RW.Port, intents: map<PI.Key, PI.IntentState>)
    requires w.pass.None? && w.record.tables.queued.Some? && Row(w).state == RW.Pending
    requires !port.deletedBeforeSchemaSave && !port.deletedBeforeDefinitionSave
    ensures Ends(BeginJob(w), port, intents, RW.Verdict(w.record.tables, w.record.tables.queued.value, port, intents))
  {
    var b := BeginJob(w);
    var verdict := RW.Verdict(w.record.tables, w.record.tables.queued.value, port, intents);
    if b.pass.value.Bare? {
      BareEnds(b, port, intents);
    } else {
      var v := Step(b, port, intents);
      if v.pass.value.Bare? {
        BareEnds(v, port, intents);
      } else {
        var p := v.pass.value;
        AliveEnds(v, p, port, intents);
        if p.copy.settings.connector.Some? {
          StagesAgree(p.(at := SchemaLookup), Row(w), port, intents);
        }
      }
      EndsLater(b, port, intents, v, verdict);
    }
  }
}
