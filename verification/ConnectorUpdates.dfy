/**
 Any number of connector updates at once, each reading, building against the
 outside world, and committing under the row lock, with other writes in between.
 */
module ConnectorUpdates {
  import opened Wrappers
  import CT = ConnectorTable

  datatype Phase =
    | Fresh
    | Reading(snapshot: CT.Connector)
    | Built(snapshot: CT.Connector, answers: CT.Answers)
    | Committed
    | Failed

  datatype Updater = Updater(tenant: CT.Tenant, id: CT.Id, dto: CT.UpdateRequest, phase: Phase, stale: nat)

  /** A committed write, and the update it belongs to if it belongs to one. */
  datatype Entry = Entry(write: CT.Write, author: Option<nat>)

  datatype World = World(table: CT.Table, updaters: seq<Updater>, log: seq<Entry>)

  datatype Step =
    | Start(tenant: CT.Tenant, id: CT.Id, dto: CT.UpdateRequest)
    | Read(u: nat)
    | Build(u: nat, answers: CT.Answers)
    | Commit(u: nat)
    | Other(write: CT.Write)

  function Goto(w: World, u: nat, p: Phase): World
    requires u < |w.updaters|
  {
    w.(updaters := w.updaters[u := w.updaters[u].(phase := p)])
  }

  predicate Stale(row: CT.Connector, snapshot: CT.Connector) {
    row.endpoint != snapshot.endpoint || row.kind != snapshot.kind || row.active != snapshot.active
    || row.keyVersion != snapshot.keyVersion || row.credentials != snapshot.credentials
  }

  /**
   The locked transaction: an unchanged row takes the updates built before the lock;
   a changed one is read again, twice at most.
   */
  function Committing(w: World, u: nat): World
    requires u < |w.updaters| && w.updaters[u].phase.Built?
  {
    var x := w.updaters[u];
    var i := CT.Find(w.table, x.tenant, x.id);
    if i == |w.table| then Goto(w, u, Failed)
    else if Stale(w.table[i], x.phase.snapshot) then
      var phase := if x.stale + 1 == CT.MAX_ATTEMPTS then Failed else Reading(w.table[i]);
      w.(updaters := w.updaters[u := x.(stale := x.stale + 1, phase := phase)])
    else
      var built := CT.BuildUpdates(x.phase.snapshot, x.dto, x.phase.answers);
      if built.Err? then Goto(w, u, Failed)
      else
        var patched := w.table[i := CT.ApplyUpdates(w.table[i], built.value)];
        if !CT.IndexHolds(patched) then Goto(w, u, Failed)
        else Goto(w, u, Committed).(table := patched,
                                    log := w.log + [Entry(CT.Patch(x.tenant, x.id, x.dto, x.phase.answers), Some(u))])
  }

  function Next(w: World, step: Step): World {
    match step
    case Start(tenant, id, dto) => w.(updaters := w.updaters + [Updater(tenant, id, dto, Fresh, 0)])
    case Read(u) =>
      if u >= |w.updaters| || w.updaters[u].phase != Fresh then w
      else
        var row := CT.RowOf(w.table, w.updaters[u].tenant, w.updaters[u].id);
        Goto(w, u, if row.Some? then Reading(row.value) else Failed)
    case Build(u, answers) =>
      if u >= |w.updaters| || !w.updaters[u].phase.Reading? then w
      else
        var snapshot := w.updaters[u].phase.snapshot;
        var built := CT.BuildUpdates(snapshot, w.updaters[u].dto, answers);
        Goto(w, u, if built.Ok? then Built(snapshot, answers) else Failed)
    case Commit(u) => if u < |w.updaters| && w.updaters[u].phase.Built? then Committing(w, u) else w
    case Other(write) => w.(table := CT.ApplyWrite(w.table, write), log := w.log + [Entry(write, None)])
  }

  function Run(w: World, steps: seq<Step>): World
    decreases |steps|
  {
    if steps == [] then w else Run(Next(w, steps[0]), steps[1..])
  }

  /** The writes of a log, one after the other. */
  function Replay(t: CT.Table, log: seq<Entry>): CT.Table {
    if log == [] then t else CT.ApplyWrite(Replay(t, log[..|log| - 1]), log[|log| - 1].write)
  }

  /** How often an update appears in the log. */
  function By(log: seq<Entry>, u: nat): nat {
    if log == [] then 0 else By(log[..|log| - 1], u) + if log[|log| - 1].author == Some(u) then 1 else 0
  }

  lemma ReplayNext(t: CT.Table, log: seq<Entry>, e: Entry)
    ensures Replay(t, log + [e]) == CT.ApplyWrite(Replay(t, log), e.write)
    ensures forall u: nat :: By(log + [e], u) == By(log, u) + if e.author == Some(u) then 1 else 0
  {
    assert (log + [e])[..|log|] == log;
  }

  /** A snapshot is a bound row of the updater's own. */
  ghost predicate SnapshotOk(x: Updater, row: CT.Connector) {
    CT.Bound(row) && row.tenant == x.tenant && row.id == x.id
  }

  ghost predicate UpdaterOk(w: World, u: nat)
    requires u < |w.updaters|
  {
    var x := w.updaters[u];
    && (x.phase.Reading? || x.phase.Built? ==> SnapshotOk(x, x.phase.snapshot))
    && By(w.log, u) == if x.phase.Committed? then 1 else 0
  }

  ghost predicate Inv(start: CT.Table, w: World) {
    && CT.TableOk(w.table)
    && w.table == Replay(start, w.log)
    && (forall u | 0 <= u < |w.updaters| :: UpdaterOk(w, u))
    && (forall u: nat | u >= |w.updaters| :: By(w.log, u) == 0)
  }

  /** A row that passes the comparison is the snapshot, its uncompared hash included. */
  lemma FreshMeansEqual(row: CT.Connector, snapshot: CT.Connector)
    requires CT.Bound(row) && CT.Bound(snapshot) && row.id == snapshot.id && row.tenant == snapshot.tenant
    requires !Stale(row, snapshot)
    ensures row == snapshot
  {
  }

  /** A commit is the atomic patch of the row it finds, or changes no table. */
  lemma CommitIsPatch(w: World, u: nat)
    requires CT.AllBound(w.table) && u < |w.updaters| && w.updaters[u].phase.Built?
    requires SnapshotOk(w.updaters[u], w.updaters[u].phase.snapshot)
    ensures var x, v := w.updaters[u], Committing(w, u);
            if v.updaters[u].phase.Committed? then
              && v.log == w.log + [Entry(CT.Patch(x.tenant, x.id, x.dto, x.phase.answers), Some(u))]
              && v.table == CT.ApplyWrite(w.table, v.log[|w.log|].write)
            else v.table == w.table && v.log == w.log
  {
    var x := w.updaters[u];
    var i := CT.Find(w.table, x.tenant, x.id);
    if i < |w.table| && !Stale(w.table[i], x.phase.snapshot) {
      assert w.table[i] in w.table;
      FreshMeansEqual(w.table[i], x.phase.snapshot);
    }
  }

  /** A step that writes nothing only has to leave the updater it moves in order. */
  lemma QuietStep(start: CT.Table, w: World, v: World, u: nat)
    requires Inv(start, w) && u < |w.updaters| == |v.updaters| && v.table == w.table && v.log == w.log
    requires forall k | 0 <= k < |w.updaters| && k != u :: v.updaters[k] == w.updaters[k]
    requires UpdaterOk(v, u)
    ensures Inv(start, v)
  {
    forall k | 0 <= k < |v.updaters| ensures UpdaterOk(v, k) {
      assert UpdaterOk(w, k);
    }
  }

  /** A logged write of one updater, which is committed by it. */
  lemma LoggedStep(start: CT.Table, w: World, v: World, u: nat, e: Entry)
    requires Inv(start, w) && u < |w.updaters| && e.author == Some(u) && !w.updaters[u].phase.Committed?
    requires v.updaters == w.updaters[u := w.updaters[u].(phase := Committed)]
    requires v.log == w.log + [e] && v.table == CT.ApplyWrite(w.table, e.write)
    ensures Inv(start, v)
  {
    CT.ApplyWriteKeepsTable(w.table, e.write);
    ReplayNext(start, w.log, e);
    forall k | 0 <= k < |v.updaters| ensures UpdaterOk(v, k) {
      assert UpdaterOk(w, k);
    }
  }

  lemma CommitKeepsInv(start: CT.Table, w: World, u: nat)
    requires Inv(start, w) && u < |w.updaters| && w.updaters[u].phase.Built?
    ensures Inv(start, Committing(w, u))
  {
    var v := Committing(w, u);
    assert UpdaterOk(w, u);
    CommitIsPatch(w, u);
    if v.updaters[u].phase.Committed? {
      LoggedStep(start, w, v, u, v.log[|w.log|]);
    } else {
      var i := CT.Find(w.table, w.updaters[u].tenant, w.updaters[u].id);
      if i < |w.table| {
        assert w.table[i] in w.table;
      }
      QuietStep(start, w, v, u);
    }
  }

  lemma StartKeepsInv(start: CT.Table, w: World, tenant: CT.Tenant, id: CT.Id, dto: CT.UpdateRequest)
    requires Inv(start, w)
    ensures Inv(start, Next(w, Start(tenant, id, dto)))
  {
    var v := Next(w, Start(tenant, id, dto));
    forall k | 0 <= k < |v.updaters| ensures UpdaterOk(v, k) {
      assert k < |w.updaters| ==> UpdaterOk(w, k);
    }
  }

  lemma ReadKeepsInv(start: CT.Table, w: World, u: nat)
    requires Inv(start, w) && u < |w.updaters| && w.updaters[u].phase == Fresh
    ensures Inv(start, Next(w, Read(u)))
  {
    assert UpdaterOk(w, u);
    var i := CT.Find(w.table, w.updaters[u].tenant, w.updaters[u].id);
    assert i < |w.table| ==> w.table[i] in w.table;
    QuietStep(start, w, Next(w, Read(u)), u);
  }

  lemma BuildKeepsInv(start: CT.Table, w: World, u: nat, answers: CT.Answers)
    requires Inv(start, w) && u < |w.updaters| && w.updaters[u].phase.Reading?
    ensures Inv(start, Next(w, Build(u, answers)))
  {
    assert UpdaterOk(w, u);
    QuietStep(start, w, Next(w, Build(u, answers)), u);
  }

  lemma OtherKeepsInv(start: CT.Table, w: World, write: CT.Write)
    requires Inv(start, w)
    ensures Inv(start, Next(w, Other(write)))
  {
    var v := Next(w, Other(write));
    CT.ApplyWriteKeepsTable(w.table, write);
    ReplayNext(start, w.log, Entry(write, None));
    forall k | 0 <= k < |v.updaters| ensures UpdaterOk(v, k) {
      assert UpdaterOk(w, k);
    }
  }

  lemma NextKeepsInv(start: CT.Table, w: World, step: Step)
    requires Inv(start, w)
    ensures Inv(start, Next(w, step))
  {
    match step {
      case Start(tenant, id, dto) => StartKeepsInv(start, w, tenant, id, dto);
      case Read(u) => if u < |w.updaters| && w.updaters[u].phase == Fresh { ReadKeepsInv(start, w, u); }
      case Build(u, answers) =>
        if u < |w.updaters| && w.updaters[u].phase.Reading? { BuildKeepsInv(start, w, u, answers); }
      case Commit(u) => if u < |w.updaters| && w.updaters[u].phase.Built? { CommitKeepsInv(start, w, u); }
      case Other(write) => OtherKeepsInv(start, w, write);
    }
  }

  lemma {:induction false} RunKeepsInv(start: CT.Table, w: World, steps: seq<Step>)
    requires Inv(start, w)
    ensures Inv(start, Run(w, steps))
    decreases |steps|
  {
    if steps != [] {
      NextKeepsInv(start, w, steps[0]);
      RunKeepsInv(start, Next(w, steps[0]), steps[1..]);
    }
  }

  /** A logged update is its author's own request: that connector of that tenant, with that body. */
  ghost predicate EntryOk(updaters: seq<Updater>, e: Entry) {
    e.author.Some? ==>
      && e.author.value < |updaters| && e.write.Patch?
      && e.write.tenant == updaters[e.author.value].tenant
      && e.write.id == updaters[e.author.value].id
      && e.write.dto == updaters[e.author.value].dto
  }

  ghost predicate Attributed(w: World) {
    forall e | e in w.log :: EntryOk(w.updaters, e)
  }

  lemma NextKeepsAttribution(w: World, step: Step)
    requires Attributed(w)
    ensures Attributed(Next(w, step))
  {
  }

  lemma {:induction false} RunKeepsAttribution(w: World, steps: seq<Step>)
    requires Attributed(w)
    ensures Attributed(Run(w, steps))
    decreases |steps|
  {
    if steps != [] {
      NextKeepsAttribution(w, steps[0]);
      RunKeepsAttribution(Next(w, steps[0]), steps[1..]);
    }
  }

  /**
   Serializability. Over any run of any number of concurrent updates, the table is
   the committed writes applied to the first table in commit order, as if each
   update had read, built and written in one instant; a successful update is in
   that order exactly once, as the patch it asked for, an unsuccessful one never.
   */
  lemma UpdatesAreSerializable(start: CT.Table, steps: seq<Step>)
    requires CT.TableOk(start)
    ensures var w := Run(World(start, [], []), steps);
            && w.table == Replay(start, w.log) && CT.TableOk(w.table)
            && (forall u | 0 <= u < |w.updaters| :: By(w.log, u) == if w.updaters[u].phase.Committed? then 1 else 0)
            && forall e | e in w.log :: EntryOk(w.updaters, e)
  {
    RunKeepsInv(start, World(start, [], []), steps);
    RunKeepsAttribution(World(start, [], []), steps);
    var w := Run(World(start, [], []), steps);
    forall u | 0 <= u < |w.updaters| ensures By(w.log, u) == if w.updaters[u].phase.Committed? then 1 else 0 {
      assert UpdaterOk(w, u);
    }
  }
}
