/**
 The per-tenant cache of resolved agent partitions, and its race with connector
 writes: lookups, commits, invalidations and clock ticks interleave freely.
 */
module PartitionCache {
  import opened Wrappers
  import CT = ConnectorTable

  type Tenant = CT.Tenant

  const TTL_MS := 300000
  const MAX_ENTRIES := 1000

  datatype Slot = Slot(tenant: Tenant, partitions: seq<string>, expiresAt: nat)

  /** Slots oldest first. */
  datatype Cache = Cache(slots: seq<Slot>, generation: nat)

  datatype Ticket = Ticket(generation: nat, startedAt: nat)

  ghost predicate Distinct(slots: seq<Slot>) {
    forall i, j | 0 <= i < j < |slots| :: slots[i].tenant != slots[j].tenant
  }

  ghost predicate Valid(c: Cache) {
    Distinct(c.slots) && |c.slots| <= MAX_ENTRIES
  }

  function Lookup(slots: seq<Slot>, tenant: Tenant): Option<Slot> {
    if slots == [] then None
    else if slots[0].tenant == tenant then Some(slots[0])
    else Lookup(slots[1..], tenant)
  }

  lemma {:induction false} LookupFindsMember(slots: seq<Slot>, tenant: Tenant)
    requires Lookup(slots, tenant).Some?
    ensures Lookup(slots, tenant).value in slots && Lookup(slots, tenant).value.tenant == tenant
  {
    if slots[0].tenant != tenant {
      LookupFindsMember(slots[1..], tenant);
    }
  }

  function Remove(slots: seq<Slot>, tenant: Tenant): (r: seq<Slot>)
    ensures |r| <= |slots|
  {
    if slots == [] then []
    else if slots[0].tenant == tenant then Remove(slots[1..], tenant)
    else [slots[0]] + Remove(slots[1..], tenant)
  }

  lemma {:induction false} RemoveMembers(slots: seq<Slot>, tenant: Tenant)
    ensures forall s :: s in Remove(slots, tenant) <==> s in slots && s.tenant != tenant
  {
    if slots != [] {
      RemoveMembers(slots[1..], tenant);
      assert slots == [slots[0]] + slots[1..];
    }
  }

  lemma {:induction false} RemoveKeepsDistinct(slots: seq<Slot>, tenant: Tenant)
    requires Distinct(slots)
    ensures Distinct(Remove(slots, tenant))
  {
    if slots != [] {
      RemoveKeepsDistinct(slots[1..], tenant);
      RemoveMembers(slots[1..], tenant);
      assert forall s | s in Remove(slots[1..], tenant) :: s.tenant != slots[0].tenant;
    }
  }

  lemma {:induction false} RemoveNothing(slots: seq<Slot>, tenant: Tenant)
    requires Lookup(slots, tenant).None?
    ensures Remove(slots, tenant) == slots
  {
    if slots != [] {
      RemoveNothing(slots[1..], tenant);
    }
  }

  /** What a read at this time serves. */
  function Served(c: Cache, tenant: Tenant, now: nat): Option<seq<string>> {
    match Lookup(c.slots, tenant)
    case None => None
    case Some(s) => if s.expiresAt <= now then None else Some(s.partitions)
  }

  /** The cache after a read: a slot past its time is dropped. */
  function AfterRead(c: Cache, tenant: Tenant, now: nat): Cache {
    if Served(c, tenant, now).Some? then c else c.(slots := Remove(c.slots, tenant))
  }

  function MakeRoom(slots: seq<Slot>): seq<Slot> {
    if |slots| >= MAX_ENTRIES then slots[1..] else slots
  }

  /** The cache after a lookup's result is offered; None when the lookup took too long. */
  function AfterStore(c: Cache, tenant: Tenant, partitions: seq<string>, ticket: Ticket, now: nat): Option<Cache> {
    if ticket.startedAt + TTL_MS <= now then None
    else if ticket.generation != c.generation then Some(c)
    else
      var others := Remove(c.slots, tenant);
      Some(c.(slots := MakeRoom(others) + [Slot(tenant, partitions, ticket.startedAt + TTL_MS)]))
  }

  function AfterInvalidate(c: Cache, tenant: Tenant): Cache {
    Cache(Remove(c.slots, tenant), c.generation + 1)
  }

  class AgentLogPartitionCache {
    var slots: seq<Slot>
    var generation: nat

    function View(): Cache
      reads this
    {
      Cache(slots, generation)
    }

    constructor ()
      ensures View() == Cache([], 0) && Valid(View())
    {
      slots, generation := [], 0;
    }

    method BeginLookup(now: nat) returns (ticket: Ticket)
      ensures ticket == Ticket(generation, now)
    {
      ticket := Ticket(generation, now);
    }

    /** A hit is a slot whose time has not come; nobody else's slot is touched. */
    method Get(tenant: Tenant, now: nat) returns (r: Option<seq<string>>)
      requires Valid(View())
      modifies this
      ensures r == Served(old(View()), tenant, now)
      ensures View() == AfterRead(old(View()), tenant, now) && Valid(View())
    {
      var slot := Lookup(slots, tenant);
      if slot.None? {
        RemoveNothing(slots, tenant);
        return None;
      }
      if slot.value.expiresAt <= now {
        RemoveKeepsDistinct(slots, tenant);
        slots := Remove(slots, tenant);
        return None;
      }
      r := Some(slot.value.partitions);
    }

    method Set(tenant: Tenant, partitions: seq<string>, ticket: Ticket, now: nat) returns (ok: bool)
      requires Valid(View())
      modifies this
      ensures ok <==> AfterStore(old(View()), tenant, partitions, ticket, now).Some?
      ensures View() == if ok then AfterStore(old(View()), tenant, partitions, ticket, now).value else old(View())
      ensures Valid(View())
    {
      StoreKeepsValid(View(), tenant, partitions, ticket, now);
      var expiresAt := ticket.startedAt + TTL_MS;
      if expiresAt <= now {
        return false;
      }
      ok := true;
      if ticket.generation != generation {
        return;
      }
      slots := Remove(slots, tenant);
      if |slots| >= MAX_ENTRIES {
        slots := slots[1..];
      }
      slots := slots + [Slot(tenant, partitions, expiresAt)];
    }

    method Invalidate(tenant: Tenant)
      requires Valid(View())
      modifies this
      ensures View() == AfterInvalidate(old(View()), tenant) && Valid(View())
    {
      RemoveKeepsDistinct(slots, tenant);
      generation := generation + 1;
      slots := Remove(slots, tenant);
    }
  }

  lemma MakeRoomKeepsDistinct(slots: seq<Slot>)
    requires Distinct(slots)
    ensures Distinct(MakeRoom(slots)) && forall s | s in MakeRoom(slots) :: s in slots
  {
    assert forall i | 0 <= i < |MakeRoom(slots)| :: MakeRoom(slots)[i] in slots;
  }

  lemma AppendKeepsDistinct(slots: seq<Slot>, s: Slot)
    requires Distinct(slots) && forall x | x in slots :: x.tenant != s.tenant
    ensures Distinct(slots + [s])
  {
  }

  lemma StoreKeepsValid(c: Cache, tenant: Tenant, partitions: seq<string>, ticket: Ticket, now: nat)
    requires Valid(c)
    ensures var r := AfterStore(c, tenant, partitions, ticket, now); r.Some? ==> Valid(r.value)
  {
    var others := Remove(c.slots, tenant);
    RemoveKeepsDistinct(c.slots, tenant);
    RemoveMembers(c.slots, tenant);
    MakeRoomKeepsDistinct(others);
    AppendKeepsDistinct(MakeRoom(others), Slot(tenant, partitions, ticket.startedAt + TTL_MS));
  }

  lemma {:induction false} RemoveHidesOnlyOne(slots: seq<Slot>, tenant: Tenant, other: Tenant)
    ensures Lookup(Remove(slots, tenant), other) == if other == tenant then None else Lookup(slots, other)
  {
    if slots != [] {
      RemoveHidesOnlyOne(slots[1..], tenant, other);
    }
  }

  lemma {:induction false} LookupAppended(slots: seq<Slot>, s: Slot, tenant: Tenant)
    ensures Lookup(slots + [s], tenant) ==
            if Lookup(slots, tenant).Some? then Lookup(slots, tenant)
            else if s.tenant == tenant then Some(s) else None
  {
    if slots != [] {
      assert (slots + [s])[1..] == slots[1..] + [s];
      LookupAppended(slots[1..], s, tenant);
    }
  }

  /** A stored result is what its tenant is served until its time comes. */
  lemma StoredResultIsServed(c: Cache, tenant: Tenant, partitions: seq<string>, startedAt: nat, now: nat, later: nat)
    requires now < startedAt + TTL_MS
    ensures Served(AfterStore(c, tenant, partitions, Ticket(c.generation, startedAt), now).value, tenant, later)
            == if later < startedAt + TTL_MS then Some(partitions) else None
  {
    var others := Remove(c.slots, tenant);
    RemoveHidesOnlyOne(c.slots, tenant, tenant);
    LookupAppended(MakeRoom(others), Slot(tenant, partitions, startedAt + TTL_MS), tenant);
  }

  /** Storing costs another tenant its slot only when the cache is full, and then only the oldest slot. */
  lemma StoringEvictsOnlyTheOldest(
    c: Cache, tenant: Tenant, partitions: seq<string>, startedAt: nat, now: nat, other: Tenant)
    requires |c.slots| <= MAX_ENTRIES && now < startedAt + TTL_MS && other != tenant
    ensures var after := AfterStore(c, tenant, partitions, Ticket(c.generation, startedAt), now).value;
            || Lookup(after.slots, other) == Lookup(c.slots, other)
            || (|c.slots| == MAX_ENTRIES && c.slots[0].tenant == other)
  {
    var others, s := Remove(c.slots, tenant), Slot(tenant, partitions, startedAt + TTL_MS);
    RoomForOne(others, s, other);
    if |others| >= MAX_ENTRIES {
      RemoveNothingWhenFull(c, tenant);
    } else {
      RemoveHidesOnlyOne(c.slots, tenant, other);
    }
  }

  lemma RoomForOne(slots: seq<Slot>, s: Slot, other: Tenant)
    requires s.tenant != other
    ensures || Lookup(MakeRoom(slots) + [s], other) == Lookup(slots, other)
            || (|slots| >= MAX_ENTRIES && slots[0].tenant == other)
  {
    LookupAppended(MakeRoom(slots), s, other);
    if |slots| >= MAX_ENTRIES {
      LookupPastTheOldest(slots, other);
    }
  }

  lemma LookupPastTheOldest(slots: seq<Slot>, tenant: Tenant)
    requires slots != []
    ensures slots[0].tenant == tenant || Lookup(slots[1..], tenant) == Lookup(slots, tenant)
  {
  }

  lemma RemoveNothingWhenFull(c: Cache, tenant: Tenant)
    requires |Remove(c.slots, tenant)| >= MAX_ENTRIES >= |c.slots|
    ensures Remove(c.slots, tenant) == c.slots && |c.slots| == MAX_ENTRIES
  {
    if Lookup(c.slots, tenant).Some? {
      RemoveShrinks(c.slots, tenant);
    } else {
      RemoveNothing(c.slots, tenant);
    }
  }

  lemma {:induction false} RemoveShrinks(slots: seq<Slot>, tenant: Tenant)
    requires Lookup(slots, tenant).Some?
    ensures |Remove(slots, tenant)| < |slots|
  {
    if slots[0].tenant != tenant {
      RemoveShrinks(slots[1..], tenant);
    }
  }

  /** After an invalidation the tenant misses, everyone else is served as before, and no earlier ticket can store. */
  lemma InvalidationForcesFreshRead(
    c: Cache, tenant: Tenant, other: Tenant, ticket: Ticket, partitions: seq<string>, now: nat)
    requires ticket.generation <= c.generation
    ensures var after := AfterInvalidate(c, tenant);
            && Served(after, other, now) == (if other == tenant then None else Served(c, other, now))
            && (now < ticket.startedAt + TTL_MS ==> AfterStore(after, other, partitions, ticket, now) == Some(after))
  {
    RemoveHidesOnlyOne(c.slots, tenant, other);
  }

  // ------------------------------------------------------------ interleaving

  datatype Phase = Reading | HasRead(partitions: seq<string>) | Ended

  datatype Flight = Flight(tenant: Tenant, ticket: Ticket, phase: Phase)

  /** The table as it stood at a moment of the run. */
  datatype Moment = Moment(time: nat, table: CT.Table)

  datatype Answer = Answer(tenant: Tenant, partitions: seq<string>, at: nat)

  /**
   pending holds the tenant of every writer that has committed and not yet
   invalidated; past is every table of the run with its time.
   */
  datatype World = World(
    table: CT.Table, cache: Cache, clock: nat, flights: seq<Flight>, pending: seq<Tenant>,
    answers: seq<Answer>, past: seq<Moment>)

  datatype Step =
    | Tick(ms: nat)
    | Begin(tenant: Tenant)
    | Read(flight: nat)
    | Store(flight: nat)
    | Write(write: CT.Write)
    | Finish(writer: nat)
    | Invalidate(tenant: Tenant)

  function Resolver(w: World, tenant: Tenant): World {
    var hit := Served(w.cache, tenant, w.clock);
    var v := w.(cache := AfterRead(w.cache, tenant, w.clock));
    if hit.Some? then v.(answers := w.answers + [Answer(tenant, hit.value, w.clock)])
    else v.(flights := w.flights + [Flight(tenant, Ticket(w.cache.generation, w.clock), Reading)])
  }

  function ReadTable(w: World, i: nat): World
    requires i < |w.flights| && w.flights[i].phase.Reading?
  {
    var found := CT.Resolve(w.table, w.flights[i].tenant);
    w.(flights := w.flights[i := w.flights[i].(phase := if found.Some? then HasRead(found.value) else Ended)])
  }

  function StoreResult(w: World, i: nat): World
    requires i < |w.flights| && w.flights[i].phase.HasRead?
  {
    var f := w.flights[i];
    var stored := AfterStore(w.cache, f.tenant, f.phase.partitions, f.ticket, w.clock);
    var v := w.(flights := w.flights[i := f.(phase := Ended)]);
    if stored.None? then v
    else v.(cache := stored.value, answers := w.answers + [Answer(f.tenant, f.phase.partitions, w.clock)])
  }

  function CommitWrite(w: World, write: CT.Write): World {
    var after := CT.ApplyWrite(w.table, write);
    w.(table := after, pending := if after == w.table || write.Rotate? then w.pending else w.pending + [write.tenant])
  }

  function Act(w: World, step: Step): World {
    match step
    case Tick(ms) => w.(clock := w.clock + ms)
    case Begin(tenant) => Resolver(w, tenant)
    case Read(i) => if i < |w.flights| && w.flights[i].phase.Reading? then ReadTable(w, i) else w
    case Store(i) => if i < |w.flights| && w.flights[i].phase.HasRead? then StoreResult(w, i) else w
    case Write(write) => CommitWrite(w, write)
    case Finish(k) =>
      if k < |w.pending| then
        w.(cache := AfterInvalidate(w.cache, w.pending[k]), pending := w.pending[..k] + w.pending[k + 1..])
      else w
    case Invalidate(tenant) => w.(cache := AfterInvalidate(w.cache, tenant))
  }

  /** One step, with the table it leaves recorded. */
  function Next(w: World, step: Step): World {
    var v := Act(w, step);
    v.(past := w.past + [Moment(v.clock, v.table)])
  }

  function Run(w: World, steps: seq<Step>): World
    decreases |steps|
  {
    if steps == [] then w else Run(Next(w, steps[0]), steps[1..])
  }

  predicate Initial(w: World) {
    && w.cache == Cache([], 0) && w.flights == [] && w.pending == [] && w.answers == []
    && w.past == [Moment(w.clock, w.table)]
  }

  // --------------------------------------------------------------- invariant

  /** This was what the table resolved to at some recorded moment in the given span. */
  ghost predicate Backed(past: seq<Moment>, tenant: Tenant, partitions: seq<string>, from: int, to: int) {
    exists k :: 0 <= k < |past| && from <= past[k].time <= to && CT.Resolve(past[k].table, tenant) == Some(partitions)
  }

  ghost predicate Current(w: World, tenant: Tenant, partitions: seq<string>) {
    tenant in w.pending || CT.Resolve(w.table, tenant) == Some(partitions)
  }

  ghost predicate SlotOk(w: World, s: Slot) {
    Current(w, s.tenant, s.partitions) && Backed(w.past, s.tenant, s.partitions, s.expiresAt - TTL_MS, w.clock)
  }

  ghost predicate FlightOk(w: World, f: Flight) {
    && f.ticket.generation <= w.cache.generation
    && (f.phase.HasRead? ==>
          && Backed(w.past, f.tenant, f.phase.partitions, f.ticket.startedAt, w.clock)
          && (f.ticket.generation == w.cache.generation ==> Current(w, f.tenant, f.phase.partitions)))
  }

  /** An answer is what the table said less than the staleness window before it was given. */
  ghost predicate AnswerOk(past: seq<Moment>, a: Answer) {
    Backed(past, a.tenant, a.partitions, a.at - TTL_MS + 1, a.at)
  }

  ghost predicate Inv(w: World) {
    && Valid(w.cache)
    && (forall s | s in w.cache.slots :: SlotOk(w, s))
    && (forall f | f in w.flights :: FlightOk(w, f))
    && (forall a | a in w.answers :: AnswerOk(w.past, a))
    && |w.past| > 0 && w.past[|w.past| - 1] == Moment(w.clock, w.table)
    && (forall f | f in w.flights :: f.ticket.startedAt <= w.clock)
  }

  lemma BackedLater(
    past: seq<Moment>, m: Moment, tenant: Tenant, partitions: seq<string>, from: int, to: int, later: int)
    requires Backed(past, tenant, partitions, from, to) && to <= later
    ensures Backed(past + [m], tenant, partitions, from, later)
  {
    var k :| 0 <= k < |past| && from <= past[k].time <= to && CT.Resolve(past[k].table, tenant) == Some(partitions);
    assert (past + [m])[k] == past[k];
  }

  /** What every step owes: each slot, flight and answer it leaves was fine before, or is shown fine here. */
  ghost predicate Carries(w: World, v: World) {
    && Valid(v.cache)
    && v.clock >= w.clock
    && (forall s | s in v.cache.slots :: Current(v, s.tenant, s.partitions)
                                         && Backed(w.past, s.tenant, s.partitions, s.expiresAt - TTL_MS, w.clock))
    && (forall f | f in v.flights :: f.ticket.startedAt <= v.clock && f.ticket.generation <= v.cache.generation)
    && (forall f | f in v.flights && f.phase.HasRead? ::
          && Backed(w.past, f.tenant, f.phase.partitions, f.ticket.startedAt, w.clock)
          && (f.ticket.generation == v.cache.generation ==> Current(v, f.tenant, f.phase.partitions)))
    && (forall a | a in v.answers :: AnswerOk(w.past, a))
  }

  lemma RecordingKeepsInv(w: World, step: Step)
    requires Carries(w, Act(w, step))
    ensures Inv(Next(w, step))
  {
    var u, v := Act(w, step), Next(w, step);
    var m := Moment(v.clock, v.table);
    forall s | s in v.cache.slots ensures SlotOk(v, s) {
      assert Current(u, s.tenant, s.partitions);
      BackedLater(w.past, m, s.tenant, s.partitions, s.expiresAt - TTL_MS, w.clock, v.clock);
    }
    forall f | f in v.flights ensures FlightOk(v, f) {
      if f.phase.HasRead? {
        BackedLater(w.past, m, f.tenant, f.phase.partitions, f.ticket.startedAt, w.clock, v.clock);
      }
    }
    forall a | a in v.answers ensures AnswerOk(v.past, a) {
      BackedLater(w.past, m, a.tenant, a.partitions, a.at - TTL_MS + 1, a.at, a.at);
    }
  }

  lemma Widen(past: seq<Moment>, tenant: Tenant, partitions: seq<string>, from: int, earlier: int, to: int)
    requires Backed(past, tenant, partitions, from, to) && earlier <= from
    ensures Backed(past, tenant, partitions, earlier, to)
  {
    var k :| 0 <= k < |past| && from <= past[k].time <= to && CT.Resolve(past[k].table, tenant) == Some(partitions);
    assert earlier <= past[k].time;
  }

  /** A step that leaves the table and the set of pending writers alone only has to account for what it adds. */
  lemma QuietCarries(w: World, v: World)
    requires Inv(w) && Valid(v.cache)
    requires v.table == w.table && v.pending == w.pending
    requires v.clock >= w.clock && v.cache.generation >= w.cache.generation
    requires forall s | s in v.cache.slots && s !in w.cache.slots :: SlotOk(w, s)
    requires forall f | f in v.flights && f !in w.flights :: FlightOk(w, f) && f.ticket.startedAt <= w.clock
    requires forall a | a in v.answers && a !in w.answers :: AnswerOk(w.past, a)
    ensures Carries(w, v)
  {
    forall s | s in v.cache.slots
      ensures Current(v, s.tenant, s.partitions)
              && Backed(w.past, s.tenant, s.partitions, s.expiresAt - TTL_MS, w.clock)
    {
      assert SlotOk(w, s);
    }
    forall f | f in v.flights
      ensures f.ticket.startedAt <= v.clock && f.ticket.generation <= v.cache.generation
      ensures f.phase.HasRead? ==>
                && Backed(w.past, f.tenant, f.phase.partitions, f.ticket.startedAt, w.clock)
                && (f.ticket.generation == v.cache.generation ==> Current(v, f.tenant, f.phase.partitions))
    {
      assert FlightOk(w, f);
    }
  }

  lemma ResolverCarries(w: World, tenant: Tenant)
    requires Inv(w)
    ensures Carries(w, Resolver(w, tenant))
  {
    RemoveKeepsDistinct(w.cache.slots, tenant);
    RemoveMembers(w.cache.slots, tenant);
    if Served(w.cache, tenant, w.clock).Some? {
      LookupFindsMember(w.cache.slots, tenant);
      var s := Lookup(w.cache.slots, tenant).value;
      assert SlotOk(w, s);
      Widen(w.past, tenant, s.partitions, s.expiresAt - TTL_MS, w.clock - TTL_MS + 1, w.clock);
    }
    QuietCarries(w, Resolver(w, tenant));
  }

  lemma ReadCarries(w: World, i: nat)
    requires Inv(w) && i < |w.flights| && w.flights[i].phase.Reading?
    ensures Carries(w, ReadTable(w, i))
  {
    var f := w.flights[i];
    var found := CT.Resolve(w.table, f.tenant);
    if found.Some? {
      var k := |w.past| - 1;
      assert f.ticket.startedAt <= w.past[k].time <= w.clock;
      assert Backed(w.past, f.tenant, found.value, f.ticket.startedAt, w.clock);
    }
    assert FlightOk(w, f);
    QuietCarries(w, ReadTable(w, i));
  }

  lemma StoreCarries(w: World, i: nat)
    requires Inv(w) && i < |w.flights| && w.flights[i].phase.HasRead?
    ensures Carries(w, StoreResult(w, i))
  {
    var f := w.flights[i];
    var v := StoreResult(w, i);
    assert FlightOk(w, f);
    StoreKeepsValid(w.cache, f.tenant, f.phase.partitions, f.ticket, w.clock);
    RemoveMembers(w.cache.slots, f.tenant);
    if f.ticket.startedAt + TTL_MS > w.clock {
      Widen(w.past, f.tenant, f.phase.partitions, f.ticket.startedAt, w.clock - TTL_MS + 1, w.clock);
    }
    forall s | s in v.cache.slots && s !in w.cache.slots ensures SlotOk(w, s) {
      assert s == Slot(f.tenant, f.phase.partitions, f.ticket.startedAt + TTL_MS);
    }
    QuietCarries(w, v);
  }

  lemma WriteKeepsCurrent(w: World, write: CT.Write, tenant: Tenant, partitions: seq<string>)
    requires Current(w, tenant, partitions)
    ensures Current(CommitWrite(w, write), tenant, partitions)
  {
    if write.tenant != tenant || write.Rotate? {
      CT.WritesStayInTheirTenant(w.table, write, tenant);
    }
  }

  lemma WriteCarries(w: World, write: CT.Write)
    requires Inv(w)
    ensures Carries(w, CommitWrite(w, write))
  {
    var v := CommitWrite(w, write);
    forall s | s in v.cache.slots
      ensures Current(v, s.tenant, s.partitions)
              && Backed(w.past, s.tenant, s.partitions, s.expiresAt - TTL_MS, w.clock)
    {
      assert SlotOk(w, s);
      WriteKeepsCurrent(w, write, s.tenant, s.partitions);
    }
    forall f | f in v.flights && f.phase.HasRead?
      ensures Backed(w.past, f.tenant, f.phase.partitions, f.ticket.startedAt, w.clock)
      ensures f.ticket.generation == v.cache.generation ==> Current(v, f.tenant, f.phase.partitions)
    {
      assert FlightOk(w, f);
      if f.ticket.generation == v.cache.generation {
        WriteKeepsCurrent(w, write, f.tenant, f.phase.partitions);
      }
    }
    assert forall f | f in v.flights :: FlightOk(w, f);
  }

  /** An invalidation outdates every lookup in flight, so the writer's obligation can be struck off. */
  lemma FinishCarries(w: World, k: nat)
    requires Inv(w) && k < |w.pending|
    ensures Carries(w, Act(w, Finish(k)))
  {
    var v := Act(w, Finish(k));
    RemoveKeepsDistinct(w.cache.slots, w.pending[k]);
    RemoveMembers(w.cache.slots, w.pending[k]);
    forall s | s in v.cache.slots
      ensures Current(v, s.tenant, s.partitions)
              && Backed(w.past, s.tenant, s.partitions, s.expiresAt - TTL_MS, w.clock)
    {
      assert SlotOk(w, s);
      StillPending(w.pending, k, s.tenant);
    }
    forall f | f in v.flights
      ensures f.ticket.startedAt <= v.clock && f.ticket.generation < v.cache.generation
      ensures f.phase.HasRead? ==> Backed(w.past, f.tenant, f.phase.partitions, f.ticket.startedAt, w.clock)
    {
      assert FlightOk(w, f);
    }
  }

  lemma StillPending(pending: seq<Tenant>, k: nat, tenant: Tenant)
    requires k < |pending| && tenant != pending[k]
    ensures tenant in pending[..k] + pending[k + 1..] <==> tenant in pending
  {
    assert pending == pending[..k] + ([pending[k]] + pending[k + 1..]);
  }

  lemma NextKeepsInv(w: World, step: Step)
    requires Inv(w)
    ensures Inv(Next(w, step))
  {
    match step {
      case Begin(tenant) => ResolverCarries(w, tenant);
      case Read(i) =>
        if i < |w.flights| && w.flights[i].phase.Reading? { ReadCarries(w, i); } else { QuietCarries(w, w); }
      case Store(i) =>
        if i < |w.flights| && w.flights[i].phase.HasRead? { StoreCarries(w, i); } else { QuietCarries(w, w); }
      case Write(write) => WriteCarries(w, write);
      case Finish(k) => if k < |w.pending| { FinishCarries(w, k); } else { QuietCarries(w, w); }
      case Tick(_) => QuietCarries(w, Act(w, step));
      case Invalidate(tenant) =>
        RemoveKeepsDistinct(w.cache.slots, tenant);
        RemoveMembers(w.cache.slots, tenant);
        QuietCarries(w, Act(w, step));
    }
    RecordingKeepsInv(w, step);
  }

  lemma {:induction false} RunKeepsInv(w: World, steps: seq<Step>)
    requires Inv(w)
    ensures Inv(Run(w, steps))
    decreases |steps|
  {
    if steps != [] {
      NextKeepsInv(w, steps[0]);
      RunKeepsInv(Next(w, steps[0]), steps[1..]);
    }
  }

  // ------------------------------------------------------------------ theorems

  /** When no writer of a tenant owes an invalidation, a hit is what the table says now. */
  lemma HitsAreCurrentOnceWritersFinish(start: World, steps: seq<Step>, tenant: Tenant)
    requires Initial(start)
    requires var w := Run(start, steps); tenant !in w.pending && Served(w.cache, tenant, w.clock).Some?
    ensures var w := Run(start, steps); Served(w.cache, tenant, w.clock) == CT.Resolve(w.table, tenant)
  {
    RunKeepsInv(start, steps);
    var w := Run(start, steps);
    LookupFindsMember(w.cache.slots, tenant);
    assert SlotOk(w, Lookup(w.cache.slots, tenant).value);
  }

  /** Whatever is answered, from the cache or not, the table said it less than the window ago. */
  lemma AnswersAreNeverStale(start: World, steps: seq<Step>, a: Answer)
    requires Initial(start) && a in Run(start, steps).answers
    ensures exists k :: 0 <= k < |Run(start, steps).past|
                        && a.at - TTL_MS < Run(start, steps).past[k].time <= a.at
                        && CT.Resolve(Run(start, steps).past[k].table, a.tenant) == Some(a.partitions)
  {
    RunKeepsInv(start, steps);
    assert AnswerOk(Run(start, steps).past, a);
  }

  lemma CacheStaysBounded(start: World, steps: seq<Step>)
    requires Initial(start)
    ensures |Run(start, steps).cache.slots| <= MAX_ENTRIES
    ensures forall i, j | 0 <= i < j < |Run(start, steps).cache.slots| ::
              Run(start, steps).cache.slots[i].tenant != Run(start, steps).cache.slots[j].tenant
  {
    RunKeepsInv(start, steps);
  }
}
