/**
 The concurrent-session limit over the table of OpenID provider records: oldest
 sessions go first, and with them every grant and token hanging off their grants.
 Enforcements run one at a time.
 */
module SessionLimit {
  import opened Wrappers

  /** Identifiers, in the order the database sorts them. */
  type Id = nat
  type Account = string

  datatype Model = Session | Grant | Other

  /** authorizations lists the grant named by each client's entry, or None where it names none. */
  datatype Record = Record(
    model: Model, id: Id, account: Option<Account>, createdAt: nat, expiresAt: Option<nat>,
    grantId: Option<Id>, authorizations: seq<Option<Id>>)

  type Table = set<Record>

  /** Records are unique by model and id; a session record carries no grant id of its own. */
  ghost predicate WellFormed(t: Table) {
    && (forall a, b | a in t && b in t && a.model == b.model && a.id == b.id :: a == b)
    && (forall r | r in t && r.model == Session :: r.grantId == None)
  }

  function ExtractGrantIds(authorizations: seq<Option<Id>>): (r: set<Id>)
    ensures forall g :: g in r <==> Some(g) in authorizations
  {
    if authorizations == [] then {}
    else
      assert authorizations == [authorizations[0]] + authorizations[1..];
      (if authorizations[0].Some? then {authorizations[0].value} else {}) + ExtractGrantIds(authorizations[1..])
  }

  predicate Active(r: Record, account: Account, now: nat) {
    r.model == Session && r.account == Some(account) && (r.expiresAt.None? || r.expiresAt.value > now)
  }

  function ActiveSessions(t: Table, account: Account, now: nat): Table {
    set r | r in t && Active(r, account, now)
  }

  /** The sessions that may be evicted: not the new one. */
  function Candidates(t: Table, account: Account, now: nat, newSession: Option<Id>): Table {
    set r | r in t && Active(r, account, now) && newSession != Some(r.id)
  }

  predicate Newer(a: Record, b: Record) {
    a.createdAt > b.createdAt || (a.createdAt == b.createdAt && a.id > b.id)
  }

  function NewerThan(s: Table, r: Record): Table {
    set x | x in s && Newer(x, r)
  }

  /** Newest first, everything past the first `keep`. */
  function PastOffset(s: Table, keep: nat): Table {
    set r | r in s && |NewerThan(s, r)| >= keep
  }

  /** A record of an evicted session's grants, or something issued under one. */
  predicate HangsOff(r: Record, grants: set<Id>) {
    (r.grantId.Some? && r.grantId.value in grants) || (r.model == Grant && r.id in grants)
  }

  /** How many sessions besides the new one fit. */
  function Room(limit: nat, newSession: Option<Id>): nat {
    if newSession.Some? && limit > 0 then limit - 1 else limit
  }

  function Surplus(t: Table, account: Account, now: nat, limit: nat, newSession: Option<Id>): Table {
    PastOffset(Candidates(t, account, now, newSession), Room(limit, newSession))
  }

  function Ids(sessions: Table): set<Id> {
    set s | s in sessions :: s.id
  }

  function GrantsOf(sessions: Table): set<Id> {
    set s, g | s in sessions && g in ExtractGrantIds(s.authorizations) :: g
  }

  /** Without these sessions, and without anything under their grants. */
  function Without(t: Table, sessions: Table): Table {
    set r | r in t && !(r.model == Session && r.id in Ids(sessions)) && !HangsOff(r, GrantsOf(sessions))
  }

  datatype Outcome = Outcome(prior: nat, evicted: nat)

  class OidcModels {
    var records: Table

    method CountActiveSessions(account: Account, now: nat) returns (n: nat)
      ensures n == |ActiveSessions(records, account, now)|
    {
      n := |ActiveSessions(records, account, now)|;
    }

    /** Every candidate kept is newer than every one evicted, and eviction goes on exactly until the rest fit. */
    method ClaimSurplusSessions(account: Account, now: nat, limit: nat, newSession: Option<Id>) returns (evicted: Table)
      requires WellFormed(records)
      modifies this
      ensures evicted == Surplus(old(records), account, now, limit, newSession)
      ensures records == old(records) - evicted
      ensures var candidates := Candidates(old(records), account, now, newSession);
              && evicted <= candidates && AllNewer(candidates - evicted, evicted)
              && |candidates - evicted| <= Room(limit, newSession)
              && (evicted != {} ==> |candidates - evicted| == Room(limit, newSession))
    {
      CandidatesAreRanked(records, account, now, newSession);
      SurplusIsOldest(Candidates(records, account, now, newSession), Room(limit, newSession));
      var keep := if newSession.Some? then limit - 1 else limit;
      keep := if keep < 0 then 0 else keep;
      evicted := PastOffset(Candidates(records, account, now, newSession), keep);
      records := records - evicted;
    }

    method DeleteSessions(sessions: Table)
      modifies this
      ensures records == Without(old(records), sessions)
    {
      if sessions == {} {
        NothingToDelete(records);
        return;
      }
      var ids, grants := Ids(sessions), GrantsOf(sessions);
      records := set r | r in records && !(r.model == Session && r.id in ids) && !HangsOff(r, grants);
    }

    /**
     Bring the account back within a positive limit; zero disables the limit.
     newSession is None when no id, or an empty one, is given.
     */
    method Enforce(account: Account, now: nat, limit: nat, newSession: Option<Id>) returns (r: Outcome)
      requires WellFormed(records)
      modifies this
      ensures limit == 0 ==> records == old(records) && r == Outcome(0, 0)
      ensures limit > 0 ==> Enforced(old(records), records, account, now, limit, newSession, r)
    {
      if limit == 0 {
        return Outcome(0, 0);
      }
      var prior := CountActiveSessions(account, now);
      var evicted := ClaimSurplusSessions(account, now, limit, newSession);
      EnforcementMeetsLimit(old(records), account, now, limit, newSession);
      if evicted == {} {
        NothingToDelete(records);
        return Outcome(prior, 0);
      }
      DeleteSessions(evicted);
      r := Outcome(prior, |evicted|);
    }
  }

  lemma NothingToDelete(t: Table)
    ensures Without(t, {}) == t
  {
    assert GrantsOf({}) == {};
  }

  // --------------------------------------------------------- what is promised

  ghost predicate AllNewer(xs: Table, ys: Table) {
    forall a, b | a in xs && b in ys :: Newer(a, b)
  }

  /**
   The account is within its limit. Of its other sessions exactly the newest are
   left, as many as fit. What is gone is what was evicted and what hung off it.
   */
  ghost predicate Enforced(
    before: Table, after: Table, account: Account, now: nat, limit: nat, newSession: Option<Id>, r: Outcome)
  {
    var candidates := Candidates(before, account, now, newSession);
    var kept := Candidates(after, account, now, newSession);
    var evicted := candidates - kept;
    && |ActiveSessions(after, account, now)| <= limit
    && kept <= candidates && AllNewer(kept, evicted)
    && (evicted != {} ==> |kept| == Room(limit, newSession))
    && r == Outcome(|ActiveSessions(before, account, now)|, |evicted|)
    && (forall x :: x in after <==> x in before && x !in evicted && !HangsOff(x, GrantsOf(evicted)))
    && (forall x | x in before && x.model == Session && newSession == Some(x.id) :: x in after)
  }

  // ------------------------------------------------------------ newest first

  /** Sessions are totally ordered by age, ids breaking ties. */
  ghost predicate Ranked(s: Table) {
    forall a, b | a in s && b in s && a != b :: a.id != b.id
  }

  lemma {:induction false} Oldest(s: Table) returns (o: Record)
    requires s != {} && Ranked(s)
    ensures o in s && AllNewer(s - {o}, {o})
    decreases |s|
  {
    var x :| x in s;
    var rest := s - {x};
    if rest == {} {
      o := x;
      assert s - {o} == {};
    } else {
      var y := Oldest(rest);
      o := if Newer(x, y) then y else x;
      forall z | z in s - {o} ensures Newer(z, o) {
        assert z.id != o.id && x.id != y.id;
        if z != x && z != y {
          assert z in rest - {y};
          assert Newer(z, y);
        }
      }
    }
  }

  /** Dropping the oldest changes nobody else's place. */
  lemma PlacesWithoutOldest(s: Table, o: Record, keep: nat)
    requires o in s && AllNewer(s - {o}, {o})
    ensures |NewerThan(s, o)| == |s| - 1
    ensures PastOffset(s, keep) == PastOffset(s - {o}, keep) + if |s| - 1 >= keep then {o} else {}
  {
    assert !Newer(o, o);
    assert NewerThan(s, o) == s - {o};
    forall r | r in s - {o} ensures NewerThan(s, r) == NewerThan(s - {o}, r) {
      assert Newer(r, o);
    }
  }

  lemma {:induction false} KeptIsFull(s: Table, keep: nat)
    requires Ranked(s)
    ensures |s - PastOffset(s, keep)| == if |s| < keep then |s| else keep
    decreases |s|
  {
    if s == {} {
      assert s - PastOffset(s, keep) == {};
    } else {
      var o := Oldest(s);
      KeptIsFull(s - {o}, keep);
      KeptWithoutOldest(s, o, keep);
    }
  }

  lemma KeptWithoutOldest(s: Table, o: Record, keep: nat)
    requires o in s && AllNewer(s - {o}, {o})
    ensures var kept := (s - {o}) - PastOffset(s - {o}, keep);
            |s - PastOffset(s, keep)| == if |s| - 1 >= keep then |kept| else |kept| + 1
  {
    PlacesWithoutOldest(s, o, keep);
    var past := PastOffset(s - {o}, keep);
    var kept := (s - {o}) - past;
    if |s| - 1 >= keep {
      assert s - (past + {o}) == kept;
    } else {
      assert past + {} == past;
      assert s - past == kept + {o};
    }
  }

  lemma KeptAreNewest(s: Table, keep: nat)
    requires Ranked(s)
    ensures AllNewer(s - PastOffset(s, keep), PastOffset(s, keep))
  {
    forall a, b | a in s - PastOffset(s, keep) && b in PastOffset(s, keep) ensures Newer(a, b) {
      if !Newer(a, b) {
        assert a.id != b.id;
        SubsetIsSmaller(NewerThan(s, b), NewerThan(s, a));
      }
    }
  }

  lemma {:induction false} SubsetIsSmaller(x: Table, y: Table)
    requires x <= y
    ensures |x| <= |y|
    decreases |x|
  {
    if r :| r in x {
      SubsetIsSmaller(x - {r}, y - {r});
    }
  }

  // ------------------------------------------------------------ the whole run

  lemma CandidatesAreRanked(t: Table, account: Account, now: nat, newSession: Option<Id>)
    requires WellFormed(t)
    ensures Ranked(Candidates(t, account, now, newSession))
  {
  }

  /** Deleting by session id removes no session but the evicted ones, for ids are unique. */
  lemma WhatIsDeleted(t: Table, evicted: Table)
    requires WellFormed(t) && evicted <= t && forall x | x in evicted :: x.model == Session
    ensures forall x :: x in Without(t - evicted, evicted) <==>
                        x in t && x !in evicted && !HangsOff(x, GrantsOf(evicted))
    ensures forall x | x in t && x.model == Session :: x in Without(t - evicted, evicted) <==> x !in evicted
  {
    forall x | x in t && x !in evicted && x.model == Session ensures x.id !in Ids(evicted) {
      assert forall e | e in evicted :: e in t && e.id != x.id;
    }
  }

  lemma WithinLimit(t: Table, account: Account, now: nat, limit: nat, newSession: Option<Id>)
    requires forall a, b | a in t && b in t && a.model == b.model && a.id == b.id :: a == b
    requires limit > 0 && |Candidates(t, account, now, newSession)| <= Room(limit, newSession)
    ensures |ActiveSessions(t, account, now)| <= limit
  {
    var candidates, active := Candidates(t, account, now, newSession), ActiveSessions(t, account, now);
    if s :| s in active && newSession == Some(s.id) {
      assert active == candidates + {s};
    } else {
      assert active == candidates;
    }
  }

  /** Of the candidates, exactly the newest stay, as many as there is room for. */
  lemma SurplusIsOldest(s: Table, keep: nat)
    requires Ranked(s)
    ensures var evicted := PastOffset(s, keep);
            && AllNewer(s - evicted, evicted) && |s - evicted| <= keep
            && (evicted != {} ==> |s - evicted| == keep)
  {
    KeptIsFull(s, keep);
    KeptAreNewest(s, keep);
    var evicted := PastOffset(s, keep);
    if evicted != {} {
      assert s == (s - evicted) + evicted;
    }
  }

  lemma CandidatesAfter(t: Table, account: Account, now: nat, newSession: Option<Id>, evicted: Table)
    requires WellFormed(t) && evicted <= Candidates(t, account, now, newSession)
    ensures Candidates(Without(t - evicted, evicted), account, now, newSession)
            == Candidates(t, account, now, newSession) - evicted
  {
    WhatIsDeleted(t, evicted);
  }

  /** One enforcement meets everything promised of it. */
  lemma EnforcementMeetsLimit(t: Table, account: Account, now: nat, limit: nat, newSession: Option<Id>)
    requires WellFormed(t) && limit > 0
    ensures var evicted := Surplus(t, account, now, limit, newSession);
            Enforced(t, Without(t - evicted, evicted), account, now, limit, newSession,
                     Outcome(|ActiveSessions(t, account, now)|, |evicted|))
  {
    var candidates, keep := Candidates(t, account, now, newSession), Room(limit, newSession);
    var evicted := PastOffset(candidates, keep);
    var after := Without(t - evicted, evicted);
    assert Ranked(candidates) by {
      CandidatesAreRanked(t, account, now, newSession);
    }
    SurplusIsOldest(candidates, keep);
    CandidatesAfter(t, account, now, newSession, evicted);
    assert candidates - (candidates - evicted) == evicted;
    assert |ActiveSessions(after, account, now)| <= limit by {
      WithinLimit(after, account, now, limit, newSession);
    }
    WhatIsDeleted(t, evicted);
  }
}
