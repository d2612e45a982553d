/**
 The connection row's guarded transitions, and the report that a connection has
 been established. Deliveries may repeat, arrive out of order, or jump straight
 to completed; tenant deactivation may abandon the row at any moment.
 */
module ConnectionEstablished {

  datatype State = Invited | Requested | Responded | Active | Completed | Abandoned

  function Rank(s: State): nat {
    match s
    case Invited => 0
    case Requested => 1
    case Responded => 2
    case Active => 3
    case Completed => 4
    case Abandoned => 4
  }

  function StatesBelow(target: State): set<State> {
    set s: State | Rank(s) < Rank(target)
  }

  /** The parties are connected. */
  predicate Connected(s: State) {
    s == Active || s == Completed
  }

  class Connection {
    var state: State

    method UpdateStateIfForward(target: State, from: set<State>) returns (won: bool)
      modifies this
      ensures won == (old(state) in from)
      ensures state == if won then target else old(state)
    {
      won := state in from;
      if won {
        state := target;
      }
    }

    /** Moves strictly forward or not at all, and reports exactly the move that first connects. */
    method TransitionConnectionState(target: State) returns (updated: bool, established: bool)
      modifies this
      ensures state == After(old(state), Delivered(target))
      ensures updated <==> state != old(state)
      ensures established <==> !Connected(old(state)) && Connected(state)
    {
      var active := false;
      if target == Completed {
        active := UpdateStateIfForward(Active, StatesBelow(Active));
      }
      var won := UpdateStateIfForward(target, StatesBelow(target));
      updated := won || active;
      established := active || (won && target == Active);
    }

    /** Catch up with the agent: nothing moves unless the row is the agent's and its state is one asked for. */
    method Reconcile(remote: State, forward: set<State>, matches: bool) returns (established: bool)
      modifies this
      ensures state == After(old(state), Reconciled(remote, forward, matches))
      ensures established <==> !Connected(old(state)) && Connected(state)
    {
      established := false;
      if matches && state in forward {
        var _, e := TransitionConnectionState(remote);
        established := e;
      }
    }

    method Abandon()
      modifies this
      ensures state == After(old(state), TenantDeactivated)
    {
      if state != Completed && state != Abandoned {
        state := Abandoned;
      }
    }
  }

  datatype Event =
    | Delivered(target: State)
    | Reconciled(remote: State, forward: set<State>, matches: bool)
    | TenantDeactivated

  function Forward(s: State, target: State): State {
    if Rank(target) > Rank(s) then target else s
  }

  function After(s: State, e: Event): State {
    match e
    case Delivered(target) => Forward(s, target)
    case Reconciled(remote, forward, matches) => if matches && s in forward then Forward(s, remote) else s
    case TenantDeactivated => if s == Completed then s else Abandoned
  }

  function End(s: State, events: seq<Event>): State
    decreases |events|
  {
    if events == [] then s else End(After(s, events[0]), events[1..])
  }

  function Reports(s: State, events: seq<Event>): nat
    decreases |events|
  {
    if events == [] then 0
    else
      var t := After(s, events[0]);
      (if !Connected(s) && Connected(t) then 1 else 0) + Reports(t, events[1..])
  }

  /** The row is connected at some point of the history. */
  ghost predicate Ever(s: State, events: seq<Event>) {
    exists k :: 0 <= k <= |events| && Connected(End(s, events[..k]))
  }

  lemma {:induction false} EndAppend(s: State, events: seq<Event>, e: Event)
    ensures End(s, events + [e]) == After(End(s, events), e)
    ensures var t := End(s, events);
            Reports(s, events + [e]) == Reports(s, events) + if !Connected(t) && Connected(After(t, e)) then 1 else 0
    decreases |events|
  {
    if events == [] {
      assert [e][1..] == [];
    } else {
      assert (events + [e])[0] == events[0] && (events + [e])[1..] == events[1..] + [e];
      EndAppend(After(s, events[0]), events[1..], e);
    }
  }

  /** A final state ignores everything that still arrives. */
  lemma {:induction false} FinalStatesStay(s: State, events: seq<Event>)
    requires s == Completed || s == Abandoned
    ensures End(s, events) == s
    decreases |events|
  {
    if events != [] {
      FinalStatesStay(s, events[1..]);
    }
  }

  /** Once past the guard of active, nothing is reported again. */
  lemma {:induction false} SilentOnceConnected(s: State, events: seq<Event>)
    requires Rank(s) >= Rank(Active)
    ensures Reports(s, events) == 0
    decreases |events|
  {
    if events != [] {
      SilentOnceConnected(After(s, events[0]), events[1..]);
    }
  }

  lemma EverUnfolds(s: State, events: seq<Event>)
    requires events != []
    ensures Ever(s, events) <==> Connected(s) || Ever(After(s, events[0]), events[1..])
  {
    var t, rest := After(s, events[0]), events[1..];
    if k :| 0 <= k <= |events| && Connected(End(s, events[..k])) {
      if k > 0 {
        assert events[..k][0] == events[0] && events[..k][1..] == rest[..k - 1];
      }
    }
    if Connected(s) {
      assert End(s, events[..0]) == s;
    }
    if k :| 0 <= k <= |rest| && Connected(End(t, rest[..k])) {
      assert events[..k + 1][0] == events[0] && events[..k + 1][1..] == rest[..k];
      assert Connected(End(s, events[..k + 1]));
    }
  }

  /** Established is reported once if the row is ever connected after starting unconnected, and otherwise never. */
  lemma {:induction false} ReportedOnceIfEver(s: State, events: seq<Event>)
    ensures Reports(s, events) == if !Connected(s) && Ever(s, events) then 1 else 0
    decreases |events|
  {
    if events == [] {
      assert events[..0] == events;
    } else {
      EverUnfolds(s, events);
      var t := After(s, events[0]);
      if Connected(s) {
        SilentOnceConnected(s, events);
      } else if Connected(t) {
        SilentOnceConnected(t, events[1..]);
        assert End(t, events[1..][..0]) == t;
      } else {
        ReportedOnceIfEver(t, events[1..]);
      }
    }
  }

  /** A row connected at j and not at k has been abandoned for good in between. */
  lemma LostMeansAbandoned(s: State, events: seq<Event>, j: nat, k: nat)
    requires j <= k <= |events| && Connected(End(s, events[..j])) && !Connected(End(s, events[..k]))
    ensures End(s, events[..k]) == Abandoned
  {
    assert events[..k] == events[..j] + events[j..k];
    EndSplit(s, events[..j], events[j..k]);
    RankNeverFalls(End(s, events[..j]), events[j..k]);
  }

  lemma OneMore(s: State, events: seq<Event>, k: nat)
    requires k < |events|
    ensures End(s, events[..k + 1]) == After(End(s, events[..k]), events[k])
  {
    assert events[..k + 1] == events[..k] + [events[k]];
    EndAppend(s, events[..k], events[k]);
  }

  /** The report comes at step k exactly when step k is the first to connect the row. */
  lemma ReportMarksFirstConnection(s: State, events: seq<Event>, k: nat)
    requires k < |events|
    ensures (!Connected(End(s, events[..k])) && Connected(End(s, events[..k + 1])))
            <==> (Connected(End(s, events[..k + 1])) && forall j | 0 <= j <= k :: !Connected(End(s, events[..j])))
  {
    OneMore(s, events, k);
    if !Connected(End(s, events[..k])) && Connected(End(s, events[..k + 1])) {
      forall j | 0 <= j <= k ensures !Connected(End(s, events[..j])) {
        if Connected(End(s, events[..j])) {
          LostMeansAbandoned(s, events, j, k);
        }
      }
    }
  }

  lemma {:induction false} EndSplit(s: State, xs: seq<Event>, ys: seq<Event>)
    ensures End(s, xs + ys) == End(End(s, xs), ys)
    decreases |xs|
  {
    if xs == [] {
      assert xs + ys == ys;
    } else {
      assert (xs + ys)[0] == xs[0] && (xs + ys)[1..] == xs[1..] + ys;
      EndSplit(After(s, xs[0]), xs[1..], ys);
    }
  }

  lemma {:induction false} RankNeverFalls(s: State, events: seq<Event>)
    ensures Rank(End(s, events)) >= Rank(s)
    decreases |events|
  {
    if events != [] {
      RankNeverFalls(After(s, events[0]), events[1..]);
    }
  }

  // ------------------------------------------------------------ from birth on

  /** A row is an invitation's own, or was made for a party using a multi-use invitation, at the state first seen. */
  datatype Birth = Invitation | FromTemplate(seen: State)

  function Born(b: Birth): State {
    if b.Invitation? then Invited else b.seen
  }

  /** The reports of a whole life: a row made from a template in a connected state is reported as it is made. */
  function LifeReports(b: Birth, events: seq<Event>): nat {
    (if b.FromTemplate? && Connected(b.seen) then 1 else 0) + Reports(Born(b), events)
  }

  /** Over its whole life a row is reported established exactly once if it is ever connected, and otherwise never. */
  lemma ReportedOncePerLife(b: Birth, events: seq<Event>)
    ensures LifeReports(b, events) == if Ever(Born(b), events) then 1 else 0
  {
    ReportedOnceIfEver(Born(b), events);
    if Connected(Born(b)) {
      assert End(Born(b), events[..0]) == Born(b);
    }
  }
}
