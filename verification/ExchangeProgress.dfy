/**
 The rank-based state machine of a credential exchange: which observations are
 accepted, and where any sequence of observations ends up.
 */
module ExchangeProgress {
  import opened Wrappers

  datatype State =
    | Pending
    | ProposalSent
    | OfferSent
    | OfferReceived
    | RequestSent
    | RequestReceived
    | CredentialIssued
    | CredentialReceived
    | Done
    | Abandoned
    | Failed

  function Rank(s: State): nat {
    match s
    case Pending => 0
    case ProposalSent => 1
    case OfferSent => 2
    case OfferReceived => 2
    case RequestSent => 3
    case RequestReceived => 3
    case CredentialIssued => 4
    case CredentialReceived => 4
    case Done => 5
    case Abandoned => 5
    case Failed => 5
  }

  predicate IsFailure(s: State) {
    s == Failed || s == Abandoned
  }

  /** Whether an exchange in `from` accepts the observation `next`. */
  predicate Accepts(from: State, next: State) {
    !(Rank(next) <= Rank(from) || (IsFailure(next) && Rank(from) >= 4))
  }

  function Advance(from: State, next: State): State {
    if Accepts(from, next) then next else from
  }

  /** The state after a whole delivery history, oldest first. */
  function Replay(s: State, observations: seq<State>): State
    decreases |observations|
  {
    if observations == [] then s
    else Replay(Advance(s, observations[0]), observations[1..])
  }

  /** An observation that settles whether the exchange can still fail. */
  predicate Decisive(s: State) {
    IsFailure(s) || Rank(s) >= 4
  }

  predicate NoFailures(observations: seq<State>) {
    forall o | o in observations :: !IsFailure(o)
  }

  /** `m` is the largest of `Rank(s)` and the ranks of the observations. */
  ghost predicate IsTopRank(s: State, observations: seq<State>, m: nat) {
    && Rank(s) <= m
    && (forall o | o in observations :: Rank(o) <= m)
    && (Rank(s) == m || exists o :: o in observations && Rank(o) == m)
  }

  // ---------------------------------------------------------------- runs

  /** Appending one more delivery applies it to the state reached so far. */
  lemma {:induction false} ReplayAppend(s: State, xs: seq<State>, ys: seq<State>)
    ensures Replay(s, xs + ys) == Replay(Replay(s, xs), ys)
    decreases |xs|
  {
    if xs == [] {
      assert xs + ys == ys;
    } else {
      assert (xs + ys)[0] == xs[0] && (xs + ys)[1..] == xs[1..] + ys;
      ReplayAppend(Advance(s, xs[0]), xs[1..], ys);
    }
  }

  /** Rank never falls over a run, and a run that keeps its rank keeps its state. */
  lemma {:induction false} RankNeverFalls(s: State, observations: seq<State>)
    ensures Rank(Replay(s, observations)) >= Rank(s)
    ensures Rank(Replay(s, observations)) == Rank(s) ==> Replay(s, observations) == s
    decreases |observations|
  {
    if observations != [] {
      RankNeverFalls(Advance(s, observations[0]), observations[1..]);
    }
  }

  /** Without failures, the final rank is the maximum rank seen. */
  lemma {:induction false} ReplayReachesTopRank(s: State, observations: seq<State>)
    requires NoFailures(observations)
    ensures IsTopRank(s, observations, Rank(Replay(s, observations)))
    decreases |observations|
  {
    if observations != [] {
      var head, tail := observations[0], observations[1..];
      assert observations == [head] + tail;
      ReplayReachesTopRank(Advance(s, head), tail);
    }
  }

  /**
   Redelivery order and duplication do not matter: two failure-free histories
   over the same set of observations end at the same rank.
   */
  lemma OrderAndDuplicationIrrelevant(s: State, xs: seq<State>, ys: seq<State>)
    requires NoFailures(xs)
    requires forall o :: o in xs <==> o in ys
    ensures Rank(Replay(s, xs)) == Rank(Replay(s, ys))
  {
    ReplayReachesTopRank(s, xs);
    ReplayReachesTopRank(s, ys);
  }

  /** Once a credential is issued or received, or the exchange done, no history makes it fail. */
  lemma {:induction false} IssuedNeverFails(s: State, observations: seq<State>)
    requires Rank(s) >= 4 && !IsFailure(s)
    ensures Rank(Replay(s, observations)) >= 4 && !IsFailure(Replay(s, observations))
    decreases |observations|
  {
    if observations != [] {
      IssuedNeverFails(Advance(s, observations[0]), observations[1..]);
    }
  }

  /** A failed or abandoned exchange never changes again. */
  lemma {:induction false} FailureIsFinal(s: State, observations: seq<State>)
    requires Rank(s) == 5
    ensures Replay(s, observations) == s
  {
    if observations != [] {
      FailureIsFinal(s, observations[1..]);
    }
  }

  /**
   The exact outcome of any history, failures included: an exchange that had not
   issued yet fails exactly when its first decisive observation is a failure,
   and then stays at that very failure whatever arrives later.
   */
  lemma FailsExactlyWhenFailureComesFirst(s: State, observations: seq<State>)
    requires Rank(s) < 4
    ensures IsFailure(Replay(s, observations)) <==>
            exists k :: 0 <= k < |observations| && IsFailure(observations[k])
                        && forall j | 0 <= j < k :: !Decisive(observations[j])
    ensures forall k :: 0 <= k < |observations| && IsFailure(observations[k])
                        && (forall j | 0 <= j < k :: !Decisive(observations[j]))
                        ==> Replay(s, observations) == observations[k]
  {
    FirstDecisiveDecides(s, observations);
    if IsFailure(Replay(s, observations)) {
      var k := FirstDecisive(observations);
      assert k < |observations| && IsFailure(observations[k]);
    }
    forall k | 0 <= k < |observations| && IsFailure(observations[k])
               && (forall j | 0 <= j < k :: !Decisive(observations[j]))
      ensures Replay(s, observations) == observations[k]
    {
      assert FirstDecisive(observations) == k by { FirstDecisiveIsLeast(observations, k); }
    }
  }

  /** Index of the first decisive observation, or the length when there is none. */
  function FirstDecisive(observations: seq<State>): (k: nat)
    ensures k <= |observations|
    ensures k < |observations| ==> Decisive(observations[k])
    ensures forall j | 0 <= j < k :: !Decisive(observations[j])
  {
    if observations == [] || Decisive(observations[0]) then 0
    else 1 + FirstDecisive(observations[1..])
  }

  lemma FirstDecisiveIsLeast(observations: seq<State>, k: nat)
    requires k < |observations| && Decisive(observations[k])
    requires forall j | 0 <= j < k :: !Decisive(observations[j])
    ensures FirstDecisive(observations) == k
  {
    var f := FirstDecisive(observations);
    assert f <= k;
  }

  lemma {:induction false} FirstDecisiveDecides(s: State, observations: seq<State>)
    requires Rank(s) < 4
    ensures var k := FirstDecisive(observations);
            if k == |observations| then Rank(Replay(s, observations)) < 4
            else if IsFailure(observations[k]) then Replay(s, observations) == observations[k]
            else Rank(Replay(s, observations)) >= 4 && !IsFailure(Replay(s, observations))
    decreases |observations|
  {
    if observations != [] {
      var head, tail := observations[0], observations[1..];
      if IsFailure(head) {
        FailureIsFinal(head, tail);
      } else if Rank(head) >= 4 {
        IssuedNeverFails(head, tail);
      } else {
        FirstDecisiveDecides(Advance(s, head), tail);
      }
    }
  }

  /** The k-th delivery moves the exchange into `target`. */
  ghost predicate EntersAt(s: State, observations: seq<State>, k: nat, target: State)
    requires k < |observations|
  {
    var before := Replay(s, observations[..k]);
    before != target && Advance(before, observations[k]) == target
  }

  /** No run enters the same state twice; in particular request-received at most once. */
  lemma EntersAtMostOnce(s: State, observations: seq<State>, i: nat, j: nat, target: State)
    requires i < j < |observations|
    requires EntersAt(s, observations, i, target)
    ensures !EntersAt(s, observations, j, target)
  {
    var upToI, between := observations[..i + 1], observations[i + 1..j];
    assert observations[..j] == upToI + between;
    ReplayAppend(s, upToI, between);
    assert upToI == observations[..i] + [observations[i]];
    ReplayAppend(s, observations[..i], [observations[i]]);
    RankNeverFalls(target, between);
  }

  // ------------------------------------------------------- wire spelling

  function Dashed(wire: string): (r: string)
    ensures |r| == |wire|
  {
    if wire == "" then "" else [if wire[0] == '_' then '-' else wire[0]] + Dashed(wire[1..])
  }

  /** The enum value a dashed name stands for. */
  function StateNamed(name: string): Option<State> {
    if name == "pending" then Some(Pending)
    else if name == "proposal-sent" then Some(ProposalSent)
    else if name == "offer-sent" then Some(OfferSent)
    else if name == "offer-received" then Some(OfferReceived)
    else if name == "request-sent" then Some(RequestSent)
    else if name == "request-received" then Some(RequestReceived)
    else if name == "credential-issued" then Some(CredentialIssued)
    else if name == "credential-received" then Some(CredentialReceived)
    else if name == "done" then Some(Done)
    else if name == "abandoned" then Some(Abandoned)
    else if name == "failed" then Some(Failed)
    else None
  }

  function ParseWire(wire: string): Option<State> {
    StateNamed(Dashed(wire))
  }

  lemma {:induction false} DashedTwice(wire: string)
    ensures Dashed(Dashed(wire)) == Dashed(wire)
  {
    if wire != "" {
      DashedTwice(wire[1..]);
      assert Dashed(wire)[1..] == Dashed(wire[1..]);
    }
  }

  /** Two spellings that differ only in underscores and dashes name the same state. */
  lemma {:induction false} DashedAlike(v: string, w: string)
    requires |v| == |w|
    requires forall i | 0 <= i < |v| :: v[i] == w[i] || (v[i] in "_-" && w[i] in "_-")
    ensures Dashed(v) == Dashed(w)
  {
    if v != "" {
      DashedAlike(v[1..], w[1..]);
    }
  }

  /** The separator of a wire state does not matter: the underscored and the dashed spelling are one observation. */
  lemma SeparatorIsIrrelevant(v: string, w: string)
    requires |v| == |w|
    requires forall i | 0 <= i < |v| :: v[i] == w[i] || (v[i] in "_-" && w[i] in "_-")
    ensures ParseWire(v) == ParseWire(w) && ParseWire(v) == ParseWire(Dashed(v))
  {
    DashedAlike(v, w);
    DashedTwice(v);
  }
}
