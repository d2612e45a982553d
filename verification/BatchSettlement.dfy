/**
 A batch parent is settled by whichever child transaction finds every sibling
 terminal. Transactions interleave statement by statement under READ COMMITTED:
 a count sees committed siblings and the transaction's own write, nothing else.
 Only a delivery that lands on the child itself settles. The other writers of a
 child (the mirror of a concluded accept, issue or reject, and the offer's or the
 revocation's own service call) commit it without looking at the batch.
 */
module BatchSettlement {
  import opened Wrappers
  import SM = StateMapping

  type State = SM.OperationState

  datatype Phase = Wrote | Locked | Counted(verdict: Option<State>) | Claimed(verdict: Option<State>) | Closed

  /** A child's settling transaction; its write is not committed until it closes. */
  datatype Transaction = Transaction(child: nat, target: State, phase: Phase)

  /**
   Committed rows, plus the open transactions and the holder of the parent's row
   lock. `exposed` names the children that something other than a delivery to them
   may write, which is settled by what exists beside the batch when it starts: an
   offer on whose exchange there is an accept, issue or reject operation, since the
   worker mirrors that operation's outcome onto the offer; and an offer or a
   revocation whose own service call has not yet recorded its reply. Every other
   child is written by deliveries to it alone.
   */
  datatype World = World(
    children: seq<State>,
    parent: State,
    notices: seq<State>,
    txs: seq<Transaction>,
    holder: Option<nat>,
    exposed: set<nat>)

  datatype Writer = RelatedOffer | OfferService | RevokeService

  datatype Step =
    | Write(child: nat, target: State)
    | Lock(t: nat)
    | Count(t: nat)
    | Claim(t: nat)
    | Commit(t: nat)
    | Abort(t: nat)
    | Direct(child: nat, target: State, writer: Writer)

  ghost predicate AllTerminal(children: seq<State>) {
    forall s | s in children :: SM.Terminal(s)
  }

  predicate Done(children: seq<State>) {
    SM.Pending !in children && SM.Processing !in children
  }

  /** Failed if any child failed, otherwise completed. */
  function Verdict(children: seq<State>): State {
    if SM.OperationState.Failed in children then SM.OperationState.Failed else SM.Completed
  }

  predicate Open(w: World, t: nat) {
    t < |w.txs| && w.txs[t].phase != Closed
  }

  predicate Busy(txs: seq<Transaction>, child: nat) {
    exists t | 0 <= t < |txs| :: txs[t].phase != Closed && txs[t].child == child
  }

  /** The children as an open transaction's own queries see them. */
  function Visible(w: World, t: nat): seq<State>
    requires t < |w.txs|
  {
    if w.txs[t].child < |w.children| then w.children[w.txs[t].child := w.txs[t].target] else w.children
  }

  function Goto(w: World, t: nat, p: Phase): World
    requires t < |w.txs|
  {
    w.(txs := w.txs[t := w.txs[t].(phase := p)])
  }

  function Freed(w: World, t: nat): Option<nat> {
    if w.holder == Some(t) then None else w.holder
  }

  /** useLock says whether settlement locks the parent row before it counts. */
  function Next(w: World, step: Step, useLock: bool): World {
    match step
    case Write(c, target) =>
      if c < |w.children| && !Busy(w.txs, c) && w.children[c] in SM.OperationStatesBelow(target)
      then w.(txs := w.txs + [Transaction(c, target, Wrote)]) else w
    case Lock(t) =>
      if !Open(w, t) || w.txs[t].phase != Wrote then w
      else if !useLock then Goto(w, t, Locked)
      else if w.holder == None then Goto(w, t, Locked).(holder := Some(t))
      else w
    case Count(t) =>
      if !Open(w, t) || w.txs[t].phase != Locked then w
      else Goto(w, t, Counted(if Done(Visible(w, t)) then Some(Verdict(Visible(w, t))) else None))
    case Claim(t) =>
      if !Open(w, t) || !w.txs[t].phase.Counted? then w
      else Goto(w, t, Claimed(if w.parent == SM.Processing then w.txs[t].phase.verdict else None))
    case Commit(t) =>
      if !Open(w, t) || !w.txs[t].phase.Claimed? then w
      else
        var verdict := w.txs[t].phase.verdict;
        var v := Goto(w, t, Closed).(children := Visible(w, t), holder := Freed(w, t));
        if verdict.None? then v else v.(parent := verdict.value, notices := w.notices + [verdict.value])
    case Abort(t) => if Open(w, t) then Goto(w, t, Closed).(holder := Freed(w, t)) else w
    case Direct(c, target, _) =>
      if c in w.exposed && c < |w.children| && !Busy(w.txs, c) && w.children[c] in SM.OperationStatesBelow(target)
      then w.(children := w.children[c := target]) else w
  }

  function Run(w: World, steps: seq<Step>, useLock: bool): World
    decreases |steps|
  {
    if steps == [] then w else Run(Next(w, steps[0], useLock), steps[1..], useLock)
  }

  predicate Initial(w: World) {
    w.parent == SM.Processing && w.notices == [] && w.txs == [] && w.holder == None && !Done(w.children)
  }

  // --------------------------------------------------------------- invariant

  /** A settled parent was settled once, on terminal children, and says what they call for. */
  ghost predicate Sound(w: World) {
    if w.parent == SM.Processing then w.notices == []
    else Done(w.children) && w.parent == Verdict(w.children) && w.notices == [w.parent]
  }

  ghost predicate TransactionOk(w: World, t: nat)
    requires t < |w.txs|
  {
    var x := w.txs[t];
    x.phase != Closed ==>
      && x.child < |w.children|
      && !SM.Terminal(w.children[x.child])
      && (x.phase != Wrote ==> w.holder == Some(t))
      && ((x.phase.Counted? || x.phase.Claimed?) && x.phase.verdict.Some? ==>
            Done(Visible(w, t)) && x.phase.verdict.value == Verdict(Visible(w, t)))
  }

  ghost predicate Apart(w: World, t: nat, u: nat)
    requires t < |w.txs| && u < |w.txs|
  {
    Open(w, t) && Open(w, u) ==> w.txs[t].child != w.txs[u].child
  }

  ghost predicate Inv(w: World) {
    && Sound(w)
    && (forall t | 0 <= t < |w.txs| :: TransactionOk(w, t))
    && (forall t, u | 0 <= t < u < |w.txs| :: Apart(w, t, u))
  }

  lemma OpenMeansNotDone(w: World, t: nat)
    requires Inv(w) && Open(w, t)
    ensures !Done(w.children) && w.parent == SM.Processing && w.notices == []
  {
    assert TransactionOk(w, t);
    assert w.children[w.txs[t].child] in w.children;
  }

  lemma WriteKeepsInv(w: World, c: nat, target: State)
    requires Inv(w)
    ensures Inv(Next(w, Write(c, target), true))
  {
    var v := Next(w, Write(c, target), true);
    forall t | 0 <= t < |v.txs| ensures TransactionOk(v, t) {
      if t < |w.txs| {
        assert TransactionOk(w, t);
      }
    }
    forall t, u | 0 <= t < u < |v.txs| ensures Apart(v, t, u) {
      if u < |w.txs| {
        assert Apart(w, t, u);
      }
    }
  }

  /** A direct write leaves a count that saw every sibling terminal as good as it was. */
  lemma DirectKeepsInv(w: World, c: nat, target: State, writer: Writer)
    requires Inv(w)
    ensures Inv(Next(w, Direct(c, target, writer), true))
  {
    var v := Next(w, Direct(c, target, writer), true);
    if v != w {
      assert w.children[c] in w.children;
      forall t | 0 <= t < |v.txs| ensures TransactionOk(v, t) {
        assert TransactionOk(w, t);
        if w.txs[t].phase != Closed {
          assert w.txs[t].child != c;
          assert Visible(w, t)[c] == w.children[c] && Visible(w, t)[c] in Visible(w, t);
        }
      }
      forall t, u | 0 <= t < u < |v.txs| ensures Apart(v, t, u) {
        assert Apart(w, t, u);
      }
    }
  }

  /** Everything but a write or a commit keeps the committed rows, so only the moved transaction matters. */
  lemma MoveKeepsInv(w: World, t: nat, v: World)
    requires Inv(w) && Open(w, t) && |v.txs| == |w.txs|
    requires v.children == w.children && v.parent == w.parent && v.notices == w.notices
    requires forall u | 0 <= u < |w.txs| && u != t :: v.txs[u] == w.txs[u]
    requires v.txs[t].child == w.txs[t].child && v.txs[t].target == w.txs[t].target
    requires || v.holder == w.holder
             || (w.holder == None && v.holder == Some(t))
             || (w.holder == Some(t) && v.holder == None)
    requires TransactionOk(v, t)
    ensures Inv(v)
  {
    forall u | 0 <= u < |v.txs| ensures TransactionOk(v, u) {
      assert TransactionOk(w, u);
    }
    forall u, x | 0 <= u < x < |v.txs| ensures Apart(v, u, x) {
      assert Apart(w, u, x);
    }
  }

  lemma CommitKeepsInv(w: World, t: nat)
    requires Inv(w) && Open(w, t) && w.txs[t].phase.Claimed?
    ensures Inv(Next(w, Commit(t), true))
  {
    var v := Next(w, Commit(t), true);
    OpenMeansNotDone(w, t);
    assert TransactionOk(w, t);
    forall u | 0 <= u < |v.txs| ensures TransactionOk(v, u) {
      assert TransactionOk(w, u);
      assert u < t ==> Apart(w, u, t);
      assert t < u ==> Apart(w, t, u);
    }
    forall u, x | 0 <= u < x < |v.txs| ensures Apart(v, u, x) {
      assert Apart(w, u, x);
    }
  }

  lemma NextKeepsInv(w: World, step: Step)
    requires Inv(w)
    ensures Inv(Next(w, step, true))
  {
    var v := Next(w, step, true);
    if step.Write? {
      WriteKeepsInv(w, step.child, step.target);
    } else if step.Direct? {
      DirectKeepsInv(w, step.child, step.target, step.writer);
    } else if v != w {
      assert TransactionOk(w, step.t);
      OpenMeansNotDone(w, step.t);
      if step.Commit? {
        CommitKeepsInv(w, step.t);
      } else {
        MoveKeepsInv(w, step.t, v);
      }
    }
  }

  lemma {:induction false} RunKeepsInv(w: World, steps: seq<Step>)
    requires Inv(w)
    ensures Inv(Run(w, steps, true))
    decreases |steps|
  {
    if steps != [] {
      NextKeepsInv(w, steps[0]);
      RunKeepsInv(Next(w, steps[0], true), steps[1..]);
    }
  }

  // ----------------------------------------------------------------- theorems

  /** Whoever writes the children, a settled parent had all terminal, states their verdict, and was announced once. */
  lemma SettledParentIsRight(start: World, steps: seq<Step>)
    requires Initial(start)
    ensures var w := Run(start, steps, true);
            if w.parent == SM.Processing then w.notices == []
            else
              && AllTerminal(w.children) && w.notices == [w.parent]
              && w.parent == (if SM.OperationState.Failed in w.children then SM.OperationState.Failed else SM.Completed)
  {
    RunKeepsInv(start, steps);
    var w := Run(start, steps, true);
    assert AllTerminal(w.children) <==> Done(w.children);
  }

  /** Every child is terminal and the parent was never settled. */
  predicate Stranded(w: World) {
    Done(w.children) && w.parent == SM.Processing
  }

  /** Every child but this one is terminal. */
  predicate LastOne(children: seq<State>, c: nat) {
    c < |children| && !SM.Terminal(children[c]) && forall i | 0 <= i < |children| && i != c :: SM.Terminal(children[i])
  }

  /**
   The step strands the batch: it makes the last child terminal either directly,
   or by a transaction whose count had still seen a sibling in flight.
   */
  predicate Strands(w: World, step: Step) {
    match step
    case Direct(c, target, _) => c in w.exposed && LastOne(w.children, c) && SM.Terminal(target)
    case Commit(t) =>
      && Open(w, t) && w.txs[t].phase == Claimed(None)
      && LastOne(w.children, w.txs[t].child) && SM.Terminal(w.txs[t].target)
    case _ => false
  }

  lemma DoneExceptOne(children: seq<State>, c: nat, target: State)
    requires c < |children| && !SM.Terminal(children[c])
    ensures Done(children[c := target]) <==> LastOne(children, c) && SM.Terminal(target)
  {
    var after := children[c := target];
    if Done(after) {
      forall i | 0 <= i < |children| && i != c ensures SM.Terminal(children[i]) {
        assert after[i] in after;
      }
      assert after[c] in after;
    }
  }

  lemma DirectStrandsExactly(w: World, c: nat, target: State, writer: Writer)
    requires Inv(w) && !Stranded(w) && !Busy(w.txs, c)
    ensures Stranded(Next(w, Direct(c, target, writer), true)) <==> Strands(w, Direct(c, target, writer))
  {
    if c < |w.children| && !SM.Terminal(w.children[c]) {
      DoneExceptOne(w.children, c, target);
      assert w.children[c] in w.children;
    }
  }

  lemma CommitStrandsExactly(w: World, t: nat)
    requires Inv(w) && !Stranded(w)
    ensures Stranded(Next(w, Commit(t), true)) <==> Strands(w, Commit(t))
  {
    if Open(w, t) && w.txs[t].phase.Claimed? {
      OpenMeansNotDone(w, t);
      assert TransactionOk(w, t);
      DoneExceptOne(w.children, w.txs[t].child, w.txs[t].target);
    }
  }

  /** A direct write reaches a row only when no transaction holds it. */
  predicate Effective(w: World, step: Step) {
    step.Direct? ==> !Busy(w.txs, step.child)
  }

  /** From a batch that is not stranded, exactly these steps strand it. */
  lemma StrandsExactly(w: World, step: Step)
    requires Inv(w) && !Stranded(w)
    ensures Stranded(Next(w, step, true)) <==> Strands(w, step) && Effective(w, step)
  {
    if step.Direct? {
      if !Busy(w.txs, step.child) {
        DirectStrandsExactly(w, step.child, step.target, step.writer);
      }
    } else if step.Commit? {
      CommitStrandsExactly(w, step.t);
    }
  }

  /** Nothing that can still happen settles a stranded batch. */
  lemma {:induction false} StrandedForever(w: World, steps: seq<Step>)
    requires Inv(w) && Stranded(w)
    ensures Stranded(Run(w, steps, true))
    decreases |steps|
  {
    if steps != [] {
      var v := Next(w, steps[0], true);
      NextKeepsInv(w, steps[0]);
      if steps[0].Lock? || steps[0].Count? || steps[0].Claim? || steps[0].Commit? || steps[0].Abort? {
        if Open(w, steps[0].t) {
          OpenMeansNotDone(w, steps[0].t);
        }
      } else {
        assert steps[0].child < |w.children| ==> w.children[steps[0].child] in w.children;
      }
      StrandedForever(v, steps[1..]);
    }
  }

  ghost predicate NothingStrands(w: World, steps: seq<Step>)
    decreases |steps|
  {
    steps == []
    || (!(Strands(w, steps[0]) && Effective(w, steps[0])) && NothingStrands(Next(w, steps[0], true), steps[1..]))
  }

  /** Over any run: once every child is terminal, the parent is settled if and only if no step stranded it. */
  lemma {:induction false} SettledIffNothingStranded(w: World, steps: seq<Step>)
    requires Inv(w) && !Stranded(w) && AllTerminal(Run(w, steps, true).children)
    ensures Run(w, steps, true).parent != SM.Processing <==> NothingStrands(w, steps)
    decreases |steps|
  {
    var end := Run(w, steps, true);
    if steps == [] {
      assert Done(w.children);
    } else {
      var v := Next(w, steps[0], true);
      NextKeepsInv(w, steps[0]);
      StrandsExactly(w, steps[0]);
      if Stranded(v) {
        StrandedForever(v, steps[1..]);
      } else {
        SettledIffNothingStranded(v, steps[1..]);
      }
    }
  }

  // ------------------------------------------- what can be checked beforehand

  /** Only children that are already terminal are exposed. */
  ghost predicate Unexposed(w: World) {
    forall c | c in w.exposed && c < |w.children| :: SM.Terminal(w.children[c])
  }

  /** A count without a verdict still sees a sibling in flight. */
  ghost predicate CountsHold(w: World) {
    forall t | 0 <= t < |w.txs| && Open(w, t) && w.txs[t].phase in {Counted(None), Claimed(None)} ::
      !Done(Visible(w, t))
  }

  lemma UnexposedKeepsCounts(w: World, step: Step)
    requires Inv(w) && Unexposed(w) && CountsHold(w)
    ensures CountsHold(Next(w, step, true)) && Unexposed(Next(w, step, true))
  {
    var v := Next(w, step, true);
    NextKeepsInv(w, step);
    if (step.Commit? || step.Claim?) && Open(w, step.t) {
      OpenMeansNotDone(w, step.t);
      assert TransactionOk(w, step.t);
    }
    forall t | 0 <= t < |v.txs| && Open(v, t) && v.txs[t].phase in {Counted(None), Claimed(None)}
      ensures !Done(Visible(v, t))
    {
      assert TransactionOk(v, t) && TransactionOk(w, t);
    }
  }

  lemma UnexposedNeverStrands(w: World, step: Step)
    requires Inv(w) && Unexposed(w) && CountsHold(w)
    ensures !Strands(w, step)
  {
    if step.Commit? && Open(w, step.t) && w.txs[step.t].phase == Claimed(None) {
      assert TransactionOk(w, step.t);
      DoneExceptOne(w.children, w.txs[step.t].child, w.txs[step.t].target);
    }
  }

  lemma {:induction false} UnexposedRunNeverStrands(w: World, steps: seq<Step>)
    requires Inv(w) && Unexposed(w) && CountsHold(w)
    ensures NothingStrands(w, steps)
    decreases |steps|
  {
    if steps != [] {
      UnexposedNeverStrands(w, steps[0]);
      NextKeepsInv(w, steps[0]);
      UnexposedKeepsCounts(w, steps[0]);
      UnexposedRunNeverStrands(Next(w, steps[0], true), steps[1..]);
    }
  }

  /**
   A batch none of whose children is exposed: in every interleaving the parent is
   settled, with one notice, exactly when every child is terminal.
   */
  lemma UnexposedBatchSettles(start: World, steps: seq<Step>)
    requires Initial(start) && Unexposed(start)
    ensures var w := Run(start, steps, true);
            && (AllTerminal(w.children) <==> w.parent != SM.Processing)
            && (w.parent != SM.Processing ==> w.notices == [w.parent])
  {
    SettledParentIsRight(start, steps);
    UnexposedRunNeverStrands(start, steps);
    if AllTerminal(Run(start, steps, true).children) {
      SettledIffNothingStranded(start, steps);
    }
  }

  lemma {:induction false} RunSnoc(w: World, steps: seq<Step>, step: Step, useLock: bool)
    ensures Run(w, steps + [step], useLock) == Next(Run(w, steps, useLock), step, useLock)
    decreases |steps|
  {
    if steps == [] {
      assert [step][1..] == [];
    } else {
      assert (steps + [step])[0] == steps[0] && (steps + [step])[1..] == steps[1..] + [step];
      RunSnoc(Next(w, steps[0], useLock), steps[1..], step, useLock);
    }
  }

  ghost predicate Reaches(w: World, v: World, useLock: bool) {
    exists steps: seq<Step> :: Run(w, steps, useLock) == v
  }

  lemma ReachesNext(w: World, v: World, step: Step, u: World, useLock: bool)
    requires Reaches(w, v, useLock) && u == Next(v, step, useLock)
    ensures Reaches(w, u, useLock)
  {
    var steps :| Run(w, steps, useLock) == v;
    RunSnoc(w, steps, step, useLock);
  }

  /** Two siblings completing side by side, at the given phases. */
  function TwoSiblings(p: Phase, q: Phase): World {
    World([SM.Processing, SM.Processing], SM.Processing, [],
          [Transaction(0, SM.Completed, p), Transaction(1, SM.Completed, q)], None, {})
  }

  /** Without the lock, neither sibling sees the other's write. */
  lemma BothCountTheOtherInFlight(w: World)
    requires Reaches(w, TwoSiblings(Wrote, Wrote), false)
    ensures Reaches(w, TwoSiblings(Counted(None), Counted(None)), false)
  {
    ReachesNext(w, TwoSiblings(Wrote, Wrote), Lock(0), TwoSiblings(Locked, Wrote), false);
    ReachesNext(w, TwoSiblings(Locked, Wrote), Lock(1), TwoSiblings(Locked, Locked), false);
    assert Visible(TwoSiblings(Locked, Locked), 0)[1] == SM.Processing;
    ReachesNext(w, TwoSiblings(Locked, Locked), Count(0), TwoSiblings(Counted(None), Locked), false);
    assert Visible(TwoSiblings(Counted(None), Locked), 1)[0] == SM.Processing;
    ReachesNext(w, TwoSiblings(Counted(None), Locked), Count(1), TwoSiblings(Counted(None), Counted(None)), false);
  }

  lemma BothCommitWithoutSettling(w: World) returns (end: World)
    requires Reaches(w, TwoSiblings(Counted(None), Counted(None)), false)
    ensures Reaches(w, end, false) && end.children == [SM.Completed, SM.Completed] && end.parent == SM.Processing
  {
    ReachesNext(w, TwoSiblings(Counted(None), Counted(None)), Claim(0),
                TwoSiblings(Claimed(None), Counted(None)), false);
    ReachesNext(w, TwoSiblings(Claimed(None), Counted(None)), Claim(1),
                TwoSiblings(Claimed(None), Claimed(None)), false);
    var mid := TwoSiblings(Closed, Claimed(None)).(children := [SM.Completed, SM.Processing]);
    ReachesNext(w, TwoSiblings(Claimed(None), Claimed(None)), Commit(0), mid, false);
    end := TwoSiblings(Closed, Closed).(children := [SM.Completed, SM.Completed]);
    ReachesNext(w, mid, Commit(1), end, false);
  }

  /** The lock is needed: without it every child can be terminal while the parent stays unsettled. */
  lemma WithoutLockParentIsStranded() returns (start: World, end: World)
    ensures Initial(start) && Reaches(start, end, false)
    ensures AllTerminal(end.children) && end.parent == SM.Processing
  {
    start := World([SM.Processing, SM.Processing], SM.Processing, [], [], None, {});
    assert Run(start, [], false) == start;
    var one := start.(txs := [Transaction(0, SM.Completed, Wrote)]);
    ReachesNext(start, start, Write(0, SM.Completed), one, false);
    ReachesNext(start, one, Write(1, SM.Completed), TwoSiblings(Wrote, Wrote), false);
    BothCountTheOtherInFlight(start);
    end := BothCommitWithoutSettling(start);
  }

  // ------------------------------------------------ an exposed child can strand

  /** Nothing is open and the parent is still to be settled. */
  ghost predicate Quiet(w: World) {
    (forall t | 0 <= t < |w.txs| :: w.txs[t].phase == Closed) && w.holder == None && w.parent == SM.Processing
  }

  /** One sibling concludes by its own delivery while child c is still in flight: nothing is settled. */
  lemma SiblingConcludes(start: World, w: World, i: nat, c: nat) returns (v: World)
    requires Reaches(start, w, true) && Quiet(w) && i < |w.children| && c < |w.children| && i != c
    requires !SM.Terminal(w.children[i]) && !SM.Terminal(w.children[c])
    ensures Reaches(start, v, true) && Quiet(v) && v.exposed == w.exposed && v.children == w.children[i := SM.Completed]
  {
    var t, x := |w.txs|, Transaction(i, SM.Completed, Wrote);
    var w1 := w.(txs := w.txs + [x]);
    ReachesNext(start, w, Write(i, SM.Completed), w1, true);
    var w2 := w.(txs := w.txs + [x.(phase := Locked)], holder := Some(t));
    assert w1.txs[t := x.(phase := Locked)] == w2.txs;
    ReachesNext(start, w1, Lock(t), w2, true);
    var w3 := w2.(txs := w.txs + [x.(phase := Counted(None))]);
    assert w2.txs[t := x.(phase := Counted(None))] == w3.txs;
    assert Visible(w2, t)[c] in Visible(w2, t) && Visible(w2, t)[c] == w.children[c];
    ReachesNext(start, w2, Count(t), w3, true);
    var w4 := w3.(txs := w.txs + [x.(phase := Claimed(None))]);
    assert w3.txs[t := x.(phase := Claimed(None))] == w4.txs;
    ReachesNext(start, w3, Claim(t), w4, true);
    v := w4.(txs := w.txs + [x.(phase := Closed)], children := w.children[i := SM.Completed], holder := None);
    assert w4.txs[t := x.(phase := Closed)] == v.txs;
    ReachesNext(start, w4, Commit(t), v, true);
  }

  lemma {:induction false} SiblingsConclude(start: World, c: nat, k: nat) returns (v: World)
    requires Initial(start) && c < |start.children| && !SM.Terminal(start.children[c]) && k <= |start.children|
    ensures Reaches(start, v, true) && Quiet(v) && v.exposed == start.exposed && |v.children| == |start.children|
    ensures v.children[c] == start.children[c]
    ensures forall i | 0 <= i < k && i != c :: SM.Terminal(v.children[i])
    decreases k
  {
    if k == 0 {
      v := start;
      assert Run(start, [], true) == start;
    } else {
      v := SiblingsConclude(start, c, k - 1);
      if k - 1 != c && !SM.Terminal(v.children[k - 1]) {
        v := SiblingConcludes(start, v, k - 1, c);
      }
    }
  }

  /** If one in-flight child is exposed, some run leaves every child terminal and the parent unsettled for good. */
  lemma ExposedBatchCanStrand(start: World, c: nat) returns (end: World)
    requires Initial(start) && c in start.exposed && c < |start.children| && !SM.Terminal(start.children[c])
    ensures Reaches(start, end, true) && Stranded(end)
    ensures forall steps :: Stranded(Run(end, steps, true))
  {
    var v := SiblingsConclude(start, c, |start.children|);
    end := v.(children := v.children[c := SM.Completed]);
    ReachesNext(start, v, Direct(c, SM.Completed, RelatedOffer), end, true);
    DoneExceptOne(v.children, c, SM.Completed);
    var steps :| Run(start, steps, true) == end;
    RunKeepsInv(start, steps);
    forall more ensures Stranded(Run(end, more, true)) {
      StrandedForever(end, more);
    }
  }

  /** The smallest case: one offer whose accept is confirmed in its place. Every later delivery finds it terminal. */
  lemma OneMirroredOfferStrands(steps: seq<Step>)
    ensures var start := World([SM.Processing], SM.Processing, [], [], None, {0});
            && Initial(start)
            && var end := Run(Next(start, Direct(0, SM.Completed, RelatedOffer), true), steps, true);
               AllTerminal(end.children) && end.parent == SM.Processing
  {
    var start := World([SM.Processing], SM.Processing, [], [], None, {0});
    assert start.children[0] == SM.Processing;
    var step := Direct(0, SM.Completed, RelatedOffer);
    NextKeepsInv(start, step);
    assert Next(start, step, true).children == [SM.Completed];
    StrandedForever(Next(start, step, true), steps);
    RunKeepsInv(Next(start, step, true), steps);
  }

  /** In every run the parent is settled exactly when every child is terminal. */
  ghost predicate AlwaysSettles(start: World) {
    forall steps :: AllTerminal(Run(start, steps, true).children) <==> Run(start, steps, true).parent != SM.Processing
  }

  /** The exact condition, which can be checked before the batch runs: no child in flight is exposed. */
  lemma AlwaysSettlesIffUnexposed(start: World)
    requires Initial(start)
    ensures AlwaysSettles(start) <==> Unexposed(start)
  {
    if Unexposed(start) {
      forall steps
        ensures AllTerminal(Run(start, steps, true).children) <==> Run(start, steps, true).parent != SM.Processing
      {
        UnexposedBatchSettles(start, steps);
      }
    } else {
      var c :| c in start.exposed && c < |start.children| && !SM.Terminal(start.children[c]);
      var end := ExposedBatchCanStrand(start, c);
      var steps :| Run(start, steps, true) == end;
      assert AllTerminal(end.children) && end.parent == SM.Processing;
    }
  }
}
