/** How runs of the runtime can end: when a run marked completed can hold a failed phase. */
module RuntimeOutcomes {
  import opened Options
  import opened CharterAst
  import opened Digraph
  import opened Resolver
  import opened GraphBuilder
  import opened PhaseState
  import opened Runtime
  import opened RuntimeRuns

  /** A phase of the workflow that no phase requires. */
  ghost predicate Sink(w: Workflow, n: string) {
    n in PhaseNames(w.phases) && forall m :: n !in DepsOf(w, m)
  }

  /** A run that is marked completed although a phase has failed. */
  ghost predicate Mixed(b: Book, f: string) {
    b.run.RunCompleted? && f in b.rows && b.rows[f].status.Failed?
  }

  // ------------------------------------------------------------------ a failed phase of a completed run is a sink

  /** Only a cancellation skips; a completed run has no open row. */
  ghost predicate Ending(b: Book) {
    && ((exists n :: n in b.rows && b.rows[n].status.Skipped?) ==> AllTerminal(b.rows) && b.run.RunCancelled?)
    && (b.run.RunCompleted? ==> AllTerminal(b.rows))
  }

  /** With every row terminal, only a cancellation does anything. */
  lemma ClosedStep(w: Workflow, s: State, a: Action)
    requires Enabled(s, a) && AllTerminal(s.book.rows)
    ensures Next(w, s, a).book.rows == s.book.rows
    ensures Next(w, s, a).book.run == if a.CancelRun? then RunCancelled else s.book.run
  {
    assert forall n :: n in s.book.rows ==> Terminal(s.book.rows[n].status);
  }

  lemma OpenStep(w: Workflow, s: State, a: Action, n: string)
    requires Enabled(s, a) && !a.CancelRun? && n in Next(w, s, a).book.rows
    requires Next(w, s, a).book.rows[n].status.Skipped?
    ensures n in s.book.rows && s.book.rows[n].status.Skipped?
  {
    StepLawful(w, s, a);
  }

  lemma StepEnding(w: Workflow, s: State, a: Action)
    requires Enabled(s, a) && Ending(s.book)
    ensures Ending(Next(w, s, a).book)
  {
    var b' := Next(w, s, a).book;
    if AllTerminal(s.book.rows) {
      ClosedStep(w, s, a);
    } else if !a.CancelRun? {
      forall n | n in b'.rows ensures !b'.rows[n].status.Skipped? {
        if b'.rows[n].status.Skipped? {
          OpenStep(w, s, a, n);
        }
      }
    }
  }

  lemma {:induction false} RunEnding(w: Workflow, order: seq<string>, states: seq<State>, actions: seq<Action>, i: nat)
    requires Run(w, order, states, actions) && i < |states|
    ensures Ending(states[i].book)
  {
    if i > 0 {
      RunEnding(w, order, states, actions, i - 1);
      StepEnding(w, states[i - 1], actions[i - 1]);
    }
  }

  /** A run is marked completed by the completion of some phase, after which no row changes. */
  lemma {:induction false} CompletedBy(w: Workflow, order: seq<string>, states: seq<State>, actions: seq<Action>,
                                       i: nat)
    returns (k: nat, n: string)
    requires Run(w, order, states, actions) && i < |states| && states[i].book.run.RunCompleted?
    ensures k < i && actions[k] == Complete(n) && CanMove(states[k].book.rows, n, Completed)
    ensures states[k + 1].book.rows == states[i].book.rows
  {
    var s, a := states[i - 1], actions[i - 1];
    assert states[i - 1 + 1] == Next(w, s, a);
    if s.book.run.RunCompleted? {
      RunEnding(w, order, states, actions, i - 1);
      ClosedStep(w, s, a);
      k, n := CompletedBy(w, order, states, actions, i - 1);
    } else {
      k, n := i - 1, a.phase;
    }
  }

  /** In a completed run, a failed phase is required by nothing. */
  lemma FailedIsSink(w: Workflow, order: seq<string>, states: seq<State>, actions: seq<Action>, i: nat, f: string)
    requires Compiled(w, order) && Run(w, order, states, actions) && i < |states| && Mixed(states[i].book, f)
    ensures Sink(w, f)
  {
    RunSafe(w, order, states, actions, i);
    RunEnding(w, order, states, actions, i);
    forall m ensures f !in DepsOf(w, m) {
      if f in DepsOf(w, m) {
        DepsHaveRows(w, order, m, f);
        ReferencesNames(PhaseNames(w.phases), w.phases);
        RowsAreNames(w, order, m);
        EdgeReaches(DependencyEdges(w), f, m);
        FailureBlocksDownstream(w, order, states, actions, i, i, f, m);
      }
    }
  }

  /** Every phase leads to a sink, or is one. */
  lemma SinkFrom(w: Workflow, order: seq<string>, n: string) returns (g: string)
    requires Compiled(w, order) && n in PhaseNames(w.phases)
    ensures Sink(w, g) && (g == n || Reaches(DependencyEdges(w), n, g))
  {
    var edges := DependencyEdges(w);
    assert n in Elems(order);
    var i := MemberAt(n, order);
    var k := LastReached(edges, order, n, i);
    g := order[k];
    assert g in Elems(order);
    forall m ensures g !in DepsOf(w, m) {
      EdgesAreDeps(w, (g, m));
      if (g, m) in edges {
        ReferencesNames(PhaseNames(w.phases), w.phases);
        assert m in Elems(order);
        var j := MemberAt(m, order);
        EdgeReaches(edges, g, m);
        if g != n {
          ReachesTransitive(edges, n, g, m);
        }
        var h := ReachesBefore(edges, order, g, j);
      }
    }
  }

  ghost predicate From(edges: set<(string, string)>, n: string, m: string) {
    m == n || Reaches(edges, n, m)
  }

  /** The last listed node that `n` leads to. */
  lemma {:induction false} LastReached(edges: set<(string, string)>, order: seq<string>, n: string, i: nat)
    returns (k: nat)
    requires i < |order| && From(edges, n, order[i])
    ensures k < |order| && From(edges, n, order[k]) && forall j :: k < j < |order| ==> !From(edges, n, order[j])
    decreases |order| - i
  {
    if j :| i < j < |order| && From(edges, n, order[j]) {
      k := LastReached(edges, order, n, j);
    } else {
      k := i;
    }
  }

  /** A phase in progress does not lead to one that has failed. */
  lemma NotLeading(w: Workflow, order: seq<string>, states: seq<State>, actions: seq<Action>, k: nat, n: string,
                   f: string)
    requires Compiled(w, order) && Run(w, order, states, actions) && k < |states|
    requires n in states[k].book.rows && states[k].book.rows[n].status.InProgress?
    requires f in states[k].book.rows && states[k].book.rows[f].status.Failed?
    ensures !Reaches(DependencyEdges(w), n, f) && n in PhaseNames(w.phases)
  {
    RunSafe(w, order, states, actions, k);
    NamesAreRows(w, order, n);
    if Reaches(DependencyEdges(w), n, f) {
      AncestorsCompleted(w, order, states, actions, k, n, f);
    }
  }

  /**
   * A completed run with a failed phase leaves two sinks: the failed phase, and one that the last
   * completion leads to.
   */
  lemma TwoSinks(w: Workflow, order: seq<string>, states: seq<State>, actions: seq<Action>, i: nat, f: string)
    returns (g: string)
    requires Compiled(w, order) && Run(w, order, states, actions) && i < |states| && Mixed(states[i].book, f)
    ensures Sink(w, f) && Sink(w, g) && f != g
  {
    FailedIsSink(w, order, states, actions, i, f);
    var k, n := CompletedBy(w, order, states, actions, i);
    FailedBefore(w, states[k], n, f);
    NotLeading(w, order, states, actions, k, n, f);
    g := SinkFrom(w, order, n);
  }

  lemma NamesAreRows(w: Workflow, order: seq<string>, n: string)
    requires n in Started(w, order).rows
    ensures n in PhaseNames(w.phases)
  {
    var i := MemberAt(FindPhase(w.phases, n).value, w.phases);
  }

  /** Completing a phase, which must be in progress, fails none. */
  lemma FailedBefore(w: Workflow, s: State, n: string, f: string)
    requires CanMove(s.book.rows, n, Completed)
    requires f in Next(w, s, Complete(n)).book.rows && Next(w, s, Complete(n)).book.rows[f].status.Failed?
    ensures f in s.book.rows && s.book.rows[f].status.Failed? && s.book.rows[n].status.InProgress?
  {
  }

  // ------------------------------------------------------------------ two sinks make such a run

  /** A state some run without failures and cancellations reaches. */
  ghost predicate Reached(w: Workflow, order: seq<string>, s: State) {
    exists states: seq<State>, actions: seq<Action> :: SmoothRun(w, order, states, actions) && states[|actions|] == s
  }

  ghost predicate SmoothRun(w: Workflow, order: seq<string>, states: seq<State>, actions: seq<Action>) {
    Run(w, order, states, actions) && forall k :: 0 <= k < |actions| ==> Smooth(actions[k])
  }

  lemma ExtendRun(w: Workflow, order: seq<string>, states: seq<State>, actions: seq<Action>, a: Action)
    requires Run(w, order, states, actions) && Enabled(states[|actions|], a)
    ensures Run(w, order, states + [Next(w, states[|actions|], a)], actions + [a])
  {
    var s', a' := states + [Next(w, states[|actions|], a)], actions + [a];
    forall i | 0 <= i < |a'| ensures Enabled(s'[i], a'[i]) && s'[i + 1] == Next(w, s'[i], a'[i]) {
      if i < |actions| {
        assert s'[i] == states[i] && s'[i + 1] == states[i + 1] && a'[i] == actions[i];
      }
    }
  }

  lemma Extend(w: Workflow, order: seq<string>, s: State, a: Action)
    requires Reached(w, order, s) && Enabled(s, a) && Smooth(a)
    ensures Reached(w, order, Next(w, s, a))
  {
    var states, actions :| SmoothRun(w, order, states, actions) && states[|actions|] == s;
    ExtendRun(w, order, states, actions, a);
    assert SmoothRun(w, order, states + [Next(w, s, a)], actions + [a]);
  }

  /** What holds in such a state: pending phases wait for an unfinished one, and every phase has its row. */
  lemma ReachedMoves(w: Workflow, order: seq<string>, s: State)
    requires Compiled(w, order) && w.phases != [] && PlainRequires(w) && Reached(w, order, s)
    ensures Moving(w, s.book) && s.book.rows.Keys == PhaseNames(w.phases)
  {
    var states, actions :| SmoothRun(w, order, states, actions) && states[|actions|] == s;
    RunMoves(w, order, states, actions, |actions|);
    RunSafe(w, order, states, actions, |actions|);
    forall n ensures n in Started(w, order).rows <==> n in PhaseNames(w.phases) {
      if n in Started(w, order).rows {
        NamesAreRows(w, order, n);
      } else if n in PhaseNames(w.phases) {
        RowsAreNames(w, order, n);
      }
    }
  }

  ghost predicate CompletedExactly(rows: Rows, done: set<string>) {
    forall n :: n in rows ==> (rows[n].status.Completed? <==> n in done)
  }

  lemma FreshCall(calls: map<nat, Call>) returns (id: nat)
    ensures id !in calls
  {
    id := Above(calls.Keys);
  }

  lemma {:induction false} Above(ids: set<nat>) returns (id: nat)
    ensures forall i :: i in ids ==> i < id
  {
    if ids == {} {
      id := 0;
    } else {
      var x :| x in ids;
      var rest := Above(ids - {x});
      id := if x < rest then rest else x + 1;
      forall i | i in ids ensures i < id {
        assert i == x || i in ids - {x};
      }
    }
  }

  /** Moving one unfinished phase to in progress completes nothing. */
  lemma Moved(rows: Rows, n: string, done: set<string>)
    requires n in rows && !rows[n].status.Completed? && CompletedExactly(rows, done)
    ensures CompletedExactly(SetStatus(rows, n, InProgress), done)
  {
  }

  /** An active phase can be taken to in progress, and nothing else changes. */
  lemma TakeUp(w: Workflow, order: seq<string>, s: State, n: string, done: set<string>) returns (s': State)
    requires Compiled(w, order) && w.phases != [] && PlainRequires(w) && Reached(w, order, s)
    requires n in s.book.rows && Working(s.book.rows[n].status) && CompletedExactly(s.book.rows, done)
    ensures Reached(w, order, s') && CompletedExactly(s'.book.rows, done)
    ensures s'.book.rows == SetStatus(s.book.rows, n, InProgress)
  {
    ReachedMoves(w, order, s);
    assert RowMoving(w, s.book.rows, n);
    Moved(s.book.rows, n, done);
    if s.book.rows[n].status.InProgress? {
      s' := s;
    } else if s.book.rows[n].status.WaitingUser? {
      Extend(w, order, s, Claim(n));
      s' := Next(w, s, Claim(n));
    } else {
      assert s.book.rows[n].triggers[0] in s.book.rows[n].triggers;
      s' := Trigger(w, order, s, n, s.book.rows[n].triggers[0]);
    }
  }

  /** A trigger call takes up a phase that waits for it. */
  lemma Trigger(w: Workflow, order: seq<string>, s: State, n: string, trigger: string) returns (s': State)
    requires Reached(w, order, s) && n in Matching(s.book.rows, trigger)
    ensures Reached(w, order, s') && s'.book == s.book.(rows := SetStatus(s.book.rows, n, InProgress))
  {
    var id := FreshCall(s.calls);
    var others := Listing(Matching(s.book.rows, trigger) - {n});
    assert n !in Elems(others);
    var listing := [n] + others;
    NoDuplicatesConcat([n], others);
    assert Elems(listing) == Matching(s.book.rows, trigger) by {
      forall m ensures m in Elems(listing) <==> m == n || m in Elems(others) {
      }
    }
    var a := Snapshot(id, trigger, listing);
    Extend(w, order, s, a);
    var middle := Next(w, s, a);
    Extend(w, order, middle, Swap(id));
    s' := Next(w, middle, Swap(id));
  }

  /** A phase whose dependencies are all completed can be completed next, and nothing else with it. */
  lemma Finish(w: Workflow, order: seq<string>, s: State, n: string, done: set<string>) returns (s': State)
    requires Compiled(w, order) && w.phases != [] && PlainRequires(w) && Reached(w, order, s)
    requires n in s.book.rows && n !in done && CompletedExactly(s.book.rows, done)
    requires forall d :: d in DepsOf(w, n) ==> d in done
    ensures Reached(w, order, s') && CompletedExactly(s'.book.rows, done + {n})
  {
    IsWorking(w, order, s, n, done);
    var middle := TakeUp(w, order, s, n, done);
    Extend(w, order, middle, Complete(n));
    s' := Next(w, middle, Complete(n));
    CascadeKeepsCompleted(w, SetStatus(middle.book.rows, n, Completed), middle.book.evidence, Downstream(w.phases, n));
  }

  lemma IsWorking(w: Workflow, order: seq<string>, s: State, n: string, done: set<string>)
    requires Compiled(w, order) && w.phases != [] && PlainRequires(w) && Reached(w, order, s)
    requires n in s.book.rows && n !in done && CompletedExactly(s.book.rows, done)
    requires forall d :: d in DepsOf(w, n) ==> d in done
    ensures Working(s.book.rows[n].status)
  {
    ReachedMoves(w, order, s);
    assert RowMoving(w, s.book.rows, n);
    forall d | d in DepsOf(w, n) ensures d in s.book.rows && s.book.rows[d].status.Completed? {
      DepsHaveRows(w, order, n, d);
      EdgesAreDeps(w, (d, n));
      ReferencesNames(PhaseNames(w.phases), w.phases);
    }
  }

  /** The first k phases of an order, without two of them. */
  ghost function Others(order: seq<string>, k: nat, f: string, g: string): set<string>
    requires k <= |order|
  {
    Elems(order[..k]) - {f, g}
  }

  lemma OthersNext(order: seq<string>, k: nat, f: string, g: string)
    requires k < |order|
    ensures Others(order, k + 1, f, g) ==
            if order[k] == f || order[k] == g then Others(order, k, f, g) else Others(order, k, f, g) + {order[k]}
    ensures NoDuplicates(order) ==> order[k] !in Others(order, k, f, g)
  {
    assert order[..k + 1] == order[..k] + [order[k]];
    ElemsAppend(order[..k], order[k]);
  }

  lemma DepsAreOthers(w: Workflow, order: seq<string>, f: string, g: string, k: nat)
    requires Compiled(w, order) && Sink(w, f) && Sink(w, g) && k < |order|
    ensures forall d :: d in DepsOf(w, order[k]) ==> d in Others(order, k, f, g)
  {
    forall d | d in DepsOf(w, order[k]) ensures d in Others(order, k, f, g) {
      EdgesAreDeps(w, (d, order[k]));
    }
  }

  /** All phases but two sinks can be completed, in dependency order. */
  lemma {:induction false} FinishOthers(w: Workflow, order: seq<string>, f: string, g: string, k: nat)
    returns (s: State)
    requires Compiled(w, order) && w.phases != [] && PlainRequires(w) && Sink(w, f) && Sink(w, g) && k <= |order|
    ensures Reached(w, order, s) && CompletedExactly(s.book.rows, Others(order, k, f, g))
  {
    if k == 0 {
      s := AtStart(w, order);
    } else {
      s := FinishOthers(w, order, f, g, k - 1);
      s := FinishOne(w, order, f, g, k - 1, s);
    }
  }

  lemma AtStart(w: Workflow, order: seq<string>) returns (s: State)
    ensures Reached(w, order, s) && CompletedExactly(s.book.rows, {})
  {
    s := State(Started(w, order), map[]);
    assert SmoothRun(w, order, [s], []);
  }

  lemma FinishOne(w: Workflow, order: seq<string>, f: string, g: string, k: nat, s: State) returns (s': State)
    requires Compiled(w, order) && w.phases != [] && PlainRequires(w) && Sink(w, f) && Sink(w, g) && k < |order|
    requires Reached(w, order, s) && CompletedExactly(s.book.rows, Others(order, k, f, g))
    ensures Reached(w, order, s') && CompletedExactly(s'.book.rows, Others(order, k + 1, f, g))
  {
    OthersNext(order, k, f, g);
    if order[k] == f || order[k] == g {
      s' := s;
    } else {
      ReachedRows(w, order, s, order[k]);
      DepsAreOthers(w, order, f, g, k);
      s' := Finish(w, order, s, order[k], Others(order, k, f, g));
    }
  }

  /** Every phase of the order has a row. */
  lemma ReachedRows(w: Workflow, order: seq<string>, s: State, n: string)
    requires Compiled(w, order) && w.phases != [] && PlainRequires(w) && Reached(w, order, s) && n in order
    ensures n in s.book.rows
  {
    ReachedMoves(w, order, s);
    assert n in Elems(order);
  }

  /** A sink has only other phases among its dependencies. */
  lemma SinkDeps(w: Workflow, order: seq<string>, f: string, g: string, n: string)
    requires Compiled(w, order) && Sink(w, f) && Sink(w, g)
    ensures forall d :: d in DepsOf(w, n) ==> d in Others(order, |order|, f, g)
  {
    assert order[..|order|] == order;
    forall d | d in DepsOf(w, n) ensures d in Elems(order) - {f, g} {
      EdgesAreDeps(w, (d, n));
      ReferencesNames(PhaseNames(w.phases), w.phases);
    }
  }

  /** All phases but two sinks are completed, and both sinks are in progress. */
  lemma BothInProgress(w: Workflow, order: seq<string>, f: string, g: string) returns (s: State)
    requires Compiled(w, order) && w.phases != [] && PlainRequires(w) && Sink(w, f) && Sink(w, g) && f != g
    ensures Reached(w, order, s) && f in s.book.rows && g in s.book.rows
    ensures s.book.rows[f].status.InProgress? && s.book.rows[g].status.InProgress?
    ensures forall m :: m in s.book.rows && m != f && m != g ==> s.book.rows[m].status.Completed?
  {
    var idle := FinishOthers(w, order, f, g, |order|);
    SinkRow(w, order, idle, f);
    SinkRow(w, order, idle, g);
    var one := TakeUpSink(w, order, idle, f, g, f);
    s := TakeUpSink(w, order, one, f, g, g);
    OnlyTwoLeft(w, order, s, f, g);
  }

  lemma SinkRow(w: Workflow, order: seq<string>, s: State, f: string)
    requires Compiled(w, order) && w.phases != [] && PlainRequires(w) && Reached(w, order, s) && Sink(w, f)
    ensures f in s.book.rows
  {
    ReachedMoves(w, order, s);
  }

  /** One of two sinks is taken up once everything else is completed. */
  lemma TakeUpSink(w: Workflow, order: seq<string>, s: State, f: string, g: string, n: string) returns (s': State)
    requires Compiled(w, order) && w.phases != [] && PlainRequires(w) && Sink(w, f) && Sink(w, g) && (n == f || n == g)
    requires Reached(w, order, s) && n in s.book.rows && CompletedExactly(s.book.rows, Others(order, |order|, f, g))
    ensures Reached(w, order, s') && CompletedExactly(s'.book.rows, Others(order, |order|, f, g))
    ensures s'.book.rows == SetStatus(s.book.rows, n, InProgress)
  {
    SinkDeps(w, order, f, g, n);
    IsWorking(w, order, s, n, Others(order, |order|, f, g));
    s' := TakeUp(w, order, s, n, Others(order, |order|, f, g));
  }

  lemma OnlyTwoLeft(w: Workflow, order: seq<string>, s: State, f: string, g: string)
    requires Compiled(w, order) && w.phases != [] && PlainRequires(w) && Reached(w, order, s)
    requires CompletedExactly(s.book.rows, Others(order, |order|, f, g))
    ensures forall m :: m in s.book.rows && m != f && m != g ==> s.book.rows[m].status.Completed?
  {
    ReachedMoves(w, order, s);
    assert order[..|order|] == order;
  }

  /** With two sinks there is a run that is marked completed although one of them has failed. */
  lemma MixedRun(w: Workflow, order: seq<string>, f: string, g: string)
    returns (states: seq<State>, actions: seq<Action>)
    requires Compiled(w, order) && PlainRequires(w) && Sink(w, f) && Sink(w, g) && f != g
    ensures Run(w, order, states, actions) && Mixed(states[|actions|].book, f)
  {
    var s := BothInProgress(w, order, f, g);
    FailedRunCompletes(w, s, f, g);
    states, actions :| SmoothRun(w, order, states, actions) && states[|actions|] == s;
    ExtendRun(w, order, states, actions, Fail(f));
    states, actions := states + [Next(w, s, Fail(f))], actions + [Fail(f)];
    ExtendRun(w, order, states, actions, Complete(g));
    states, actions := states + [Next(w, Next(w, s, Fail(f)), Complete(g))], actions + [Complete(g)];
  }

  ghost predicate SomeMixedRun(w: Workflow, order: seq<string>) {
    exists states: seq<State>, actions: seq<Action>, f: string ::
      Run(w, order, states, actions) && Mixed(states[|actions|].book, f)
  }

  /**
   * A completed run can hold a failed phase exactly when at least two phases are required by
   * nothing.
   */
  lemma CompletedWithFailure(w: Workflow, order: seq<string>)
    requires Compiled(w, order) && PlainRequires(w)
    ensures SomeMixedRun(w, order) <==> exists f, g :: Sink(w, f) && Sink(w, g) && f != g
  {
    if SomeMixedRun(w, order) {
      var states: seq<State>, actions: seq<Action>, f: string :|
        Run(w, order, states, actions) && Mixed(states[|actions|].book, f);
      var g := TwoSinks(w, order, states, actions, |actions|, f);
    }
    if f, g :| Sink(w, f) && Sink(w, g) && f != g {
      var states, actions := MixedRun(w, order, f, g);
    }
  }
}
