/**
 * Every run of the runtime. Completing, failing, claiming and cancelling are atomic steps; a
 * trigger call is split into its snapshot, one compare-and-set per matching phase and one evidence
 * record per success, and any number of such calls interleave with everything else.
 */
module RuntimeRuns {
  import opened Options
  import opened CharterAst
  import opened Digraph
  import opened Resolver
  import opened GraphBuilder
  import opened PhaseState
  import opened Runtime

  /** A trigger call under way: the phases it still has to try, and the success it has yet to record. */
  datatype Call = Call(trigger: string, todo: seq<string>, recording: Option<string>)

  datatype State = State(book: Book, calls: map<nat, Call>)

  datatype Action =
    | Complete(phase: string)
    | Fail(phase: string)
    | Claim(phase: string)
    | CancelRun
    | Snapshot(id: nat, trigger: string, listing: seq<string>)
    | Swap(id: nat)
    | Record(id: nat)
    | Return(id: nat)

  ghost predicate Enabled(s: State, a: Action) {
    match a
    case Snapshot(id, trigger, listing) =>
      id !in s.calls && NoDuplicates(listing) && Elems(listing) == Matching(s.book.rows, trigger)
    case Swap(id) => id in s.calls && s.calls[id].recording.None? && s.calls[id].todo != []
    case Record(id) => id in s.calls && s.calls[id].recording.Some?
    case Return(id) => id in s.calls && s.calls[id].recording.None? && s.calls[id].todo == []
    case _ => true
  }

  /** Whether the next compare-and-set of a call will succeed. */
  ghost predicate Wins(s: State, id: nat)
    requires Enabled(s, Swap(id))
  {
    var n := s.calls[id].todo[0];
    n in s.book.rows && s.book.rows[n].status.WaitingTrigger?
  }

  ghost function NextBook(w: Workflow, s: State, a: Action): Book
    requires Enabled(s, a)
  {
    var b := s.book;
    match a
    case Complete(n) => if CanMove(b.rows, n, Completed) then Completion(w, b, n) else b
    case Fail(n) => if CanMove(b.rows, n, Failed) then Failing(b, n) else b
    case Claim(n) => if n in b.rows && b.rows[n].status.WaitingUser? then b.(rows := SetStatus(b.rows, n, InProgress))
      else b
    case CancelRun => Cancelled(b)
    case Swap(id) => if Wins(s, id) then b.(rows := SetStatus(b.rows, s.calls[id].todo[0], InProgress)) else b
    case Record(id) => b.(evidence := b.evidence + [TriggerFired(s.calls[id].recording.value, s.calls[id].trigger)])
    case _ => b
  }

  ghost function NextCalls(s: State, a: Action): map<nat, Call>
    requires Enabled(s, a)
  {
    match a
    case Snapshot(id, trigger, listing) => s.calls[id := Call(trigger, listing, None)]
    case Swap(id) =>
      var call := s.calls[id];
      s.calls[id := Call(call.trigger, call.todo[1..], if Wins(s, id) then Some(call.todo[0]) else None)]
    case Record(id) => s.calls[id := s.calls[id].(recording := None)]
    case Return(id) => s.calls - {id}
    case _ => s.calls
  }

  ghost function Next(w: Workflow, s: State, a: Action): State
    requires Enabled(s, a)
  {
    State(NextBook(w, s, a), NextCalls(s, a))
  }

  ghost predicate Run(w: Workflow, order: seq<string>, states: seq<State>, actions: seq<Action>) {
    && |states| == |actions| + 1 && states[0] == State(Started(w, order), map[])
    && forall i :: 0 <= i < |actions| ==>
         Enabled(states[i], actions[i]) && states[i + 1] == Next(w, states[i], actions[i])
  }

  // ------------------------------------------------------------------ what one step may do to the rows

  ghost predicate Reached(s: PhaseStatus) {
    !s.Pending? && !s.Skipped?
  }

  ghost predicate DepsCompleted(w: Workflow, rows: Rows, n: string) {
    forall d :: d in DepsOf(w, n) ==> d in rows && rows[d].status.Completed?
  }

  /** A row changes lawfully, and leaves PENDING for work only when all its dependencies are completed. */
  ghost predicate LawfulRow(w: Workflow, rows: Rows, rows': Rows, n: string)
    requires n in rows && n in rows'
  {
    && LawfulChange(rows[n].status, rows'[n].status)
    && (rows[n].status.Pending? && Reached(rows'[n].status) ==> DepsCompleted(w, rows', n))
  }

  ghost predicate Lawful(w: Workflow, rows: Rows, rows': Rows) {
    rows'.Keys == rows.Keys && forall n :: n in rows ==> LawfulRow(w, rows, rows', n)
  }

  /** A phase whose requires all hold has only completed phases among its references. */
  lemma SatisfiedDeps(w: Workflow, rows: Rows, evidence: seq<Evidence>, n: string)
    requires FindPhase(w.phases, n).Some? && AllSatisfied(rows, evidence, FindPhase(w.phases, n).value.requires_)
    ensures DepsCompleted(w, rows, n)
  {
    var p := FindPhase(w.phases, n).value;
    forall d | d in DepsOf(w, n) ensures d in rows && rows[d].status.Completed? {
      PhaseDepsMember(p.requires_, d);
      var i :| 0 <= i < |p.requires_| && p.requires_[i].PhaseRef? && p.requires_[i].phase == d;
      assert Satisfied(rows, evidence, p.requires_[i]);
    }
  }

  lemma CascadeLawful(w: Workflow, rows: Rows, evidence: seq<Evidence>, names: seq<string>)
    ensures Lawful(w, rows, Cascaded(w, rows, evidence, names))
  {
    var rows' := Cascaded(w, rows, evidence, names);
    CascadeKeepsCompleted(w, rows, evidence, names);
    forall n | n in rows ensures LawfulRow(w, rows, rows', n) {
      if n in names && Unlocks(w, rows, evidence, n) {
        SatisfiedDeps(w, rows, evidence, n);
      }
    }
  }

  lemma CompletionLawful(w: Workflow, b: Book, n: string)
    requires CanMove(b.rows, n, Completed)
    ensures Lawful(w, b.rows, Completion(w, b, n).rows)
  {
    var middle := SetStatus(b.rows, n, Completed);
    var rows' := Completion(w, b, n).rows;
    CascadeLawful(w, middle, b.evidence, Downstream(w.phases, n));
    forall m | m in b.rows ensures LawfulRow(w, b.rows, rows', m) {
      assert LawfulRow(w, middle, rows', m);
    }
  }

  lemma StepLawful(w: Workflow, s: State, a: Action)
    requires Enabled(s, a)
    ensures Lawful(w, s.book.rows, Next(w, s, a).book.rows)
  {
    if a.Complete? && CanMove(s.book.rows, a.phase, Completed) {
      CompletionLawful(w, s.book, a.phase);
    }
  }

  // ------------------------------------------------------------------ safety of every run

  ghost predicate RowSafe(w: Workflow, rows: Rows, n: string)
    requires n in rows
  {
    Reached(rows[n].status) ==> DepsCompleted(w, rows, n)
  }

  ghost predicate Safe(w: Workflow, rows: Rows) {
    forall n :: n in rows ==> RowSafe(w, rows, n)
  }

  lemma LawfulKeepsCompleted(w: Workflow, rows: Rows, rows': Rows, n: string)
    requires Lawful(w, rows, rows') && DepsCompleted(w, rows, n)
    ensures DepsCompleted(w, rows', n)
  {
    forall d | d in DepsOf(w, n) ensures d in rows' && rows'[d].status.Completed? {
      assert LawfulRow(w, rows, rows', d);
    }
  }

  lemma LawfulSafe(w: Workflow, rows: Rows, rows': Rows)
    requires Safe(w, rows) && Lawful(w, rows, rows')
    ensures Safe(w, rows')
  {
    forall n | n in rows' ensures RowSafe(w, rows', n) {
      assert RowSafe(w, rows, n) && LawfulRow(w, rows, rows', n);
      if Reached(rows[n].status) {
        LawfulKeepsCompleted(w, rows, rows', n);
      }
    }
  }

  lemma StartRowSafe(w: Workflow, rows: Rows, n: string)
    requires UniqueNames(w) && n in rows && FindPhase(w.phases, n).Some?
    requires Reached(rows[n].status) ==> IsEntry(w.phases, n)
    ensures RowSafe(w, rows, n)
  {
    var i := MemberAt(FindPhase(w.phases, n).value, w.phases);
  }

  lemma StartSafe(w: Workflow, order: seq<string>)
    requires UniqueNames(w)
    ensures Safe(w, Started(w, order).rows)
  {
    forall n | n in Started(w, order).rows ensures RowSafe(w, Started(w, order).rows, n) {
      StartRowSafe(w, Started(w, order).rows, n);
    }
  }

  lemma {:induction false} RunSafe(w: Workflow, order: seq<string>, states: seq<State>, actions: seq<Action>, i: nat)
    requires UniqueNames(w) && Run(w, order, states, actions) && i < |states|
    ensures Safe(w, states[i].book.rows) && states[i].book.rows.Keys == Started(w, order).rows.Keys
  {
    if i == 0 {
      StartSafe(w, order);
    } else {
      RunSafe(w, order, states, actions, i - 1);
      StepLawful(w, states[i - 1], actions[i - 1]);
      LawfulSafe(w, states[i - 1].book.rows, states[i].book.rows);
    }
  }

  /** Along a walk of references into a reached phase, everything before it is completed. */
  lemma {:induction false} WalkCompleted(w: Workflow, edges: set<(string, string)>, rows: Rows, walk: seq<string>)
    requires Safe(w, rows) && forall e :: e in edges ==> e.0 in DepsOf(w, e.1)
    requires Walk(edges, walk) && |walk| >= 2
    requires walk[|walk| - 1] in rows && Reached(rows[walk[|walk| - 1]].status)
    ensures walk[0] in rows && rows[walk[0]].status.Completed?
  {
    var n := |walk| - 1;
    assert (walk[n - 1], walk[n - 1 + 1]) in edges;
    assert RowSafe(w, rows, walk[n]);
    if n > 1 {
      var u := walk[..n];
      forall i | 0 <= i < |u| - 1 ensures (u[i], u[i + 1]) in edges {
        assert (walk[i], walk[i + 1]) in edges;
      }
      WalkCompleted(w, edges, rows, u);
    }
  }

  /** In every reachable state, a phase neither pending nor skipped has only completed ancestors. */
  lemma AncestorsCompleted(w: Workflow, order: seq<string>, states: seq<State>, actions: seq<Action>, i: nat,
                           q: string, n: string)
    requires Compiled(w, order) && Run(w, order, states, actions) && i < |states|
    requires n in states[i].book.rows && Reached(states[i].book.rows[n].status) && Reaches(DependencyEdges(w), q, n)
    ensures q in states[i].book.rows && states[i].book.rows[q].status.Completed?
  {
    RunSafe(w, order, states, actions, i);
    forall e | e in DependencyEdges(w) ensures e.0 in DepsOf(w, e.1) {
      EdgesAreDeps(w, e);
    }
    var walk :| Walk(DependencyEdges(w), walk) && |walk| >= 2 && walk[0] == q && walk[|walk| - 1] == n;
    WalkCompleted(w, DependencyEdges(w), states[i].book.rows, walk);
  }

  /** A terminal status never changes again. */
  lemma {:induction false} TerminalForever(w: Workflow, order: seq<string>, states: seq<State>, actions: seq<Action>,
                                           i: nat, j: nat, n: string)
    requires Run(w, order, states, actions) && i <= j < |states|
    requires n in states[i].book.rows && Terminal(states[i].book.rows[n].status)
    ensures n in states[j].book.rows && states[j].book.rows[n].status == states[i].book.rows[n].status
  {
    if i < j {
      TerminalForever(w, order, states, actions, i, j - 1, n);
      StepLawful(w, states[j - 1], actions[j - 1]);
      var rows, rows' := states[j - 1].book.rows, states[j].book.rows;
      assert LawfulRow(w, rows, rows', n);
      ChangeUsesUp(rows[n].status, rows'[n].status);
    }
  }

  /** Nothing downstream of a failed phase is ever activated, before the failure or after it. */
  lemma FailureBlocksDownstream(w: Workflow, order: seq<string>, states: seq<State>, actions: seq<Action>, i: nat,
                                j: nat, f: string, n: string)
    requires Compiled(w, order) && Run(w, order, states, actions) && i < |states| && j < |states|
    requires f in states[i].book.rows && states[i].book.rows[f].status.Failed?
    requires Reaches(DependencyEdges(w), f, n) && n in states[j].book.rows
    ensures states[j].book.rows[n].status.Pending? || states[j].book.rows[n].status.Skipped?
  {
    if Reached(states[j].book.rows[n].status) {
      AncestorsCompleted(w, order, states, actions, j, f, n);
      if i <= j {
        TerminalForever(w, order, states, actions, i, j, f);
      } else {
        TerminalForever(w, order, states, actions, j, i, f);
      }
    }
  }

  ghost function History(states: seq<State>, n: string): seq<PhaseStatus>
    requires forall i :: 0 <= i < |states| ==> n in states[i].book.rows
  {
    seq(|states|, i requires 0 <= i < |states| => states[i].book.rows[n].status)
  }

  lemma StepOwn(w: Workflow, s: State, a: Action, n: string)
    requires Enabled(s, a) && n in s.book.rows && !s.book.rows[n].status.WaitingGate?
    ensures n in Next(w, s, a).book.rows && OwnChange(s.book.rows[n].status, Next(w, s, a).book.rows[n].status)
  {
    StepLawful(w, s, a);
    assert LawfulRow(w, s.book.rows, Next(w, s, a).book.rows, n);
  }

  lemma {:induction false} NeverGated(w: Workflow, order: seq<string>, states: seq<State>, actions: seq<Action>,
                                      n: string, i: nat)
    requires Run(w, order, states, actions) && n in states[0].book.rows && i < |states|
    ensures n in states[i].book.rows && !states[i].book.rows[n].status.WaitingGate?
  {
    if i > 0 {
      NeverGated(w, order, states, actions, n, i - 1);
      StepOwn(w, states[i - 1], actions[i - 1], n);
    }
  }

  /** Over a whole run, cancellations included, no phase changes status more than three times. */
  lemma ThreeChanges(w: Workflow, order: seq<string>, states: seq<State>, actions: seq<Action>, n: string)
    requires Run(w, order, states, actions) && n in states[0].book.rows
    ensures forall i :: 0 <= i < |states| ==> n in states[i].book.rows
    ensures Changes(History(states, n)) <= 3
  {
    forall i | 0 <= i < |states| ensures n in states[i].book.rows {
      NeverGated(w, order, states, actions, n, i);
    }
    var h := History(states, n);
    forall i | 0 <= i < |h| - 1 ensures OwnChange(h[i], h[i + 1]) {
      NeverGated(w, order, states, actions, n, i);
      StepOwn(w, states[i], actions[i], n);
    }
    AtMostThreeChanges(h);
  }

  /** After a cancellation the rows and the run's status never change again. */
  lemma {:induction false} CancelIsFinal(w: Workflow, order: seq<string>, states: seq<State>, actions: seq<Action>,
                                         i: nat, j: nat)
    requires Run(w, order, states, actions) && i < j < |states| && actions[i].CancelRun?
    ensures AllTerminal(states[j].book.rows) && states[j].book.rows == states[i + 1].book.rows
    ensures states[j].book.run == RunCancelled
  {
    if i + 1 < j {
      CancelIsFinal(w, order, states, actions, i, j - 1);
      var a, b := actions[j - 1], states[j - 1].book;
      assert forall n :: n in b.rows ==> Terminal(b.rows[n].status);
    }
  }

  // ------------------------------------------------------------------ triggers and their evidence

  ghost function CountEvidence(evidence: seq<Evidence>, n: string): nat {
    if evidence == [] then 0
    else CountEvidence(evidence[..|evidence| - 1], n) + if evidence[|evidence| - 1].phase == n then 1 else 0
  }

  /** The calls that have unblocked phase `n` and not yet recorded it. */
  ghost function Recording(calls: map<nat, Call>, n: string): set<nat> {
    set id | id in calls && calls[id].recording == Some(n)
  }

  ghost predicate IsUnblock(s: State, a: Action, n: string) {
    a.Swap? && Enabled(s, a) && Wins(s, a.id) && s.calls[a.id].todo[0] == n
  }

  /** How often the first `k` steps of a run unblocked phase `n`. */
  ghost function Unblocks(states: seq<State>, actions: seq<Action>, n: string, k: nat): nat
    requires k <= |actions| < |states|
  {
    if k == 0 then 0
    else Unblocks(states, actions, n, k - 1) + if IsUnblock(states[k - 1], actions[k - 1], n) then 1 else 0
  }

  lemma RecordingUpdate(calls: map<nat, Call>, id: nat, call: Call, n: string)
    ensures call.recording == Some(n) <==> id in Recording(calls[id := call], n)
    ensures var a, b := Recording(calls, n), Recording(calls[id := call], n);
      |b| == |a| - (if id in a then 1 else 0) + (if id in b then 1 else 0)
  {
    var a, b := Recording(calls, n), Recording(calls[id := call], n);
    if id in a && id !in b {
      assert a == b + {id};
    } else if id !in a && id in b {
      assert b == a + {id};
    } else {
      assert a == b;
    }
  }

  /** Records written plus records owed grow by exactly the unblocks. */
  lemma StepBalance(w: Workflow, s: State, a: Action, n: string)
    requires Enabled(s, a)
    ensures var s' := Next(w, s, a);
      CountEvidence(s'.book.evidence, n) + |Recording(s'.calls, n)|
      == CountEvidence(s.book.evidence, n) + |Recording(s.calls, n)| + (if IsUnblock(s, a, n) then 1 else 0)
  {
    match a
    case Snapshot(id, trigger, listing) => RecordingUpdate(s.calls, id, NextCalls(s, a)[id], n);
    case Swap(id) => RecordingUpdate(s.calls, id, NextCalls(s, a)[id], n);
    case Record(id) =>
      RecordingUpdate(s.calls, id, NextCalls(s, a)[id], n);
      var e := TriggerFired(s.calls[id].recording.value, s.calls[id].trigger);
      assert (s.book.evidence + [e])[..|s.book.evidence|] == s.book.evidence;
    case Return(id) => assert Recording(s.calls - {id}, n) == Recording(s.calls, n);
    case _ =>
  }

  /** At any point of any run: each phase was unblocked at most once, and records written plus owed match. */
  lemma {:induction false} UnblockBooks(w: Workflow, order: seq<string>, states: seq<State>, actions: seq<Action>,
                                        n: string, k: nat)
    requires Run(w, order, states, actions) && k <= |actions|
    ensures Unblocks(states, actions, n, k) ==
            CountEvidence(states[k].book.evidence, n) + |Recording(states[k].calls, n)|
    ensures Unblocks(states, actions, n, k) <= 1
    ensures Unblocks(states, actions, n, k) == 1 ==>
            n in states[k].book.rows && Remaining(states[k].book.rows[n].status) <= 1
  {
    if k == 0 {
      assert Recording(states[0].calls, n) == {};
    } else {
      UnblockBooks(w, order, states, actions, n, k - 1);
      var s, a := states[k - 1], actions[k - 1];
      StepBalance(w, s, a, n);
      StepLawful(w, s, a);
      if n in s.book.rows {
        assert LawfulRow(w, s.book.rows, states[k].book.rows, n);
        ChangeUsesUp(s.book.rows[n].status, states[k].book.rows[n].status);
      }
    }
  }

  /** Once all trigger calls have returned, each phase has exactly one evidence record per unblock, at most one. */
  lemma EvidenceMatchesUnblocks(w: Workflow, order: seq<string>, states: seq<State>, actions: seq<Action>, n: string)
    requires Run(w, order, states, actions) && states[|actions|].calls == map[]
    ensures CountEvidence(states[|actions|].book.evidence, n) == Unblocks(states, actions, n, |actions|) <= 1
  {
    UnblockBooks(w, order, states, actions, n, |actions|);
    assert Recording(states[|actions|].calls, n) == {};
  }

  /** Phase `n` has been activated to wait for `trigger`. */
  ghost predicate Awaited(rows: Rows, n: string, trigger: string) {
    n in rows && !rows[n].status.Pending? && !rows[n].status.WaitingGate? && trigger in rows[n].triggers
  }

  /** A call only ever tries, and owes records only for, phases that await its trigger. */
  ghost predicate CallTrue(rows: Rows, call: Call) {
    && (forall n :: n in call.todo ==> Awaited(rows, n, call.trigger))
    && (call.recording.Some? ==> Awaited(rows, call.recording.value, call.trigger))
  }

  ghost predicate Truthful(s: State) {
    && (forall id :: id in s.calls ==> CallTrue(s.book.rows, s.calls[id]))
    && (forall i :: 0 <= i < |s.book.evidence| ==>
         Awaited(s.book.rows, s.book.evidence[i].phase, s.book.evidence[i].trigger))
  }

  lemma AwaitedStays(w: Workflow, s: State, a: Action, n: string, trigger: string)
    requires Enabled(s, a) && Awaited(s.book.rows, n, trigger)
    ensures Awaited(Next(w, s, a).book.rows, n, trigger)
  {
    StepLawful(w, s, a);
    assert LawfulRow(w, s.book.rows, Next(w, s, a).book.rows, n);
  }

  lemma StepTruthful(w: Workflow, s: State, a: Action)
    requires Enabled(s, a) && Truthful(s)
    ensures Truthful(Next(w, s, a))
  {
    var s' := Next(w, s, a);
    forall n, trigger | Awaited(s.book.rows, n, trigger) ensures Awaited(s'.book.rows, n, trigger) {
      AwaitedStays(w, s, a, n, trigger);
    }
    forall id | id in s'.calls ensures CallTrue(s'.book.rows, s'.calls[id]) {
      if a.Snapshot? && id == a.id {
        forall n | n in a.listing ensures Awaited(s'.book.rows, n, a.trigger) {
          assert n in Elems(a.listing);
        }
      } else {
        assert CallTrue(s.book.rows, s.calls[id]);
      }
    }
  }

  /** Every trigger record of every reachable state names a phase that was waiting for that trigger. */
  lemma {:induction false} EvidenceIsTruthful(w: Workflow, order: seq<string>, states: seq<State>,
                                              actions: seq<Action>, i: nat)
    requires Run(w, order, states, actions) && i < |states|
    ensures Truthful(states[i])
  {
    if i > 0 {
      EvidenceIsTruthful(w, order, states, actions, i - 1);
      StepTruthful(w, states[i - 1], actions[i - 1]);
    }
  }

  // ------------------------------------------------------------------ progress

  /**
   * Every phase that names another requires only phases that must have passed. Entry phases may
   * require anything: they are started whatever it is.
   */
  ghost predicate PlainRequires(w: Workflow) {
    forall i, k :: 0 <= i < |w.phases| && PhaseDeps(w.phases[i].requires_) != [] && 0 <= k < |w.phases[i].requires_| ==>
      PlainRequire(w.phases[i].requires_[k])
  }

  predicate PlainRequire(req: Require) {
    req.PhaseRef? && (req.condition == "passed" || req.condition == "complete")
  }

  ghost predicate Smooth(a: Action) {
    !a.Fail? && !a.CancelRun?
  }

  /** While nothing fails or is cancelled: a pending phase waits for an unfinished one. */
  ghost predicate RowMoving(w: Workflow, rows: Rows, n: string)
    requires n in rows
  {
    && !rows[n].status.WaitingGate? && !rows[n].status.Skipped? && !rows[n].status.Failed?
    && (rows[n].status.Pending? ==> !DepsCompleted(w, rows, n))
    && (rows[n].status.WaitingTrigger? ==> rows[n].triggers != [])
  }

  ghost predicate Moving(w: Workflow, b: Book) {
    && (forall n :: n in b.rows ==> RowMoving(w, b.rows, n))
    && b.run == if AllTerminal(b.rows) then RunCompleted else RunActive
  }

  /** With plain requires, a phase's requires hold exactly when its dependencies are completed. */
  lemma PlainSatisfied(w: Workflow, rows: Rows, evidence: seq<Evidence>, n: string)
    requires PlainRequires(w) && FindPhase(w.phases, n).Some? && DepsOf(w, n) != []
    ensures AllSatisfied(rows, evidence, FindPhase(w.phases, n).value.requires_) <==> DepsCompleted(w, rows, n)
  {
    var p := FindPhase(w.phases, n).value;
    var k := MemberAt(p, w.phases);
    if DepsCompleted(w, rows, n) {
      forall i | 0 <= i < |p.requires_| ensures Satisfied(rows, evidence, p.requires_[i]) {
        assert PlainRequire(w.phases[k].requires_[i]);
        PhaseDepsMember(p.requires_, p.requires_[i].phase);
        assert p.requires_[i].phase in DepsOf(w, n);
      }
    } else if AllSatisfied(rows, evidence, p.requires_) {
      SatisfiedDeps(w, rows, evidence, n);
    }
  }

  /** Completing a phase leaves no pending phase behind with all its dependencies completed. */
  lemma CompletionMoves(w: Workflow, b: Book, n: string, m: string)
    requires UniqueNames(w) && PlainRequires(w) && Moving(w, b) && CanMove(b.rows, n, Completed) && m in b.rows
    requires FindPhase(w.phases, m).Some?
    ensures RowMoving(w, Completion(w, b, n).rows, m)
  {
    var middle, rows' := SetStatus(b.rows, n, Completed), Completion(w, b, n).rows;
    assert RowMoving(w, b.rows, m);
    CascadeKeepsCompleted(w, middle, b.evidence, Downstream(w.phases, n));
    DownstreamIsDependents(w, n, m);
    if rows'[m].status.Pending? {
      if n in DepsOf(w, m) {
        PlainSatisfied(w, middle, b.evidence, m);
        assert !Unlocks(w, middle, b.evidence, m);
        var d :| d in DepsOf(w, m) && !(d in middle && middle[d].status.Completed?);
        assert !(d in rows' && rows'[d].status.Completed?);
      } else {
        var d :| d in DepsOf(w, m) && !(d in b.rows && b.rows[d].status.Completed?);
        assert d != n && !(d in rows' && rows'[d].status.Completed?);
      }
    }
  }

  lemma MoveOther(w: Workflow, rows: Rows, x: string, status: PhaseStatus, m: string)
    requires x in rows && m in rows && RowMoving(w, rows, m) && !rows[x].status.Completed? && status.InProgress?
    ensures RowMoving(w, SetStatus(rows, x, status), m)
  {
    if rows[m].status.Pending? && m != x {
      var d :| d in DepsOf(w, m) && !(d in rows && rows[d].status.Completed?);
      assert !(d in SetStatus(rows, x, status) && SetStatus(rows, x, status)[d].status.Completed?);
    }
  }

  lemma StepRowMoves(w: Workflow, s: State, a: Action, m: string)
    requires UniqueNames(w) && PlainRequires(w) && Moving(w, s.book) && Enabled(s, a) && Smooth(a)
    requires m in s.book.rows && FindPhase(w.phases, m).Some?
    ensures m in Next(w, s, a).book.rows && RowMoving(w, Next(w, s, a).book.rows, m)
  {
    var b := s.book;
    assert RowMoving(w, b.rows, m);
    if a.Complete? && CanMove(b.rows, a.phase, Completed) {
      CompletionMoves(w, b, a.phase, m);
    } else if a.Claim? && a.phase in b.rows && b.rows[a.phase].status.WaitingUser? {
      MoveOther(w, b.rows, a.phase, InProgress, m);
    } else if a.Swap? && Wins(s, a.id) {
      MoveOther(w, b.rows, s.calls[a.id].todo[0], InProgress, m);
    }
  }

  /** The run's status stays in step with its rows. */
  lemma StepStatus(w: Workflow, s: State, a: Action)
    requires Moving(w, s.book) && Enabled(s, a) && Smooth(a)
    ensures var b' := Next(w, s, a).book; b'.run == if AllTerminal(b'.rows) then RunCompleted else RunActive
  {
    var b, b' := s.book, Next(w, s, a).book;
    if a.Claim? && a.phase in b.rows && b.rows[a.phase].status.WaitingUser? {
      assert !Terminal(b.rows[a.phase].status) && !Terminal(b'.rows[a.phase].status);
    } else if a.Swap? && Wins(s, a.id) {
      var x := s.calls[a.id].todo[0];
      assert !Terminal(b.rows[x].status) && !Terminal(b'.rows[x].status);
    } else if a.Complete? && CanMove(b.rows, a.phase, Completed) {
      assert !Terminal(b.rows[a.phase].status);
    }
  }

  lemma StepMoves(w: Workflow, s: State, a: Action)
    requires UniqueNames(w) && PlainRequires(w) && Moving(w, s.book) && Enabled(s, a) && Smooth(a)
    requires forall m :: m in s.book.rows ==> FindPhase(w.phases, m).Some?
    ensures Moving(w, Next(w, s, a).book)
  {
    StepLawful(w, s, a);
    forall m | m in Next(w, s, a).book.rows ensures RowMoving(w, Next(w, s, a).book.rows, m) {
      StepRowMoves(w, s, a, m);
    }
    StepStatus(w, s, a);
  }

  lemma StartMoves(w: Workflow, order: seq<string>)
    requires Compiled(w, order) && w.phases != []
    ensures Moving(w, Started(w, order))
  {
    var rows := Started(w, order).rows;
    forall n | n in rows ensures RowMoving(w, rows, n) {
      var i := MemberAt(FindPhase(w.phases, n).value, w.phases);
      if rows[n].status.Pending? {
        assert PhaseDeps(w.phases[i].requires_) != [];
        assert DepsOf(w, n)[0] in DepsOf(w, n);
      }
    }
    var first := w.phases[0].name;
    assert first in Elems(order);
    assert first in rows && !Terminal(rows[first].status);
  }

  lemma {:induction false} RunMoves(w: Workflow, order: seq<string>, states: seq<State>, actions: seq<Action>, i: nat)
    requires Compiled(w, order) && w.phases != [] && PlainRequires(w)
    requires Run(w, order, states, actions) && i < |states| && forall k :: 0 <= k < i ==> Smooth(actions[k])
    ensures Moving(w, states[i].book)
  {
    if i == 0 {
      StartMoves(w, order);
    } else {
      RunMoves(w, order, states, actions, i - 1);
      RunSafe(w, order, states, actions, i - 1);
      StepMoves(w, states[i - 1], actions[i - 1]);
    }
  }

  ghost predicate Working(status: PhaseStatus) {
    status.WaitingUser? || status.WaitingTrigger? || status.InProgress?
  }

  /**
   * Progress: when all requires are plain phase references and nothing has failed or been
   * cancelled, either some phase is active and unfinished, or all are completed and so is the run.
   */
  lemma SomePhaseIsActive(w: Workflow, order: seq<string>, states: seq<State>, actions: seq<Action>, i: nat)
    returns (n: string)
    requires Compiled(w, order) && w.phases != [] && PlainRequires(w)
    requires Run(w, order, states, actions) && i < |states| && forall k :: 0 <= k < i ==> Smooth(actions[k])
    ensures var b := states[i].book;
      if forall m :: m in b.rows ==> b.rows[m].status.Completed? then b.run.RunCompleted?
      else b.run.RunActive? && n in b.rows && Working(b.rows[n].status)
  {
    RunMoves(w, order, states, actions, i);
    RunSafe(w, order, states, actions, i);
    OrderAcyclic(w, order);
    AllDepsHaveRows(w, order);
    n := ActivePhase(w, DependencyEdges(w), states[i].book);
  }

  ghost predicate HasEdge(w: Workflow, edges: set<(string, string)>, names: set<string>, m: string, d: string) {
    d in DepsOf(w, m) ==> (d, m) in edges && d in names
  }

  /** Every dependency of a phase is an edge from a phase that has a row. */
  ghost predicate Covers(w: Workflow, edges: set<(string, string)>, names: set<string>) {
    forall m, d :: HasEdge(w, edges, names, m, d)
  }

  lemma AllDepsHaveRows(w: Workflow, order: seq<string>)
    requires Compiled(w, order)
    ensures Covers(w, DependencyEdges(w), Started(w, order).rows.Keys)
  {
    forall m, d ensures HasEdge(w, DependencyEdges(w), Started(w, order).rows.Keys, m, d) {
      if d in DepsOf(w, m) {
        DepsHaveRows(w, order, m, d);
      }
    }
  }

  lemma ActivePhase(w: Workflow, edges: set<(string, string)>, b: Book) returns (n: string)
    requires Moving(w, b) && Acyclic(edges) && Covers(w, edges, b.rows.Keys)
    ensures
      if forall m :: m in b.rows ==> b.rows[m].status.Completed? then b.run.RunCompleted?
      else b.run.RunActive? && n in b.rows && Working(b.rows[n].status)
  {
    var open := set m | m in b.rows && !b.rows[m].status.Completed?;
    n := "";
    if open == {} {
      assert forall m :: m in b.rows ==> m !in open;
    } else {
      n := SourceExists(edges, open);
      assert RowMoving(w, b.rows, n);
      forall d | d in DepsOf(w, n) ensures d in b.rows && b.rows[d].status.Completed? {
        assert HasEdge(w, edges, b.rows.Keys, n, d) && d !in open;
      }
      assert !Terminal(b.rows[n].status);
    }
  }

  lemma DepsHaveRows(w: Workflow, order: seq<string>, m: string, d: string)
    requires Compiled(w, order) && d in DepsOf(w, m)
    ensures (d, m) in DependencyEdges(w) && d in Started(w, order).rows
  {
    EdgesAreDeps(w, (d, m));
    ReferencesNames(PhaseNames(w.phases), w.phases);
    RowsAreNames(w, order, d);
  }

  lemma RowsAreNames(w: Workflow, order: seq<string>, d: string)
    requires Compiled(w, order) && d in PhaseNames(w.phases)
    ensures d in Started(w, order).rows
  {
    assert d in Elems(order);
  }

  /** A step that moves an active phase: claim it, fire one of its triggers, or complete it. */
  lemma ActivePhaseCanMove(w: Workflow, s: State, n: string, id: nat) returns (a: Action)
    requires Moving(w, s.book) && n in s.book.rows && Working(s.book.rows[n].status) && id !in s.calls
    ensures Smooth(a) && Enabled(s, a)
    ensures if s.book.rows[n].status.WaitingTrigger? then a.Snapshot? && n in a.listing
            else n in Next(w, s, a).book.rows && Next(w, s, a).book.rows[n].status != s.book.rows[n].status
  {
    var b := s.book;
    assert RowMoving(w, b.rows, n);
    match b.rows[n].status
    case WaitingUser => a := Claim(n);
    case InProgress =>
      a := Complete(n);
      CascadeKeepsCompleted(w, SetStatus(b.rows, n, Completed), b.evidence, Downstream(w.phases, n));
    case WaitingTrigger =>
      var trigger := b.rows[n].triggers[0];
      var listing := Listing(Matching(b.rows, trigger));
      assert n in Elems(listing);
      a := Snapshot(id, trigger, listing);
  }

  lemma {:induction false} Listing(s: set<string>) returns (q: seq<string>)
    ensures NoDuplicates(q) && Elems(q) == s
  {
    if s == {} {
      q := [];
    } else {
      var x :| x in s;
      var rest := Listing(s - {x});
      assert x !in Elems(rest);
      NoDuplicatesAppend(rest, x);
      ElemsAppend(rest, x);
      q := rest + [x];
    }
  }

  // ------------------------------------------------------------------ what the runtime does not promise

  /** Completing a phase completes the run exactly when no row is left open, failed rows or not. */
  lemma CompletionEndsRun(w: Workflow, b: Book, n: string)
    requires CanMove(b.rows, n, Completed) && !b.run.RunCompleted?
    ensures Completion(w, b, n).run.RunCompleted? <==>
            forall m :: m in b.rows && m != n ==> Terminal(b.rows[m].status)
  {
    var middle, rows' := SetStatus(b.rows, n, Completed), Completion(w, b, n).rows;
    forall m | m in b.rows && m != n ensures Terminal(b.rows[m].status) <==> Terminal(rows'[m].status) {
      assert middle[m] == b.rows[m];
    }
  }

  /** A require the runtime can never see satisfied. */
  predicate Hopeless(req: Require) {
    req.FeatureRef? || req.BuiltinRef? || (req.PhaseRef? && req.condition != "passed" && req.condition != "complete")
  }

  lemma HopelessLocked(w: Workflow, rows: Rows, evidence: seq<Evidence>, n: string, k: nat)
    requires FindPhase(w.phases, n).Some? && k < |FindPhase(w.phases, n).value.requires_|
    requires Hopeless(FindPhase(w.phases, n).value.requires_[k])
    ensures !Unlocks(w, rows, evidence, n)
  {
    assert !Satisfied(rows, evidence, FindPhase(w.phases, n).value.requires_[k]);
  }

  lemma HopelessStep(w: Workflow, s: State, a: Action, n: string, k: nat)
    requires Enabled(s, a) && n in s.book.rows && FindPhase(w.phases, n).Some?
    requires k < |FindPhase(w.phases, n).value.requires_| && Hopeless(FindPhase(w.phases, n).value.requires_[k])
    requires !Reached(s.book.rows[n].status)
    ensures n in Next(w, s, a).book.rows && !Reached(Next(w, s, a).book.rows[n].status)
  {
    if a.Complete? && CanMove(s.book.rows, a.phase, Completed) {
      HopelessLocked(w, SetStatus(s.book.rows, a.phase, Completed), s.book.evidence, n, k);
    }
  }

  /** A phase with a phase reference and a feature, builtin or unknown-condition require never starts. */
  lemma {:induction false} HopelessNeverActive(w: Workflow, order: seq<string>, states: seq<State>,
                                               actions: seq<Action>, i: nat, n: string, k: nat)
    requires UniqueNames(w) && Run(w, order, states, actions) && i < |states| && n in states[0].book.rows
    requires FindPhase(w.phases, n).Some? && DepsOf(w, n) != []
    requires k < |FindPhase(w.phases, n).value.requires_| && Hopeless(FindPhase(w.phases, n).value.requires_[k])
    ensures n in states[i].book.rows && !Reached(states[i].book.rows[n].status)
  {
    if i == 0 {
      var j := MemberAt(FindPhase(w.phases, n).value, w.phases);
    } else {
      HopelessNeverActive(w, order, states, actions, i - 1, n, k);
      HopelessStep(w, states[i - 1], actions[i - 1], n, k);
    }
  }

  /**
   * A failed run is not final: whenever one phase fails while another is in progress and the rest
   * are finished, completing the other marks the run completed, with the failed phase still failed.
   */
  lemma FailedRunCompletes(w: Workflow, s: State, x: string, y: string)
    requires x != y && x in s.book.rows && y in s.book.rows
    requires s.book.rows[x].status.InProgress? && s.book.rows[y].status.InProgress?
    requires forall m :: m in s.book.rows && m != x && m != y ==> Terminal(s.book.rows[m].status)
    ensures var failed := Next(w, s, Fail(x)); var after := Next(w, failed, Complete(y)).book;
      failed.book.run.RunFailed? && after.run.RunCompleted? && x in after.rows && after.rows[x].status.Failed?
  {
    var b := Next(w, s, Fail(x)).book;
    CompletionEndsRun(w, b, y);
    CompletionLawful(w, b, y);
    assert LawfulRow(w, b.rows, Completion(w, b, y).rows, x);
  }
}
