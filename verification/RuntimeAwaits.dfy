/**
 * Activation and triggers over whole runs: exactly which completions start which phases, that a phase
 * with awaits waits for its triggers and nothing else, and that each of them moves it on.
 */
module RuntimeAwaits {
  import opened Options
  import opened CharterAst
  import opened Digraph
  import opened Resolver
  import opened GraphBuilder
  import opened PhaseState
  import opened Runtime
  import opened RuntimeRuns

  // ------------------------------------------------------------------ one completion

  /** The require is met once phase `done` is completed as well. */
  ghost predicate Met(b: Book, done: string, req: Require) {
    || (req.PhaseRef? && (req.condition == "passed" || req.condition == "complete") &&
        (req.phase == done || (req.phase in b.rows && b.rows[req.phase].status == Completed)))
    || (req.AwaitRef? && exists phase :: TriggerFired(phase, req.trigger) in b.evidence)
  }

  lemma MetIsSatisfied(b: Book, done: string, req: Require)
    requires done in b.rows
    ensures Satisfied(SetStatus(b.rows, done, Completed), b.evidence, req) <==> Met(b, done, req)
  {
    if req.AwaitRef? && Fired(b.evidence, req.trigger) {
      var i :| 0 <= i < |b.evidence| && b.evidence[i].trigger == req.trigger;
      assert TriggerFired(b.evidence[i].phase, req.trigger) in b.evidence;
    }
  }

  /**
   * Completing a phase starts a pending one exactly when that one requires it and all its requires are
   * then met; it then waits for its triggers if it has any, and for a user otherwise.
   */
  lemma StartsExactly(w: Workflow, b: Book, done: string, m: string)
    requires UniqueNames(w) && CanMove(b.rows, done, Completed)
    requires m in b.rows && b.rows[m].status.Pending? && FindPhase(w.phases, m).Some?
    ensures var p, row := FindPhase(w.phases, m).value, Completion(w, b, done).rows[m];
      if done in DepsOf(w, m) && forall i :: 0 <= i < |p.requires_| ==> Met(b, done, p.requires_[i])
      then row == if p.awaits == [] then Row(WaitingUser, b.rows[m].triggers) else Row(WaitingTrigger, p.awaits)
      else row == b.rows[m]
  {
    var p := FindPhase(w.phases, m).value;
    DownstreamIsDependents(w, done, m);
    forall i | 0 <= i < |p.requires_|
      ensures Satisfied(SetStatus(b.rows, done, Completed), b.evidence, p.requires_[i]) <==>
              Met(b, done, p.requires_[i])
    {
      MetIsSatisfied(b, done, p.requires_[i]);
    }
  }

  // ------------------------------------------------------------------ every run

  /** Where a phase that was not started with the run may be, and which triggers its row lists. */
  ghost predicate Attends(awaits: seq<string>, row: Row) {
    match row.status
    case Pending => row.triggers == []
    case WaitingUser => awaits == [] && row.triggers == []
    case WaitingTrigger => awaits != [] && row.triggers == awaits
    case Skipped => row.triggers == [] || row.triggers == awaits
    case WaitingGate => false
    case _ => row.triggers == awaits
  }

  /** An entry phase never waits for a trigger; any other one waits for its awaits, if it has any. */
  ghost predicate RowAttends(w: Workflow, n: string, row: Row) {
    if IsEntry(w.phases, n) then row.triggers == [] && !row.status.WaitingTrigger? && !row.status.Pending?
    else Attends(AwaitsOf(w, n), row)
  }

  lemma OfferAttends(w: Workflow, rows: Rows, evidence: seq<Evidence>, n: string)
    requires n in rows && RowAttends(w, n, rows[n])
    ensures RowAttends(w, n, Offered(w, rows, evidence, n))
  {
  }

  lemma StepAttends(w: Workflow, s: State, a: Action, n: string)
    requires Enabled(s, a) && n in s.book.rows && RowAttends(w, n, s.book.rows[n])
    ensures n in Next(w, s, a).book.rows && RowAttends(w, n, Next(w, s, a).book.rows[n])
  {
    if a.Complete? && CanMove(s.book.rows, a.phase, Completed) {
      OfferAttends(w, SetStatus(s.book.rows, a.phase, Completed), s.book.evidence, n);
    }
  }

  /**
   * In every reachable state a phase waits for exactly the triggers it awaits, and for a user only
   * if it awaits none.
   */
  lemma {:induction false} RunAttends(w: Workflow, order: seq<string>, states: seq<State>, actions: seq<Action>, i: nat,
                                      n: string)
    requires Run(w, order, states, actions) && i < |states| && n in states[0].book.rows
    ensures n in states[i].book.rows && RowAttends(w, n, states[i].book.rows[n])
  {
    if i > 0 {
      RunAttends(w, order, states, actions, i - 1, n);
      StepAttends(w, states[i - 1], actions[i - 1], n);
    }
  }

  lemma {:induction false} RowsStay(w: Workflow, order: seq<string>, states: seq<State>, actions: seq<Action>, i: nat)
    requires Run(w, order, states, actions) && i < |states|
    ensures states[i].book.rows.Keys == states[0].book.rows.Keys
  {
    if i > 0 {
      RowsStay(w, order, states, actions, i - 1);
      StepLawful(w, states[i - 1], actions[i - 1]);
    }
  }

  /**
   * In every reachable state: a phase with awaits that the run did not start with is not handed to a
   * user; a trigger finds a phase exactly when the phase waits and awaits that trigger; and then firing
   * it moves the phase on.
   */
  lemma TriggersReach(w: Workflow, order: seq<string>, states: seq<State>, actions: seq<Action>, i: nat, n: string,
                      trigger: string)
    requires Run(w, order, states, actions) && i < |states| && n in states[i].book.rows && !IsEntry(w.phases, n)
    ensures AwaitsOf(w, n) != [] ==> !states[i].book.rows[n].status.WaitingUser?
    ensures n in Matching(states[i].book.rows, trigger) <==>
            states[i].book.rows[n].status.WaitingTrigger? && trigger in AwaitsOf(w, n)
    ensures n in Matching(states[i].book.rows, trigger) ==>
            Unblocked(states[i].book.rows, Matching(states[i].book.rows, trigger))[n].status == InProgress
  {
    RowsStay(w, order, states, actions, i);
    RunAttends(w, order, states, actions, i, n);
  }

  /** A trigger call lists every phase that waits for the trigger, and its turn moves the phase on if it still waits. */
  lemma CallReaches(w: Workflow, order: seq<string>, states: seq<State>, actions: seq<Action>, i: nat, n: string)
    requires Run(w, order, states, actions) && i < |actions| && n in states[i].book.rows && !IsEntry(w.phases, n)
    requires states[i].book.rows[n].status.WaitingTrigger?
    ensures actions[i].Snapshot? ==> (n in actions[i].listing <==> actions[i].trigger in AwaitsOf(w, n))
    ensures actions[i].Swap? && states[i].calls[actions[i].id].todo[0] == n ==>
            states[i + 1].book.rows[n].status == InProgress
  {
    if actions[i].Snapshot? {
      TriggersReach(w, order, states, actions, i, n, actions[i].trigger);
      assert n in Elems(actions[i].listing) <==> n in actions[i].listing;
    }
  }

  lemma AwaitedMeans(w: Workflow, rows: Rows, n: string, trigger: string)
    requires Awaited(rows, n, trigger) && RowAttends(w, n, rows[n])
    ensures trigger in AwaitsOf(w, n) && !rows[n].status.WaitingUser?
  {
  }

  /** A require on a trigger is met only after a phase that awaits the trigger has been unblocked by it. */
  lemma RecordedAwaits(w: Workflow, order: seq<string>, states: seq<State>, actions: seq<Action>, i: nat, e: Evidence)
    requires Run(w, order, states, actions) && i < |states| && e in states[i].book.evidence
    ensures e.phase in states[i].book.rows && e.trigger in AwaitsOf(w, e.phase)
  {
    EvidenceIsTruthful(w, order, states, actions, i);
    var k :| 0 <= k < |states[i].book.evidence| && states[i].book.evidence[k] == e;
    assert Awaited(states[i].book.rows, states[i].book.evidence[k].phase, states[i].book.evidence[k].trigger);
    RowsStay(w, order, states, actions, i);
    RunAttends(w, order, states, actions, i, e.phase);
    AwaitedMeans(w, states[i].book.rows, e.phase, e.trigger);
  }
}
