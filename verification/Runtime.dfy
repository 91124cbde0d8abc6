/**
 * The persistent workflow runtime: the rows of one charter run, and the operations that start it,
 * complete, fail and activate its phases, fire triggers and cancel it.
 */
module Runtime {
  import opened Options
  import opened CharterAst
  import opened Digraph
  import opened WorkList
  import opened Resolver
  import opened GraphBuilder
  import opened PhaseState

  /** A phase execution row. */
  datatype Row = Row(status: PhaseStatus, triggers: seq<string>)

  datatype RunStatus = RunActive | RunCompleted | RunFailed | RunCancelled

  datatype Evidence = TriggerFired(phase: string, trigger: string)

  type Rows = map<string, Row>

  /** Everything stored about one run. */
  datatype Book = Book(rows: Rows, run: RunStatus, current: Option<string>, evidence: seq<Evidence>)

  // ------------------------------------------------------------------ requires

  predicate Fired(evidence: seq<Evidence>, trigger: string) {
    exists i :: 0 <= i < |evidence| && evidence[i].trigger == trigger
  }

  /** Whether one require holds: only completed phases and fired triggers ever satisfy one. */
  predicate Satisfied(rows: Rows, evidence: seq<Evidence>, req: Require) {
    match req
    case PhaseRef(phase, condition) =>
      (condition == "passed" || condition == "complete") && phase in rows && rows[phase].status.Completed?
    case AwaitRef(trigger) => Fired(evidence, trigger)
    case FeatureRef(_) => false
    case BuiltinRef(_) => false
  }

  ghost predicate AllSatisfied(rows: Rows, evidence: seq<Evidence>, requires_: seq<Require>) {
    forall i :: 0 <= i < |requires_| ==> Satisfied(rows, evidence, requires_[i])
  }

  /** Checks every require and reports the ones that do not hold. */
  method EvaluateRequires(rows: Rows, evidence: seq<Evidence>, requires_: seq<Require>)
    returns (unsatisfied: seq<Require>)
    ensures unsatisfied == [] <==> AllSatisfied(rows, evidence, requires_)
    ensures forall req :: req in unsatisfied <==> req in requires_ && !Satisfied(rows, evidence, req)
  {
    unsatisfied := [];
    for i := 0 to |requires_|
      invariant unsatisfied == [] <==> forall j :: 0 <= j < i ==> Satisfied(rows, evidence, requires_[j])
      invariant forall req :: req in unsatisfied <==> req in requires_[..i] && !Satisfied(rows, evidence, req)
    {
      assert requires_[..i + 1] == requires_[..i] + [requires_[i]];
      if !Satisfied(rows, evidence, requires_[i]) {
        unsatisfied := unsatisfied + [requires_[i]];
      }
    }
    assert requires_[..|requires_|] == requires_;
  }

  // ------------------------------------------------------------------ activation

  predicate HasAwaits(node: Option<Phase>) {
    node.Some? && node.value.awaits != []
  }

  /** The triggers a phase waits for. */
  function AwaitsOf(w: Workflow, n: string): seq<string> {
    var node := FindPhase(w.phases, n);
    if node.Some? then node.value.awaits else []
  }

  function ActivationTarget(node: Option<Phase>): PhaseStatus {
    if HasAwaits(node) then WaitingTrigger else WaitingUser
  }

  predicate Activatable(row: Row, node: Option<Phase>) {
    (row.status.Pending? || row.status.WaitingGate?) && ValidTransition(row.status, ActivationTarget(node))
  }

  function ActivatedRow(row: Row, node: Option<Phase>): Row {
    if Activatable(row, node)
    then Row(ActivationTarget(node), if HasAwaits(node) then node.value.awaits else row.triggers)
    else row
  }

  /** Whether phase `n` becomes active when its requires are looked at. */
  ghost predicate Unlocks(w: Workflow, rows: Rows, evidence: seq<Evidence>, n: string) {
    var node := FindPhase(w.phases, n);
    n in rows && node.Some? && AllSatisfied(rows, evidence, node.value.requires_) && Activatable(rows[n], node)
  }

  /** Whether offering activation to `n` raises an error: no such phase or row, or a change the table forbids. */
  ghost predicate Raises(w: Workflow, rows: Rows, evidence: seq<Evidence>, n: string) {
    var node := FindPhase(w.phases, n);
    node.None? || (AllSatisfied(rows, evidence, node.value.requires_) &&
                   (n !in rows || (rows[n].status.WaitingGate? && HasAwaits(node))))
  }

  /** The row of a phase after it has been offered activation. */
  ghost function Offered(w: Workflow, rows: Rows, evidence: seq<Evidence>, n: string): Row
    requires n in rows
  {
    if Unlocks(w, rows, evidence, n) then ActivatedRow(rows[n], FindPhase(w.phases, n)) else rows[n]
  }

  /** The rows after each of the named phases has been offered activation. */
  ghost function Cascaded(w: Workflow, rows: Rows, evidence: seq<Evidence>, names: seq<string>): Rows {
    map n | n in rows :: if n in names then Offered(w, rows, evidence, n) else rows[n]
  }

  /** Activation never completes a phase nor undoes a completion, so no require changes. */
  lemma ActivationKeepsRequires(rows: Rows, rows': Rows, evidence: seq<Evidence>, requires_: seq<Require>)
    requires rows.Keys == rows'.Keys
    requires forall n :: n in rows ==> (rows[n].status.Completed? <==> rows'[n].status.Completed?)
    ensures AllSatisfied(rows, evidence, requires_) <==> AllSatisfied(rows', evidence, requires_)
  {
    assert forall req :: Satisfied(rows, evidence, req) <==> Satisfied(rows', evidence, req);
  }

  lemma CascadeKeepsCompleted(w: Workflow, rows: Rows, evidence: seq<Evidence>, names: seq<string>)
    ensures var rows' := Cascaded(w, rows, evidence, names);
      rows.Keys == rows'.Keys && forall n :: n in rows ==> (rows[n].status.Completed? <==> rows'[n].status.Completed?)
  {
  }

  /** An active row stays as it is, and offering activation to other phases does not matter to it. */
  lemma OfferAgain(w: Workflow, rows: Rows, evidence: seq<Evidence>, names: seq<string>, n: string)
    requires n in rows
    ensures var so := Cascaded(w, rows, evidence, names);
      n in so && Offered(w, so, evidence, n) == Offered(w, rows, evidence, n)
    ensures Unlocks(w, rows, evidence, n) <==> Offered(w, rows, evidence, n) != rows[n]
  {
    var so := Cascaded(w, rows, evidence, names);
    CascadeKeepsCompleted(w, rows, evidence, names);
    var node := FindPhase(w.phases, n);
    if node.Some? {
      ActivationKeepsRequires(rows, so, evidence, node.value.requires_);
    }
  }

  /** Activating other phases, or the phase itself, does not change whether offering it activation is an error. */
  lemma RaisesAgain(w: Workflow, rows: Rows, evidence: seq<Evidence>, names: seq<string>, n: string)
    ensures Raises(w, Cascaded(w, rows, evidence, names), evidence, n) <==> Raises(w, rows, evidence, n)
  {
    CascadeKeepsCompleted(w, rows, evidence, names);
    var node := FindPhase(w.phases, n);
    if node.Some? {
      ActivationKeepsRequires(rows, Cascaded(w, rows, evidence, names), evidence, node.value.requires_);
    }
  }

  /** Offering activation to one more phase extends the cascade by that phase. */
  lemma CascadeNext(w: Workflow, rows: Rows, evidence: seq<Evidence>, names: seq<string>, n: string)
    ensures var so, more := Cascaded(w, rows, evidence, names), Cascaded(w, rows, evidence, names + [n]);
      && (n !in rows ==> more == so)
      && (n in rows ==> more == so[n := Offered(w, so, evidence, n)])
  {
    if n in rows {
      OfferAgain(w, rows, evidence, names, n);
    }
  }

  /** The phases that require `done`, in declaration order. */
  function Downstream(phases: seq<Phase>, done: string): seq<string> {
    if phases == [] then []
    else
      var rest := Downstream(phases[..|phases| - 1], done);
      if done in PhaseDeps(phases[|phases| - 1].requires_) then rest + [phases[|phases| - 1].name] else rest
  }

  lemma {:induction false} DownstreamMember(phases: seq<Phase>, done: string, n: string)
    ensures n in Downstream(phases, done) <==>
            exists i :: 0 <= i < |phases| && phases[i].name == n && done in PhaseDeps(phases[i].requires_)
  {
    if phases != [] {
      var k := |phases| - 1;
      DownstreamMember(phases[..k], done, n);
      assert forall i :: 0 <= i < k ==> phases[..k][i] == phases[i];
    }
  }

  /** With unique names, the downstream phases are those whose own requires name the completed phase. */
  lemma DownstreamIsDependents(w: Workflow, done: string, n: string)
    requires UniqueNames(w)
    ensures n in Downstream(w.phases, done) <==> done in DepsOf(w, n)
  {
    DownstreamMember(w.phases, done, n);
    var node := FindPhase(w.phases, n);
    if node.Some? {
      var i := MemberAt(node.value, w.phases);
    }
  }

  // ------------------------------------------------------------------ operations on the book

  predicate AllTerminal(rows: Rows) {
    forall n :: n in rows ==> Terminal(rows[n].status)
  }

  function SetStatus(rows: Rows, n: string, status: PhaseStatus): Rows
    requires n in rows
  {
    rows[n := rows[n].(status := status)]
  }

  predicate CanMove(rows: Rows, n: string, to: PhaseStatus) {
    n in rows && ValidTransition(rows[n].status, to)
  }

  ghost function Completion(w: Workflow, b: Book, n: string): Book
    requires CanMove(b.rows, n, Completed)
  {
    var rows := Cascaded(w, SetStatus(b.rows, n, Completed), b.evidence, Downstream(w.phases, n));
    b.(rows := rows, current := Some(n), run := if AllTerminal(rows) then RunCompleted else b.run)
  }

  function Failing(b: Book, n: string): Book
    requires CanMove(b.rows, n, Failed)
  {
    b.(rows := SetStatus(b.rows, n, Failed), current := Some(n), run := RunFailed)
  }

  function Cancelled(b: Book): Book {
    b.(rows := map n | n in b.rows :: if Terminal(b.rows[n].status) then b.rows[n] else b.rows[n].(status := Skipped),
       run := RunCancelled)
  }

  /** A new run: a row for every ordered phase, and the phases that require no phase awaiting a user. */
  function Started(w: Workflow, order: seq<string>): Book {
    Book(map n | n in order && FindPhase(w.phases, n).Some? ::
           Row(if IsEntry(w.phases, n) then WaitingUser else Pending, []),
         RunActive, None, [])
  }

  predicate IsEntry(phases: seq<Phase>, n: string) {
    exists i :: 0 <= i < |phases| && phases[i].name == n && PhaseDeps(phases[i].requires_) == []
  }

  /** The rows a trigger would unblock. */
  ghost function Matching(rows: Rows, trigger: string): set<string> {
    set n | n in rows && rows[n].status.WaitingTrigger? && trigger in rows[n].triggers
  }

  ghost function Unblocked(rows: Rows, names: set<string>): Rows {
    map n | n in rows :: if n in names then rows[n].(status := InProgress) else rows[n]
  }

  datatype Activation =
    NowActive | AlreadyActive | RequiresUnmet | NoSuchPhase | Refused(from: PhaseStatus, to: PhaseStatus)

  datatype Reply =
    | Cascade(activated: seq<string>, workflowComplete: bool, failed: seq<string>)
    | PhaseMissing
    | InvalidTransition(from: PhaseStatus, to: PhaseStatus)
    | TriggerNotFound
    | Unblocking(phases: seq<string>)

  /** One charter run as stored rows that the runtime's operations update. */
  class CharterRun {
    const workflow: Workflow
    var rows: Rows
    var run: RunStatus
    var current: Option<string>
    var evidence: seq<Evidence>

    ghost function Contents(): Book
      reads this
    {
      Book(rows, run, current, evidence)
    }

    /** Creates the rows and activates the entry phases. */
    constructor (w: Workflow, order: seq<string>)
      ensures workflow == w && Contents() == Started(w, order)
    {
      workflow := w;
      run, current, evidence := RunActive, None, [];
      var created := CreateRows(w, order);
      var table := ActivateEntries(w.phases, created);
      rows := table;
    }

    /**
     * Makes a pending or gated phase active; anything else is left alone or refused. A phase with
     * awaits waits for its triggers, any other one for a user.
     */
    method ActivatePhase(n: string) returns (r: Activation)
      modifies this`rows
      ensures r.NowActive? <==> n in old(rows) && Activatable(old(rows)[n], FindPhase(workflow.phases, n))
      ensures r.NowActive? ==> rows == old(rows)[n := ActivatedRow(old(rows)[n], FindPhase(workflow.phases, n))]
      ensures r.NowActive? ==>
              var awaits := AwaitsOf(workflow, n);
              if awaits != [] then rows[n] == Row(WaitingTrigger, awaits)
              else rows[n] == Row(WaitingUser, old(rows)[n].triggers)
      ensures !r.NowActive? ==> rows == old(rows)
      ensures r.NoSuchPhase? <==> n !in old(rows)
      ensures r.Refused? <==>
              n in old(rows) && old(rows)[n].status.WaitingGate? && HasAwaits(FindPhase(workflow.phases, n))
      ensures !r.RequiresUnmet?
    {
      if n !in rows {
        return NoSuchPhase;
      }
      var row := rows[n];
      if !row.status.Pending? && !row.status.WaitingGate? {
        return AlreadyActive;
      }
      var node := FindPhase(workflow.phases, n);
      var target := ActivationTarget(node);
      if !ValidTransition(row.status, target) {
        return Refused(row.status, target);
      }
      rows := rows[n := Row(target, if HasAwaits(node) then node.value.awaits else row.triggers)];
      return NowActive;
    }

    /** Activates a phase if all its requires hold. */
    method TryActivate(n: string) returns (r: Activation)
      modifies this`rows
      ensures r.NowActive? <==> Unlocks(workflow, old(rows), evidence, n)
      ensures n in old(rows) ==> rows == old(rows)[n := Offered(workflow, old(rows), evidence, n)]
      ensures n !in old(rows) ==> rows == old(rows)
      ensures r.NoSuchPhase? || r.Refused? <==> Raises(workflow, old(rows), evidence, n)
    {
      var node := FindPhase(workflow.phases, n);
      if node.None? {
        return NoSuchPhase;
      }
      var unsatisfied := EvaluateRequires(rows, evidence, node.value.requires_);
      if unsatisfied != [] {
        return RequiresUnmet;
      }
      r := ActivatePhase(n);
    }

    /** Offers activation to each downstream phase; the report lists exactly the rows that changed. */
    method CascadeFrom(names: seq<string>) returns (activated: seq<string>, failed: seq<string>)
      modifies this`rows
      ensures rows == Cascaded(workflow, old(rows), evidence, names)
      ensures forall n :: n in activated <==> n in rows && n in old(rows) && rows[n] != old(rows)[n]
      ensures forall n :: n in failed <==> n in names && Raises(workflow, old(rows), evidence, n)
    {
      activated, failed := [], [];
      for k := 0 to |names|
        invariant rows == Cascaded(workflow, old(rows), evidence, names[..k])
        invariant forall n :: n in activated <==> n in rows && n in old(rows) && rows[n] != old(rows)[n]
        invariant forall n :: n in failed <==> n in names[..k] && Raises(workflow, old(rows), evidence, n)
      {
        RaisesAgain(workflow, old(rows), evidence, names[..k], names[k]);
        CascadeNext(workflow, old(rows), evidence, names[..k], names[k]);
        if names[k] in rows {
          OfferAgain(workflow, rows, evidence, [], names[k]);
          OfferAgain(workflow, old(rows), evidence, names[..k], names[k]);
        }
        assert names[..k + 1] == names[..k] + [names[k]];
        var r := TryActivate(names[k]);
        if r.NowActive? {
          activated := activated + [names[k]];
        } else if r.NoSuchPhase? || r.Refused? {
          failed := failed + [names[k]];
        }
      }
      assert names[..|names|] == names;
    }

    /** Completes a phase in progress, cascades, and completes the run when every row is terminal. */
    method OnPhaseCompleted(n: string) returns (r: Reply)
      modifies this
      ensures r.Cascade? <==> CanMove(old(rows), n, Completed)
      ensures r.Cascade? ==>
              Contents() == Completion(workflow, old(Contents()), n) && (r.workflowComplete <==> AllTerminal(rows))
      ensures r.Cascade? ==> forall m :: m in r.activated <==>
              m != n && m in rows && m in old(rows) && rows[m] != old(rows)[m]
      ensures r.Cascade? ==> n in rows && rows[n].status == Completed && current == Some(n)
      ensures r.Cascade? ==> run == (if r.workflowComplete then RunCompleted else old(run)) && evidence == old(evidence)
      ensures !r.Cascade? ==> Contents() == old(Contents())
    {
      if n !in rows {
        return PhaseMissing;
      }
      if !ValidTransition(rows[n].status, Completed) {
        return InvalidTransition(rows[n].status, Completed);
      }
      rows := SetStatus(rows, n, Completed);
      current := Some(n);
      var activated, failed := CascadeFrom(Downstream(workflow.phases, n));
      var complete := AllTerminal(rows);
      if complete {
        run := RunCompleted;
      }
      return Cascade(activated, complete, failed);
    }

    /** Fails a phase and the whole run; nothing cascades. */
    method OnPhaseFailed(n: string) returns (r: Reply)
      modifies this
      ensures r.Cascade? <==> CanMove(old(rows), n, Failed)
      ensures r.Cascade? ==> Contents() == Failing(old(Contents()), n) && r.activated == [] && !r.workflowComplete
      ensures r.Cascade? ==> n in old(rows) && rows == old(rows)[n := old(rows)[n].(status := Failed)]
      ensures r.Cascade? ==> run == RunFailed && current == Some(n) && evidence == old(evidence)
      ensures !r.Cascade? ==> Contents() == old(Contents())
    {
      if n !in rows {
        return PhaseMissing;
      }
      if !ValidTransition(rows[n].status, Failed) {
        return InvalidTransition(rows[n].status, Failed);
      }
      rows := SetStatus(rows, n, Failed);
      run, current := RunFailed, Some(n);
      return Cascade([], false, []);
    }

    /** Skips every unfinished phase and cancels the run. */
    method Cancel()
      modifies this
      ensures Contents() == Cancelled(old(Contents()))
      ensures run == RunCancelled && current == old(current) && evidence == old(evidence) && rows.Keys == old(rows).Keys
      ensures forall n :: n in rows ==>
                var before := old(rows)[n];
                rows[n] == if before.status in {Completed, Skipped, Failed} then before else before.(status := Skipped)
    {
      rows := map n | n in rows :: if Terminal(rows[n].status) then rows[n] else rows[n].(status := Skipped);
      run := RunCancelled;
    }

    /**
     * Fires a trigger while nothing else touches the run: every matching phase goes on, with one
     * evidence record each; without a match nothing changes.
     */
    method FireTrigger(trigger: string) returns (r: Reply)
      modifies this
      ensures r.TriggerNotFound? <==> Matching(old(rows), trigger) == {}
      ensures r.TriggerNotFound? || r.Unblocking?
      ensures rows == Unblocked(old(rows), Matching(old(rows), trigger)) && run == old(run) && current == old(current)
      ensures r.TriggerNotFound? ==> evidence == old(evidence)
      ensures r.Unblocking? ==> NoDuplicates(r.phases) && Elems(r.phases) == Matching(old(rows), trigger)
      ensures r.Unblocking? ==> evidence == old(evidence) + Records(r.phases, trigger)
      ensures rows.Keys == old(rows).Keys && forall n :: n in rows ==>
                var row := old(rows)[n];
                rows[n] == if row.status == WaitingTrigger && trigger in row.triggers then row.(status := InProgress)
                           else row
      ensures r.Unblocking? ==>
              |evidence| == |old(evidence)| + |r.phases| && evidence[..|old(evidence)|] == old(evidence) &&
              forall i :: 0 <= i < |r.phases| ==> evidence[|old(evidence)| + i] == TriggerFired(r.phases[i], trigger)
    {
      var matching := Snapshot(trigger);
      if matching == [] {
        assert forall n :: n !in Elems(matching);
        return TriggerNotFound;
      }
      assert matching[0] in Elems(matching);
      var records;
      rows, records := UnblockAll(rows, matching, trigger);
      RecordsAre(matching, trigger);
      evidence := evidence + records;
      return Unblocking(matching);
    }

    /** The rows waiting for a trigger, in some order. */
    method Snapshot(trigger: string) returns (matching: seq<string>)
      ensures NoDuplicates(matching) && Elems(matching) == Matching(rows, trigger)
    {
      matching := [];
      var waiting := ListOf(rows.Keys);
      for k := 0 to |waiting|
        invariant NoDuplicates(matching)
        invariant forall n :: n in matching <==> n in waiting[..k] && n in Matching(rows, trigger)
      {
        assert waiting[..k + 1] == waiting[..k] + [waiting[k]];
        assert waiting[k] in Elems(waiting);
        if rows[waiting[k]].status.WaitingTrigger? && trigger in rows[waiting[k]].triggers {
          NoDuplicatesAppend(matching, waiting[k]);
          matching := matching + [waiting[k]];
        }
      }
      forall n | n in Matching(rows, trigger) ensures n in matching {
        assert n in Elems(waiting);
      }
    }
  }

  /** A pending row for every ordered phase the workflow declares. */
  method CreateRows(w: Workflow, order: seq<string>) returns (table: Rows)
    ensures table == map n | n in order && FindPhase(w.phases, n).Some? :: Row(Pending, [])
  {
    table := map[];
    for k := 0 to |order|
      invariant table == map n | n in order[..k] && FindPhase(w.phases, n).Some? :: Row(Pending, [])
    {
      assert order[..k + 1] == order[..k] + [order[k]];
      if FindPhase(w.phases, order[k]).Some? {
        table := table[order[k] := Row(Pending, [])];
      }
    }
    assert order[..|order|] == order;
  }

  /** Hands every phase without phase references to its assignee, whatever else it requires or awaits. */
  method ActivateEntries(phases: seq<Phase>, table: Rows) returns (rows: Rows)
    requires forall n :: n in table ==> table[n] == Row(Pending, [])
    ensures rows == map n | n in table :: Row(if IsEntry(phases, n) then WaitingUser else Pending, [])
  {
    rows := table;
    for k := 0 to |phases|
      invariant rows == map n | n in table :: Row(if IsEntry(phases[..k], n) then WaitingUser else Pending, [])
    {
      EntryNext(phases, k);
      if PhaseDeps(phases[k].requires_) == [] && phases[k].name in rows {
        rows := SetStatus(rows, phases[k].name, WaitingUser);
      }
    }
    assert phases[..|phases|] == phases;
  }

  lemma EntryNext(phases: seq<Phase>, k: nat)
    requires k < |phases|
    ensures forall n :: IsEntry(phases[..k + 1], n) <==>
              IsEntry(phases[..k], n) || (phases[k].name == n && PhaseDeps(phases[k].requires_) == [])
  {
    forall n ensures IsEntry(phases[..k + 1], n) <==>
                       IsEntry(phases[..k], n) || (phases[k].name == n && PhaseDeps(phases[k].requires_) == []) {
      assert forall i :: 0 <= i < k ==> phases[..k + 1][i] == phases[..k][i];
      assert phases[..k + 1][k] == phases[k];
    }
  }

  /** Moves each listed phase on and records it. */
  method UnblockAll(rows: Rows, matching: seq<string>, trigger: string) returns (rows': Rows, records: seq<Evidence>)
    requires NoDuplicates(matching) && Elems(matching) <= rows.Keys
    ensures rows' == Unblocked(rows, Elems(matching)) && records == Records(matching, trigger)
  {
    rows', records := rows, [];
    for k := 0 to |matching|
      invariant rows' == Unblocked(rows, Elems(matching[..k])) && records == Records(matching[..k], trigger)
    {
      var n := matching[k];
      assert n in Elems(matching);
      assert matching[..k + 1] == matching[..k] + [n];
      ElemsAppend(matching[..k], n);
      RecordsAppend(matching[..k], n, trigger);
      rows' := SetStatus(rows', n, InProgress);
      records := records + [TriggerFired(n, trigger)];
    }
    assert matching[..|matching|] == matching;
  }

  /** One record per phase. */
  function Records(phases: seq<string>, trigger: string): seq<Evidence> {
    if phases == [] then []
    else Records(phases[..|phases| - 1], trigger) + [TriggerFired(phases[|phases| - 1], trigger)]
  }

  lemma {:induction false} RecordsAre(phases: seq<string>, trigger: string)
    ensures |Records(phases, trigger)| == |phases|
    ensures forall i :: 0 <= i < |phases| ==> Records(phases, trigger)[i] == TriggerFired(phases[i], trigger)
  {
    if phases != [] {
      var n := |phases| - 1;
      RecordsAre(phases[..n], trigger);
      assert forall i :: 0 <= i < n ==> phases[..n][i] == phases[i];
    }
  }

  lemma RecordsAppend(phases: seq<string>, n: string, trigger: string)
    ensures Records(phases + [n], trigger) == Records(phases, trigger) + [TriggerFired(n, trigger)]
  {
    assert (phases + [n])[..|phases|] == phases;
  }
}
