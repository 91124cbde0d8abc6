/**
 * The dependency-aware executor as an interleaving state machine. Every operation runs its own
 * task: await the completion event of each predecessor, take a limiter slot, invoke, record,
 * give the slot back, signal. A step moves one task; any enabled step may come next.
 */
module Executor {
  import opened Options
  import opened Digraph
  import opened WorkList

  /** How an invocation ends: recorded as a result, recorded as an error, or escaping as an exception. */
  datatype Outcome<R> = Completed(value: R) | Failed(reason: string) | Raised(reason: string)

  datatype Stage<T> =
    | Waiting(pending: set<T>)
    | Ready
    | Running
    | Recorded
    | Raising(reason: string)
    | Unwinding(reason: string)
    | Released
    | Done

  /** Operations with the predecessors each waits for. */
  type Plan<!T> = map<T, set<T>>

  /** `free` is the number of limiter slots left, when there is a limiter. */
  datatype State<!T, R> = State(
    stage: map<T, Stage<T>>,
    free: Option<nat>,
    signalled: set<T>,
    results: map<T, R>,
    errors: map<T, string>)

  datatype Action<T, R> =
    | Await(op: T, pred: T)
    | Arrive(op: T)
    | Acquire(op: T)
    | Invoke(op: T, outcome: Outcome<R>)
    | Release(op: T)
    | Handle(op: T)
    | Signal(op: T)

  /** A limit of zero or no limit at all means no limiter. */
  function Limiter(maxConcurrent: Option<nat>): (r: Option<nat>)
    ensures r.None? <==> maxConcurrent.GetOr(0) == 0
    ensures r.Some? ==> r == maxConcurrent && r.value >= 1
  {
    if maxConcurrent.Some? && maxConcurrent.value > 0 then maxConcurrent else None
  }

  function Initial<T, R>(plan: Plan<T>, limit: Option<nat>): State<T, R> {
    State(map o | o in plan :: Waiting(plan[o]), limit, {}, map[], map[])
  }

  predicate Enabled<T(==), R>(s: State<T, R>, a: Action<T, R>) {
    a.op in s.stage &&
    match a
    case Await(o, p) => s.stage[o].Waiting? && p in s.stage[o].pending && p in s.signalled
    case Arrive(o) => s.stage[o] == Waiting({})
    case Acquire(o) => s.stage[o].Ready? && (s.free.Some? ==> s.free.value > 0)
    case Invoke(o, _) => s.stage[o].Running?
    case Release(o) => s.stage[o].Recorded? || s.stage[o].Raising?
    case Handle(o) => s.stage[o].Unwinding?
    case Signal(o) => s.stage[o].Released?
  }

  function Next<T(==), R>(s: State<T, R>, a: Action<T, R>): State<T, R>
    requires Enabled(s, a)
  {
    match a
    case Await(o, p) => s.(stage := s.stage[o := Waiting(s.stage[o].pending - {p})])
    case Arrive(o) => s.(stage := s.stage[o := Ready])
    case Acquire(o) => s.(stage := s.stage[o := Running], free := Less(s.free))
    case Invoke(o, Completed(v)) => s.(stage := s.stage[o := Recorded], results := s.results[o := v])
    case Invoke(o, Failed(e)) => s.(stage := s.stage[o := Recorded], errors := s.errors[o := e])
    case Invoke(o, Raised(e)) => s.(stage := s.stage[o := Raising(e)])
    case Release(o) =>
      s.(stage := s.stage[o := if s.stage[o].Recorded? then Released else Unwinding(s.stage[o].reason)],
         free := More(s.free))
    case Handle(o) => s.(stage := s.stage[o := Released], errors := s.errors[o := s.stage[o].reason])
    case Signal(o) => s.(stage := s.stage[o := Done], signalled := s.signalled + {o})
  }

  function Less(free: Option<nat>): Option<nat>
    requires free.Some? ==> free.value > 0
  {
    if free.Some? then Some(free.value - 1) else None
  }

  function More(free: Option<nat>): Option<nat> {
    if free.Some? then Some(free.value + 1) else None
  }

  // ------------------------------------------------------------------ the invariant

  predicate Holds<T>(stage: Stage<T>) {
    stage.Running? || stage.Recorded? || stage.Raising?
  }

  /** The operations that hold a limiter slot. */
  ghost function Holding<T(!new)>(stage: map<T, Stage<T>>): set<T> {
    set o | o in stage && Holds(stage[o])
  }

  /** Free slots and slots in use add up to the limit. */
  ghost predicate SlotsConserved<T(!new)>(stage: map<T, Stage<T>>, free: Option<nat>, limit: Option<nat>) {
    && (free.Some? <==> limit.Some?)
    && (limit.Some? ==> free.value + |Holding(stage)| == limit.value)
  }

  /** What holds of one task at any time. */
  ghost predicate TaskOk<T(!new), R>(preds: set<T>, s: State<T, R>, o: T)
    requires o in s.stage
  {
    var st := s.stage[o];
    && (o in s.signalled <==> st.Done?)
    && (st.Waiting? ==> st.pending <= preds)
    && (forall p :: p in preds && !(st.Waiting? && p in st.pending) ==> p in s.signalled)
    && (o in s.results || o in s.errors <==> st.Recorded? || st.Released? || st.Done?)
    && !(o in s.results && o in s.errors)
  }

  ghost predicate Inv<T(!new), R>(plan: Plan<T>, limit: Option<nat>, s: State<T, R>) {
    && s.stage.Keys == plan.Keys
    && s.results.Keys <= plan.Keys && s.errors.Keys <= plan.Keys && s.signalled <= plan.Keys
    && SlotsConserved(s.stage, s.free, limit)
    && forall o :: o in plan ==> TaskOk(plan[o], s, o)
  }

  lemma InitialInv<T(!new), R>(plan: Plan<T>, limit: Option<nat>)
    ensures Inv<T, R>(plan, limit, Initial(plan, limit))
  {
    var s := Initial<T, R>(plan, limit);
    assert Holding(s.stage) == {};
  }

  lemma HoldingUpdate<T(!new)>(stage: map<T, Stage<T>>, o: T, st: Stage<T>)
    requires o in stage
    ensures |Holding(stage[o := st])| ==
            |Holding(stage)| - (if Holds(stage[o]) then 1 else 0) + (if Holds(st) then 1 else 0)
  {
    var rest := Holding(stage) - {o};
    assert Holding(stage) == if Holds(stage[o]) then rest + {o} else rest;
    HoldingAfter(stage, o, st);
  }

  lemma HoldingAfter<T(!new)>(stage: map<T, Stage<T>>, o: T, st: Stage<T>)
    requires o in stage
    ensures Holding(stage[o := st]) == Holding(stage) - {o} + if Holds(st) then {o} else {}
  {
  }

  /** A step leaves every other task's bookkeeping alone, except that one more event may be set. */
  lemma OtherTaskOk<T(!new), R>(preds: set<T>, s: State<T, R>, a: Action<T, R>, o: T)
    requires Enabled(s, a) && o in s.stage && o != a.op && TaskOk(preds, s, o)
    ensures TaskOk(preds, Next(s, a), o)
  {
  }

  lemma OwnTaskOk<T(!new), R>(preds: set<T>, s: State<T, R>, a: Action<T, R>)
    requires Enabled(s, a) && TaskOk(preds, s, a.op)
    ensures TaskOk(preds, Next(s, a), a.op)
  {
  }

  lemma StepSlots<T(!new), R>(limit: Option<nat>, s: State<T, R>, a: Action<T, R>)
    requires Enabled(s, a) && SlotsConserved(s.stage, s.free, limit)
    ensures SlotsConserved(Next(s, a).stage, Next(s, a).free, limit)
  {
    HoldingUpdate(s.stage, a.op, Next(s, a).stage[a.op]);
  }

  /** Every step keeps the invariant. */
  lemma StepInv<T(!new), R>(plan: Plan<T>, limit: Option<nat>, s: State<T, R>, a: Action<T, R>)
    requires Inv(plan, limit, s) && Enabled(s, a)
    ensures Inv(plan, limit, Next(s, a))
  {
    StepSlots(limit, s, a);
    forall o | o in plan ensures TaskOk(plan[o], Next(s, a), o) {
      if o == a.op {
        OwnTaskOk(plan[o], s, a);
      } else {
        OtherTaskOk(plan[o], s, a, o);
      }
    }
  }

  // ------------------------------------------------------------------ runs

  /** A run of the executor: each action is enabled and leads to the next state. */
  ghost predicate Run<T(!new), R>(plan: Plan<T>, limit: Option<nat>, states: seq<State<T, R>>,
                                  actions: seq<Action<T, R>>) {
    && |states| == |actions| + 1 && states[0] == Initial(plan, limit)
    && forall i :: 0 <= i < |actions| ==> Enabled(states[i], actions[i]) && states[i + 1] == Next(states[i], actions[i])
  }

  lemma {:induction false} RunInv<T(!new), R>(plan: Plan<T>, limit: Option<nat>, states: seq<State<T, R>>,
                                              actions: seq<Action<T, R>>, i: nat)
    requires Run(plan, limit, states, actions) && i < |states|
    ensures Inv(plan, limit, states[i])
  {
    if i == 0 {
      InitialInv<T, R>(plan, limit);
    } else {
      RunInv(plan, limit, states, actions, i - 1);
      StepInv(plan, limit, states[i - 1], actions[i - 1]);
    }
  }

  /** In every run, whatever is invoked has had all its predecessors signal first. */
  lemma InvokedAfterPredecessors<T(!new), R>(plan: Plan<T>, limit: Option<nat>, states: seq<State<T, R>>,
                                             actions: seq<Action<T, R>>, i: nat)
    requires Run(plan, limit, states, actions) && i < |actions| && actions[i].Invoke?
    ensures actions[i].op in plan && plan[actions[i].op] <= states[i].signalled
    ensures limit.Some? ==> |Holding(states[i].stage)| <= limit.value
  {
    RunInv(plan, limit, states, actions, i);
    assert TaskOk(plan[actions[i].op], states[i], actions[i].op);
  }

  /** Once a task has seen all its predecessors' events, everything that leads to it has signalled. */
  lemma {:induction false} WalkSignalled<T(!new), R>(plan: Plan<T>, limit: Option<nat>, edges: set<(T, T)>,
                                                     s: State<T, R>, walk: seq<T>)
    requires Inv(plan, limit, s) && forall e :: e in edges ==> e.1 in plan && e.0 in plan[e.1]
    requires Walk(edges, walk) && |walk| >= 2
    requires walk[|walk| - 1] in plan && plan[walk[|walk| - 1]] <= s.signalled
    ensures walk[0] in s.signalled
  {
    var n := |walk| - 1;
    assert (walk[n - 1], walk[n - 1 + 1]) in edges;
    if n > 1 {
      var u := walk[..n];
      forall i | 0 <= i < |u| - 1 ensures (u[i], u[i + 1]) in edges {
        assert (walk[i], walk[i + 1]) in edges;
      }
      assert TaskOk(plan[walk[n - 1]], s, walk[n - 1]);
      WalkSignalled(plan, limit, edges, s, u);
    }
  }

  /** A task past its waiting stage has only finished tasks among its transitive predecessors. */
  lemma AncestorsDone<T(!new), R>(plan: Plan<T>, limit: Option<nat>, edges: set<(T, T)>, s: State<T, R>, q: T, o: T)
    requires Inv(plan, limit, s) && forall e :: e in edges ==> e.1 in plan && e.0 in plan[e.1]
    requires o in s.stage && !s.stage[o].Waiting? && Reaches(edges, q, o)
    ensures q in s.stage && s.stage[q].Done?
  {
    var walk :| Walk(edges, walk) && |walk| >= 2 && walk[0] == q && walk[|walk| - 1] == o;
    assert TaskOk(plan[o], s, o);
    WalkSignalled(plan, limit, edges, s, walk);
    assert TaskOk(plan[q], s, q);
  }

  // ------------------------------------------------------------------ progress

  ghost function PlanEdges<T(!new)>(plan: Plan<T>): set<(T, T)> {
    set o, p | o in plan && p in plan[o] :: (p, o)
  }

  ghost predicate AllDone<T(!new), R>(s: State<T, R>) {
    forall o :: o in s.stage ==> s.stage[o].Done?
  }

  ghost predicate Closed<T(!new)>(plan: Plan<T>) {
    forall o :: o in plan ==> plan[o] <= plan.Keys
  }

  /** The step a task past its waiting stage can take on its own, slots permitting. */
  ghost function OwnStep<T(!new), R>(s: State<T, R>, o: T, outcome: Outcome<R>): Action<T, R>
    requires o in s.stage
  {
    match s.stage[o]
    case Waiting(_) => Arrive(o)
    case Ready => Acquire(o)
    case Running => Invoke(o, outcome)
    case Recorded => Release(o)
    case Raising(_) => Release(o)
    case Unwinding(_) => Handle(o)
    case Released => Signal(o)
    case Done => Signal(o)
  }

  /** No deadlock: on a DAG with at least one slot, some step is enabled until every task is done. */
  lemma NoDeadlock<T(!new), R>(plan: Plan<T>, limit: Option<nat>, s: State<T, R>, outcome: Outcome<R>)
    returns (a: Action<T, R>)
    requires Inv(plan, limit, s) && Closed(plan) && Acyclic(PlanEdges(plan))
    requires limit.Some? ==> limit.value >= 1
    requires !AllDone(s)
    ensures Enabled(s, a)
  {
    if o :| o in s.stage && Holds(s.stage[o]) {
      a := OwnStep(s, o, outcome);
    } else if o :| o in s.stage && (s.stage[o].Unwinding? || s.stage[o].Released?) {
      a := OwnStep(s, o, outcome);
    } else if o :| o in s.stage && s.stage[o].Ready? {
      assert Holding(s.stage) == {};
      a := Acquire(o);
    } else {
      var open := set o | o in s.stage && !s.stage[o].Done?;
      var x :| x in s.stage && !s.stage[x].Done?;
      assert x in open;
      var o := SourceExists(PlanEdges(plan), open);
      a := WaitingStep(plan, s, o, open);
    }
  }

  lemma WaitingStep<T(!new), R>(plan: Plan<T>, s: State<T, R>, o: T, open: set<T>) returns (a: Action<T, R>)
    requires s.stage.Keys == plan.Keys && o in plan && s.stage[o].Waiting? && TaskOk(plan[o], s, o) && Closed(plan)
    requires forall p :: p in plan && p !in open ==> p in s.signalled
    requires !HasPredecessor(PlanEdges(plan), open, o)
    ensures Enabled(s, a)
  {
    if s.stage[o].pending == {} {
      a := Arrive(o);
    } else {
      var p :| p in s.stage[o].pending;
      assert (p, o) in PlanEdges(plan);
      a := Await(o, p);
    }
  }

  // ------------------------------------------------------------------ termination

  ghost function Weight<T(!new)>(stage: Stage<T>): nat {
    match stage
    case Waiting(pending) => |pending| + 6
    case Ready => 5
    case Running => 4
    case Raising(_) => 3
    case Recorded => 2
    case Unwinding(_) => 2
    case Released => 1
    case Done => 0
  }

  ghost function Weights<T(!new)>(stage: map<T, Stage<T>>): map<T, nat> {
    map o | o in stage :: Weight(stage[o])
  }

  lemma StepWeight<T(!new), R>(s: State<T, R>, a: Action<T, R>)
    requires Enabled(s, a)
    ensures Weight(Next(s, a).stage[a.op]) < Weight(s.stage[a.op])
  {
  }

  lemma StepStage<T(!new), R>(s: State<T, R>, a: Action<T, R>)
    requires Enabled(s, a)
    ensures Next(s, a).stage == s.stage[a.op := Next(s, a).stage[a.op]]
  {
  }

  lemma StepWork<T(!new), R>(ops: seq<T>, s: State<T, R>, a: Action<T, R>)
    requires NoDuplicates(ops) && Elems(ops) == s.stage.Keys && Enabled(s, a)
    ensures Elems(ops) == Next(s, a).stage.Keys && Total(ops, Weights(Next(s, a).stage)) < Total(ops, Weights(s.stage))
  {
    StepWeight(s, a);
    StepStage(s, a);
    var st := Next(s, a).stage[a.op];
    assert Weights(s.stage[a.op := st]) == Weights(s.stage)[a.op := Weight(st)];
    TotalDrops(ops, Weights(s.stage), Weights(s.stage[a.op := st]), a.op);
  }

  /** Every run is finite: over any listing of the operations, it is no longer than the weight of its first state. */
  lemma {:induction false} RunsAreBounded<T(!new), R>(plan: Plan<T>, limit: Option<nat>, states: seq<State<T, R>>,
                                                     actions: seq<Action<T, R>>, ops: seq<T>, i: nat)
    requires Run(plan, limit, states, actions) && i < |states|
    requires NoDuplicates(ops) && Elems(ops) == plan.Keys
    ensures states[i].stage.Keys == states[0].stage.Keys == plan.Keys
    ensures i + Total(ops, Weights(states[i].stage)) <= Total(ops, Weights(states[0].stage))
  {
    if i > 0 {
      RunsAreBounded(plan, limit, states, actions, ops, i - 1);
      var s, a := states[i - 1], actions[i - 1];
      assert Enabled(s, a) && states[i - 1 + 1] == Next(s, a);
      StepWork(ops, s, a);
    }
  }

  ghost predicate Stuck<T(!new), R(!new)>(s: State<T, R>) {
    forall a :: !Enabled(s, a)
  }

  /**
   * Every run that cannot go on has finished all operations: each is in exactly one of results and
   * errors, every event is set, and every slot has been given back.
   */
  lemma CompletedRun<T(!new), R(!new)>(plan: Plan<T>, maxConcurrent: Option<nat>, states: seq<State<T, R>>,
                                       actions: seq<Action<T, R>>)
    requires Run(plan, Limiter(maxConcurrent), states, actions) && Closed(plan) && Acyclic(PlanEdges(plan))
    requires Stuck(states[|actions|])
    ensures var last := states[|actions|];
      && AllDone(last) && last.signalled == plan.Keys && last.free == Limiter(maxConcurrent)
      && last.results.Keys + last.errors.Keys == plan.Keys && last.results.Keys !! last.errors.Keys
  {
    var last, limit := states[|actions|], Limiter(maxConcurrent);
    RunInv(plan, limit, states, actions, |actions|);
    if !AllDone(last) {
      var a := NoDeadlock(plan, limit, last, Failed(""));
    }
    FinalBooks(plan, limit, last);
  }

  lemma FinalBooks<T(!new), R>(plan: Plan<T>, limit: Option<nat>, s: State<T, R>)
    requires Inv(plan, limit, s) && AllDone(s)
    ensures s.signalled == plan.Keys && s.free == limit
    ensures s.results.Keys + s.errors.Keys == plan.Keys && s.results.Keys !! s.errors.Keys
  {
    assert Holding(s.stage) == {};
    forall o | o in plan
      ensures o in s.signalled && (o in s.results.Keys + s.errors.Keys) && !(o in s.results && o in s.errors) {
      assert TaskOk(plan[o], s, o);
    }
  }

  // ------------------------------------------------------------------ every operation once, and what came of it

  /** The state after an operation was invoked with this outcome: past its invocation, and the outcome kept. */
  ghost predicate Reflects<T(!new), R>(s: State<T, R>, o: T, outcome: Outcome<R>) {
    o in s.stage && !s.stage[o].Waiting? && !s.stage[o].Ready? && !s.stage[o].Running? &&
    match outcome
    case Completed(v) => o in s.results && s.results[o] == v && !s.stage[o].Raising? && !s.stage[o].Unwinding?
    case Failed(e) => o in s.errors && s.errors[o] == e && !s.stage[o].Raising? && !s.stage[o].Unwinding?
    case Raised(e) => s.stage[o] == Raising(e) || s.stage[o] == Unwinding(e) || (o in s.errors && s.errors[o] == e &&
                        !s.stage[o].Raising? && !s.stage[o].Unwinding?)
  }

  lemma ReflectsNext<T(!new), R>(s: State<T, R>, a: Action<T, R>, o: T, outcome: Outcome<R>)
    requires Enabled(s, a) && Reflects(s, o, outcome)
    ensures Reflects(Next(s, a), o, outcome)
  {
  }

  /** What an invocation came to is kept from then on. */
  lemma {:induction false} OutcomeKept<T(!new), R>(plan: Plan<T>, limit: Option<nat>, states: seq<State<T, R>>,
                                                  actions: seq<Action<T, R>>, i: nat, j: nat)
    requires Run(plan, limit, states, actions) && i < j < |states| && actions[i].Invoke?
    ensures Reflects(states[j], actions[i].op, actions[i].outcome)
    decreases j
  {
    if i + 1 < j {
      OutcomeKept(plan, limit, states, actions, i, j - 1);
      ReflectsNext(states[j - 1], actions[j - 1], actions[i].op, actions[i].outcome);
    }
  }

  /** No operation is invoked twice. */
  lemma InvokedOnce<T(!new), R>(plan: Plan<T>, limit: Option<nat>, states: seq<State<T, R>>,
                                actions: seq<Action<T, R>>, i: nat, j: nat)
    requires Run(plan, limit, states, actions) && i < |actions| && j < |actions|
    requires actions[i].Invoke? && actions[j].Invoke? && actions[i].op == actions[j].op
    ensures i == j
  {
    if i < j {
      OutcomeKept(plan, limit, states, actions, i, j);
    } else if j < i {
      OutcomeKept(plan, limit, states, actions, j, i);
    }
  }

  /** An operation past its running stage has been invoked. */
  lemma {:induction false} WasInvoked<T(!new), R>(plan: Plan<T>, limit: Option<nat>, states: seq<State<T, R>>,
                                                 actions: seq<Action<T, R>>, j: nat, o: T) returns (i: nat)
    requires Run(plan, limit, states, actions) && j < |states| && o in states[j].stage
    requires !states[j].stage[o].Waiting? && !states[j].stage[o].Ready? && !states[j].stage[o].Running?
    ensures i < j && i < |actions| && actions[i].Invoke? && actions[i].op == o
  {
    var s, a := states[j - 1], actions[j - 1];
    if a.Invoke? && a.op == o {
      i := j - 1;
    } else {
      i := WasInvoked(plan, limit, states, actions, j - 1, o);
    }
  }

  /**
   * In a finished run every operation was invoked exactly once, and what came of it is what is stored: a
   * result under results, a failure or an exception under errors.
   */
  lemma FinishedOutcomes<T(!new), R>(plan: Plan<T>, limit: Option<nat>, states: seq<State<T, R>>,
                                     actions: seq<Action<T, R>>, o: T) returns (i: nat)
    requires Run(plan, limit, states, actions) && o in plan && AllDone(states[|actions|])
    ensures i < |actions| && actions[i].Invoke? && actions[i].op == o
    ensures forall j :: 0 <= j < |actions| && actions[j].Invoke? && actions[j].op == o ==> j == i
    ensures var last, outcome := states[|actions|], actions[i].outcome;
      if outcome.Completed? then o in last.results && last.results[o] == outcome.value && o !in last.errors
      else o in last.errors && last.errors[o] == outcome.reason && o !in last.results
  {
    RunInv(plan, limit, states, actions, |actions|);
    assert TaskOk(plan[o], states[|actions|], o);
    i := WasInvoked(plan, limit, states, actions, |actions|, o);
    OutcomeKept(plan, limit, states, actions, i, |actions|);
    forall j | 0 <= j < |actions| && actions[j].Invoke? && actions[j].op == o ensures j == i {
      InvokedOnce(plan, limit, states, actions, i, j);
    }
  }
}
