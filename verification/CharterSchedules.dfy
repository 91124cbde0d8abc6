/**
 * When the outcome of a workflow depends on the schedule: every schedule is some run of the machine,
 * and all runs agree for all phrases exactly when the job is calm.
 */
module CharterSchedules {
  import opened Options
  import opened CharterAst
  import opened Digraph
  import opened Resolver
  import opened GraphBuilder
  import opened CharterExecutor
  import Executor

  // ------------------------------------------------------------------ one call that fails

  /** Every call returns a plain value, except the one at the given site, which throws. */
  function Sabotage(site: CallSite): Phrases {
    (s: CallSite) => if s == site then Threw("boom") else Returned(Plain(""))
  }

  /** The site is a feature require or an action of the phase. */
  ghost predicate CalledBy(p: Phase, site: CallSite) {
    && site.phase == p.name
    && (if site.inActions then site.index < |p.actions|
        else site.index < |p.requires_| && p.requires_[site.index].FeatureRef?)
  }

  /** A phase that is not silent calls something. */
  lemma SomeCall(p: Phase) returns (site: CallSite)
    requires !Silent(p)
    ensures CalledBy(p, site)
  {
    if p.actions != [] {
      site := CallSite(p.name, true, 0);
    } else {
      var k :| 0 <= k < |p.requires_| && p.requires_[k].FeatureRef?;
      site := CallSite(p.name, false, k);
    }
  }

  /** Where the k-th require blocks whatever was recorded before it, the phase does not pass. */
  lemma {:induction false} BlockedGate(p: Phase, phrases: Phrases, shared: Shared, at: Progress, k: nat)
    requires at.Gates? && at.next <= k < |p.requires_|
    requires forall rr :: EvalRequire(p.requires_[k], CallSite(p.name, false, k), phrases, shared, rr).Blocked?
    ensures !Conclude(p, phrases, shared, at).passed
    decreases StepsLeft(p, at)
  {
    var next := Advance(p, phrases, shared, at);
    if next.Gates? {
      BlockedGate(p, phrases, shared, next, k);
    }
  }

  lemma {:induction false} BlockedAction(p: Phase, phrases: Phrases, shared: Shared, at: Progress, k: nat)
    requires at.Gates? || (at.Acting? && at.next <= k)
    requires k < |p.actions| && phrases(CallSite(p.name, true, k)).Threw?
    ensures !Conclude(p, phrases, shared, at).passed
    decreases StepsLeft(p, at)
  {
    var next := Advance(p, phrases, shared, at);
    if next.Gates? || next.Acting? {
      BlockedAction(p, phrases, shared, next, k);
    }
  }

  /** The phase whose call is sabotaged does not pass, whatever it sees. */
  lemma SabotagedFails(p: Phase, site: CallSite, shared: Shared)
    requires CalledBy(p, site)
    ensures !EvalPhase(p, Sabotage(site), shared).passed
  {
    if site.inActions {
      BlockedAction(p, Sabotage(site), shared, START, site.index);
    } else {
      BlockedGate(p, Sabotage(site), shared, START, site.index);
    }
  }

  /** A phase that asks whether all phases have passed does not pass when one has not. */
  lemma AskerFails(p: Phase, phrases: Phrases, shared: Shared)
    requires UsesAllPassed(p) && !AllPassed(shared)
    ensures !EvalPhase(p, phrases, shared).passed
  {
    var k :| 0 <= k < |p.requires_| && p.requires_[k] == BuiltinRef(ALL_PHASES_PASSED);
    BlockedGate(p, phrases, shared, START, k);
  }

  /** As long as the sabotaged phase has not run, everything passes. */
  lemma {:induction false} AllPassSoFar(job: Job, site: CallSite, order: seq<string>, k: nat)
    requires WellFormed(job) && Schedule(job, order) && Lists(job, order) && k <= |order|
    requires site.phase !in Elems(order[..k])
    ensures AllPassed(Sequential(job.phases, Sabotage(site), order[..k]))
  {
    if k > 0 {
      var before, o := Sequential(job.phases, Sabotage(site), order[..k - 1]), order[k - 1];
      assert order[..k] == order[..k - 1] + [o];
      ElemsAppend(order[..k - 1], o);
      AllPassSoFar(job, site, order, k - 1);
      NextPasses(job, site, order, k - 1, before);
      SequentialNext(job.phases, Sabotage(site), order, k - 1);
    }
  }

  lemma NextPasses(job: Job, site: CallSite, order: seq<string>, k: nat, before: Shared)
    requires WellFormed(job) && Schedule(job, order) && Lists(job, order) && k < |order| && order[k] != site.phase
    requires before == Sequential(job.phases, Sabotage(site), order[..k]) && AllPassed(before)
    ensures EvalPhase(job.phases[order[k]], Sabotage(site), before).passed
  {
    var o := order[k];
    SequentialKeys(job.phases, Sabotage(site), order[..k]);
    forall d | d in PhaseDeps(job.phases[o].requires_) ensures d in before {
      assert (d, o) in job.edges;
    }
    PhasePasses(job.phases[o], Sabotage(site), before, START);
  }

  /** A phase keeps the result it got when its turn came. */
  lemma {:induction false} SequentialAt(phases: map<string, Phase>, phrases: Phrases, order: seq<string>, k: nat,
                                        i: nat)
    requires NoDuplicates(order) && i < k <= |order| && forall j :: 0 <= j < |order| ==> order[j] in phases
    ensures var s := Sequential(phases, phrases, order[..k]);
      order[i] in s && s[order[i]] == EvalPhase(phases[order[i]], phrases, Sequential(phases, phrases, order[..i]))
  {
    SequentialNext(phases, phrases, order, k - 1);
    if i < k - 1 {
      SequentialAt(phases, phrases, order, k - 1, i);
    }
  }

  /** Scheduled after the sabotaged phase, a phase that asks does not pass. */
  lemma AskerAfter(job: Job, site: CallSite, order: seq<string>, i: nat, j: nat)
    requires WellFormed(job) && Schedule(job, order) && Lists(job, order) && i < j < |order|
    requires order[i] == site.phase && CalledBy(job.phases[order[i]], site) && UsesAllPassed(job.phases[order[j]])
    ensures order[j] in Sequential(job.phases, Sabotage(site), order)
    ensures !Sequential(job.phases, Sabotage(site), order)[order[j]].passed
  {
    var phrases := Sabotage(site);
    SequentialAt(job.phases, phrases, order, j, i);
    SabotagedFails(job.phases[order[i]], site, Sequential(job.phases, phrases, order[..i]));
    AskerFails(job.phases[order[j]], phrases, Sequential(job.phases, phrases, order[..j]));
    SequentialAt(job.phases, phrases, order, |order|, j);
    assert order[..|order|] == order;
  }

  /** Scheduled before it, any phase passes. */
  lemma AnyBefore(job: Job, site: CallSite, order: seq<string>, i: nat, j: nat)
    requires WellFormed(job) && Schedule(job, order) && Lists(job, order) && j < i < |order| && order[i] == site.phase
    ensures order[j] in Sequential(job.phases, Sabotage(site), order)
    ensures Sequential(job.phases, Sabotage(site), order)[order[j]].passed
  {
    var phrases := Sabotage(site);
    forall x | x in Elems(order[..j]) ensures x != site.phase {
      var m := MemberAt(x, order[..j]);
    }
    AllPassSoFar(job, site, order, j);
    NextPasses(job, site, order, j, Sequential(job.phases, phrases, order[..j]));
    SequentialAt(job.phases, phrases, order, |order|, j);
    assert order[..|order|] == order;
  }

  /** Two phases of which the second does not lead to the first can be scheduled in that order. */
  lemma ScheduleWith(job: Job, first: string, second: string) returns (order: seq<string>, i: nat, j: nat)
    requires WellFormed(job) && first in job.phases && second in job.phases && first != second
    requires !Reaches(job.edges, second, first)
    ensures Schedule(job, order) && i < j < |order| && order[i] == first && order[j] == second
  {
    var early := set x | x in job.phases && (x == first || Reaches(job.edges, x, first));
    forall a, b | (a, b) in job.edges && b in early ensures a in early {
      EdgeReaches(job.edges, a, b);
      if b != first {
        ReachesTransitive(job.edges, a, b, first);
      }
    }
    var prefix := ContinueListing(job.edges, [], early);
    order := ContinueListing(job.edges, prefix, job.phases.Keys - early);
    assert first in Elems(prefix) && second !in Elems(prefix) && second in Elems(order);
    i := MemberAt(first, prefix);
    j := MemberAt(second, order);
    forall x | 0 <= x < |prefix| ensures order[x] == prefix[x] && order[x] != second {
      assert order[x] == order[..|prefix|][x] && prefix[x] in Elems(prefix);
    }
  }

  /** An uncalm job has phrases and two schedules whose results differ. */
  lemma UncalmSchedules(job: Job) returns (phrases: Phrases, one: seq<string>, two: seq<string>)
    requires WellFormed(job) && !Calm(job)
    ensures Schedule(job, one) && Lists(job, one) && Schedule(job, two) && Lists(job, two)
    ensures Sequential(job.phases, phrases, one) != Sequential(job.phases, phrases, two)
  {
    var p, q :| p in job.phases && q in job.phases && p != q && UsesAllPassed(job.phases[p])
      && !Ordered(job, p, q) && !Silent(job.phases[q]);
    var site := SomeCall(job.phases[q]);
    phrases := Sabotage(site);
    var i, j;
    one, i, j := ScheduleWith(job, q, p);
    ScheduleLists(job, one);
    AskerAfter(job, site, one, i, j);
    two, j, i := ScheduleWith(job, p, q);
    ScheduleLists(job, two);
    AnyBefore(job, site, two, i, j);
  }

  // ------------------------------------------------------------------ every schedule is a run

  ghost predicate Reached(job: Job, phrases: Phrases, limit: Option<nat>, c: CharterState) {
    exists states: seq<CharterState>, actions: seq<CharterAction> ::
      Run(job, phrases, limit, states, actions) && states[|actions|] == c
  }

  ghost predicate Follows(job: Job, phrases: Phrases, c: CharterState, a: CharterAction, c': CharterState) {
    c.exec.stage.Keys == job.phases.Keys && Enabled(c, a) && c' == Next(job, phrases, c, a)
  }

  lemma RunFollows(job: Job, phrases: Phrases, limit: Option<nat>, states: seq<CharterState>,
                   actions: seq<CharterAction>, i: nat)
    requires Run(job, phrases, limit, states, actions) && i < |actions|
    ensures Follows(job, phrases, states[i], actions[i], states[i + 1])
  {
  }

  lemma FollowsRun(job: Job, phrases: Phrases, limit: Option<nat>, states: seq<CharterState>,
                   actions: seq<CharterAction>)
    requires |states| == |actions| + 1 && states[0] == Start(job, limit)
    requires states[|actions|].exec.stage.Keys == job.phases.Keys
    requires forall i :: 0 <= i < |actions| ==> Follows(job, phrases, states[i], actions[i], states[i + 1])
    ensures Run(job, phrases, limit, states, actions)
  {
    forall i | 0 <= i < |states| ensures states[i].exec.stage.Keys == job.phases.Keys {
      if i < |actions| {
        assert Follows(job, phrases, states[i], actions[i], states[i + 1]);
      }
    }
    forall i | 0 <= i < |actions|
      ensures Enabled(states[i], actions[i]) && states[i + 1] == Next(job, phrases, states[i], actions[i])
    {
      assert Follows(job, phrases, states[i], actions[i], states[i + 1]);
    }
  }

  lemma ExtendRun(job: Job, phrases: Phrases, limit: Option<nat>, states: seq<CharterState>,
                  actions: seq<CharterAction>, a: CharterAction, c: CharterState)
    requires Run(job, phrases, limit, states, actions) && c.exec.stage.Keys == job.phases.Keys
    requires Follows(job, phrases, states[|actions|], a, c)
    ensures Run(job, phrases, limit, states + [c], actions + [a])
  {
    var states', actions' := states + [c], actions + [a];
    forall i | 0 <= i < |actions'| ensures Follows(job, phrases, states'[i], actions'[i], states'[i + 1]) {
      if i < |actions| {
        RunFollows(job, phrases, limit, states, actions, i);
      }
    }
    FollowsRun(job, phrases, limit, states', actions');
  }

  lemma StageKeys(job: Job, phrases: Phrases, c: CharterState, a: CharterAction)
    requires c.exec.stage.Keys == job.phases.Keys && Enabled(c, a)
    ensures Next(job, phrases, c, a).exec.stage.Keys == job.phases.Keys
  {
  }

  lemma Extend(job: Job, phrases: Phrases, limit: Option<nat>, c: CharterState, a: CharterAction)
    requires Reached(job, phrases, limit, c) && c.exec.stage.Keys == job.phases.Keys && Enabled(c, a)
    ensures Reached(job, phrases, limit, Next(job, phrases, c, a))
    ensures Next(job, phrases, c, a).exec.stage.Keys == job.phases.Keys
  {
    var states: seq<CharterState>, actions: seq<CharterAction> :|
      Run(job, phrases, limit, states, actions) && states[|actions|] == c;
    StageKeys(job, phrases, c, a);
    ExtendRun(job, phrases, limit, states, actions, a, Next(job, phrases, c, a));
  }

  /** The same state with one task at another stage. */
  ghost function Staged(c: CharterState, o: string, st: Executor.Stage<string>): CharterState {
    c.(exec := c.exec.(stage := c.exec.stage[o := st]))
  }

  /** A task whose predecessors have all signalled stops waiting. */
  lemma {:induction false} AwaitAll(job: Job, phrases: Phrases, limit: Option<nat>, c: CharterState, o: string)
    returns (c': CharterState)
    requires Reached(job, phrases, limit, c) && c.exec.stage.Keys == job.phases.Keys && o in job.phases
    requires c.exec.stage[o].Waiting? && c.exec.stage[o].pending <= c.exec.signalled
    ensures Reached(job, phrases, limit, c') && c' == Staged(c, o, Executor.Ready)
    decreases c.exec.stage[o].pending
  {
    var pending := c.exec.stage[o].pending;
    if pending == {} {
      Extend(job, phrases, limit, c, Sched(Executor.Arrive(o)));
      c' := Next(job, phrases, c, Sched(Executor.Arrive(o)));
    } else {
      var p :| p in pending;
      Extend(job, phrases, limit, c, Sched(Executor.Await(o, p)));
      AwaitOne(job, phrases, c, o, p);
      c' := AwaitAll(job, phrases, limit, Staged(c, o, Executor.Waiting(pending - {p})), o);
      StagedTwice(c, o, Executor.Waiting(pending - {p}), Executor.Ready);
    }
  }

  lemma StagedTwice(c: CharterState, o: string, st: Executor.Stage<string>, st': Executor.Stage<string>)
    ensures Staged(Staged(c, o, st), o, st') == Staged(c, o, st')
  {
    assert c.exec.stage[o := st][o := st'] == c.exec.stage[o := st'];
  }

  lemma AwaitOne(job: Job, phrases: Phrases, c: CharterState, o: string, p: string)
    requires c.exec.stage.Keys == job.phases.Keys && Enabled(c, Sched(Executor.Await(o, p)))
    ensures Next(job, phrases, c, Sched(Executor.Await(o, p))) ==
            Staged(c, o, Executor.Waiting(c.exec.stage[o].pending - {p}))
  {
  }

  /** A running factory works on to its result while nothing else moves. */
  lemma {:induction false} WorkThrough(job: Job, phrases: Phrases, limit: Option<nat>, c: CharterState, o: string)
    returns (c': CharterState)
    requires Reached(job, phrases, limit, c) && c.exec.stage.Keys == job.phases.Keys
    requires Busy(c, o) && !c.progress[o].Published?
    ensures Reached(job, phrases, limit, c') && c' == Concluded(job, phrases, c, o)
    decreases StepsLeft(job.phases[o], c.progress[o])
  {
    Extend(job, phrases, limit, c, Work(o));
    var next := Next(job, phrases, c, Work(o));
    WorkOnce(job, phrases, c, o);
    if c.progress[o].Concluding? {
      c' := next;
    } else {
      c' := WorkThrough(job, phrases, limit, next, o);
    }
  }

  /** The state once a running factory has published its result. */
  ghost function Concluded(job: Job, phrases: Phrases, c: CharterState, o: string): CharterState
    requires o in job.phases && o in c.progress && !c.progress[o].Published?
  {
    var r := Conclude(job.phases[o], phrases, c.shared, c.progress[o]);
    c.(shared := c.shared[o := r], progress := c.progress[o := Published(r)])
  }

  lemma WorkOnce(job: Job, phrases: Phrases, c: CharterState, o: string)
    requires c.exec.stage.Keys == job.phases.Keys && Busy(c, o) && !c.progress[o].Published?
    ensures var next := Next(job, phrases, c, Work(o));
      if c.progress[o].Concluding? then next == Concluded(job, phrases, c, o)
      else Busy(next, o) && !next.progress[o].Published?
           && Concluded(job, phrases, next, o) == Concluded(job, phrases, c, o)
           && StepsLeft(job.phases[o], next.progress[o]) < StepsLeft(job.phases[o], c.progress[o])
  {
    if !c.progress[o].Concluding? {
      var p := Next(job, phrases, c, Work(o)).progress[o];
      var r := Conclude(job.phases[o], phrases, c.shared, c.progress[o]);
      assert c.progress[o := p][o := Published(r)] == c.progress[o := Published(r)];
    }
  }

  /** A ready task takes a slot and runs to its result. */
  lemma RunReady(job: Job, phrases: Phrases, limit: Option<nat>, c: CharterState, o: string) returns (c': CharterState)
    requires Reached(job, phrases, limit, c) && c.exec.stage.Keys == job.phases.Keys && o in job.phases
    requires c.exec.stage[o].Ready? && (c.exec.free.Some? ==> c.exec.free.value > 0)
    ensures Reached(job, phrases, limit, c')
    ensures c'.exec == c.exec.(stage := c.exec.stage[o := Executor.Running], free := Executor.Less(c.exec.free))
    ensures var r := EvalPhase(job.phases[o], phrases, c.shared);
      c'.shared == c.shared[o := r] && o in c'.progress && c'.progress[o] == Published(r)
  {
    Extend(job, phrases, limit, c, Sched(Executor.Acquire(o)));
    c' := WorkThrough(job, phrases, limit, Next(job, phrases, c, Sched(Executor.Acquire(o))), o);
  }

  /** A task with its result published returns, gives its slot back and signals. */
  lemma WindUp(job: Job, phrases: Phrases, limit: Option<nat>, c: CharterState, o: string) returns (c': CharterState)
    requires Reached(job, phrases, limit, c) && c.exec.stage.Keys == job.phases.Keys
    requires Busy(c, o) && c.progress[o].Published?
    ensures Reached(job, phrases, limit, c') && c'.shared == c.shared
    ensures c'.exec ==
            Executor.State(c.exec.stage[o := Executor.Done], Executor.More(c.exec.free), c.exec.signalled + {o},
                                      c.exec.results[o := c.progress[o].result], c.exec.errors)
  {
    Extend(job, phrases, limit, c, Return(o));
    var one := Next(job, phrases, c, Return(o));
    Extend(job, phrases, limit, one, Sched(Executor.Release(o)));
    var two := Next(job, phrases, one, Sched(Executor.Release(o)));
    Extend(job, phrases, limit, two, Sched(Executor.Signal(o)));
    c' := Next(job, phrases, two, Sched(Executor.Signal(o)));
    assert c'.exec.stage == c.exec.stage[o := Executor.Done];
  }

  /** The first k phases have run one after another, and nothing else has started. */
  ghost predicate Paused(job: Job, phrases: Phrases, limit: Option<nat>, order: seq<string>, k: nat, c: CharterState)
    requires k <= |order| && Lists(job, order)
  {
    && c.exec.stage.Keys == job.phases.Keys && c.exec.free == limit && c.exec.signalled == Elems(order[..k])
    && c.shared == Sequential(job.phases, phrases, order[..k])
    && forall o :: o in job.phases ==> Parked(job, Elems(order[..k]), c.exec.stage, o)
  }

  /** A task is done or has not stopped waiting for anything yet. */
  ghost predicate Parked(job: Job, done: set<string>, stage: map<string, Executor.Stage<string>>, o: string) {
    o in job.phases && o in stage && stage[o] == if o in done then Executor.Done else Executor.Waiting(PlanOf(job)[o])
  }

  /** A waiting task whose predecessors have all signalled runs from start to end while nothing else moves. */
  lemma RunAlone(job: Job, phrases: Phrases, limit: Option<nat>, c: CharterState, o: string) returns (c': CharterState)
    requires Reached(job, phrases, limit, c) && c.exec.stage.Keys == job.phases.Keys && o in job.phases
    requires c.exec.stage[o].Waiting? && c.exec.stage[o].pending <= c.exec.signalled
    requires c.exec.free.Some? ==> c.exec.free.value > 0
    ensures Reached(job, phrases, limit, c') && c'.exec.stage == c.exec.stage[o := Executor.Done]
    ensures c'.exec.free == c.exec.free && c'.exec.signalled == c.exec.signalled + {o}
    ensures c'.shared == c.shared[o := EvalPhase(job.phases[o], phrases, c.shared)]
  {
    var ready := AwaitAll(job, phrases, limit, c, o);
    var ran := RunReady(job, phrases, limit, ready, o);
    c' := WindUp(job, phrases, limit, ran, o);
    OneTask(c.exec, ready.exec, ran.exec, c'.exec, o);
  }

  /** Three moves of one task come to one change of its stage, and its slot is back. */
  lemma OneTask(a: Executor.State<string, PhaseResult>, b: Executor.State<string, PhaseResult>,
                c: Executor.State<string, PhaseResult>,
                d: Executor.State<string, PhaseResult>, o: string)
    requires a.free.Some? ==> a.free.value > 0
    requires b.stage == a.stage[o := Executor.Ready] && b.free == a.free && b.signalled == a.signalled
    requires c.stage == b.stage[o := Executor.Running] && c.free == Executor.Less(b.free) && c.signalled == b.signalled
    requires d.stage == c.stage[o := Executor.Done] && d.free == Executor.More(c.free)
    requires d.signalled == c.signalled + {o}
    ensures d.stage == a.stage[o := Executor.Done] && d.free == a.free && d.signalled == a.signalled + {o}
  {
  }

  lemma PausedNext(job: Job, phrases: Phrases, limit: Option<nat>, order: seq<string>, k: nat, c: CharterState,
                   c': CharterState)
    requires Lists(job, order) && k < |order| && Paused(job, phrases, limit, order, k, c)
    requires c'.exec.stage == c.exec.stage[order[k] := Executor.Done] && c'.exec.free == limit
    requires c'.exec.signalled == c.exec.signalled + {order[k]}
    requires c'.shared == c.shared[order[k] := EvalPhase(job.phases[order[k]], phrases, c.shared)]
    ensures Paused(job, phrases, limit, order, k + 1, c')
  {
    SequentialNext(job.phases, phrases, order, k);
    ElemsNext(order, k);
    forall o | o in job.phases ensures Parked(job, Elems(order[..k + 1]), c'.exec.stage, o) {
      assert Parked(job, Elems(order[..k]), c.exec.stage, o);
    }
  }

  lemma ElemsNext(order: seq<string>, k: nat)
    requires k < |order|
    ensures Elems(order[..k + 1]) == Elems(order[..k]) + {order[k]}
  {
    assert order[..k + 1] == order[..k] + [order[k]];
    ElemsAppend(order[..k], order[k]);
  }

  /** One more phase runs alone. */
  lemma RunNext(job: Job, phrases: Phrases, limit: Option<nat>, order: seq<string>, k: nat, c: CharterState)
    returns (c': CharterState)
    requires WellFormed(job) && Schedule(job, order) && Lists(job, order) && k < |order|
    requires limit.Some? ==> limit.value > 0
    requires Reached(job, phrases, limit, c) && Paused(job, phrases, limit, order, k, c)
    ensures Reached(job, phrases, limit, c') && Paused(job, phrases, limit, order, k + 1, c')
  {
    PlanPlaced(job, order, k);
    c' := RunAlone(job, phrases, limit, c, order[k]);
    PausedNext(job, phrases, limit, order, k, c, c');
  }

  lemma PlanPlaced(job: Job, order: seq<string>, k: nat)
    requires WellFormed(job) && Schedule(job, order) && Lists(job, order) && k < |order|
    ensures PlanOf(job)[order[k]] <= Elems(order[..k]) && order[k] !in Elems(order[..k])
  {
    ScheduledBefore(job, order, k);
    forall d | d in PlanOf(job)[order[k]] ensures d in Elems(order[..k]) {
      assert (d, order[k]) in job.edges;
      EdgeReaches(job.edges, d, order[k]);
    }
  }

  lemma {:induction false} RunPrefix(job: Job, phrases: Phrases, limit: Option<nat>, order: seq<string>, k: nat)
    returns (c: CharterState)
    requires WellFormed(job) && Schedule(job, order) && Lists(job, order) && k <= |order|
    requires limit.Some? ==> limit.value > 0
    ensures Reached(job, phrases, limit, c) && Paused(job, phrases, limit, order, k, c)
  {
    if k == 0 {
      c := Start(job, limit);
      assert Run(job, phrases, limit, [c], []);
    } else {
      var before := RunPrefix(job, phrases, limit, order, k - 1);
      c := RunNext(job, phrases, limit, order, k - 1, before);
    }
  }

  /** The results some maximal run publishes. */
  ghost predicate Outcome(job: Job, phrases: Phrases, maxConcurrent: Option<nat>, results: Shared) {
    exists c: CharterState ::
      Reached(job, phrases, Executor.Limiter(maxConcurrent), c) && Stuck(c) && c.shared == results
  }

  /** Every schedule's sequential results are the outcome of a run, under every limit. */
  lemma ScheduleIsRun(job: Job, phrases: Phrases, maxConcurrent: Option<nat>, order: seq<string>)
    requires WellFormed(job) && Schedule(job, order)
    ensures Lists(job, order) && Outcome(job, phrases, maxConcurrent, Sequential(job.phases, phrases, order))
  {
    ScheduleLists(job, order);
    var c := RunPrefix(job, phrases, Executor.Limiter(maxConcurrent), order, |order|);
    assert order[..|order|] == order;
    DoneIsStuck(c);
  }

  lemma DoneIsStuck(c: CharterState)
    requires forall o :: o in c.exec.stage ==> c.exec.stage[o].Done?
    ensures Stuck(c)
  {
  }

  /** Whatever the phrases answer, all maximal runs under all limits publish the same results. */
  ghost predicate Deterministic(job: Job) {
    forall phrases, m, m', r, r' :: Outcome(job, phrases, m, r) && Outcome(job, phrases, m', r') ==> r == r'
  }

  lemma CalmOutcome(job: Job, phrases: Phrases, maxConcurrent: Option<nat>, r: Shared, order: seq<string>)
    requires WellFormed(job) && Calm(job) && Schedule(job, order) && Outcome(job, phrases, maxConcurrent, r)
    ensures Lists(job, order) && r == Sequential(job.phases, phrases, order)
  {
    var c: CharterState :| Reached(job, phrases, Executor.Limiter(maxConcurrent), c) && Stuck(c) && c.shared == r;
    var states: seq<CharterState>, actions: seq<CharterAction> :|
      Run(job, phrases, Executor.Limiter(maxConcurrent), states, actions) && states[|actions|] == c;
    EveryRunIsSequential(job, phrases, order, maxConcurrent, states, actions);
  }

  /**
   * Exactly the calm jobs are deterministic: all runs agree, for all phrases, limits and
   * interleavings, if and only if every phase unordered with one that asks for `all_phases_passed`
   * calls nothing.
   */
  lemma DeterministicIffCalm(job: Job)
    requires WellFormed(job)
    ensures Deterministic(job) <==> Calm(job)
  {
    if Calm(job) {
      var order := ContinueListing(job.edges, [], job.phases.Keys);
      forall phrases, m, m', r, r' | Outcome(job, phrases, m, r) && Outcome(job, phrases, m', r') ensures r == r' {
        CalmOutcome(job, phrases, m, r, order);
        CalmOutcome(job, phrases, m', r', order);
      }
    } else {
      var phrases, one, two := UncalmSchedules(job);
      ScheduleIsRun(job, phrases, None, one);
      ScheduleIsRun(job, phrases, None, two);
    }
  }

  // ------------------------------------------------------------------ compiled workflows

  /**
   * For every workflow the resolver accepts: all runs end with the sequential results of its phase
   * order exactly when it is calm.
   */
  lemma CompiledRunsIffCalm(w: Workflow, order: seq<string>)
    requires Compiled(w, order)
    ensures Lists(JobOf(w), order)
    ensures Calm(JobOf(w)) <==>
            forall phrases, m, r ::
              Outcome(JobOf(w), phrases, m, r) ==> r == Sequential(JobOf(w).phases, phrases, order)
  {
    CompiledIsScheduled(w, order);
    ScheduleLists(JobOf(w), order);
    if Calm(JobOf(w)) {
      forall phrases, m, r | Outcome(JobOf(w), phrases, m, r) ensures r == Sequential(JobOf(w).phases, phrases, order) {
        CalmOutcome(JobOf(w), phrases, m, r, order);
      }
    } else {
      DeterministicIffCalm(JobOf(w));
    }
  }

  /** A phase with one action, and an unrelated one that asks whether all phases passed. */
  function Racing(): Workflow {
    Workflow("racing", [Phase("a", [], [FeatureCall("boom", [])], [], [], None, None, [], []),
                        Phase("b", [BuiltinRef(ALL_PHASES_PASSED)], [], [], [], None, None, [], [])])
  }

  /** It compiles, and two of its runs publish different results. */
  lemma RacingRaces()
    ensures Compiled(Racing(), ["a", "b"])
    ensures exists phrases, m, m', r, r' ::
              Outcome(JobOf(Racing()), phrases, m, r) && Outcome(JobOf(Racing()), phrases, m', r') && r != r'
  {
    RacingCompiles();
    RacingUncalm();
    CompiledIsScheduled(Racing(), ["a", "b"]);
    DeterministicIffCalm(JobOf(Racing()));
  }

  lemma RacingCompiles()
    ensures Compiled(Racing(), ["a", "b"]) && DependencyEdges(Racing()) == {}
  {
    var w := Racing();
    NoRefs(w);
    assert w.phases[0].name == "a" && w.phases[1].name == "b";
    TwoNames(w.phases[0], w.phases[1]);
    UnrelatedCompile(w, ["a", "b"]);
  }

  lemma TwoNames(p: Phase, q: Phase)
    ensures PhaseNames([p, q]) == Elems([p.name, q.name])
  {
    assert [p, q][0] == p && [p, q][1] == q;
    assert [p.name, q.name][0] == p.name && [p.name, q.name][1] == q.name;
  }

  /** Phases that refer to no phase compile in any order. */
  lemma UnrelatedCompile(w: Workflow, order: seq<string>)
    requires UniqueNames(w) && AllKnown(w) && WorkflowRefs(w) == []
    requires NoDuplicates(order) && Elems(order) == PhaseNames(w.phases)
    ensures Compiled(w, order) && DependencyEdges(w) == {}
  {
  }

  /** Without phase references there are no edges. */
  lemma NoRefs(w: Workflow)
    requires forall i, k :: 0 <= i < |w.phases| && 0 <= k < |w.phases[i].requires_| ==>
             !w.phases[i].requires_[k].PhaseRef?
    ensures WorkflowRefs(w) == []
  {
    forall e ensures e !in WorkflowRefs(w) {
      ReferencesMember(PhaseNames(w.phases), w.phases, e);
      forall i | 0 <= i < |w.phases| ensures e.0 !in PhaseDeps(w.phases[i].requires_) {
        PhaseDepsMember(w.phases[i].requires_, e.0);
      }
    }
    FirstMember(WorkflowRefs(w));
  }

  lemma FirstMember(refs: seq<(string, string)>)
    ensures refs == [] || refs[0] in refs
  {
  }

  lemma RacingUncalm()
    requires DependencyEdges(Racing()) == {}
    ensures !Calm(JobOf(Racing()))
  {
    var job := JobOf(Racing());
    assert Racing().phases[0].name == "a" && Racing().phases[1].name == "b";
    assert job.phases["b"].requires_[0] == BuiltinRef(ALL_PHASES_PASSED);
    assert UsesAllPassed(job.phases["b"]) && !Silent(job.phases["a"]);
    if Ordered(job, "b", "a") {
      if Reaches(job.edges, "a", "b") {
        var p := LastEdge(job.edges, "a", "b");
      } else {
        var p := LastEdge(job.edges, "b", "a");
      }
    }
  }

  lemma LastEdge(edges: set<(string, string)>, x: string, y: string) returns (p: string)
    requires Reaches(edges, x, y)
    ensures (p, y) in edges
  {
    var w :| Walk(edges, w) && |w| >= 2 && w[0] == x && w[|w| - 1] == y;
    p := w[|w| - 2];
    assert (w[|w| - 2], w[|w| - 2 + 1]) in edges;
  }
}
