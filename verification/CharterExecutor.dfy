/**
 * Running a compiled workflow: what one phase does, the sequential reference evaluation, and the
 * concurrent machine in which every phase's require, action and publish steps interleave freely
 * inside the dependency-aware executor.
 */
module CharterExecutor {
  import opened Options
  import opened CharterAst
  import opened Digraph
  import opened WorkList
  import opened Resolver
  import opened GraphBuilder
  import Executor

  // ------------------------------------------------------------------ one phase

  /** A phrase's answer: a mapping with optional gate fields, or anything else. */
  datatype PhraseValue = Verdict(verified: Option<bool>, satisfied: Option<bool>, body: string) | Plain(body: string)

  datatype PhraseOutcome = Unresolved | Returned(value: PhraseValue) | Threw(message: string)

  /** Where a phrase is called from; outcomes are fixed per call. */
  datatype CallSite = CallSite(phase: string, inActions: bool, index: nat)

  type Phrases = CallSite -> PhraseOutcome

  datatype RequireRecord = Passed | Answer(value: PhraseValue) | CompileValidatedOnly | UnknownBuiltin

  datatype PhaseError =
    | NotYetExecuted(phase: string)
    | DidNotPass(phase: string)
    | NotSatisfied(feature: string)
    | NotAllPassed
    | FeatureMissing(feature: string)
    | Exception(message: string)

  datatype PhaseResult = PhaseResult(
    phaseName: string,
    passed: bool,
    actionResults: map<string, PhraseValue>,
    requireResults: map<string, RequireRecord>,
    error: Option<PhaseError>)

  type Shared = map<string, PhaseResult>

  datatype Gate = Open(results: map<string, RequireRecord>)
    | Blocked(error: PhaseError, results: map<string, RequireRecord>)

  const ALL_PHASES_PASSED := "all_phases_passed"

  predicate Blocks(v: PhraseValue) {
    v.Verdict? && (v.verified == Some(false) || v.satisfied == Some(false))
  }

  predicate AllPassed(shared: Shared) {
    forall q :: q in shared ==> shared[q].passed
  }

  /** Evaluates one require statement against the results published so far. */
  function EvalRequire(req: Require, site: CallSite, phrases: Phrases, shared: Shared,
                       results: map<string, RequireRecord>): Gate {
    match req
    case PhaseRef(phase, condition) =>
      if phase !in shared then Blocked(NotYetExecuted(phase), results)
      else if !shared[phase].passed then Blocked(DidNotPass(phase), results)
      else Open(results[phase + "." + condition := Passed])
    case FeatureRef(call) =>
      (match phrases(site)
       case Unresolved => Open(results[call.name := CompileValidatedOnly])
       case Threw(message) => Blocked(Exception(message), results)
       case Returned(value) =>
         var recorded := results[call.name := Answer(value)];
         if Blocks(value) then Blocked(NotSatisfied(call.name), recorded) else Open(recorded))
    case BuiltinRef(name) =>
      if name != ALL_PHASES_PASSED then Open(results[name := UnknownBuiltin])
      else if !AllPassed(shared) then Blocked(NotAllPassed, results)
      else Open(results[ALL_PHASES_PASSED := Passed])
    case AwaitRef(_) => Open(results)
  }

  /** How far a phase's factory has got. */
  datatype Progress =
    | Gates(next: nat, requireResults: map<string, RequireRecord>)
    | Acting(next: nat, requireResults: map<string, RequireRecord>, actionResults: map<string, PhraseValue>)
    | Concluding(result: PhaseResult)
    | Published(result: PhaseResult)

  const START: Progress := Gates(0, map[])

  function Failure(p: Phase, error: PhaseError, rr: map<string, RequireRecord>, ar: map<string, PhraseValue>):
      PhaseResult {
    PhaseResult(p.name, false, ar, rr, Some(error))
  }

  /** One internal step of the factory: the next require, the next action, or the verdict. */
  function Advance(p: Phase, phrases: Phrases, shared: Shared, at: Progress): Progress {
    match at
    case Gates(k, rr) =>
      if k >= |p.requires_| then Acting(0, rr, map[])
      else
        (match EvalRequire(p.requires_[k], CallSite(p.name, false, k), phrases, shared, rr)
         case Open(rr') => Gates(k + 1, rr')
         case Blocked(error, rr') => Concluding(Failure(p, error, rr', map[])))
    case Acting(k, rr, ar) =>
      if k >= |p.actions| then Concluding(PhaseResult(p.name, true, ar, rr, None))
      else
        (match phrases(CallSite(p.name, true, k))
         case Unresolved => Concluding(Failure(p, FeatureMissing(p.actions[k].name), rr, ar))
         case Threw(message) => Concluding(Failure(p, Exception(message), rr, ar))
         case Returned(value) => Acting(k + 1, rr, ar[p.actions[k].name := value]))
    case Concluding(_) => at
    case Published(_) => at
  }

  function StepsLeft(p: Phase, at: Progress): nat {
    match at
    case Gates(k, _) => (if k <= |p.requires_| then |p.requires_| - k else 0) + |p.actions| + 3
    case Acting(k, _, _) => (if k <= |p.actions| then |p.actions| - k else 0) + 2
    case Concluding(_) => 1
    case Published(_) => 0
  }

  /** The result a phase reaches from here if nothing it reads changes. */
  function Conclude(p: Phase, phrases: Phrases, shared: Shared, at: Progress): PhaseResult
    decreases StepsLeft(p, at)
  {
    match at
    case Concluding(result) => result
    case Published(result) => result
    case _ => Conclude(p, phrases, shared, Advance(p, phrases, shared, at))
  }

  /** The result of running a phase from its first require to its last action. */
  function EvalPhase(p: Phase, phrases: Phrases, shared: Shared): PhaseResult {
    Conclude(p, phrases, shared, START)
  }

  ghost predicate UsesAllPassed(p: Phase) {
    exists i :: 0 <= i < |p.requires_| && p.requires_[i] == BuiltinRef(ALL_PHASES_PASSED)
  }

  /** Two result maps that phase `p` cannot tell apart. */
  ghost predicate Alike(p: Phase, s: Shared, t: Shared) {
    && (forall d :: d in PhaseDeps(p.requires_) ==> (d in s <==> d in t) && (d in s ==> s[d] == t[d]))
    && (UsesAllPassed(p) ==> (AllPassed(s) <==> AllPassed(t)))
  }

  lemma AdvanceAlike(p: Phase, phrases: Phrases, s: Shared, t: Shared, at: Progress)
    requires Alike(p, s, t)
    ensures Advance(p, phrases, s, at) == Advance(p, phrases, t, at)
  {
    if at.Gates? && at.next < |p.requires_| {
      var req := p.requires_[at.next];
      if req.PhaseRef? {
        PhaseDepsMember(p.requires_, req.phase);
        assert req.phase in PhaseDeps(p.requires_);
      } else if req == BuiltinRef(ALL_PHASES_PASSED) {
        assert UsesAllPassed(p);
      }
    }
  }

  lemma {:induction false} ConcludeAlike(p: Phase, phrases: Phrases, s: Shared, t: Shared, at: Progress)
    requires Alike(p, s, t)
    ensures Conclude(p, phrases, s, at) == Conclude(p, phrases, t, at)
    decreases StepsLeft(p, at)
  {
    AdvanceAlike(p, phrases, s, t, at);
    if at.Gates? || at.Acting? {
      ConcludeAlike(p, phrases, s, t, Advance(p, phrases, s, at));
    }
  }

  // ------------------------------------------------------------------ jobs and the sequential reference

  /** A workflow ready to run: its phases by name and its dependency edges. */
  datatype Job = Job(phases: map<string, Phase>, edges: set<(string, string)>)

  /** Phases sit under their own names, and the edges are exactly their phase references. */
  ghost predicate WellFormed(job: Job) {
    && (forall n :: n in job.phases ==> job.phases[n].name == n)
    && (forall d, n :: (d, n) in job.edges <==> n in job.phases && d in PhaseDeps(job.phases[n].requires_))
    && (forall d, n :: (d, n) in job.edges ==> d in job.phases)
    && Acyclic(job.edges)
  }

  /** Runs the phases one after another in the given order. */
  ghost function Sequential(phases: map<string, Phase>, phrases: Phrases, order: seq<string>): Shared
    requires forall i :: 0 <= i < |order| ==> order[i] in phases
  {
    if order == [] then map[]
    else
      var n := |order| - 1;
      var before := Sequential(phases, phrases, order[..n]);
      before[order[n] := EvalPhase(phases[order[n]], phrases, before)]
  }

  /** A phase that calls no phrase: neither a feature require nor an action. */
  ghost predicate Silent(p: Phase) {
    p.actions == [] && forall k :: 0 <= k < |p.requires_| ==> !p.requires_[k].FeatureRef?
  }

  ghost predicate Ordered(job: Job, p: string, q: string) {
    Reaches(job.edges, q, p) || Reaches(job.edges, p, q)
  }

  /** Every phase that is not ordered with respect to one that asks for `all_phases_passed` is silent. */
  ghost predicate Calm(job: Job) {
    forall p, q | p in job.phases && q in job.phases && p != q && UsesAllPassed(job.phases[p]) && !Ordered(job, p, q) ::
      Silent(job.phases[q])
  }

  // ------------------------------------------------------------------ the concurrent machine

  /** The executor's state, the progress of each running factory, and the shared results. */
  datatype CharterState = CharterState(
    exec: Executor.State<string, PhaseResult>,
    progress: map<string, Progress>,
    shared: Shared)

  /** A task step of the executor, an internal step of a running factory, or the factory returning. */
  datatype CharterAction =
    Sched(action: Executor.Action<string, PhaseResult>) | Work(name: string) | Return(name: string)

  ghost function PlanOf(job: Job): Executor.Plan<string> {
    map n | n in job.phases :: Elems(PhaseDeps(job.phases[n].requires_))
  }

  ghost function Start(job: Job, limit: Option<nat>): CharterState {
    CharterState(Executor.Initial(PlanOf(job), limit), map[], map[])
  }

  ghost predicate Busy(c: CharterState, o: string) {
    o in c.exec.stage && c.exec.stage[o].Running? && o in c.progress
  }

  ghost predicate Enabled(c: CharterState, a: CharterAction) {
    match a
    case Sched(step) => !step.Invoke? && Executor.Enabled(c.exec, step)
    case Work(o) => Busy(c, o) && !c.progress[o].Published?
    case Return(o) => Busy(c, o) && c.progress[o].Published?
  }

  ghost function Next(job: Job, phrases: Phrases, c: CharterState, a: CharterAction): CharterState
    requires Enabled(c, a) && c.exec.stage.Keys == job.phases.Keys
  {
    match a
    case Sched(step) =>
      c.(exec := Executor.Next(c.exec, step),
         progress := if step.Acquire? then c.progress[step.op := START] else c.progress)
    case Work(o) =>
      (match c.progress[o]
       case Concluding(r) => c.(progress := c.progress[o := Published(r)], shared := c.shared[o := r])
       case at => c.(progress := c.progress[o := Advance(job.phases[o], phrases, c.shared, at)]))
    case Return(o) => c.(exec := Executor.Next(c.exec, Executor.Invoke(o, Executor.Completed(c.progress[o].result))))
  }

  /** The results of the transitive dependencies of phase `o`. */
  ghost function Ancestry(edges: set<(string, string)>, o: string, shared: Shared): Shared {
    map q | q in shared && Reaches(edges, q, o) :: shared[q]
  }

  /** The result a phase must reach, given what its ancestors published. */
  ghost function Target(job: Job, phrases: Phrases, shared: Shared, o: string): PhaseResult
    requires o in job.phases
  {
    EvalPhase(job.phases[o], phrases, Ancestry(job.edges, o, shared))
  }

  /** A running phase is on its way to, and a finished one has published, its target. */
  ghost predicate PhaseOk(job: Job, phrases: Phrases, c: CharterState, o: string)
    requires o in c.exec.stage && o in job.phases
  {
    var target := Target(job, phrases, c.shared, o);
    match c.exec.stage[o]
    case Waiting(_) => o !in c.shared
    case Ready => o !in c.shared
    case Running =>
      && o in c.progress
      && Conclude(job.phases[o], phrases, Ancestry(job.edges, o, c.shared), c.progress[o]) == target
      && (if c.progress[o].Published? then o in c.shared && c.shared[o] == target else o !in c.shared)
    case Raising(_) => false
    case Unwinding(_) => false
    case _ => o in c.shared && c.shared[o] == target && o in c.exec.results && c.exec.results[o] == target
  }

  ghost predicate CharterInv(job: Job, phrases: Phrases, limit: Option<nat>, c: CharterState) {
    && Executor.Inv(PlanOf(job), limit, c.exec)
    && c.shared.Keys <= job.phases.Keys
    && forall o :: o in job.phases ==> PhaseOk(job, phrases, c, o)
  }

  lemma PlanFits(job: Job)
    requires WellFormed(job)
    ensures PlanOf(job).Keys == job.phases.Keys && Executor.PlanEdges(PlanOf(job)) == job.edges
    ensures Executor.Closed(PlanOf(job))
    ensures forall e :: e in job.edges ==> e.1 in PlanOf(job) && e.0 in PlanOf(job)[e.1]
  {
    forall e | e in job.edges ensures e.1 in PlanOf(job) && e.0 in PlanOf(job)[e.1] {
      assert (e.0, e.1) in job.edges;
    }
    forall e | e in Executor.PlanEdges(PlanOf(job)) ensures e in job.edges {
      assert (e.0, e.1) in job.edges;
    }
    forall o | o in PlanOf(job) ensures PlanOf(job)[o] <= PlanOf(job).Keys {
      forall d | d in PlanOf(job)[o] ensures d in job.phases {
        assert (d, o) in job.edges;
      }
    }
  }

  // ------------------------------------------------------------------ results that ancestors determine

  ghost predicate TightAt(job: Job, phrases: Phrases, m: Shared, q: string)
    requires q in m
  {
    q in job.phases && m[q] == Target(job, phrases, m, q) && forall a :: Reaches(job.edges, a, q) ==> a in m
  }

  /** Results closed under ancestors, each what its ancestors' results determine. */
  ghost predicate Tight(job: Job, phrases: Phrases, m: Shared) {
    forall q :: q in m ==> TightAt(job, phrases, m, q)
  }

  /** None of the phrases a phase calls can stop it. */
  ghost predicate CallsPass(p: Phase, phrases: Phrases) {
    && (forall k :: 0 <= k < |p.requires_| && p.requires_[k].FeatureRef? ==>
         var r := phrases(CallSite(p.name, false, k)); !r.Threw? && (r.Returned? ==> !Blocks(r.value)))
    && (forall k :: 0 <= k < |p.actions| ==> phrases(CallSite(p.name, true, k)).Returned?)
  }

  /** A phase passes when its calls do, its dependencies have passed and, if it asks, all phases have. */
  lemma {:induction false} PhasePasses(p: Phase, phrases: Phrases, shared: Shared, at: Progress)
    requires CallsPass(p, phrases) && (at.Gates? || at.Acting?)
    requires forall d :: d in PhaseDeps(p.requires_) ==> d in shared && shared[d].passed
    requires UsesAllPassed(p) ==> AllPassed(shared)
    ensures Conclude(p, phrases, shared, at).passed
    decreases StepsLeft(p, at)
  {
    if at.Gates? && at.next < |p.requires_| {
      var req := p.requires_[at.next];
      if req.PhaseRef? {
        PhaseDepsMember(p.requires_, req.phase);
        assert req.phase in PhaseDeps(p.requires_);
      } else if req == BuiltinRef(ALL_PHASES_PASSED) {
        assert UsesAllPassed(p);
      }
    }
    var next := Advance(p, phrases, shared, at);
    if next.Gates? || next.Acting? {
      PhasePasses(p, phrases, shared, next);
    }
  }

  ghost function Failing(m: Shared): set<string> {
    set q | q in m && !m[q].passed
  }

  /** Among tight results, a silent phase fails only after another has. */
  lemma SilentFollows(job: Job, phrases: Phrases, m: Shared, q: string)
    requires WellFormed(job) && Tight(job, phrases, m) && q in m && q in job.phases && Silent(job.phases[q])
    requires forall y :: y in Failing(m) ==> !Reaches(job.edges, y, q)
    ensures m[q].passed
  {
    assert TightAt(job, phrases, m, q);
    var view := Ancestry(job.edges, q, m);
    forall d | d in PhaseDeps(job.phases[q].requires_) ensures d in view && view[d].passed {
      assert (d, q) in job.edges;
      EdgeReaches(job.edges, d, q);
      assert d in m && !(d in Failing(m));
    }
    forall a | a in view ensures view[a].passed {
      assert !(a in Failing(m));
    }
    PhasePasses(job.phases[q], phrases, view, START);
  }

  /**
   * To a phase that asks whether all phases have passed, the published results answer like its
   * ancestors alone: a phase outside its ancestry is silent, so the first to fail would need a failure
   * before it.
   */
  lemma CalmView(job: Job, phrases: Phrases, m: Shared, o: string)
    requires WellFormed(job) && Calm(job) && Tight(job, phrases, m)
    requires o in job.phases && o !in m && UsesAllPassed(job.phases[o])
    requires forall a :: Reaches(job.edges, a, o) ==> a in m
    ensures AllPassed(m) <==> AllPassed(Ancestry(job.edges, o, m))
  {
    var view := Ancestry(job.edges, o, m);
    if AllPassed(view) && Failing(m) != {} {
      var q := EarliestMember(job.edges, Failing(m));
      assert TightAt(job, phrases, m, q);
      assert q !in view;
      assert !Ordered(job, o, q);
      SilentFollows(job, phrases, m, q);
    }
    assert forall q :: q in m && !m[q].passed ==> q in Failing(m);
  }

  /** A phase whose ancestors have the same tight results has the same result. */
  lemma TightAgree(job: Job, phrases: Phrases, m: Shared, n: Shared, q: string)
    requires Tight(job, phrases, m) && Tight(job, phrases, n) && m.Keys == n.Keys && q in m
    requires forall a :: a in m && Reaches(job.edges, a, q) ==> m[a] == n[a]
    ensures m[q] == n[q]
  {
    assert TightAt(job, phrases, m, q) && TightAt(job, phrases, n, q);
    assert Ancestry(job.edges, q, m) == Ancestry(job.edges, q, n);
  }

  /** Tight results over the same phases are the same. */
  lemma TightUnique(job: Job, phrases: Phrases, m: Shared, n: Shared)
    requires WellFormed(job) && Tight(job, phrases, m) && Tight(job, phrases, n) && m.Keys == n.Keys
    ensures m == n
  {
    var differing := set q | q in m && m[q] != n[q];
    if differing != {} {
      var q := EarliestMember(job.edges, differing);
      forall a | a in m && Reaches(job.edges, a, q) ensures m[a] == n[a] {
        assert !(a in differing);
      }
      TightAgree(job, phrases, m, n, q);
    }
    assert forall q :: q in m ==> !(q in differing);
  }

  // ------------------------------------------------------------------ what a running phase sees

  lemma DoneBefore(job: Job, limit: Option<nat>, s: Executor.State<string, PhaseResult>, q: string, o: string)
    requires WellFormed(job) && Executor.Inv(PlanOf(job), limit, s)
    requires o in s.stage && !s.stage[o].Waiting? && Reaches(job.edges, q, o)
    ensures q in s.stage && s.stage[q].Done?
  {
    PlanFits(job);
    Executor.AncestorsDone(PlanOf(job), limit, job.edges, s, q, o);
  }

  lemma DepsVisible(job: Job, phrases: Phrases, limit: Option<nat>, c: CharterState, o: string, d: string)
    requires WellFormed(job) && CharterInv(job, phrases, limit, c)
    requires o in c.exec.stage && !c.exec.stage[o].Waiting? && d in PhaseDeps(job.phases[o].requires_)
    ensures d in Ancestry(job.edges, o, c.shared)
  {
    assert (d, o) in job.edges;
    EdgeReaches(job.edges, d, o);
    DoneBefore(job, limit, c.exec, d, o);
    assert PhaseOk(job, phrases, c, d);
  }

  /** The published results are what each phase's ancestors, all published too, determine. */
  lemma PublishedIsTight(job: Job, phrases: Phrases, limit: Option<nat>, c: CharterState)
    requires WellFormed(job) && CharterInv(job, phrases, limit, c)
    ensures Tight(job, phrases, c.shared)
  {
    forall q | q in c.shared ensures TightAt(job, phrases, c.shared, q) {
      assert PhaseOk(job, phrases, c, q);
      forall a | Reaches(job.edges, a, q) ensures a in c.shared {
        DoneBefore(job, limit, c.exec, a, q);
        assert PhaseOk(job, phrases, c, a);
      }
    }
  }

  lemma AncestorsPublished(job: Job, phrases: Phrases, limit: Option<nat>, c: CharterState, o: string)
    requires WellFormed(job) && CharterInv(job, phrases, limit, c) && o in c.exec.stage && !c.exec.stage[o].Waiting?
    ensures forall a :: Reaches(job.edges, a, o) ==> a in c.shared
  {
    forall a | Reaches(job.edges, a, o) ensures a in c.shared {
      DoneBefore(job, limit, c.exec, a, o);
      assert PhaseOk(job, phrases, c, a);
    }
  }

  lemma RunningSeesAncestry(job: Job, phrases: Phrases, limit: Option<nat>, c: CharterState, o: string)
    requires WellFormed(job) && Calm(job) && CharterInv(job, phrases, limit, c)
    requires o in c.exec.stage && c.exec.stage[o].Running? && o !in c.shared
    ensures Alike(job.phases[o], c.shared, Ancestry(job.edges, o, c.shared))
  {
    forall d | d in PhaseDeps(job.phases[o].requires_) ensures d in Ancestry(job.edges, o, c.shared) {
      DepsVisible(job, phrases, limit, c, o, d);
    }
    if UsesAllPassed(job.phases[o]) {
      PublishedIsTight(job, phrases, limit, c);
      AncestorsPublished(job, phrases, limit, c, o);
      CalmView(job, phrases, c.shared, o);
    }
  }

  /** Publishing a running phase changes nothing among the ancestors of any phase past its waiting stage. */
  lemma AncestryStable(job: Job, limit: Option<nat>, c: CharterState, o: string, r: PhaseResult, q: string)
    requires WellFormed(job) && Executor.Inv(PlanOf(job), limit, c.exec)
    requires o in c.exec.stage && c.exec.stage[o].Running? && q in c.exec.stage && !c.exec.stage[q].Waiting?
    ensures Ancestry(job.edges, q, c.shared[o := r]) == Ancestry(job.edges, q, c.shared)
  {
    if Reaches(job.edges, o, q) {
      DoneBefore(job, limit, c.exec, o, q);
    }
  }

  // ------------------------------------------------------------------ every step keeps the invariant

  lemma StartInv(job: Job, phrases: Phrases, limit: Option<nat>)
    ensures CharterInv(job, phrases, limit, Start(job, limit))
  {
    Executor.InitialInv<string, PhaseResult>(PlanOf(job), limit);
  }

  lemma SchedPhase(job: Job, phrases: Phrases, c: CharterState, step: Executor.Action<string, PhaseResult>, o: string)
    requires c.exec.stage.Keys == job.phases.Keys && o in job.phases && PhaseOk(job, phrases, c, o)
    requires Enabled(c, Sched(step))
    ensures PhaseOk(job, phrases, Next(job, phrases, c, Sched(step)), o)
  {
  }

  lemma SchedInv(job: Job, phrases: Phrases, limit: Option<nat>, c: CharterState,
                 step: Executor.Action<string, PhaseResult>)
    requires CharterInv(job, phrases, limit, c) && Enabled(c, Sched(step))
    ensures CharterInv(job, phrases, limit, Next(job, phrases, c, Sched(step)))
  {
    Executor.StepInv(PlanOf(job), limit, c.exec, step);
    forall o | o in job.phases ensures PhaseOk(job, phrases, Next(job, phrases, c, Sched(step)), o) {
      SchedPhase(job, phrases, c, step, o);
    }
  }

  lemma ReturnPhase(job: Job, phrases: Phrases, c: CharterState, name: string, o: string)
    requires c.exec.stage.Keys == job.phases.Keys && o in job.phases && PhaseOk(job, phrases, c, o)
    requires Enabled(c, Return(name))
    ensures PhaseOk(job, phrases, Next(job, phrases, c, Return(name)), o)
  {
  }

  lemma ReturnInv(job: Job, phrases: Phrases, limit: Option<nat>, c: CharterState, name: string)
    requires CharterInv(job, phrases, limit, c) && Enabled(c, Return(name))
    ensures CharterInv(job, phrases, limit, Next(job, phrases, c, Return(name)))
  {
    Executor.StepInv(PlanOf(job), limit, c.exec, Executor.Invoke(name, Executor.Completed(c.progress[name].result)));
    forall o | o in job.phases ensures PhaseOk(job, phrases, Next(job, phrases, c, Return(name)), o) {
      ReturnPhase(job, phrases, c, name, o);
    }
  }

  lemma AdvancePhase(job: Job, phrases: Phrases, c: CharterState, name: string, o: string)
    requires c.exec.stage.Keys == job.phases.Keys && o in job.phases && PhaseOk(job, phrases, c, o)
    requires Enabled(c, Work(name)) && !c.progress[name].Concluding?
    requires Advance(job.phases[name], phrases, c.shared, c.progress[name]) ==
             Advance(job.phases[name], phrases, Ancestry(job.edges, name, c.shared), c.progress[name])
    ensures PhaseOk(job, phrases, Next(job, phrases, c, Work(name)), o)
  {
  }

  lemma AdvanceInv(job: Job, phrases: Phrases, limit: Option<nat>, c: CharterState, name: string)
    requires WellFormed(job) && Calm(job) && CharterInv(job, phrases, limit, c)
    requires Enabled(c, Work(name)) && !c.progress[name].Concluding?
    ensures CharterInv(job, phrases, limit, Next(job, phrases, c, Work(name)))
  {
    assert PhaseOk(job, phrases, c, name);
    RunningSeesAncestry(job, phrases, limit, c, name);
    AdvanceAlike(job.phases[name], phrases, c.shared, Ancestry(job.edges, name, c.shared), c.progress[name]);
    forall o | o in job.phases ensures PhaseOk(job, phrases, Next(job, phrases, c, Work(name)), o) {
      AdvancePhase(job, phrases, c, name, o);
    }
  }

  lemma PublishPhase(job: Job, phrases: Phrases, c: CharterState, name: string, o: string)
    requires c.exec.stage.Keys == job.phases.Keys && o in job.phases && PhaseOk(job, phrases, c, o)
    requires Enabled(c, Work(name)) && c.progress[name].Concluding?
    requires !c.exec.stage[o].Waiting? ==>
      Ancestry(job.edges, o, c.shared[name := c.progress[name].result]) == Ancestry(job.edges, o, c.shared)
    ensures PhaseOk(job, phrases, Next(job, phrases, c, Work(name)), o)
  {
  }

  lemma PublishInv(job: Job, phrases: Phrases, limit: Option<nat>, c: CharterState, name: string)
    requires WellFormed(job) && CharterInv(job, phrases, limit, c)
    requires Enabled(c, Work(name)) && c.progress[name].Concluding?
    ensures CharterInv(job, phrases, limit, Next(job, phrases, c, Work(name)))
  {
    forall o | o in job.phases ensures PhaseOk(job, phrases, Next(job, phrases, c, Work(name)), o) {
      if !c.exec.stage[o].Waiting? {
        AncestryStable(job, limit, c, name, c.progress[name].result, o);
      }
      PublishPhase(job, phrases, c, name, o);
    }
  }

  lemma StepInv(job: Job, phrases: Phrases, limit: Option<nat>, c: CharterState, a: CharterAction)
    requires WellFormed(job) && Calm(job) && CharterInv(job, phrases, limit, c) && Enabled(c, a)
    ensures CharterInv(job, phrases, limit, Next(job, phrases, c, a))
  {
    match a
    case Sched(step) => SchedInv(job, phrases, limit, c, step);
    case Return(name) => ReturnInv(job, phrases, limit, c, name);
    case Work(name) =>
      if c.progress[name].Concluding? {
        PublishInv(job, phrases, limit, c, name);
      } else {
        AdvanceInv(job, phrases, limit, c, name);
      }
  }

  // ------------------------------------------------------------------ runs

  ghost predicate Run(job: Job, phrases: Phrases, limit: Option<nat>, states: seq<CharterState>,
                      actions: seq<CharterAction>) {
    && |states| == |actions| + 1 && states[0] == Start(job, limit)
    && (forall i :: 0 <= i < |states| ==> states[i].exec.stage.Keys == job.phases.Keys)
    && forall i :: 0 <= i < |actions| ==>
         Enabled(states[i], actions[i]) && states[i + 1] == Next(job, phrases, states[i], actions[i])
  }

  lemma {:induction false} RunInv(job: Job, phrases: Phrases, limit: Option<nat>, states: seq<CharterState>,
                                  actions: seq<CharterAction>, i: nat)
    requires WellFormed(job) && Calm(job) && Run(job, phrases, limit, states, actions) && i < |states|
    ensures CharterInv(job, phrases, limit, states[i])
  {
    if i == 0 {
      StartInv(job, phrases, limit);
    } else {
      RunInv(job, phrases, limit, states, actions, i - 1);
      StepInv(job, phrases, limit, states[i - 1], actions[i - 1]);
    }
  }

  // ------------------------------------------------------------------ what holds of every job, calm or not

  /** The result does not say that a dependency was "not yet executed". */
  predicate Sane(r: PhaseResult) {
    r.error.Some? ==> !r.error.value.NotYetExecuted?
  }

  predicate SaneProgress(at: Progress) {
    match at
    case Concluding(r) => Sane(r)
    case Published(r) => Sane(r)
    case _ => true
  }

  /**
   * A running phase has its progress, a finished one its result, and neither speaks of a dependency
   * not yet executed.
   */
  ghost predicate Housekept(c: CharterState, o: string)
    requires o in c.exec.stage
  {
    var st := c.exec.stage[o];
    && !st.Raising? && !st.Unwinding? && (o in c.shared ==> Sane(c.shared[o]))
    && (st.Running? ==> o in c.progress && SaneProgress(c.progress[o]) && (c.progress[o].Published? ==> o in c.shared))
    && (st.Recorded? || st.Released? || st.Done? ==> o in c.shared)
  }

  ghost predicate HouseInv(job: Job, limit: Option<nat>, c: CharterState) {
    && Executor.Inv(PlanOf(job), limit, c.exec) && c.shared.Keys <= job.phases.Keys
    && forall o :: o in job.phases ==> Housekept(c, o)
  }

  /** With its dependencies published, a phase takes no step towards the "not yet executed" error. */
  lemma AdvanceSane(p: Phase, phrases: Phrases, shared: Shared, at: Progress)
    requires SaneProgress(at) && forall d :: d in PhaseDeps(p.requires_) ==> d in shared
    ensures SaneProgress(Advance(p, phrases, shared, at))
  {
    if at.Gates? && at.next < |p.requires_| && p.requires_[at.next].PhaseRef? {
      PhaseDepsMember(p.requires_, p.requires_[at.next].phase);
      assert p.requires_[at.next].phase in PhaseDeps(p.requires_);
    }
  }

  lemma RunningSeesDeps(job: Job, limit: Option<nat>, c: CharterState, o: string)
    requires HouseInv(job, limit, c) && o in job.phases && o in c.exec.stage && c.exec.stage[o].Running?
    ensures forall d :: d in PhaseDeps(job.phases[o].requires_) ==> d in c.shared
  {
    assert Executor.TaskOk(PlanOf(job)[o], c.exec, o);
    forall d | d in PhaseDeps(job.phases[o].requires_) ensures d in c.shared {
      assert d in PlanOf(job)[o] && d in c.exec.signalled;
      assert Executor.TaskOk(PlanOf(job)[d], c.exec, d) && Housekept(c, d);
    }
  }

  lemma HousekeptNext(job: Job, phrases: Phrases, c: CharterState, a: CharterAction, o: string)
    requires c.exec.stage.Keys == job.phases.Keys && o in job.phases && Housekept(c, o) && Enabled(c, a)
    requires a.Work? && a.name == o ==> SaneProgress(Advance(job.phases[o], phrases, c.shared, c.progress[o]))
    ensures o in Next(job, phrases, c, a).exec.stage && Housekept(Next(job, phrases, c, a), o)
  {
  }

  lemma HouseExec(job: Job, phrases: Phrases, limit: Option<nat>, c: CharterState, a: CharterAction)
    requires HouseInv(job, limit, c) && Enabled(c, a)
    ensures Executor.Inv(PlanOf(job), limit, Next(job, phrases, c, a).exec)
    ensures Next(job, phrases, c, a).shared.Keys <= job.phases.Keys
  {
    match a
    case Sched(step) => Executor.StepInv(PlanOf(job), limit, c.exec, step);
    case Work(_) =>
    case Return(o) =>
      Executor.StepInv(PlanOf(job), limit, c.exec, Executor.Invoke(o, Executor.Completed(c.progress[o].result)));
  }

  lemma HouseStep(job: Job, phrases: Phrases, limit: Option<nat>, c: CharterState, a: CharterAction)
    requires HouseInv(job, limit, c) && Enabled(c, a)
    ensures HouseInv(job, limit, Next(job, phrases, c, a))
  {
    HouseExec(job, phrases, limit, c, a);
    forall o | o in job.phases ensures Housekept(Next(job, phrases, c, a), o) {
      if a.Work? && a.name == o {
        RunningSeesDeps(job, limit, c, o);
        AdvanceSane(job.phases[o], phrases, c.shared, c.progress[o]);
      }
      HousekeptNext(job, phrases, c, a, o);
    }
  }

  lemma {:induction false} RunHouse(job: Job, phrases: Phrases, limit: Option<nat>, states: seq<CharterState>,
                                    actions: seq<CharterAction>, i: nat)
    requires Run(job, phrases, limit, states, actions) && i < |states|
    ensures HouseInv(job, limit, states[i])
  {
    if i == 0 {
      Executor.InitialInv<string, PhaseResult>(PlanOf(job), limit);
    } else {
      RunHouse(job, phrases, limit, states, actions, i - 1);
      HouseStep(job, phrases, limit, states[i - 1], actions[i - 1]);
    }
  }

  /** Some step is enabled until every phase's task is done. */
  lemma NoDeadlock(job: Job, limit: Option<nat>, c: CharterState) returns (a: CharterAction)
    requires WellFormed(job) && HouseInv(job, limit, c) && (limit.Some? ==> limit.value >= 1)
    requires !Executor.AllDone(c.exec)
    ensures Enabled(c, a)
  {
    PlanFits(job);
    var step := Executor.NoDeadlock(PlanOf(job), limit, c.exec, Executor.Failed(""));
    if step.Invoke? {
      assert Housekept(c, step.op);
      a := if c.progress[step.op].Published? then Return(step.op) else Work(step.op);
    } else {
      a := Sched(step);
    }
  }

  /** Every run of every job, calm or not, that cannot go on has finished every phase. */
  lemma StuckIsDone(job: Job, phrases: Phrases, maxConcurrent: Option<nat>, states: seq<CharterState>,
                    actions: seq<CharterAction>)
    requires WellFormed(job) && Run(job, phrases, Executor.Limiter(maxConcurrent), states, actions)
    requires Stuck(states[|actions|])
    ensures Executor.AllDone(states[|actions|].exec) && states[|actions|].shared.Keys == job.phases.Keys
  {
    var last, limit := states[|actions|], Executor.Limiter(maxConcurrent);
    RunHouse(job, phrases, limit, states, actions, |actions|);
    if !Executor.AllDone(last.exec) {
      var a := NoDeadlock(job, limit, last);
    }
    forall o | o in job.phases ensures o in last.shared {
      assert Housekept(last, o);
    }
  }

  /** No phase, in any state of any run, has failed because a dependency was "not yet executed". */
  lemma UnexecutedUnreachable(job: Job, phrases: Phrases, limit: Option<nat>, states: seq<CharterState>,
                              actions: seq<CharterAction>, i: nat, o: string)
    requires Run(job, phrases, limit, states, actions) && i < |states| && o in states[i].shared
    ensures Sane(states[i].shared[o])
  {
    RunHouse(job, phrases, limit, states, actions, i);
    assert Housekept(states[i], o);
  }

  // ------------------------------------------------------------------ termination

  ghost function PhaseWeight(p: Phase, stage: Executor.Stage<string>, progress: map<string, Progress>): nat {
    match stage
    case Waiting(_) => Executor.Weight(stage) + StepsLeft(p, START)
    case Ready => Executor.Weight(stage) + StepsLeft(p, START)
    case Running => Executor.Weight(stage) + if p.name in progress then StepsLeft(p, progress[p.name]) else 0
    case _ => Executor.Weight(stage)
  }

  ghost function Weights(job: Job, c: CharterState): map<string, nat>
    requires c.exec.stage.Keys == job.phases.Keys
  {
    map o | o in job.phases :: PhaseWeight(job.phases[o], c.exec.stage[o], c.progress)
  }

  ghost function Mover(a: CharterAction): string {
    match a
    case Sched(step) => step.op
    case Work(name) => name
    case Return(name) => name
  }

  /** A step makes its own phase lighter. */
  lemma SchedLighter(job: Job, phrases: Phrases, c: CharterState, step: Executor.Action<string, PhaseResult>)
    requires WellFormed(job) && c.exec.stage.Keys == job.phases.Keys && Enabled(c, Sched(step))
    ensures Lightened(job, phrases, c, Sched(step))
  {
    Executor.StepWeight(c.exec, step);
  }

  lemma ReturnLighter(job: Job, phrases: Phrases, c: CharterState, name: string)
    requires WellFormed(job) && c.exec.stage.Keys == job.phases.Keys && Enabled(c, Return(name))
    ensures Lightened(job, phrases, c, Return(name))
  {
    Executor.StepWeight(c.exec, Executor.Invoke(name, Executor.Completed(c.progress[name].result)));
  }

  lemma WorkLighter(job: Job, phrases: Phrases, c: CharterState, name: string)
    requires WellFormed(job) && c.exec.stage.Keys == job.phases.Keys && Enabled(c, Work(name))
    ensures Lightened(job, phrases, c, Work(name))
  {
  }

  /** A step keeps the tasks and makes the phase it moves lighter. */
  ghost predicate Lightened(job: Job, phrases: Phrases, c: CharterState, a: CharterAction)
    requires Enabled(c, a) && c.exec.stage.Keys == job.phases.Keys
  {
    var c', o := Next(job, phrases, c, a), Mover(a);
    && c'.exec.stage.Keys == job.phases.Keys && o in job.phases && o in c.exec.stage
    && PhaseWeight(job.phases[o], c'.exec.stage[o], c'.progress) <
       PhaseWeight(job.phases[o], c.exec.stage[o], c.progress)
  }

  lemma MoverLighter(job: Job, phrases: Phrases, c: CharterState, a: CharterAction)
    requires WellFormed(job) && c.exec.stage.Keys == job.phases.Keys && Enabled(c, a)
    ensures Lightened(job, phrases, c, a)
  {
    match a
    case Sched(step) => SchedLighter(job, phrases, c, step);
    case Return(name) => ReturnLighter(job, phrases, c, name);
    case Work(name) => WorkLighter(job, phrases, c, name);
  }

  /** A step leaves the weight of every other phase alone. */
  lemma OthersAsHeavy(job: Job, phrases: Phrases, c: CharterState, a: CharterAction, q: string)
    requires WellFormed(job) && c.exec.stage.Keys == job.phases.Keys && Enabled(c, a) && q in job.phases
    requires q != Mover(a)
    ensures var c' := Next(job, phrases, c, a);
      && q in c'.exec.stage
      && PhaseWeight(job.phases[q], c'.exec.stage[q], c'.progress) ==
         PhaseWeight(job.phases[q], c.exec.stage[q], c.progress)
  {
  }

  lemma StepWeight(job: Job, phrases: Phrases, c: CharterState, a: CharterAction)
    requires WellFormed(job) && c.exec.stage.Keys == job.phases.Keys && Enabled(c, a)
    ensures Next(job, phrases, c, a).exec.stage.Keys == job.phases.Keys
    ensures var w, w' := Weights(job, c), Weights(job, Next(job, phrases, c, a));
      Mover(a) in w' && w' == w[Mover(a) := w'[Mover(a)]] && w'[Mover(a)] < w[Mover(a)]
  {
    MoverLighter(job, phrases, c, a);
    var w, w' := Weights(job, c), Weights(job, Next(job, phrases, c, a));
    forall q | q in job.phases && q != Mover(a) ensures w'[q] == w[q] {
      OthersAsHeavy(job, phrases, c, a, q);
    }
  }

  lemma StepWork(job: Job, phrases: Phrases, names: seq<string>, c: CharterState, a: CharterAction)
    requires WellFormed(job) && c.exec.stage.Keys == job.phases.Keys && Enabled(c, a)
    requires NoDuplicates(names) && Elems(names) == job.phases.Keys
    ensures Next(job, phrases, c, a).exec.stage.Keys == job.phases.Keys
    ensures Total(names, Weights(job, Next(job, phrases, c, a))) < Total(names, Weights(job, c))
  {
    StepWeight(job, phrases, c, a);
    TotalDrops(names, Weights(job, c), Weights(job, Next(job, phrases, c, a)), Mover(a));
  }

  /** Every run is finite: over any listing of the phases, it is no longer than the weight of its first state. */
  lemma {:induction false} RunsAreBounded(job: Job, phrases: Phrases, limit: Option<nat>, states: seq<CharterState>,
                                         actions: seq<CharterAction>, names: seq<string>, i: nat)
    requires WellFormed(job) && Run(job, phrases, limit, states, actions) && i < |states|
    requires NoDuplicates(names) && Elems(names) == job.phases.Keys
    ensures i + Total(names, Weights(job, states[i])) <= Total(names, Weights(job, states[0]))
  {
    if i > 0 {
      RunsAreBounded(job, phrases, limit, states, actions, names, i - 1);
      StepWork(job, phrases, names, states[i - 1], actions[i - 1]);
    }
  }

  // ------------------------------------------------------------------ refinement of the sequential evaluation

  ghost predicate Schedule(job: Job, order: seq<string>) {
    NoDuplicates(order) && SourcesFirst(job.edges, order) && Elems(order) == job.phases.Keys
  }

  ghost predicate Lists(job: Job, order: seq<string>) {
    forall i :: 0 <= i < |order| ==> order[i] in job.phases
  }

  lemma ScheduleLists(job: Job, order: seq<string>)
    requires Schedule(job, order)
    ensures Lists(job, order)
  {
    forall i | 0 <= i < |order| ensures order[i] in job.phases {
      assert order[i] in Elems(order);
    }
  }

  lemma {:induction false} SequentialKeys(phases: map<string, Phase>, phrases: Phrases, order: seq<string>)
    requires forall i :: 0 <= i < |order| ==> order[i] in phases
    ensures Sequential(phases, phrases, order).Keys == Elems(order)
  {
    if order != [] {
      var n := |order| - 1;
      SequentialKeys(phases, phrases, order[..n]);
      ElemsAppend(order[..n], order[n]);
      assert order == order[..n] + [order[n]];
    }
  }

  lemma SequentialNext(phases: map<string, Phase>, phrases: Phrases, order: seq<string>, k: nat)
    requires k < |order| && forall i :: 0 <= i < |order| ==> order[i] in phases
    ensures var before := Sequential(phases, phrases, order[..k]);
      Sequential(phases, phrases, order[..k + 1]) == before[order[k] := EvalPhase(phases[order[k]], phrases, before)]
  {
    assert order[..k + 1][..k] == order[..k];
  }

  /** In a schedule, all ancestors of a phase come before it, and it comes before none of them. */
  lemma ScheduledBefore(job: Job, order: seq<string>, k: nat)
    requires Schedule(job, order) && k < |order|
    ensures order[k] !in Elems(order[..k]) && forall a :: Reaches(job.edges, a, order[k]) ==> a in Elems(order[..k])
  {
    forall a | Reaches(job.edges, a, order[k]) ensures a in Elems(order[..k]) {
      var i := ReachesBefore(job.edges, order, a, k);
      assert order[..k][i] == a;
    }
  }

  /** In a schedule, the results so far look to the next phase like those of its ancestors. */
  lemma PrefixAlike(job: Job, phrases: Phrases, order: seq<string>, k: nat, prefix: Shared)
    requires WellFormed(job) && Calm(job) && Schedule(job, order) && k < |order|
    requires prefix.Keys == Elems(order[..k]) && Tight(job, phrases, prefix)
    ensures order[k] in job.phases && Alike(job.phases[order[k]], prefix, Ancestry(job.edges, order[k], prefix))
  {
    var o := order[k];
    ScheduleLists(job, order);
    ScheduledBefore(job, order, k);
    forall d | d in PhaseDeps(job.phases[o].requires_) ensures Reaches(job.edges, d, o) {
      assert (d, o) in job.edges;
      EdgeReaches(job.edges, d, o);
    }
    if UsesAllPassed(job.phases[o]) {
      CalmView(job, phrases, prefix, o);
    }
  }

  /** Adding a phase's result to those of its ancestors keeps them tight. */
  lemma TightGrows(job: Job, phrases: Phrases, m: Shared, o: string, r: PhaseResult)
    requires WellFormed(job) && Tight(job, phrases, m) && o in job.phases && o !in m
    requires (forall a :: Reaches(job.edges, a, o) ==> a in m) && r == Target(job, phrases, m, o)
    ensures Tight(job, phrases, m[o := r])
  {
    var n := m[o := r];
    forall q | q in n ensures TightAt(job, phrases, n, q) {
      if q != o {
        assert TightAt(job, phrases, m, q);
      }
      assert !Reaches(job.edges, o, q);
      assert Ancestry(job.edges, q, n) == Ancestry(job.edges, q, m);
    }
  }

  /** Sequential evaluation along a schedule gives each phase what its ancestors' results determine. */
  lemma TightNext(job: Job, phrases: Phrases, order: seq<string>, k: nat, m: Shared)
    requires WellFormed(job) && Calm(job) && Schedule(job, order) && Lists(job, order) && k < |order|
    requires m == Sequential(job.phases, phrases, order[..k]) && Tight(job, phrases, m)
    ensures Tight(job, phrases, m[order[k] := EvalPhase(job.phases[order[k]], phrases, m)])
  {
    var o := order[k];
    SequentialKeys(job.phases, phrases, order[..k]);
    PrefixAlike(job, phrases, order, k, m);
    ConcludeAlike(job.phases[o], phrases, m, Ancestry(job.edges, o, m), START);
    ScheduledBefore(job, order, k);
    TightGrows(job, phrases, m, o, EvalPhase(job.phases[o], phrases, m));
  }

  lemma {:induction false} SequentialTight(job: Job, phrases: Phrases, order: seq<string>, k: nat)
    requires WellFormed(job) && Calm(job) && Schedule(job, order) && Lists(job, order) && k <= |order|
    ensures Tight(job, phrases, Sequential(job.phases, phrases, order[..k]))
  {
    if k > 0 {
      SequentialTight(job, phrases, order, k - 1);
      TightNext(job, phrases, order, k - 1, Sequential(job.phases, phrases, order[..k - 1]));
      SequentialNext(job.phases, phrases, order, k - 1);
    }
  }

  /** Complete tight results are those of sequential evaluation along any schedule. */
  lemma TightIsSequential(job: Job, phrases: Phrases, order: seq<string>, m: Shared)
    requires WellFormed(job) && Calm(job) && Schedule(job, order) && Tight(job, phrases, m) && m.Keys == job.phases.Keys
    ensures Lists(job, order) && m == Sequential(job.phases, phrases, order)
  {
    ScheduleLists(job, order);
    SequentialTight(job, phrases, order, |order|);
    SequentialKeys(job.phases, phrases, order);
    assert order[..|order|] == order;
    TightUnique(job, phrases, m, Sequential(job.phases, phrases, order));
  }

  ghost predicate Stuck(c: CharterState) {
    forall a :: !Enabled(c, a)
  }

  /**
   * The refinement: under every concurrency limit, every run that cannot go on has published for
   * every phase exactly the result of running the phases one after another in `order`, returned
   * the same results, and recorded no error.
   */
  lemma EveryRunIsSequential(job: Job, phrases: Phrases, order: seq<string>, maxConcurrent: Option<nat>,
                             states: seq<CharterState>, actions: seq<CharterAction>)
    requires WellFormed(job) && Calm(job) && Schedule(job, order)
    requires Run(job, phrases, Executor.Limiter(maxConcurrent), states, actions) && Stuck(states[|actions|])
    ensures Lists(job, order)
    ensures var last := states[|actions|];
      && Executor.AllDone(last.exec)
      && last.shared == Sequential(job.phases, phrases, order)
      && last.exec.results == last.shared && last.exec.errors == map[]
  {
    var last, limit := states[|actions|], Executor.Limiter(maxConcurrent);
    RunInv(job, phrases, limit, states, actions, |actions|);
    StuckIsDone(job, phrases, maxConcurrent, states, actions);
    FinalState(job, phrases, limit, last);
    PublishedIsTight(job, phrases, limit, last);
    TightIsSequential(job, phrases, order, last.shared);
  }

  lemma FinalPhase(job: Job, phrases: Phrases, c: CharterState, o: string)
    requires o in job.phases && o in c.exec.stage && c.exec.stage[o].Done? && PhaseOk(job, phrases, c, o)
    ensures o in c.shared && o in c.exec.results && c.exec.results[o] == c.shared[o]
  {
  }

  lemma FinalState(job: Job, phrases: Phrases, limit: Option<nat>, c: CharterState)
    requires CharterInv(job, phrases, limit, c) && Executor.AllDone(c.exec)
    ensures c.shared.Keys == job.phases.Keys && c.exec.results == c.shared && c.exec.errors == map[]
  {
    var keys := job.phases.Keys;
    assert PlanOf(job).Keys == keys;
    Executor.FinalBooks(PlanOf(job), limit, c.exec);
    forall o | o in keys ensures o in c.shared && o in c.exec.results && c.exec.results[o] == c.shared[o] {
      FinalPhase(job, phrases, c, o);
    }
    SameResults(keys, c.shared, c.exec.results, c.exec.errors);
  }

  lemma SameResults(keys: set<string>, shared: Shared, results: map<string, PhaseResult>, errors: map<string, string>)
    requires results.Keys + errors.Keys == keys && results.Keys !! errors.Keys && shared.Keys <= keys
    requires forall o :: o in keys ==> o in shared && o in results && results[o] == shared[o]
    ensures shared.Keys == keys && results == shared && errors == map[]
  {
    assert results.Keys == keys;
    assert errors.Keys == {};
  }

  // ------------------------------------------------------------------ compiled workflows

  /** The job a compiled workflow becomes. */
  ghost function JobOf(w: Workflow): Job {
    Job(map n | n in PhaseNames(w.phases) && FindPhase(w.phases, n).Some? :: FindPhase(w.phases, n).value,
        DependencyEdges(w))
  }

  /** What the resolver accepts is a well-formed job, and the order it returns is a schedule of it. */
  lemma CompiledIsScheduled(w: Workflow, order: seq<string>)
    requires Compiled(w, order)
    ensures WellFormed(JobOf(w)) && Schedule(JobOf(w), order)
  {
    var job := JobOf(w);
    OrderAcyclic(w, order);
    assert job.phases.Keys == PhaseNames(w.phases) by {
      forall n | n in PhaseNames(w.phases) ensures FindPhase(w.phases, n).Some? {
      }
    }
    forall d, n ensures (d, n) in job.edges <==> n in job.phases && d in PhaseDeps(job.phases[n].requires_) {
      EdgesAreDeps(w, (d, n));
    }
    forall d, n | (d, n) in job.edges ensures d in job.phases {
      ReferencesNames(PhaseNames(w.phases), w.phases);
    }
  }

  /** The plan is what the graph built from the workflow gives: each phase waits for the phases it requires. */
  lemma PlanIsBuilt(w: Workflow, order: seq<string>)
    requires Compiled(w, order)
    ensures PlanOf(JobOf(w)) == RequiredPhases(w)
  {
    forall n | n in PhaseNames(w.phases) ensures n in JobOf(w).phases {
      assert FindPhase(w.phases, n).Some?;
    }
  }

  /**
   * The pipeline: for every workflow the resolver accepts, in which every phase unordered with one
   * that asks for `all_phases_passed` is silent, every maximal run under every concurrency limit ends
   * with the results of running the phases one after another in `phase_order`, and no gate ever
   * reports a dependency as "not yet executed".
   */
  lemma CompiledRunsAreSequential(w: Workflow, order: seq<string>, phrases: Phrases, maxConcurrent: Option<nat>,
                                  states: seq<CharterState>, actions: seq<CharterAction>)
    requires Compiled(w, order) && Calm(JobOf(w))
    requires Run(JobOf(w), phrases, Executor.Limiter(maxConcurrent), states, actions) && Stuck(states[|actions|])
    ensures Lists(JobOf(w), order)
    ensures states[|actions|].shared == Sequential(JobOf(w).phases, phrases, order)
    ensures states[|actions|].exec.results == states[|actions|].shared && states[|actions|].exec.errors == map[]
    ensures forall i, o :: 0 <= i < |states| && o in states[i].shared ==> Sane(states[i].shared[o])
  {
    CompiledIsScheduled(w, order);
    EveryRunIsSequential(JobOf(w), phrases, order, maxConcurrent, states, actions);
    forall i, o | 0 <= i < |states| && o in states[i].shared ensures Sane(states[i].shared[o]) {
      UnexecutedUnreachable(JobOf(w), phrases, Executor.Limiter(maxConcurrent), states, actions, i, o);
    }
  }

  /** Any two schedules of a calm job give the same results. */
  lemma OrderIndependence(job: Job, phrases: Phrases, one: seq<string>, two: seq<string>)
    requires WellFormed(job) && Calm(job) && Schedule(job, one) && Schedule(job, two)
    ensures Lists(job, one) && Lists(job, two)
    ensures Sequential(job.phases, phrases, one) == Sequential(job.phases, phrases, two)
  {
    ScheduleLists(job, one);
    SequentialTight(job, phrases, one, |one|);
    SequentialKeys(job.phases, phrases, one);
    assert one[..|one|] == one;
    TightIsSequential(job, phrases, two, Sequential(job.phases, phrases, one));
  }
}
