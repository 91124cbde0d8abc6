/**
 * When a phase passes, which error it reports otherwise and what it records, said without its
 * evaluation; and what follows for whole runs: a failure reaches everything that depends on it.
 */
module PhaseVerdict {
  import opened Options
  import opened CharterAst
  import opened Digraph
  import opened CharterExecutor
  import Executor

  // ------------------------------------------------------------------ what can stop a phase

  /** An answer with a gate field that is false. */
  predicate Refuses(v: PhraseValue) {
    v.Verdict? && Some(false) in {v.verified, v.satisfied}
  }

  /** The k-th require raises the error against the given results. */
  ghost predicate RequireStops(p: Phase, phrases: Phrases, shared: Shared, k: nat, error: PhaseError)
    requires k < |p.requires_|
  {
    var answer := phrases(CallSite(p.name, false, k));
    match p.requires_[k]
    case PhaseRef(phase, _) =>
      if phase in shared then !shared[phase].passed && error == DidNotPass(phase) else error == NotYetExecuted(phase)
    case FeatureRef(call) =>
      || (answer.Threw? && error == Exception(answer.message))
      || (answer.Returned? && Refuses(answer.value) && error == NotSatisfied(call.name))
    case BuiltinRef(name) =>
      name == "all_phases_passed" && (exists q :: q in shared && !shared[q].passed) && error == NotAllPassed
    case AwaitRef(_) => false
  }

  /** The k-th action raises the error: its feature is not there, or it throws. */
  ghost predicate ActionStops(p: Phase, phrases: Phrases, k: nat, error: PhaseError)
    requires k < |p.actions|
  {
    var answer := phrases(CallSite(p.name, true, k));
    || (answer.Unresolved? && error == FeatureMissing(p.actions[k].name))
    || (answer.Threw? && error == Exception(answer.message))
  }

  ghost predicate RequireClear(p: Phase, phrases: Phrases, shared: Shared, k: nat)
    requires k < |p.requires_|
  {
    forall error :: !RequireStops(p, phrases, shared, k, error)
  }

  ghost predicate ActionClear(p: Phase, phrases: Phrases, k: nat)
    requires k < |p.actions|
  {
    forall error :: !ActionStops(p, phrases, k, error)
  }

  ghost predicate GatesClear(p: Phase, phrases: Phrases, shared: Shared, n: nat)
    requires n <= |p.requires_|
  {
    forall j :: 0 <= j < n ==> RequireClear(p, phrases, shared, j)
  }

  ghost predicate ActionsClear(p: Phase, phrases: Phrases, n: nat)
    requires n <= |p.actions|
  {
    forall j :: 0 <= j < n ==> ActionClear(p, phrases, j)
  }

  /** The k-th require is the first to stop the phase, with this error. */
  ghost predicate FirstGate(p: Phase, phrases: Phrases, shared: Shared, k: nat, error: PhaseError) {
    k < |p.requires_| && RequireStops(p, phrases, shared, k, error) && GatesClear(p, phrases, shared, k)
  }

  /** No require stops the phase, and the k-th action is the first to do so. */
  ghost predicate FirstAction(p: Phase, phrases: Phrases, shared: Shared, k: nat, error: PhaseError) {
    && k < |p.actions| && ActionStops(p, phrases, k, error) && ActionsClear(p, phrases, k)
    && GatesClear(p, phrases, shared, |p.requires_|)
  }

  // ------------------------------------------------------------------ what a phase records

  /** What the k-th require leaves under which key: an answer also when it is a refusal. */
  ghost function Note(p: Phase, phrases: Phrases, shared: Shared, k: nat): Option<(string, RequireRecord)> {
    if k >= |p.requires_| then None
    else
      match p.requires_[k]
      case PhaseRef(phase, condition) =>
        if phase in shared && shared[phase].passed then Some((phase + "." + condition, Passed)) else None
      case FeatureRef(call) =>
        (match phrases(CallSite(p.name, false, k))
         case Unresolved => Some((call.name, CompileValidatedOnly))
         case Returned(value) => Some((call.name, Answer(value)))
         case Threw(_) => None)
      case BuiltinRef(name) =>
        if name != ALL_PHASES_PASSED then Some((name, UnknownBuiltin))
        else if AllPassed(shared) then Some((name, Passed)) else None
      case AwaitRef(_) => None
  }

  ghost function Output(p: Phase, phrases: Phrases, k: nat): Option<(string, PhraseValue)> {
    if k < |p.actions| && phrases(CallSite(p.name, true, k)).Returned?
    then Some((p.actions[k].name, phrases(CallSite(p.name, true, k)).value)) else None
  }

  /** The j-th of the first n notes is the last one under its key. */
  ghost predicate LastNote<V>(note: nat -> Option<(string, V)>, n: nat, j: nat, key: string, value: V) {
    j < n && note(j) == Some((key, value)) && forall i: nat :: j < i < n ==> note(i).None? || note(i).value.0 != key
  }

  ghost predicate Latest<V>(note: nat -> Option<(string, V)>, n: nat, key: string, value: V) {
    exists j: nat :: LastNote(note, n, j, key, value)
  }

  ghost predicate Holds<V>(m: map<string, V>, key: string, value: V) {
    key in m && m[key] == value
  }

  /** The map holds exactly the first n notes, later ones over earlier ones. */
  ghost predicate Written<V(!new)>(note: nat -> Option<(string, V)>, n: nat, m: map<string, V>) {
    forall key, value :: Holds(m, key, value) <==> Latest(note, n, key, value)
  }

  lemma LatestNext<V(!new)>(note: nat -> Option<(string, V)>, n: nat, key: string, value: V)
    ensures Latest(note, n + 1, key, value) <==>
            if note(n).Some? && note(n).value.0 == key then note(n).value.1 == value else Latest(note, n, key, value)
  {
    if note(n).Some? && note(n).value.0 == key {
      if note(n).value.1 == value {
        assert LastNote(note, n + 1, n, key, value);
      }
    } else {
      if Latest(note, n, key, value) {
        var j: nat :| LastNote(note, n, j, key, value);
        assert LastNote(note, n + 1, j, key, value);
      }
      if Latest(note, n + 1, key, value) {
        var j: nat :| LastNote(note, n + 1, j, key, value);
        assert LastNote(note, n, j, key, value);
      }
    }
  }

  lemma WrittenNext<V(!new)>(note: nat -> Option<(string, V)>, n: nat, m: map<string, V>)
    requires Written(note, n, m)
    ensures Written(note, n + 1, if note(n).Some? then m[note(n).value.0 := note(n).value.1] else m)
  {
    var m' := if note(n).Some? then m[note(n).value.0 := note(n).value.1] else m;
    forall key, value ensures Holds(m', key, value) <==> Latest(note, n + 1, key, value) {
      LatestNext(note, n, key, value);
      assert Holds(m, key, value) <==> Latest(note, n, key, value);
    }
  }

  // ------------------------------------------------------------------ the evaluation

  ghost predicate NotesAre(p: Phase, phrases: Phrases, shared: Shared, n: nat, rr: map<string, RequireRecord>) {
    Written(k => Note(p, phrases, shared, k), n, rr)
  }

  ghost predicate OutputsAre(p: Phase, phrases: Phrases, n: nat, ar: map<string, PhraseValue>) {
    Written(k => Output(p, phrases, k), n, ar)
  }

  /** The result of a phase that its k-th require stops, that its k-th action stops, or that nothing stops. */
  ghost predicate StoppedAtGate(p: Phase, phrases: Phrases, shared: Shared, k: nat, r: PhaseResult) {
    && !r.passed && r.error.Some? && FirstGate(p, phrases, shared, k, r.error.value)
    && NotesAre(p, phrases, shared, k + 1, r.requireResults) && r.actionResults == map[]
  }

  ghost predicate StoppedAtAction(p: Phase, phrases: Phrases, shared: Shared, k: nat, r: PhaseResult) {
    && !r.passed && r.error.Some? && FirstAction(p, phrases, shared, k, r.error.value)
    && NotesAre(p, phrases, shared, |p.requires_|, r.requireResults) && OutputsAre(p, phrases, k, r.actionResults)
  }

  ghost predicate WentThrough(p: Phase, phrases: Phrases, shared: Shared, r: PhaseResult) {
    && r.passed && r.error.None?
    && GatesClear(p, phrases, shared, |p.requires_|) && ActionsClear(p, phrases, |p.actions|)
    && NotesAre(p, phrases, shared, |p.requires_|, r.requireResults)
    && OutputsAre(p, phrases, |p.actions|, r.actionResults)
  }

  /** The result is the one the phase's requires and actions call for. */
  ghost predicate Verdict(p: Phase, phrases: Phrases, shared: Shared, r: PhaseResult) {
    && r.phaseName == p.name
    && (|| WentThrough(p, phrases, shared, r)
        || (exists k: nat :: StoppedAtGate(p, phrases, shared, k, r))
        || (exists k: nat :: StoppedAtAction(p, phrases, shared, k, r)))
  }

  /** One require: clear and noted, or stopping. */
  lemma GateStep(p: Phase, phrases: Phrases, shared: Shared, k: nat, rr: map<string, RequireRecord>)
    requires k < |p.requires_| && NotesAre(p, phrases, shared, k, rr)
    ensures var gate := EvalRequire(p.requires_[k], CallSite(p.name, false, k), phrases, shared, rr);
      && NotesAre(p, phrases, shared, k + 1, gate.results)
      && (gate.Open? ==> RequireClear(p, phrases, shared, k))
      && (gate.Blocked? ==> RequireStops(p, phrases, shared, k, gate.error))
  {
    WrittenNext(j => Note(p, phrases, shared, j), k, rr);
  }

  lemma OutputStep(p: Phase, phrases: Phrases, k: nat, ar: map<string, PhraseValue>)
    requires k < |p.actions| && OutputsAre(p, phrases, k, ar) && phrases(CallSite(p.name, true, k)).Returned?
    ensures OutputsAre(p, phrases, k + 1, ar[p.actions[k].name := phrases(CallSite(p.name, true, k)).value])
    ensures ActionClear(p, phrases, k)
  {
    WrittenNext(j => Output(p, phrases, j), k, ar);
  }

  /** After the last action the phase passes. */
  lemma PassedVerdict(p: Phase, phrases: Phrases, shared: Shared, rr: map<string, RequireRecord>,
                      ar: map<string, PhraseValue>)
    requires GatesClear(p, phrases, shared, |p.requires_|) && ActionsClear(p, phrases, |p.actions|)
    requires NotesAre(p, phrases, shared, |p.requires_|, rr) && OutputsAre(p, phrases, |p.actions|, ar)
    ensures Verdict(p, phrases, shared, Conclude(p, phrases, shared, Acting(|p.actions|, rr, ar)))
  {
    var r := PhaseResult(p.name, true, ar, rr, None);
    assert Advance(p, phrases, shared, Acting(|p.actions|, rr, ar)) == Concluding(r);
    assert Conclude(p, phrases, shared, Concluding(r)) == r;
    assert WentThrough(p, phrases, shared, r);
  }

  /** An action that does not return ends the phase. */
  lemma ActionStop(p: Phase, phrases: Phrases, shared: Shared, k: nat, rr: map<string, RequireRecord>,
                   ar: map<string, PhraseValue>)
    requires k < |p.actions| && !phrases(CallSite(p.name, true, k)).Returned?
    requires GatesClear(p, phrases, shared, |p.requires_|) && ActionsClear(p, phrases, k)
    requires NotesAre(p, phrases, shared, |p.requires_|, rr) && OutputsAre(p, phrases, k, ar)
    ensures Verdict(p, phrases, shared, Conclude(p, phrases, shared, Acting(k, rr, ar)))
  {
    var answer := phrases(CallSite(p.name, true, k));
    var error := if answer.Unresolved? then FeatureMissing(p.actions[k].name) else Exception(answer.message);
    var r := Failure(p, error, rr, ar);
    assert Advance(p, phrases, shared, Acting(k, rr, ar)) == Concluding(r);
    assert Conclude(p, phrases, shared, Concluding(r)) == r;
    assert FirstAction(p, phrases, shared, k, error);
    assert StoppedAtAction(p, phrases, shared, k, r);
  }

  lemma {:induction false} ActingVerdict(p: Phase, phrases: Phrases, shared: Shared, k: nat,
                                         rr: map<string, RequireRecord>, ar: map<string, PhraseValue>)
    requires k <= |p.actions| && GatesClear(p, phrases, shared, |p.requires_|) && ActionsClear(p, phrases, k)
    requires NotesAre(p, phrases, shared, |p.requires_|, rr) && OutputsAre(p, phrases, k, ar)
    ensures Verdict(p, phrases, shared, Conclude(p, phrases, shared, Acting(k, rr, ar)))
    decreases |p.actions| - k
  {
    if k == |p.actions| {
      PassedVerdict(p, phrases, shared, rr, ar);
    } else if phrases(CallSite(p.name, true, k)).Returned? {
      OutputStep(p, phrases, k, ar);
      ActingVerdict(p, phrases, shared, k + 1, rr, ar[p.actions[k].name := phrases(CallSite(p.name, true, k)).value]);
    } else {
      ActionStop(p, phrases, shared, k, rr, ar);
    }
  }

  lemma {:induction false} GatesVerdict(p: Phase, phrases: Phrases, shared: Shared, k: nat,
                                        rr: map<string, RequireRecord>)
    requires k <= |p.requires_| && GatesClear(p, phrases, shared, k) && NotesAre(p, phrases, shared, k, rr)
    ensures Verdict(p, phrases, shared, Conclude(p, phrases, shared, Gates(k, rr)))
    decreases |p.requires_| - k
  {
    if k == |p.requires_| {
      ActingVerdict(p, phrases, shared, 0, rr, map[]);
    } else {
      GateStep(p, phrases, shared, k, rr);
      var gate := EvalRequire(p.requires_[k], CallSite(p.name, false, k), phrases, shared, rr);
      if gate.Open? {
        GatesVerdict(p, phrases, shared, k + 1, gate.results);
      } else {
        assert StoppedAtGate(p, phrases, shared, k, Conclude(p, phrases, shared, Gates(k, rr)));
      }
    }
  }

  /**
   * The first require or action that stops a phase decides its error, and if none does, it passes; it
   * has recorded what it came to know up to there.
   */
  lemma EvalVerdict(p: Phase, phrases: Phrases, shared: Shared)
    ensures Verdict(p, phrases, shared, EvalPhase(p, phrases, shared))
  {
    GatesVerdict(p, phrases, shared, 0, map[]);
  }

  /** Evaluates the requires in turn, then runs the actions in turn, and reports the phase's result. */
  method RunPhase(p: Phase, phrases: Phrases, shared: Shared) returns (r: PhaseResult)
    ensures r == EvalPhase(p, phrases, shared) && Verdict(p, phrases, shared, r)
    ensures r.passed <==>
            CallsPass(p, phrases) && DepsPassed(p, shared) && (UsesAllPassed(p) ==> AllPassed(shared))
  {
    EvalVerdict(p, phrases, shared);
    PassesExactly(p, phrases, shared, EvalPhase(p, phrases, shared));
    var rr: map<string, RequireRecord>, ar: map<string, PhraseValue> := map[], map[];
    var k := 0;
    while k < |p.requires_|
      invariant 0 <= k <= |p.requires_|
      invariant EvalPhase(p, phrases, shared) == Conclude(p, phrases, shared, Gates(k, rr))
    {
      var gate := EvalRequire(p.requires_[k], CallSite(p.name, false, k), phrases, shared, rr);
      rr := gate.results;
      if gate.Blocked? {
        return Failure(p, gate.error, rr, ar);
      }
      k := k + 1;
    }
    k := 0;
    while k < |p.actions|
      invariant 0 <= k <= |p.actions|
      invariant EvalPhase(p, phrases, shared) == Conclude(p, phrases, shared, Acting(k, rr, ar))
    {
      match phrases(CallSite(p.name, true, k)) {
        case Unresolved => return Failure(p, FeatureMissing(p.actions[k].name), rr, ar);
        case Threw(message) => return Failure(p, Exception(message), rr, ar);
        case Returned(value) => ar := ar[p.actions[k].name := value];
      }
      k := k + 1;
    }
    return PhaseResult(p.name, true, ar, rr, None);
  }

  ghost predicate DepsPassed(p: Phase, shared: Shared) {
    forall d :: d in PhaseDeps(p.requires_) ==> d in shared && shared[d].passed
  }

  /** A phase passes exactly when its calls do, its dependencies have passed and, if it asks, all phases have. */
  lemma PassesExactly(p: Phase, phrases: Phrases, shared: Shared, r: PhaseResult)
    requires Verdict(p, phrases, shared, r)
    ensures r.passed <==> CallsPass(p, phrases) && DepsPassed(p, shared) && (UsesAllPassed(p) ==> AllPassed(shared))
  {
    if r.passed {
      ClearMeans(p, phrases, shared);
    } else {
      if k: nat :| StoppedAtGate(p, phrases, shared, k, r) {
        GateStops(p, phrases, shared, k, r.error.value);
      } else {
        var k: nat :| StoppedAtAction(p, phrases, shared, k, r);
      }
    }
  }

  /** What it means that a require does not stop the phase. */
  lemma ClearGate(p: Phase, phrases: Phrases, shared: Shared, k: nat)
    requires k < |p.requires_| && RequireClear(p, phrases, shared, k)
    ensures match p.requires_[k]
      case PhaseRef(phase, _) => phase in shared && shared[phase].passed
      case FeatureRef(_) =>
        var r := phrases(CallSite(p.name, false, k)); !r.Threw? && (r.Returned? ==> !Blocks(r.value))
      case BuiltinRef(name) => name == ALL_PHASES_PASSED ==> AllPassed(shared)
      case AwaitRef(_) => true
  {
    match p.requires_[k]
    case PhaseRef(phase, _) =>
      assert !RequireStops(p, phrases, shared, k, DidNotPass(phase));
      assert !RequireStops(p, phrases, shared, k, NotYetExecuted(phase));
    case FeatureRef(call) =>
      var r := phrases(CallSite(p.name, false, k));
      assert r.Threw? ==> !RequireStops(p, phrases, shared, k, Exception(r.message));
      assert !RequireStops(p, phrases, shared, k, NotSatisfied(call.name));
    case BuiltinRef(_) => assert !RequireStops(p, phrases, shared, k, NotAllPassed);
    case AwaitRef(_) =>
  }

  lemma ClearAction(p: Phase, phrases: Phrases, k: nat)
    requires k < |p.actions| && ActionClear(p, phrases, k)
    ensures phrases(CallSite(p.name, true, k)).Returned?
  {
    var r := phrases(CallSite(p.name, true, k));
    assert !ActionStops(p, phrases, k, FeatureMissing(p.actions[k].name));
    assert r.Threw? ==> !ActionStops(p, phrases, k, Exception(r.message));
  }

  lemma ClearMeans(p: Phase, phrases: Phrases, shared: Shared)
    requires GatesClear(p, phrases, shared, |p.requires_|) && ActionsClear(p, phrases, |p.actions|)
    ensures CallsPass(p, phrases) && DepsPassed(p, shared) && (UsesAllPassed(p) ==> AllPassed(shared))
  {
    forall d | d in PhaseDeps(p.requires_) ensures d in shared && shared[d].passed {
      PhaseDepsMember(p.requires_, d);
      var i :| 0 <= i < |p.requires_| && p.requires_[i].PhaseRef? && p.requires_[i].phase == d;
      ClearGate(p, phrases, shared, i);
    }
    if UsesAllPassed(p) {
      var i :| 0 <= i < |p.requires_| && p.requires_[i] == BuiltinRef(ALL_PHASES_PASSED);
      ClearGate(p, phrases, shared, i);
    }
    CallsClear(p, phrases, shared);
  }

  lemma CallsClear(p: Phase, phrases: Phrases, shared: Shared)
    requires GatesClear(p, phrases, shared, |p.requires_|) && ActionsClear(p, phrases, |p.actions|)
    ensures CallsPass(p, phrases)
  {
    forall k | 0 <= k < |p.requires_| && p.requires_[k].FeatureRef?
      ensures var r := phrases(CallSite(p.name, false, k)); !r.Threw? && (r.Returned? ==> !Blocks(r.value))
    {
      ClearGate(p, phrases, shared, k);
    }
    forall k | 0 <= k < |p.actions| ensures phrases(CallSite(p.name, true, k)).Returned? {
      ClearAction(p, phrases, k);
    }
  }

  lemma GateStops(p: Phase, phrases: Phrases, shared: Shared, k: nat, error: PhaseError)
    requires k < |p.requires_| && RequireStops(p, phrases, shared, k, error)
    ensures !(CallsPass(p, phrases) && DepsPassed(p, shared) && (UsesAllPassed(p) ==> AllPassed(shared)))
  {
    if p.requires_[k].PhaseRef? {
      PhaseDepsMember(p.requires_, p.requires_[k].phase);
      assert p.requires_[k].phase in PhaseDeps(p.requires_);
    }
  }

  lemma WrittenUnique<V(!new)>(note: nat -> Option<(string, V)>, n: nat, m: map<string, V>, m': map<string, V>)
    requires Written(note, n, m) && Written(note, n, m')
    ensures m == m'
  {
    forall key | key in m ensures key in m' && m'[key] == m[key] {
      assert Holds(m, key, m[key]) && Latest(note, n, key, m[key]);
    }
    forall key | key in m' ensures key in m {
      assert Holds(m', key, m'[key]) && Latest(note, n, key, m'[key]);
    }
  }

  lemma GateIsClear(p: Phase, phrases: Phrases, shared: Shared, n: nat, k: nat, error: PhaseError)
    requires k < n <= |p.requires_| && GatesClear(p, phrases, shared, n)
    ensures !RequireStops(p, phrases, shared, k, error)
  {
    assert RequireClear(p, phrases, shared, k);
  }

  lemma ActionIsClear(p: Phase, phrases: Phrases, n: nat, k: nat, error: PhaseError)
    requires k < n <= |p.actions| && ActionsClear(p, phrases, n)
    ensures !ActionStops(p, phrases, k, error)
  {
    assert ActionClear(p, phrases, k);
  }

  lemma FirstGateUnique(p: Phase, phrases: Phrases, shared: Shared, k: nat, e: PhaseError, j: nat, f: PhaseError)
    requires FirstGate(p, phrases, shared, k, e) && FirstGate(p, phrases, shared, j, f)
    ensures k == j && e == f
  {
    if k < j {
      GateIsClear(p, phrases, shared, j, k, e);
    } else if j < k {
      GateIsClear(p, phrases, shared, k, j, f);
    }
  }

  lemma FirstActionUnique(p: Phase, phrases: Phrases, shared: Shared, k: nat, e: PhaseError, j: nat, f: PhaseError)
    requires FirstAction(p, phrases, shared, k, e) && FirstAction(p, phrases, shared, j, f)
    ensures k == j && e == f
  {
    if k < j {
      ActionIsClear(p, phrases, j, k, e);
    } else if j < k {
      ActionIsClear(p, phrases, k, j, f);
    }
  }

  /** Nothing else is a verdict: it says which result a phase has. */
  lemma VerdictUnique(p: Phase, phrases: Phrases, shared: Shared, r: PhaseResult, r': PhaseResult)
    requires Verdict(p, phrases, shared, r) && Verdict(p, phrases, shared, r')
    ensures r == r'
  {
    if k: nat :| StoppedAtGate(p, phrases, shared, k, r) {
      assert !GatesClear(p, phrases, shared, |p.requires_|) by {
        assert !RequireClear(p, phrases, shared, k);
      }
      var j: nat :| StoppedAtGate(p, phrases, shared, j, r');
      FirstGateUnique(p, phrases, shared, k, r.error.value, j, r'.error.value);
      WrittenUnique(i => Note(p, phrases, shared, i), k + 1, r.requireResults, r'.requireResults);
    } else if k: nat :| StoppedAtAction(p, phrases, shared, k, r) {
      StoppedActionUnique(p, phrases, shared, k, r, r');
    } else {
      WentThroughUnique(p, phrases, shared, r, r');
    }
  }

  lemma StoppedActionUnique(p: Phase, phrases: Phrases, shared: Shared, k: nat, r: PhaseResult, r': PhaseResult)
    requires r.phaseName == p.name && StoppedAtAction(p, phrases, shared, k, r) && Verdict(p, phrases, shared, r')
    ensures r == r'
  {
    assert !ActionsClear(p, phrases, |p.actions|) by {
      assert !ActionClear(p, phrases, k);
    }
    forall j: nat ensures !StoppedAtGate(p, phrases, shared, j, r') {
      if StoppedAtGate(p, phrases, shared, j, r') {
        GateIsClear(p, phrases, shared, |p.requires_|, j, r'.error.value);
      }
    }
    var j: nat :| StoppedAtAction(p, phrases, shared, j, r');
    FirstActionUnique(p, phrases, shared, k, r.error.value, j, r'.error.value);
    WrittenUnique(i => Note(p, phrases, shared, i), |p.requires_|, r.requireResults, r'.requireResults);
    WrittenUnique(i => Output(p, phrases, i), k, r.actionResults, r'.actionResults);
  }

  lemma WentThroughUnique(p: Phase, phrases: Phrases, shared: Shared, r: PhaseResult, r': PhaseResult)
    requires r.phaseName == p.name && WentThrough(p, phrases, shared, r) && Verdict(p, phrases, shared, r')
    ensures r == r'
  {
    forall j: nat ensures !StoppedAtGate(p, phrases, shared, j, r') && !StoppedAtAction(p, phrases, shared, j, r') {
      if StoppedAtGate(p, phrases, shared, j, r') {
        GateIsClear(p, phrases, shared, |p.requires_|, j, r'.error.value);
      }
      if StoppedAtAction(p, phrases, shared, j, r') {
        ActionIsClear(p, phrases, |p.actions|, j, r'.error.value);
      }
    }
    WrittenUnique(i => Note(p, phrases, shared, i), |p.requires_|, r.requireResults, r'.requireResults);
    WrittenUnique(i => Output(p, phrases, i), |p.actions|, r.actionResults, r'.actionResults);
  }

  // ------------------------------------------------------------------ runs

  /** Require j is no obstacle, whatever the answer to `all_phases_passed`. */
  ghost predicate GatePassed(p: Phase, phrases: Phrases, shared: Shared, j: nat)
    requires j < |p.requires_|
  {
    var r := phrases(CallSite(p.name, false, j));
    match p.requires_[j]
    case PhaseRef(phase, _) => phase in shared && shared[phase].passed
    case FeatureRef(_) => !r.Threw? && (r.Returned? ==> !Blocks(r.value))
    case _ => true
  }

  /** A published result is accounted for by the calls of the phase and the results it depends on. */
  ghost predicate Justified(p: Phase, phrases: Phrases, shared: Shared, r: PhaseResult) {
    if r.passed then CallsPass(p, phrases) && DepsPassed(p, shared)
    else !CallsPass(p, phrases) || !DepsPassed(p, shared) ||
         (UsesAllPassed(p) && r.error == Some(NotAllPassed) && !AllPassed(shared))
  }

  ghost predicate Standing(p: Phase, phrases: Phrases, shared: Shared, at: Progress) {
    match at
    case Gates(k, _) => k <= |p.requires_| && forall j :: 0 <= j < k ==> GatePassed(p, phrases, shared, j)
    case Acting(k, _, _) =>
      && k <= |p.actions| && (forall j :: 0 <= j < |p.requires_| ==> GatePassed(p, phrases, shared, j))
      && forall j :: 0 <= j < k ==> phrases(CallSite(p.name, true, j)).Returned?
    case Concluding(r) => Justified(p, phrases, shared, r)
    case Published(r) => Justified(p, phrases, shared, r)
  }

  lemma GatesPassed(p: Phase, phrases: Phrases, shared: Shared)
    requires forall j :: 0 <= j < |p.requires_| ==> GatePassed(p, phrases, shared, j)
    requires forall j :: 0 <= j < |p.actions| ==> phrases(CallSite(p.name, true, j)).Returned?
    ensures CallsPass(p, phrases) && DepsPassed(p, shared)
  {
    forall d | d in PhaseDeps(p.requires_) ensures d in shared && shared[d].passed {
      PhaseDepsMember(p.requires_, d);
      var i :| 0 <= i < |p.requires_| && p.requires_[i].PhaseRef? && p.requires_[i].phase == d;
      assert GatePassed(p, phrases, shared, i);
    }
    forall k | 0 <= k < |p.requires_| && p.requires_[k].FeatureRef?
      ensures var r := phrases(CallSite(p.name, false, k)); !r.Threw? && (r.Returned? ==> !Blocks(r.value))
    {
      assert GatePassed(p, phrases, shared, k);
    }
  }

  lemma GateBlocked(p: Phase, phrases: Phrases, shared: Shared, k: nat, rr: map<string, RequireRecord>)
    requires k < |p.requires_|
    ensures var gate := EvalRequire(p.requires_[k], CallSite(p.name, false, k), phrases, shared, rr);
      && (gate.Open? ==> GatePassed(p, phrases, shared, k))
      && (gate.Blocked? ==> Justified(p, phrases, shared, Failure(p, gate.error, gate.results, map[])))
  {
    var req := p.requires_[k];
    if req.PhaseRef? {
      PhaseDepsMember(p.requires_, req.phase);
      assert req.phase in PhaseDeps(p.requires_);
    } else if req == BuiltinRef(ALL_PHASES_PASSED) {
      assert UsesAllPassed(p);
    }
  }

  lemma AdvanceStanding(p: Phase, phrases: Phrases, shared: Shared, at: Progress)
    requires Standing(p, phrases, shared, at)
    ensures Standing(p, phrases, shared, Advance(p, phrases, shared, at))
  {
    match at
    case Gates(k, rr) =>
      if k < |p.requires_| {
        GateBlocked(p, phrases, shared, k, rr);
      }
    case Acting(k, rr, ar) =>
      if k == |p.actions| {
        GatesPassed(p, phrases, shared);
      }
    case _ =>
  }

  ghost predicate Extends(s: Shared, t: Shared) {
    forall q :: q in s ==> q in t && t[q] == s[q]
  }

  ghost predicate DepsPublished(p: Phase, shared: Shared) {
    forall d :: d in PhaseDeps(p.requires_) ==> d in shared
  }

  lemma JustifiedGrows(p: Phase, phrases: Phrases, s: Shared, t: Shared, r: PhaseResult)
    requires Justified(p, phrases, s, r) && Extends(s, t) && DepsPublished(p, s)
    ensures Justified(p, phrases, t, r)
  {
  }

  lemma StandingGrows(p: Phase, phrases: Phrases, s: Shared, t: Shared, at: Progress)
    requires Standing(p, phrases, s, at) && Extends(s, t) && DepsPublished(p, s)
    ensures Standing(p, phrases, t, at)
  {
    if at.Concluding? || at.Published? {
      JustifiedGrows(p, phrases, s, t, at.result);
    } else {
      forall j | 0 <= j < |p.requires_| && GatePassed(p, phrases, s, j) ensures GatePassed(p, phrases, t, j) {
      }
    }
  }

  function ProgressOf(c: CharterState, o: string): Option<Progress> {
    if o in c.progress then Some(c.progress[o]) else None
  }

  /** A phase's progress and its published result are accounted for, and it publishes once. */
  ghost predicate Stands(p: Phase, phrases: Phrases, st: Executor.Stage<string>, at: Option<Progress>, shared: Shared,
                         o: string) {
    && (st.Running? && at.Some? ==> Standing(p, phrases, shared, at.value))
    && (o in shared ==> DepsPublished(p, shared) && Justified(p, phrases, shared, shared[o]))
    && (st.Waiting? || st.Ready? || (st.Running? && at.Some? && !at.value.Published?) ==> o !in shared)
  }

  ghost predicate PhaseStands(job: Job, phrases: Phrases, c: CharterState, o: string)
    requires o in job.phases && o in c.exec.stage
  {
    Stands(job.phases[o], phrases, c.exec.stage[o], ProgressOf(c, o), c.shared, o)
  }

  /** What a step that is not the phase's own work can do to its place: wait on, start, or leave the running stage. */
  ghost predicate Shifts(st: Executor.Stage<string>, at: Option<Progress>, st': Executor.Stage<string>,
                         at': Option<Progress>) {
    || (st' == st && at' == at)
    || (st.Waiting? && (st'.Waiting? || st'.Ready?))
    || (st.Ready? && st'.Running? && at' == Some(START))
    || !(st'.Waiting? || st'.Ready? || st'.Running?)
  }

  lemma StepShifts(job: Job, phrases: Phrases, c: CharterState, a: CharterAction, o: string)
    requires c.exec.stage.Keys == job.phases.Keys && Enabled(c, a) && o in job.phases && a != Work(o)
    ensures var c' := Next(job, phrases, c, a);
      o in c'.exec.stage && Shifts(c.exec.stage[o], ProgressOf(c, o), c'.exec.stage[o], ProgressOf(c', o)) &&
      (o in c'.shared ==> o in c.shared)
  {
  }

  lemma ShiftStands(p: Phase, phrases: Phrases, st: Executor.Stage<string>, at: Option<Progress>, s: Shared, o: string,
                    st': Executor.Stage<string>, at': Option<Progress>, t: Shared)
    requires Stands(p, phrases, st, at, s, o) && Shifts(st, at, st', at') && Extends(s, t) && (o in t ==> o in s)
    requires st.Running? ==> DepsPublished(p, s)
    ensures Stands(p, phrases, st', at', t, o)
  {
    if st.Running? && at.Some? {
      StandingGrows(p, phrases, s, t, at.value);
    }
    if o in s {
      JustifiedGrows(p, phrases, s, t, s[o]);
    }
  }

  ghost predicate StandInv(job: Job, phrases: Phrases, limit: Option<nat>, c: CharterState) {
    HouseInv(job, limit, c) && forall o :: o in job.phases ==> PhaseStands(job, phrases, c, o)
  }

  lemma SharedGrows(job: Job, phrases: Phrases, limit: Option<nat>, c: CharterState, a: CharterAction)
    requires StandInv(job, phrases, limit, c) && Enabled(c, a)
    ensures Extends(c.shared, Next(job, phrases, c, a).shared)
  {
    if a.Work? {
      assert PhaseStands(job, phrases, c, a.name);
    }
  }

  /** A step of the phase's own factory. */
  lemma WorkStands(job: Job, phrases: Phrases, limit: Option<nat>, c: CharterState, o: string)
    requires StandInv(job, phrases, limit, c) && Enabled(c, Work(o)) && o in job.phases
    ensures PhaseStands(job, phrases, Next(job, phrases, c, Work(o)), o)
  {
    var p, t, at := job.phases[o], Next(job, phrases, c, Work(o)).shared, c.progress[o];
    assert PhaseStands(job, phrases, c, o);
    RunningSeesDeps(job, limit, c, o);
    SharedGrows(job, phrases, limit, c, Work(o));
    AdvanceStanding(p, phrases, c.shared, at);
    StandingGrows(p, phrases, c.shared, t, Advance(p, phrases, c.shared, at));
  }

  lemma OtherStands(job: Job, phrases: Phrases, limit: Option<nat>, c: CharterState, a: CharterAction, o: string)
    requires StandInv(job, phrases, limit, c) && Enabled(c, a) && o in job.phases && a != Work(o)
    ensures o in Next(job, phrases, c, a).exec.stage && PhaseStands(job, phrases, Next(job, phrases, c, a), o)
  {
    var c' := Next(job, phrases, c, a);
    assert PhaseStands(job, phrases, c, o);
    SharedGrows(job, phrases, limit, c, a);
    if c.exec.stage[o].Running? {
      RunningSeesDeps(job, limit, c, o);
    }
    StepShifts(job, phrases, c, a, o);
    ShiftStands(job.phases[o], phrases, c.exec.stage[o], ProgressOf(c, o), c.shared, o,
                c'.exec.stage[o], ProgressOf(c', o), c'.shared);
  }

  lemma {:induction false} RunStands(job: Job, phrases: Phrases, limit: Option<nat>, states: seq<CharterState>,
                                     actions: seq<CharterAction>, i: nat)
    requires Run(job, phrases, limit, states, actions) && i < |states|
    ensures StandInv(job, phrases, limit, states[i])
  {
    RunHouse(job, phrases, limit, states, actions, i);
    if i > 0 {
      RunStands(job, phrases, limit, states, actions, i - 1);
      forall o | o in job.phases ensures PhaseStands(job, phrases, states[i], o) {
        if actions[i - 1] == Work(o) {
          WorkStands(job, phrases, limit, states[i - 1], o);
        } else {
          OtherStands(job, phrases, limit, states[i - 1], actions[i - 1], o);
        }
      }
    }
  }

  /**
   * In every state of every run, a published phase has passed only with all its calls and dependencies
   * passed, and has not passed only if one of them has not, or it asked for `all_phases_passed` in vain.
   */
  lemma RunVerdicts(job: Job, phrases: Phrases, limit: Option<nat>, states: seq<CharterState>,
                    actions: seq<CharterAction>, i: nat, o: string)
    requires Run(job, phrases, limit, states, actions) && i < |states| && o in states[i].shared
    ensures o in job.phases && Justified(job.phases[o], phrases, states[i].shared, states[i].shared[o])
  {
    RunStands(job, phrases, limit, states, actions, i);
    assert PhaseStands(job, phrases, states[i], o);
  }

  /** Passed phases have passed dependencies, all the way back along a walk. */
  lemma {:induction false} WalkPassed(job: Job, shared: Shared, walk: seq<string>)
    requires WellFormed(job) && Walk(job.edges, walk) && |walk| >= 2
    requires forall o :: o in shared && shared[o].passed ==> o in job.phases && DepsPassed(job.phases[o], shared)
    requires walk[|walk| - 1] in shared && shared[walk[|walk| - 1]].passed
    ensures walk[0] in shared && shared[walk[0]].passed
  {
    var n := |walk| - 1;
    assert (walk[n - 1], walk[n - 1 + 1]) in job.edges;
    assert walk[n - 1] in PhaseDeps(job.phases[walk[n]].requires_);
    if n > 1 {
      var u := walk[..n];
      forall j | 0 <= j < |u| - 1 ensures (u[j], u[j + 1]) in job.edges {
        assert (walk[j], walk[j + 1]) in job.edges;
      }
      WalkPassed(job, shared, u);
    }
  }

  /** In every state of every run, a phase with an ancestor that did not pass has not passed. */
  lemma FailureSpreads(job: Job, phrases: Phrases, limit: Option<nat>, states: seq<CharterState>,
                       actions: seq<CharterAction>, i: nat, a: string, o: string)
    requires WellFormed(job) && Run(job, phrases, limit, states, actions) && i < |states|
    requires o in states[i].shared && Reaches(job.edges, a, o)
    ensures states[i].shared[o].passed ==> a in states[i].shared && states[i].shared[a].passed
  {
    var shared := states[i].shared;
    if shared[o].passed {
      forall q | q in shared && shared[q].passed ensures q in job.phases && DepsPassed(job.phases[q], shared) {
        RunVerdicts(job, phrases, limit, states, actions, i, q);
      }
      var walk :| Walk(job.edges, walk) && |walk| >= 2 && walk[0] == a && walk[|walk| - 1] == o;
      WalkPassed(job, shared, walk);
    }
  }
}
