/** The abstract syntax of a charter, as the parser builds it and every later stage reads it. */
module CharterAst {
  import opened Options

  /** A literal; the text of a float is kept as written. */
  datatype Value = StrValue(text: string) | IntValue(number: int) | FloatValue(text: string) | BoolValue(flag: bool)

  datatype Arg = Arg(name: Option<string>, value: Value)

  datatype FeatureCall = FeatureCall(name: string, args: seq<Arg>)

  /** What a `require` statement refers to. */
  datatype Require =
    | FeatureRef(call: FeatureCall)
    | PhaseRef(phase: string, condition: string)
    | BuiltinRef(name: string)
    | AwaitRef(trigger: string)

  datatype Predicate = Predicate(field: string, operator: string, value: Value)

  datatype WhenBlock = WhenBlock(predicate_: Predicate, requires_: seq<Require>, actions: seq<FeatureCall>,
                             awaits: seq<string>)

  datatype Grant = Grant(documentType: string, ttlMinutes: Option<int>)

  datatype Phase = Phase(
    name: string,
    requires_: seq<Require>,
    actions: seq<FeatureCall>,
    outputs: seq<string>,
    grants: seq<Grant>,
    certify: Option<string>,
    evidence: Option<string>,
    whenBlocks: seq<WhenBlock>,
    awaits: seq<string>)

  datatype Workflow = Workflow(name: string, phases: seq<Phase>)

  datatype WaitingPeriod = WaitingPeriod(minValue: int, maxValue: int, unit_: string)

  datatype Situation = Situation(predicate_: Predicate, waitingPeriod: Option<WaitingPeriod>, requires_: seq<Require>)

  datatype Role = Role(name: string, actions: seq<string>, breakGlass: bool, requiresMfa: bool)

  datatype SchemaRef = SchemaRef(namespace_: string, version: string)

  datatype Charter = Charter(
    name: string,
    version: string,
    schemas: seq<SchemaRef>,
    packages: seq<string>,
    policies: seq<string>,
    triggers: seq<string>,
    workflows: seq<Workflow>,
    situations: seq<Situation>,
    roles: seq<Role>)

  /** The phases named by `require` statements, one entry per statement. */
  function PhaseDeps(requires_: seq<Require>): seq<string> {
    if requires_ == [] then []
    else
      var rest := PhaseDeps(requires_[..|requires_| - 1]);
      match requires_[|requires_| - 1]
      case PhaseRef(phase, _) => rest + [phase]
      case _ => rest
  }

  lemma {:induction false} PhaseDepsMember(requires_: seq<Require>, dep: string)
    ensures dep in PhaseDeps(requires_) <==>
            exists i :: 0 <= i < |requires_| && requires_[i].PhaseRef? && requires_[i].phase == dep
  {
    if requires_ != [] {
      var n := |requires_| - 1;
      PhaseDepsMember(requires_[..n], dep);
      assert forall i :: 0 <= i < n ==> requires_[..n][i] == requires_[i];
    }
  }

  ghost function PhaseNames(phases: seq<Phase>): set<string> {
    set i | 0 <= i < |phases| :: phases[i].name
  }
}
