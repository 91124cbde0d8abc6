/** Which charters can be written as text: those whose names are identifiers and whose literals are proper. */
module TextNames {
  import opened Options
  import opened CharterAst
  import opened Tokens
  import opened Grammar
  import opened Printer
  import opened CharterLexer
  import opened CharterLayout
  import opened TextPrinter

  // ------------------------------------------------------------------ names

  /** A word that is not a keyword. */
  predicate IsName(x: string) {
    IsWordText(x) && x !in KEYWORDS
  }

  predicate AllNames(xs: seq<string>) {
    forall i :: 0 <= i < |xs| ==> IsName(xs[i])
  }

  predicate IsOneOf(x: string, words: set<string>) {
    x in words || IsName(x)
  }

  predicate NamedValue(v: Value) {
    v.FloatValue? ==> IsDecimal(v.text)
  }

  predicate NamedArg(a: Arg) {
    (a.name.Some? ==> IsName(a.name.value)) && NamedValue(a.value)
  }

  predicate NamedCall(c: FeatureCall) {
    IsName(c.name) && forall i :: 0 <= i < |c.args| ==> NamedArg(c.args[i])
  }

  predicate NamedRequire(r: Require) {
    match r
    case FeatureRef(call) => NamedCall(call)
    case PhaseRef(phase, condition) => IsName(phase) && IsOneOf(condition, {"passed", "complete"})
    case BuiltinRef(name) => IsName(name)
    case AwaitRef(trigger) => IsName(trigger)
  }

  predicate NamedPredicate(p: Predicate) {
    AllNames(Split(p.field)) && p.operator in {"==", "!=", ">", ">=", "<", "<="} && NamedValue(p.value)
  }

  predicate NamedWhen(w: WhenBlock) {
    && NamedPredicate(w.predicate_) && AllNames(w.awaits)
    && (forall i :: 0 <= i < |w.requires_| ==> NamedRequire(w.requires_[i]))
    && (forall i :: 0 <= i < |w.actions| ==> NamedCall(w.actions[i]))
  }

  predicate NamedPhase(p: Phase) {
    && IsName(p.name) && AllNames(p.outputs) && AllNames(p.awaits)
    && (p.certify.Some? ==> IsOneOf(p.certify.value, {"immutable"}))
    && (p.evidence.Some? ==> IsName(p.evidence.value))
    && (forall i :: 0 <= i < |p.requires_| ==> NamedRequire(p.requires_[i]))
    && (forall i :: 0 <= i < |p.grants| ==> NamedGrant(p.grants[i]))
    && (forall i :: 0 <= i < |p.actions| ==> NamedCall(p.actions[i]))
    && (forall i :: 0 <= i < |p.whenBlocks| ==> NamedWhen(p.whenBlocks[i]))
  }

  predicate NamedWorkflow(w: Workflow) {
    IsName(w.name) && forall i :: 0 <= i < |w.phases| ==> NamedPhase(w.phases[i])
  }

  predicate NamedSituation(s: Situation) {
    && NamedPredicate(s.predicate_)
    && (s.waitingPeriod.Some? ==> IsOneOf(s.waitingPeriod.value.unit_, {"days", "hours"}))
    && (forall i :: 0 <= i < |s.requires_| ==> NamedRequire(s.requires_[i]))
  }

  predicate NamedRole(r: Role) {
    IsName(r.name) && AllNames(r.actions)
  }

  predicate NamedSchema(s: SchemaRef) {
    AllNames(Split(s.namespace_)) && (IsNumeral(s.version) || IsDecimal(s.version) || IsName(s.version))
  }

  /** A name, or a name, a dot and a number. */
  predicate NamedVersion(v: string) {
    var parts := Split(v);
    if |parts| == 1 then IsName(v) else IsName(parts[0]) && IsNumeral(Join(parts[1..]))
  }

  /** All names of the charter are identifiers, and its literals and versions proper; strings may hold anything. */
  predicate Named(c: Charter) {
    && NamedVersion(c.version) && AllNames(c.triggers)
    && (forall i :: 0 <= i < |c.schemas| ==> NamedSchema(c.schemas[i]))
    && (forall i :: 0 <= i < |c.packages| ==> IsWordText(c.packages[i]))
    && (forall i :: 0 <= i < |c.policies| ==> NamedPolicy(c.policies[i]))
    && (forall i :: 0 <= i < |c.workflows| ==> NamedWorkflow(c.workflows[i]))
    && (forall i :: 0 <= i < |c.situations| ==> NamedSituation(c.situations[i]))
    && (forall i :: 0 <= i < |c.roles| ==> NamedRole(c.roles[i]))
  }

  // ------------------------------------------------------------------ single tokens

  lemma NameLexable(x: string)
    ensures Lexable(Token(IDENT, x)) <==> IsName(x)
  {
  }

  /** Keywords are words. */
  lemma KeywordLexable(k: Kind, s: string)
    requires IsWordText(s) && s in KEYWORDS && KEYWORDS[s] == k
    ensures Lexable(Token(k, s))
  {
  }

  lemma PutLex(t: Token, rest: Toks)
    requires !IsLayout(t.kind)
    ensures AllLexable(Tok(t, rest)) <==> Lexable(t) && AllLexable(rest)
  {
  }

  lemma LayoutLex(t: Token, rest: Toks)
    requires IsLayout(t.kind)
    ensures AllLexable(Tok(t, rest)) <==> AllLexable(rest)
  {
  }

  /** A keyword in front changes nothing. */
  lemma KeyLex(k: Kind, s: string, rest: Toks)
    requires !IsLayout(k) && IsWordText(s) && s in KEYWORDS && KEYWORDS[s] == k
    ensures AllLexable(Put(k, s, rest)) <==> AllLexable(rest)
  {
    KeywordLexable(k, s);
    PutLex(Token(k, s), rest);
  }

  lemma KeyAction(rest: Toks)
    ensures AllLexable(Put(ACTION, "action", rest)) <==> AllLexable(rest)
  {
    KeyLex(ACTION, "action", rest);
  }

  lemma KeyActions(rest: Toks)
    ensures AllLexable(Put(ACTIONS, "actions", rest)) <==> AllLexable(rest)
  {
    KeyLex(ACTIONS, "actions", rest);
  }

  lemma KeyAwait(rest: Toks)
    ensures AllLexable(Put(AWAIT, "await", rest)) <==> AllLexable(rest)
  {
    KeyLex(AWAIT, "await", rest);
  }

  lemma KeyBreakGlass(rest: Toks)
    ensures AllLexable(Put(BREAK_GLASS, "break_glass", rest)) <==> AllLexable(rest)
  {
    KeyLex(BREAK_GLASS, "break_glass", rest);
  }

  lemma KeyCertify(rest: Toks)
    ensures AllLexable(Put(CERTIFY, "certify", rest)) <==> AllLexable(rest)
  {
    KeyLex(CERTIFY, "certify", rest);
  }

  lemma KeyCharter(rest: Toks)
    ensures AllLexable(Put(CHARTER, "charter", rest)) <==> AllLexable(rest)
  {
    KeyLex(CHARTER, "charter", rest);
  }

  lemma KeyComplete(rest: Toks)
    ensures AllLexable(Put(COMPLETE, "complete", rest)) <==> AllLexable(rest)
  {
    KeyLex(COMPLETE, "complete", rest);
  }

  lemma KeyDays(rest: Toks)
    ensures AllLexable(Put(DAYS, "days", rest)) <==> AllLexable(rest)
  {
    KeyLex(DAYS, "days", rest);
  }

  lemma KeyEvidence(rest: Toks)
    ensures AllLexable(Put(EVIDENCE, "evidence", rest)) <==> AllLexable(rest)
  {
    KeyLex(EVIDENCE, "evidence", rest);
  }

  lemma KeyFalse(rest: Toks)
    ensures AllLexable(Put(FALSE, "false", rest)) <==> AllLexable(rest)
  {
    KeyLex(FALSE, "false", rest);
  }

  lemma KeyFor(rest: Toks)
    ensures AllLexable(Put(FOR, "for", rest)) <==> AllLexable(rest)
  {
    KeyLex(FOR, "for", rest);
  }

  lemma KeyGrants(rest: Toks)
    ensures AllLexable(Put(GRANTS, "grants", rest)) <==> AllLexable(rest)
  {
    KeyLex(GRANTS, "grants", rest);
  }

  lemma KeyHours(rest: Toks)
    ensures AllLexable(Put(HOURS, "hours", rest)) <==> AllLexable(rest)
  {
    KeyLex(HOURS, "hours", rest);
  }

  lemma KeyImmutable(rest: Toks)
    ensures AllLexable(Put(IMMUTABLE, "immutable", rest)) <==> AllLexable(rest)
  {
    KeyLex(IMMUTABLE, "immutable", rest);
  }

  lemma KeyOutput(rest: Toks)
    ensures AllLexable(Put(OUTPUT, "output", rest)) <==> AllLexable(rest)
  {
    KeyLex(OUTPUT, "output", rest);
  }

  lemma KeyPackages(rest: Toks)
    ensures AllLexable(Put(PACKAGES, "packages", rest)) <==> AllLexable(rest)
  {
    KeyLex(PACKAGES, "packages", rest);
  }

  lemma KeyPassed(rest: Toks)
    ensures AllLexable(Put(PASSED, "passed", rest)) <==> AllLexable(rest)
  {
    KeyLex(PASSED, "passed", rest);
  }

  lemma KeyPhase(rest: Toks)
    ensures AllLexable(Put(PHASE, "phase", rest)) <==> AllLexable(rest)
  {
    KeyLex(PHASE, "phase", rest);
  }

  lemma KeyPolicies(rest: Toks)
    ensures AllLexable(Put(POLICIES, "policies", rest)) <==> AllLexable(rest)
  {
    KeyLex(POLICIES, "policies", rest);
  }

  lemma KeyRequire(rest: Toks)
    ensures AllLexable(Put(REQUIRE, "require", rest)) <==> AllLexable(rest)
  {
    KeyLex(REQUIRE, "require", rest);
  }

  lemma KeyRequiresMfa(rest: Toks)
    ensures AllLexable(Put(REQUIRES_MFA, "requires_mfa", rest)) <==> AllLexable(rest)
  {
    KeyLex(REQUIRES_MFA, "requires_mfa", rest);
  }

  lemma KeyRoles(rest: Toks)
    ensures AllLexable(Put(ROLES, "roles", rest)) <==> AllLexable(rest)
  {
    KeyLex(ROLES, "roles", rest);
  }

  lemma KeySchemas(rest: Toks)
    ensures AllLexable(Put(SCHEMAS, "schemas", rest)) <==> AllLexable(rest)
  {
    KeyLex(SCHEMAS, "schemas", rest);
  }

  lemma KeySituations(rest: Toks)
    ensures AllLexable(Put(SITUATIONS, "situations", rest)) <==> AllLexable(rest)
  {
    KeyLex(SITUATIONS, "situations", rest);
  }

  lemma KeyTriggers(rest: Toks)
    ensures AllLexable(Put(TRIGGERS, "triggers", rest)) <==> AllLexable(rest)
  {
    KeyLex(TRIGGERS, "triggers", rest);
  }

  lemma KeyTrue(rest: Toks)
    ensures AllLexable(Put(TRUE, "true", rest)) <==> AllLexable(rest)
  {
    KeyLex(TRUE, "true", rest);
  }

  lemma KeyWaitingPeriod(rest: Toks)
    ensures AllLexable(Put(WAITING_PERIOD, "waiting_period", rest)) <==> AllLexable(rest)
  {
    KeyLex(WAITING_PERIOD, "waiting_period", rest);
  }

  lemma KeyWhen(rest: Toks)
    ensures AllLexable(Put(WHEN, "when", rest)) <==> AllLexable(rest)
  {
    KeyLex(WHEN, "when", rest);
  }

  lemma KeyWorkflow(rest: Toks)
    ensures AllLexable(Put(WORKFLOW, "workflow", rest)) <==> AllLexable(rest)
  {
    KeyLex(WORKFLOW, "workflow", rest);
  }

  /** Neither does an operator or a punctuation mark. */
  lemma MarkLex(k: Kind, s: string, rest: Toks)
    requires !IsLayout(k) && Spelled(k, s)
    ensures AllLexable(Put(k, s, rest)) <==> AllLexable(rest)
  {
    PutLex(Token(k, s), rest);
  }

  lemma NameLex(x: string, rest: Toks)
    ensures AllLexable(Name(x, rest)) <==> IsName(x) && AllLexable(rest)
  {
    NameLexable(x);
    PutLex(Token(IDENT, x), rest);
  }

  lemma LineLex(rest: Toks)
    ensures AllLexable(Line(rest)) <==> AllLexable(rest)
  {
    LayoutLex(Token(NEWLINE, "\n"), rest);
  }

  lemma BeginLex(rest: Toks)
    ensures AllLexable(Begin(rest)) <==> AllLexable(rest)
  {
    LayoutLex(Token(INDENT, ""), rest);
    LineLex(Put(INDENT, "", rest));
    MarkLex(COLON, ":", Line(Put(INDENT, "", rest)));
  }

  lemma DedentLex(rest: Toks)
    ensures AllLexable(Put(DEDENT, "", rest)) <==> AllLexable(rest)
  {
    LayoutLex(Token(DEDENT, ""), rest);
  }

  lemma IntLex(n: nat, rest: Toks)
    ensures AllLexable(PrintInt(n, rest)) <==> AllLexable(rest)
  {
    PutLex(Token(INT, NatText(n)), rest);
  }

  // ------------------------------------------------------------------ lists

  /** The printer's own tokens can be written exactly when the condition holds. */
  ghost predicate Adds<T(!new)>(print_: (T, Toks) -> Toks, x: T, ok: bool) {
    forall rest :: AllLexable(print_(x, rest)) <==> ok && AllLexable(rest)
  }

  lemma {:induction false} AllLex<T(!new)>(print_: (T, Toks) -> Toks, ok: T -> bool, xs: seq<T>, rest: Toks)
    requires forall i :: 0 <= i < |xs| ==> Adds(print_, xs[i], ok(xs[i]))
    ensures AllLexable(All(print_, xs, rest)) <==> (forall i :: 0 <= i < |xs| ==> ok(xs[i])) && AllLexable(rest)
  {
    if xs != [] {
      AllLex(print_, ok, xs[1..], rest);
      assert Adds(print_, xs[0], ok(xs[0]));
      assert (forall i :: 0 <= i < |xs| ==> ok(xs[i])) <==>
        ok(xs[0]) && forall i :: 0 <= i < |xs[1..]| ==> ok(xs[1..][i]);
    }
  }

  lemma {:induction false} CommasLex<T(!new)>(print_: (T, Toks) -> Toks, ok: T -> bool, close: Token, first: bool,
                                             xs: seq<T>, rest: Toks)
    requires !IsLayout(close.kind) && Lexable(close) && forall i :: 0 <= i < |xs| ==> Adds(print_, xs[i], ok(xs[i]))
    ensures AllLexable(Commas(print_, close, first, xs, rest)) <==>
            (forall i :: 0 <= i < |xs| ==> ok(xs[i])) && AllLexable(rest)
    decreases |xs|
  {
    if xs == [] {
      PutLex(close, rest);
    } else {
      var after := Commas(print_, close, false, xs[1..], rest);
      CommasLex(print_, ok, close, false, xs[1..], rest);
      assert Adds(print_, xs[0], ok(xs[0]));
      MarkLex(COMMA, ",", print_(xs[0], after));
      assert (forall i :: 0 <= i < |xs| ==> ok(xs[i])) <==>
        ok(xs[0]) && forall i :: 0 <= i < |xs[1..]| ==> ok(xs[1..][i]);
    }
  }

  lemma BlockLex<T(!new)>(print_: (T, Toks) -> Toks, ok: T -> bool, xs: seq<T>, rest: Toks)
    requires forall i :: 0 <= i < |xs| ==> Adds(print_, xs[i], ok(xs[i]))
    ensures AllLexable(PrintBlock(print_, xs, rest)) <==> (forall i :: 0 <= i < |xs| ==> ok(xs[i])) && AllLexable(rest)
  {
    DedentLex(rest);
    AllLex(print_, ok, xs, Put(DEDENT, "", rest));
    BeginLex(All(print_, xs, Put(DEDENT, "", rest)));
  }

  lemma SectionLex<T(!new)>(key: Token, print_: (T, Toks) -> Toks, ok: T -> bool, xs: seq<T>, rest: Toks)
    requires forall ts :: AllLexable(Tok(key, ts)) <==> AllLexable(ts)
    requires forall i :: 0 <= i < |xs| ==> Adds(print_, xs[i], ok(xs[i]))
    ensures AllLexable(PrintSection(key, print_, xs, rest)) <==>
            (forall i :: 0 <= i < |xs| ==> ok(xs[i])) && AllLexable(rest)
  {
    BlockLex(print_, ok, xs, rest);
    assert AllLexable(Tok(key, PrintBlock(print_, xs, rest))) <==> AllLexable(PrintBlock(print_, xs, rest));
  }

  // ------------------------------------------------------------------ parts of a line

  lemma {:induction false} PartsLex(parts: seq<string>, rest: Toks)
    ensures AllLexable(PartsRest(parts, rest)) <==> AllNames(parts) && AllLexable(rest)
  {
    if parts != [] {
      var after := PartsRest(parts[1..], rest);
      PartsLex(parts[1..], rest);
      NameLex(parts[0], after);
      MarkLex(DOT, ".", Name(parts[0], after));
      assert AllNames(parts) <==> IsName(parts[0]) && AllNames(parts[1..]);
    }
  }

  lemma DottedLex(name: string, rest: Toks)
    ensures AllLexable(PrintDotted(name, rest)) <==> AllNames(Split(name)) && AllLexable(rest)
  {
    var parts := Split(name);
    PartsLex(parts[1..], rest);
    NameLex(parts[0], PartsRest(parts[1..], rest));
    assert AllNames(parts) <==> IsName(parts[0]) && AllNames(parts[1..]);
  }

  lemma ValueLex(v: Value, rest: Toks)
    requires WfValue(v)
    ensures AllLexable(PrintValue(v, rest)) <==> NamedValue(v) && AllLexable(rest)
  {
    match v
    case StrValue(text) => PutLex(Token(STRING, text), rest);
    case IntValue(n) => IntLex(n, rest);
    case FloatValue(text) =>
      FloatLexable(text);
      PutLex(Token(FLOAT, text), rest);
    case BoolValue(flag) =>
      if flag {
        KeyTrue(rest);
      } else {
        KeyFalse(rest);
      }
  }

  lemma FloatLexable(text: string)
    ensures Lexable(Token(FLOAT, text)) <==> IsDecimal(text)
  {
  }

  lemma ArgLex(a: Arg)
    requires WfValue(a.value)
    ensures Adds(PrintArg, a, NamedArg(a))
  {
    forall rest ensures AllLexable(PrintArg(a, rest)) <==> NamedArg(a) && AllLexable(rest) {
      ValueLex(a.value, rest);
      if a.name.Some? {
        MarkLex(EQ, "==", PrintValue(a.value, rest));
        NameLex(a.name.value, Put(EQ, "==", PrintValue(a.value, rest)));
      }
    }
  }

  lemma CallLex(c: FeatureCall, rest: Toks)
    requires WfAction(c)
    ensures AllLexable(PrintCall(c, rest)) <==> NamedCall(c) && AllLexable(rest)
  {
    forall i | 0 <= i < |c.args| ensures Adds(PrintArg, c.args[i], NamedArg(c.args[i])) {
      ArgLex(c.args[i]);
    }
    CommasLex(PrintArg, NamedArg, Token(RPAREN, ")"), true, c.args, rest);
    MarkLex(LPAREN, "(", Commas(PrintArg, Token(RPAREN, ")"), true, c.args, rest));
    NameLex(c.name, PrintArgs(c.args, rest));
  }

  lemma NameAdds(x: string)
    ensures Adds(Name, x, IsName(x))
  {
    forall rest ensures AllLexable(Name(x, rest)) <==> IsName(x) && AllLexable(rest) {
      NameLex(x, rest);
    }
  }

  lemma IdentsLex(xs: seq<string>, rest: Toks)
    ensures AllLexable(PrintIdents(xs, rest)) <==> AllNames(xs) && AllLexable(rest)
  {
    forall i | 0 <= i < |xs| ensures Adds(Name, xs[i], IsName(xs[i])) {
      NameAdds(xs[i]);
    }
    CommasLex(Name, IsName, Token(RBRACKET, "]"), true, xs, rest);
    MarkLex(LBRACKET, "[", Commas(Name, Token(RBRACKET, "]"), true, xs, rest));
  }

  /** A word that is printed as a keyword if it is one of some, and as a name otherwise. */
  lemma ConditionLex(c: string, rest: Toks)
    ensures AllLexable(PrintCondition(c, rest)) <==> IsOneOf(c, {"passed", "complete"}) && AllLexable(rest)
  {
    if c == "passed" {
      KeyPassed(rest);
    } else if c == "complete" {
      KeyComplete(rest);
    } else {
      NameLex(c, rest);
    }
  }

  lemma UnitLex(u: string, rest: Toks)
    ensures AllLexable(PrintUnit(u, rest)) <==> IsOneOf(u, {"days", "hours"}) && AllLexable(rest)
  {
    if u == "days" {
      KeyDays(rest);
    } else if u == "hours" {
      KeyHours(rest);
    } else {
      NameLex(u, rest);
    }
  }

  lemma ReferenceLex(r: Require, rest: Toks)
    requires WfRequire(r)
    ensures AllLexable(PrintReference(r, rest)) <==> NamedRequire(r) && AllLexable(rest)
  {
    match r
    case AwaitRef(trigger) =>
      NameLex(trigger, rest);
      KeyAwait(Name(trigger, rest));
    case FeatureRef(call) => CallLex(call, rest);
    case PhaseRef(phase, condition) =>
      ConditionLex(condition, rest);
      MarkLex(DOT, ".", PrintCondition(condition, rest));
      NameLex(phase, Put(DOT, ".", PrintCondition(condition, rest)));
    case BuiltinRef(name) => NameLex(name, rest);
  }

  lemma ComparatorLex(op: string, rest: Toks)
    ensures AllLexable(Put(KindOf(op), op, rest)) <==> op in {"==", "!=", ">", ">=", "<", "<="} && AllLexable(rest)
  {
    ComparatorLexable(op);
    PutLex(Token(KindOf(op), op), rest);
  }

  lemma ComparatorLexable(op: string)
    ensures Lexable(Token(KindOf(op), op)) <==> op in {"==", "!=", ">", ">=", "<", "<="}
    ensures !IsLayout(KindOf(op))
  {
    if op in {"==", "!=", ">", ">=", "<", "<="} {
      KnownComparator(op);
    } else {
      UnknownComparator(op);
    }
  }

  lemma KnownComparator(op: string)
    requires op in {"==", "!=", ">", ">=", "<", "<="}
    ensures Spelled(KindOf(op), op) && !IsLayout(KindOf(op))
  {
  }

  lemma UnknownComparator(op: string)
    requires op !in {"==", "!=", ">", ">=", "<", "<="}
    ensures IsComparator(KindOf(op)) && !Spelled(KindOf(op), op)
  {
    OperatorKind(op);
  }

  lemma PredicateLex(p: Predicate, rest: Toks)
    requires WfPredicate(p)
    ensures AllLexable(PrintPredicate(p, rest)) <==> NamedPredicate(p) && AllLexable(rest)
  {
    ValueLex(p.value, rest);
    ComparatorLex(p.operator, PrintValue(p.value, rest));
    DottedLex(p.field, PrintTest(p.operator, p.value, rest));
  }

  // ------------------------------------------------------------------ statements

  lemma RequireLex(r: Require)
    requires WfRequire(r)
    ensures Adds(PrintRequire, r, NamedRequire(r))
  {
    forall rest ensures AllLexable(PrintRequire(r, rest)) <==> NamedRequire(r) && AllLexable(rest) {
      LineLex(rest);
      ReferenceLex(r, Line(rest));
      KeyRequire(PrintReference(r, Line(rest)));
    }
  }

  lemma ActionLex(c: FeatureCall)
    requires WfAction(c)
    ensures Adds(PrintAction, c, NamedCall(c))
  {
    forall rest ensures AllLexable(PrintAction(c, rest)) <==> NamedCall(c) && AllLexable(rest) {
      LineLex(rest);
      CallLex(c, Line(rest));
      KeyAction(PrintCall(c, Line(rest)));
    }
  }

  lemma NamedLex(x: string, rest: Toks)
    ensures AllLexable(Name(x, Line(rest))) <==> IsName(x) && AllLexable(rest)
  {
    LineLex(rest);
    NameLex(x, Line(rest));
  }

  lemma OutputLex(x: string)
    ensures Adds(PrintOutput, x, IsName(x))
  {
    forall rest ensures AllLexable(PrintOutput(x, rest)) <==> IsName(x) && AllLexable(rest) {
      NamedLex(x, rest);
      KeyOutput(Name(x, Line(rest)));
    }
  }

  lemma AwaitLex(x: string)
    ensures Adds(PrintAwait, x, IsName(x))
  {
    forall rest ensures AllLexable(PrintAwait(x, rest)) <==> IsName(x) && AllLexable(rest) {
      NamedLex(x, rest);
      KeyAwait(Name(x, Line(rest)));
    }
  }

  lemma EvidenceLex(x: string)
    ensures Adds(PrintEvidence, x, IsName(x))
  {
    forall rest ensures AllLexable(PrintEvidence(x, rest)) <==> IsName(x) && AllLexable(rest) {
      NamedLex(x, rest);
      KeyEvidence(Name(x, Line(rest)));
    }
  }

  lemma CertifyLex(q: string)
    ensures Adds(PrintCertify, q, IsOneOf(q, {"immutable"}))
  {
    forall rest ensures AllLexable(PrintCertify(q, rest)) <==> IsOneOf(q, {"immutable"}) && AllLexable(rest) {
      LineLex(rest);
      if q == "immutable" {
        KeyImmutable(Line(rest));
      } else {
        NameLex(q, Line(rest));
      }
      KeyCertify(PrintCertify(q, rest).tail);
    }
  }

  lemma LimitLex(ttl: Option<int>, rest: Toks)
    ensures AllLexable(PrintLimit(ttl, rest)) <==> AllLexable(rest)
  {
    if ttl.Some? && ttl.value >= 0 {
      assert IsWordText("m") && "m" !in KEYWORDS;
      NameLex("m", rest);
      IntLex(ttl.value, Name("m", rest));
      KeyFor(PrintInt(ttl.value, Name("m", rest)));
    }
  }

  predicate NamedGrant(g: Grant) {
    IsName(g.documentType)
  }

  lemma GrantLex(g: Grant)
    ensures Adds(PrintGrant, g, NamedGrant(g))
  {
    forall rest ensures AllLexable(PrintGrant(g, rest)) <==> NamedGrant(g) && AllLexable(rest) {
      LineLex(rest);
      LimitLex(g.ttlMinutes, Line(rest));
      NameLex(g.documentType, PrintLimit(g.ttlMinutes, Line(rest)));
      KeyGrants(Name(g.documentType, PrintLimit(g.ttlMinutes, Line(rest))));
    }
  }

  lemma WhenHeadLex(p: Predicate, body: Toks)
    requires WfPredicate(p)
    ensures AllLexable(PrintWhenHead(p, body)) <==> NamedPredicate(p) && AllLexable(body)
  {
    BeginLex(body);
    PredicateLex(p, Begin(body));
    KeyWhen(PrintPredicate(p, Begin(body)));
  }

  predicate NamedRequires(xs: seq<Require>) {
    forall i :: 0 <= i < |xs| ==> NamedRequire(xs[i])
  }

  predicate NamedCalls(xs: seq<FeatureCall>) {
    forall i :: 0 <= i < |xs| ==> NamedCall(xs[i])
  }

  lemma RequiresLex(xs: seq<Require>, rest: Toks)
    requires forall i :: 0 <= i < |xs| ==> WfRequire(xs[i])
    ensures AllLexable(All(PrintRequire, xs, rest)) <==> NamedRequires(xs) && AllLexable(rest)
  {
    forall i | 0 <= i < |xs| ensures Adds(PrintRequire, xs[i], NamedRequire(xs[i])) {
      RequireLex(xs[i]);
    }
    AllLex(PrintRequire, NamedRequire, xs, rest);
  }

  lemma ActionsLex(xs: seq<FeatureCall>, rest: Toks)
    requires forall i :: 0 <= i < |xs| ==> WfAction(xs[i])
    ensures AllLexable(All(PrintAction, xs, rest)) <==> NamedCalls(xs) && AllLexable(rest)
  {
    forall i | 0 <= i < |xs| ensures Adds(PrintAction, xs[i], NamedCall(xs[i])) {
      ActionLex(xs[i]);
    }
    AllLex(PrintAction, NamedCall, xs, rest);
  }

  lemma AwaitsLex(xs: seq<string>, rest: Toks)
    ensures AllLexable(All(PrintAwait, xs, rest)) <==> AllNames(xs) && AllLexable(rest)
  {
    forall i | 0 <= i < |xs| ensures Adds(PrintAwait, xs[i], IsName(xs[i])) {
      AwaitLex(xs[i]);
    }
    AllLex(PrintAwait, IsName, xs, rest);
  }

  lemma OutputsLex(xs: seq<string>, rest: Toks)
    ensures AllLexable(All(PrintOutput, xs, rest)) <==> AllNames(xs) && AllLexable(rest)
  {
    forall i | 0 <= i < |xs| ensures Adds(PrintOutput, xs[i], IsName(xs[i])) {
      OutputLex(xs[i]);
    }
    AllLex(PrintOutput, IsName, xs, rest);
  }

  lemma GrantsLex(xs: seq<Grant>, rest: Toks)
    ensures AllLexable(All(PrintGrant, xs, rest)) <==>
            (forall i :: 0 <= i < |xs| ==> NamedGrant(xs[i])) && AllLexable(rest)
  {
    forall i | 0 <= i < |xs| ensures Adds(PrintGrant, xs[i], NamedGrant(xs[i])) {
      GrantLex(xs[i]);
    }
    AllLex(PrintGrant, NamedGrant, xs, rest);
  }

  // ------------------------------------------------------------------ blocks

  lemma WhenLex(w: WhenBlock)
    requires WfWhen(w)
    ensures Adds(PrintWhen, w, NamedWhen(w))
  {
    forall rest ensures AllLexable(PrintWhen(w, rest)) <==> NamedWhen(w) && AllLexable(rest) {
      var end := Put(DEDENT, "", rest);
      var awaits := All(PrintAwait, w.awaits, end);
      var actions := All(PrintAction, w.actions, awaits);
      DedentLex(rest);
      AwaitsLex(w.awaits, end);
      ActionsLex(w.actions, awaits);
      RequiresLex(w.requires_, actions);
      WhenHeadLex(w.predicate_, PrintWhenBody(w, end));
    }
  }

  lemma OptionLex(print_: (string, Toks) -> Toks, x: Option<string>, ok: bool, rest: Toks)
    requires x.Some? ==> Adds(print_, x.value, ok)
    ensures AllLexable(PrintOption(print_, x, rest)) <==> (x.Some? ==> ok) && AllLexable(rest)
  {
  }

  ghost predicate PhaseEndNamed(p: Phase) {
    && (p.certify.Some? ==> IsOneOf(p.certify.value, {"immutable"})) && (p.evidence.Some? ==> IsName(p.evidence.value))
    && (forall i :: 0 <= i < |p.whenBlocks| ==> NamedWhen(p.whenBlocks[i])) && AllNames(p.awaits)
  }

  lemma WhensLex(xs: seq<WhenBlock>, rest: Toks)
    requires forall i :: 0 <= i < |xs| ==> WfWhen(xs[i])
    ensures AllLexable(All(PrintWhen, xs, rest)) <==>
            (forall i :: 0 <= i < |xs| ==> NamedWhen(xs[i])) && AllLexable(rest)
  {
    forall i | 0 <= i < |xs| ensures Adds(PrintWhen, xs[i], NamedWhen(xs[i])) {
      WhenLex(xs[i]);
    }
    AllLex(PrintWhen, NamedWhen, xs, rest);
  }

  lemma PhaseEndLex(p: Phase, rest: Toks)
    requires WfPhase(p)
    ensures AllLexable(PrintPhaseEnd(p, rest)) <==> PhaseEndNamed(p) && AllLexable(rest)
  {
    var awaits := All(PrintAwait, p.awaits, rest);
    var whens := All(PrintWhen, p.whenBlocks, awaits);
    AwaitsLex(p.awaits, rest);
    WhensLex(p.whenBlocks, awaits);
    if p.evidence.Some? {
      EvidenceLex(p.evidence.value);
    }
    OptionLex(PrintEvidence, p.evidence, p.evidence.Some? && IsName(p.evidence.value), whens);
    if p.certify.Some? {
      CertifyLex(p.certify.value);
    }
    OptionLex(PrintCertify, p.certify, p.certify.Some? && IsOneOf(p.certify.value, {"immutable"}),
              PrintOption(PrintEvidence, p.evidence, whens));
  }

  lemma PhaseBodyLex(p: Phase, rest: Toks)
    requires WfPhase(p)
    ensures AllLexable(Name(p.name, Begin(PrintPhaseBody(p, rest)))) <==> NamedPhase(p) && AllLexable(rest)
  {
    var end := PrintPhaseEnd(p, rest);
    var outputs := All(PrintOutput, p.outputs, end);
    var actions := All(PrintAction, p.actions, outputs);
    PhaseEndLex(p, rest);
    OutputsLex(p.outputs, end);
    ActionsLex(p.actions, outputs);
    GrantsLex(p.grants, actions);
    RequiresLex(p.requires_, All(PrintGrant, p.grants, actions));
    BeginLex(PrintPhaseBody(p, rest));
    NameLex(p.name, Begin(PrintPhaseBody(p, rest)));
  }

  lemma PhaseLex(p: Phase)
    requires WfPhase(p)
    ensures Adds(PrintPhase, p, NamedPhase(p))
  {
    forall rest ensures AllLexable(PrintPhase(p, rest)) <==> NamedPhase(p) && AllLexable(rest) {
      var end := Put(DEDENT, "", rest);
      DedentLex(rest);
      PhaseBodyLex(p, end);
      KeyPhase(Name(p.name, Begin(PrintPhaseBody(p, end))));
    }
  }

  lemma WorkflowLex(w: Workflow)
    requires WfWorkflow(w)
    ensures Adds(PrintWorkflow, w, NamedWorkflow(w))
  {
    forall i | 0 <= i < |w.phases| ensures Adds(PrintPhase, w.phases[i], NamedPhase(w.phases[i])) {
      PhaseLex(w.phases[i]);
    }
    forall rest ensures AllLexable(PrintWorkflow(w, rest)) <==> NamedWorkflow(w) && AllLexable(rest) {
      BlockLex(PrintPhase, NamedPhase, w.phases, rest);
      NameLex(w.name, PrintBlock(PrintPhase, w.phases, rest));
      KeyWorkflow(Name(w.name, PrintBlock(PrintPhase, w.phases, rest)));
    }
  }

  lemma WaitingLex(p: WaitingPeriod, rest: Toks)
    requires WfWaiting(p)
    ensures AllLexable(PrintWaiting(p, rest)) <==> IsOneOf(p.unit_, {"days", "hours"}) && AllLexable(rest)
  {
    var unit_ := PrintUnit(p.unit_, Line(rest));
    LineLex(rest);
    UnitLex(p.unit_, Line(rest));
    IntLex(p.maxValue, unit_);
    MarkLex(DOTDOT, "..", PrintInt(p.maxValue, unit_));
    IntLex(p.minValue, Put(DOTDOT, "..", PrintInt(p.maxValue, unit_)));
    KeyWaitingPeriod(PrintRange(p.minValue, p.maxValue, unit_));
  }

  lemma SituationLex(s: Situation)
    requires WfSituation(s)
    ensures Adds(PrintSituation, s, NamedSituation(s))
  {
    forall rest ensures AllLexable(PrintSituation(s, rest)) <==> NamedSituation(s) && AllLexable(rest) {
      var end := Put(DEDENT, "", rest);
      DedentLex(rest);
      RequiresLex(s.requires_, end);
      if s.waitingPeriod.Some? {
        WaitingLex(s.waitingPeriod.value, All(PrintRequire, s.requires_, end));
      }
      WhenHeadLex(s.predicate_, PrintSituationBody(s, end));
    }
  }

  lemma FlagLex(key: Token, flag: bool, rest: Toks)
    requires forall ts :: AllLexable(Tok(key, ts)) <==> AllLexable(ts)
    ensures AllLexable(PrintFlag(key, flag, rest)) <==> AllLexable(rest)
  {
    LineLex(rest);
    ValueLex(BoolValue(flag), Line(rest));
    MarkLex(COLON, ":", PrintValue(BoolValue(flag), Line(rest)));
    assert AllLexable(PrintFlag(key, flag, rest)) <==> AllLexable(PrintFlag(key, flag, rest).tail);
  }

  lemma MfaLex(flag: bool, rest: Toks)
    ensures AllLexable(PrintFlag(Token(REQUIRES_MFA, "requires_mfa"), flag, rest)) <==> AllLexable(rest)
  {
    forall ts ensures AllLexable(Tok(Token(REQUIRES_MFA, "requires_mfa"), ts)) <==> AllLexable(ts) {
      KeyRequiresMfa(ts);
    }
    FlagLex(Token(REQUIRES_MFA, "requires_mfa"), flag, rest);
  }

  lemma GlassLex(flag: bool, rest: Toks)
    ensures AllLexable(PrintFlag(Token(BREAK_GLASS, "break_glass"), flag, rest)) <==> AllLexable(rest)
  {
    forall ts ensures AllLexable(Tok(Token(BREAK_GLASS, "break_glass"), ts)) <==> AllLexable(ts) {
      KeyBreakGlass(ts);
    }
    FlagLex(Token(BREAK_GLASS, "break_glass"), flag, rest);
  }

  lemma RoleActionsLex(xs: seq<string>, rest: Toks)
    ensures AllLexable(Put(ACTIONS, "actions", Put(COLON, ":", PrintIdents(xs, rest)))) <==>
            AllNames(xs) && AllLexable(rest)
  {
    IdentsLex(xs, rest);
    MarkLex(COLON, ":", PrintIdents(xs, rest));
    KeyActions(Put(COLON, ":", PrintIdents(xs, rest)));
  }

  lemma RoleBodyLex(role: Role, rest: Toks)
    ensures AllLexable(PrintRoleBody(role, rest)) <==> AllNames(role.actions) && AllLexable(rest)
  {
    var mfa := PrintFlag(Token(REQUIRES_MFA, "requires_mfa"), role.requiresMfa, rest);
    var glass := PrintFlag(Token(BREAK_GLASS, "break_glass"), role.breakGlass, mfa);
    MfaLex(role.requiresMfa, rest);
    GlassLex(role.breakGlass, mfa);
    LineLex(glass);
    RoleActionsLex(role.actions, Line(glass));
  }

  lemma RoleLex(role: Role)
    ensures Adds(PrintRole, role, NamedRole(role))
  {
    forall rest ensures AllLexable(PrintRole(role, rest)) <==> NamedRole(role) && AllLexable(rest) {
      var body := PrintRoleBody(role, Put(DEDENT, "", rest));
      DedentLex(rest);
      RoleBodyLex(role, Put(DEDENT, "", rest));
      BeginLex(body);
      NameLex(role.name, Begin(body));
    }
  }

  // ------------------------------------------------------------------ header and sections

  lemma VersionLexable(v: string)
    ensures Lexable(Token(VersionKind(v), v)) <==> IsNumeral(v) || IsDecimal(v) || IsName(v)
    ensures !IsLayout(VersionKind(v))
  {
    NameLexable(v);
    FloatLexable(v);
  }

  lemma SchemaLex(s: SchemaRef)
    ensures Adds(PrintSchema, s, NamedSchema(s))
  {
    forall rest ensures AllLexable(PrintSchema(s, rest)) <==> NamedSchema(s) && AllLexable(rest) {
      var version := Put(VersionKind(s.version), s.version, Line(rest));
      LineLex(rest);
      VersionLexable(s.version);
      PutLex(Token(VersionKind(s.version), s.version), Line(rest));
      MarkLex(AT, "@", version);
      DottedLex(s.namespace_, Put(AT, "@", version));
      MarkLex(DASH, "-", PrintDotted(s.namespace_, Put(AT, "@", version)));
    }
  }

  lemma WordLexable(name: string)
    ensures Lexable(Word(name)) <==> IsWordText(name)
    ensures !IsLayout(WordKind(name))
  {
    KeywordKinds(name);
  }

  lemma PackageLex(name: string)
    ensures Adds(PrintPackage, name, IsWordText(name))
  {
    forall rest ensures AllLexable(PrintPackage(name, rest)) <==> IsWordText(name) && AllLexable(rest) {
      LineLex(rest);
      WordLexable(name);
      PutLex(Word(name), Line(rest));
      MarkLex(DASH, "-", Tok(Word(name), Line(rest)));
    }
  }

  predicate NamedPolicy(id: string) {
    AllNames(Split(id))
  }

  lemma PolicyLex(id: string)
    ensures Adds(PrintPolicy, id, NamedPolicy(id))
  {
    forall rest ensures AllLexable(PrintPolicy(id, rest)) <==> NamedPolicy(id) && AllLexable(rest) {
      LineLex(rest);
      DottedLex(id, Line(rest));
      MarkLex(DASH, "-", PrintDotted(id, Line(rest)));
    }
  }

  lemma TriggerLex(x: string)
    ensures Adds(PrintTrigger, x, IsName(x))
  {
    forall rest ensures AllLexable(PrintTrigger(x, rest)) <==> IsName(x) && AllLexable(rest) {
      LineLex(rest);
      NameLex(x, Line(rest));
    }
  }

  lemma NumeralLexable(text: string)
    ensures Lexable(Token(INT, text)) <==> IsNumeral(text)
  {
    KeywordKinds(text);
  }

  lemma VersionLex(v: string, rest: Toks)
    ensures AllLexable(PrintVersion(v, rest)) <==> NamedVersion(v) && AllLexable(rest)
  {
    var parts := Split(v);
    if |parts| == 1 {
      NameLex(v, rest);
    } else {
      var minor := Join(parts[1..]);
      NumeralLexable(minor);
      PutLex(Token(INT, minor), rest);
      MarkLex(DOT, ".", Put(INT, minor, rest));
      NameLex(parts[0], Put(DOT, ".", Put(INT, minor, rest)));
    }
  }

  lemma HeaderLex(name: string, version: string, rest: Toks)
    ensures AllLexable(PrintHeader(name, version, rest)) <==> NamedVersion(version) && AllLexable(rest)
  {
    LineLex(rest);
    VersionLex(version, Line(rest));
    PutLex(Token(STRING, name), PrintVersion(version, Line(rest)));
    KeyCharter(Put(STRING, name, PrintVersion(version, Line(rest))));
  }

  ghost predicate ListsNamed(c: Charter) {
    && (forall i :: 0 <= i < |c.schemas| ==> NamedSchema(c.schemas[i]))
    && (forall i :: 0 <= i < |c.packages| ==> IsWordText(c.packages[i]))
    && (forall i :: 0 <= i < |c.policies| ==> NamedPolicy(c.policies[i])) && AllNames(c.triggers)
  }

  lemma TriggersLex(xs: seq<string>, rest: Toks)
    ensures AllLexable(PrintSection(Token(TRIGGERS, "triggers"), PrintTrigger, xs, rest)) <==>
            AllNames(xs) && AllLexable(rest)
  {
    forall i | 0 <= i < |xs| ensures Adds(PrintTrigger, xs[i], IsName(xs[i])) {
      TriggerLex(xs[i]);
    }
    forall ts ensures AllLexable(Tok(Token(TRIGGERS, "triggers"), ts)) <==> AllLexable(ts) {
      KeyTriggers(ts);
    }
    SectionLex(Token(TRIGGERS, "triggers"), PrintTrigger, IsName, xs, rest);
  }

  lemma PoliciesLex(xs: seq<string>, rest: Toks)
    ensures AllLexable(PrintSection(Token(POLICIES, "policies"), PrintPolicy, xs, rest)) <==>
            (forall i :: 0 <= i < |xs| ==> NamedPolicy(xs[i])) && AllLexable(rest)
  {
    forall i | 0 <= i < |xs| ensures Adds(PrintPolicy, xs[i], NamedPolicy(xs[i])) {
      PolicyLex(xs[i]);
    }
    forall ts ensures AllLexable(Tok(Token(POLICIES, "policies"), ts)) <==> AllLexable(ts) {
      KeyPolicies(ts);
    }
    SectionLex(Token(POLICIES, "policies"), PrintPolicy, NamedPolicy, xs, rest);
  }

  lemma PackagesLex(xs: seq<string>, rest: Toks)
    ensures AllLexable(PrintSection(Token(PACKAGES, "packages"), PrintPackage, xs, rest)) <==>
            (forall i :: 0 <= i < |xs| ==> IsWordText(xs[i])) && AllLexable(rest)
  {
    forall i | 0 <= i < |xs| ensures Adds(PrintPackage, xs[i], IsWordText(xs[i])) {
      PackageLex(xs[i]);
    }
    forall ts ensures AllLexable(Tok(Token(PACKAGES, "packages"), ts)) <==> AllLexable(ts) {
      KeyPackages(ts);
    }
    SectionLex(Token(PACKAGES, "packages"), PrintPackage, IsWordText, xs, rest);
  }

  lemma SchemasLex(xs: seq<SchemaRef>, rest: Toks)
    ensures AllLexable(PrintSection(Token(SCHEMAS, "schemas"), PrintSchema, xs, rest)) <==>
            (forall i :: 0 <= i < |xs| ==> NamedSchema(xs[i])) && AllLexable(rest)
  {
    forall i | 0 <= i < |xs| ensures Adds(PrintSchema, xs[i], NamedSchema(xs[i])) {
      SchemaLex(xs[i]);
    }
    forall ts ensures AllLexable(Tok(Token(SCHEMAS, "schemas"), ts)) <==> AllLexable(ts) {
      KeySchemas(ts);
    }
    SectionLex(Token(SCHEMAS, "schemas"), PrintSchema, NamedSchema, xs, rest);
  }

  lemma ListsLex(c: Charter, rest: Toks)
    ensures AllLexable(PrintLists(c, rest)) <==> ListsNamed(c) && AllLexable(rest)
  {
    var triggers := PrintSection(Token(TRIGGERS, "triggers"), PrintTrigger, c.triggers, rest);
    var policies := PrintSection(Token(POLICIES, "policies"), PrintPolicy, c.policies, triggers);
    TriggersLex(c.triggers, rest);
    PoliciesLex(c.policies, triggers);
    PackagesLex(c.packages, policies);
    SchemasLex(c.schemas, PrintSection(Token(PACKAGES, "packages"), PrintPackage, c.packages, policies));
  }

  lemma RolesLex(xs: seq<Role>, rest: Toks)
    ensures AllLexable(PrintSection(Token(ROLES, "roles"), PrintRole, xs, rest)) <==>
            (forall i :: 0 <= i < |xs| ==> NamedRole(xs[i])) && AllLexable(rest)
  {
    forall i | 0 <= i < |xs| ensures Adds(PrintRole, xs[i], NamedRole(xs[i])) {
      RoleLex(xs[i]);
    }
    forall ts ensures AllLexable(Tok(Token(ROLES, "roles"), ts)) <==> AllLexable(ts) {
      KeyRoles(ts);
    }
    SectionLex(Token(ROLES, "roles"), PrintRole, NamedRole, xs, rest);
  }

  lemma SituationsLex(xs: seq<Situation>, rest: Toks)
    requires WfSituations(xs)
    ensures AllLexable(PrintSection(Token(SITUATIONS, "situations"), PrintSituation, xs, rest)) <==>
            (forall i :: 0 <= i < |xs| ==> NamedSituation(xs[i])) && AllLexable(rest)
  {
    forall i | 0 <= i < |xs| ensures Adds(PrintSituation, xs[i], NamedSituation(xs[i])) {
      SituationLex(xs[i]);
    }
    forall ts ensures AllLexable(Tok(Token(SITUATIONS, "situations"), ts)) <==> AllLexable(ts) {
      KeySituations(ts);
    }
    SectionLex(Token(SITUATIONS, "situations"), PrintSituation, NamedSituation, xs, rest);
  }

  ghost predicate BlocksNamed(c: Charter) {
    && (forall i :: 0 <= i < |c.workflows| ==> NamedWorkflow(c.workflows[i]))
    && (forall i :: 0 <= i < |c.situations| ==> NamedSituation(c.situations[i]))
    && (forall i :: 0 <= i < |c.roles| ==> NamedRole(c.roles[i]))
  }

  lemma WorkflowsLex(xs: seq<Workflow>, rest: Toks)
    requires forall i :: 0 <= i < |xs| ==> WfWorkflow(xs[i])
    ensures AllLexable(All(PrintWorkflow, xs, rest)) <==>
            (forall i :: 0 <= i < |xs| ==> NamedWorkflow(xs[i])) && AllLexable(rest)
  {
    forall i | 0 <= i < |xs| ensures Adds(PrintWorkflow, xs[i], NamedWorkflow(xs[i])) {
      WorkflowLex(xs[i]);
    }
    AllLex(PrintWorkflow, NamedWorkflow, xs, rest);
  }

  lemma BlocksLex(c: Charter)
    requires WfCharter(c)
    ensures AllLexable(PrintBlocks(c)) <==> BlocksNamed(c)
  {
    var end := Put(EOF, "", End);
    var roles := PrintSection(Token(ROLES, "roles"), PrintRole, c.roles, end);
    LayoutLex(Token(EOF, ""), End);
    RolesLex(c.roles, end);
    SituationsLex(c.situations, roles);
    WorkflowsLex(c.workflows, PrintSection(Token(SITUATIONS, "situations"), PrintSituation, c.situations, roles));
  }

  /** Every token of a charter can be written exactly when its names, literals and versions are proper. */
  lemma NamedIff(c: Charter)
    requires WfCharter(c)
    ensures AllLexable(Print(c)) <==> Named(c)
  {
    BlocksLex(c);
    ListsLex(c, PrintBlocks(c));
    HeaderLex(c.name, c.version, PrintLists(c, PrintBlocks(c)));
  }
}
