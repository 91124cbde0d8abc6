/**
 * The canonical text of a charter. The printed tokens are always laid out properly, so when each of
 * them can be written at all, lexing the text gives them back, and parsing gives the charter back.
 */
module TextPrinter {
  import opened Options
  import opened CharterAst
  import opened Tokens
  import opened Grammar
  import opened Printer
  import opened CharterLexer
  import opened CharterLayout

  // ------------------------------------------------------------------ charters that can be written

  predicate FilledWhen(w: WhenBlock) {
    w.requires_ != [] || w.actions != [] || w.awaits != []
  }

  predicate FilledPhase(p: Phase) {
    && (forall i :: 0 <= i < |p.whenBlocks| ==> FilledWhen(p.whenBlocks[i]))
    && (p.requires_ != [] || p.grants != [] || p.actions != [] || p.outputs != [] || p.certify.Some? || p.evidence.Some?
        || p.whenBlocks != [] || p.awaits != [])
  }

  predicate FilledWorkflow(w: Workflow) {
    w.phases != [] && forall i :: 0 <= i < |w.phases| ==> FilledPhase(w.phases[i])
  }

  predicate FilledSituation(s: Situation) {
    s.waitingPeriod.Some? || s.requires_ != []
  }

  /** No block of the charter is empty. */
  predicate Filled(c: Charter) {
    && (forall i :: 0 <= i < |c.workflows| ==> FilledWorkflow(c.workflows[i]))
    && (forall i :: 0 <= i < |c.situations| ==> FilledSituation(c.situations[i]))
  }

  /** Every token other than layout can be written. */
  predicate AllLexable(ts: Toks) {
    ts.Tok? ==> (IsLayout(ts.head.kind) || Lexable(ts.head)) && AllLexable(ts.tail)
  }

  predicate Writable(c: Charter) {
    WfCharter(c) && Filled(c) && AllLexable(Print(c))
  }

  function Write(c: Charter): string {
    Render(Print(c), 0, true)
  }

  // ------------------------------------------------------------------ the shape of printed tokens

  predicate NotDoc(t: Token) {
    t.kind != DOCSTRING
  }

  /** What can follow within a line. */
  ghost predicate More(ts: Toks, depth: nat) {
    Laid(ts, depth, Within, NotDoc)
  }

  /** What can follow after a line or a block. */
  ghost predicate Next(ts: Toks, depth: nat) {
    Laid(ts, depth, Dedented, NotDoc)
  }

  /** A line with a token on it. */
  ghost predicate First(ts: Toks, depth: nat) {
    StartsLine(ts, depth, NotDoc)
  }

  lemma PutFits(t: Token, rest: Toks, depth: nat)
    requires !IsLayout(t.kind) && NotDoc(t) && More(rest, depth)
    ensures First(Tok(t, rest), depth) && More(Tok(t, rest), depth) && Next(Tok(t, rest), depth)
  {
  }

  lemma FirstFits(ts: Toks, depth: nat)
    requires First(ts, depth)
    ensures More(ts, depth) && Next(ts, depth)
  {
  }

  lemma LineFits(rest: Toks, depth: nat)
    requires Next(rest, depth)
    ensures More(Line(rest), depth)
  {
    NextIsFresh(rest, depth);
  }

  lemma NextIsFresh(ts: Toks, depth: nat)
    requires Next(ts, depth)
    ensures Laid(ts, depth, Fresh, NotDoc)
  {
  }

  lemma IndentFits(rest: Toks, depth: nat)
    requires First(rest, depth + 1)
    ensures Laid(Put(INDENT, "", rest), depth, Fresh, NotDoc)
  {
  }

  lemma LineFitsFresh(rest: Toks, depth: nat)
    requires Laid(rest, depth, Fresh, NotDoc)
    ensures More(Line(rest), depth)
  {
  }

  lemma BeginFits(rest: Toks, depth: nat)
    requires First(rest, depth + 1)
    ensures More(Begin(rest), depth)
  {
    IndentFits(rest, depth);
    LineFitsFresh(Put(INDENT, "", rest), depth);
    PutFits(Token(COLON, ":"), Line(Put(INDENT, "", rest)), depth);
  }

  lemma DedentFits(rest: Toks, depth: nat)
    requires Next(rest, depth)
    ensures Next(Put(DEDENT, "", rest), depth + 1)
  {
  }

  /** The printer writes whole lines. */
  ghost predicate Lines<T(!new)>(print_: (T, Toks) -> Toks, x: T, depth: nat) {
    forall rest :: Next(rest, depth) ==> First(print_(x, rest), depth)
  }

  /** The printer writes a part of a line. */
  ghost predicate Inline<T(!new)>(print_: (T, Toks) -> Toks, x: T, depth: nat) {
    forall rest :: More(rest, depth) ==> First(print_(x, rest), depth)
  }

  lemma {:induction false} AllFits<T(!new)>(print_: (T, Toks) -> Toks, xs: seq<T>, rest: Toks, depth: nat)
    requires Next(rest, depth) && forall i :: 0 <= i < |xs| ==> Lines(print_, xs[i], depth)
    ensures Next(All(print_, xs, rest), depth)
    ensures xs != [] || First(rest, depth) ==> First(All(print_, xs, rest), depth)
  {
    if xs != [] {
      AllFits(print_, xs[1..], rest, depth);
      assert Lines(print_, xs[0], depth);
      FirstFits(All(print_, xs, rest), depth);
    }
  }

  lemma {:induction false} CommasFit<T(!new)>(print_: (T, Toks) -> Toks, close: Token, first: bool, xs: seq<T>,
                                              rest: Toks, depth: nat)
    requires More(rest, depth) && !IsLayout(close.kind) && NotDoc(close)
    requires forall i :: 0 <= i < |xs| ==> Inline(print_, xs[i], depth)
    ensures More(Commas(print_, close, first, xs, rest), depth)
    decreases |xs|
  {
    if xs == [] {
      PutFits(close, rest, depth);
    } else {
      var after := Commas(print_, close, false, xs[1..], rest);
      CommasFit(print_, close, false, xs[1..], rest, depth);
      assert Inline(print_, xs[0], depth);
      FirstFits(print_(xs[0], after), depth);
      PutFits(Token(COMMA, ","), print_(xs[0], after), depth);
    }
  }

  /** A block of lines in front of what follows the block. */
  lemma BlockFits<T(!new)>(print_: (T, Toks) -> Toks, xs: seq<T>, rest: Toks, depth: nat)
    requires xs != [] && Next(rest, depth) && forall i :: 0 <= i < |xs| ==> Lines(print_, xs[i], depth + 1)
    ensures More(PrintBlock(print_, xs, rest), depth)
  {
    DedentFits(rest, depth);
    AllFits(print_, xs, Put(DEDENT, "", rest), depth + 1);
    BeginFits(All(print_, xs, Put(DEDENT, "", rest)), depth);
  }

  lemma SectionFits<T(!new)>(key: Token, print_: (T, Toks) -> Toks, xs: seq<T>, rest: Toks, depth: nat)
    requires !IsLayout(key.kind) && NotDoc(key) && Next(rest, depth)
    requires forall i :: 0 <= i < |xs| ==> Lines(print_, xs[i], depth + 1)
    ensures Next(PrintSection(key, print_, xs, rest), depth)
  {
    if xs != [] {
      BlockFits(print_, xs, rest, depth);
      PutFits(key, PrintBlock(print_, xs, rest), depth);
    }
  }

  // ------------------------------------------------------------------ parts of a line

  lemma NameFits(x: string, depth: nat)
    ensures Inline(Name, x, depth)
  {
    forall rest | More(rest, depth) ensures First(Name(x, rest), depth) {
      PutFits(Token(IDENT, x), rest, depth);
    }
  }

  lemma {:induction false} PartsFit(parts: seq<string>, rest: Toks, depth: nat)
    requires More(rest, depth)
    ensures More(PartsRest(parts, rest), depth)
  {
    if parts != [] {
      PartsFit(parts[1..], rest, depth);
      PutFits(Token(IDENT, parts[0]), PartsRest(parts[1..], rest), depth);
      PutFits(Token(DOT, "."), Name(parts[0], PartsRest(parts[1..], rest)), depth);
    }
  }

  lemma DottedFits(name: string, rest: Toks, depth: nat)
    requires More(rest, depth)
    ensures First(PrintDotted(name, rest), depth) && More(PrintDotted(name, rest), depth)
  {
    var parts := Split(name);
    PartsFit(parts[1..], rest, depth);
    PutFits(Token(IDENT, parts[0]), PartsRest(parts[1..], rest), depth);
  }

  lemma ValueFits(v: Value, rest: Toks, depth: nat)
    requires WfValue(v) && More(rest, depth)
    ensures First(PrintValue(v, rest), depth) && More(PrintValue(v, rest), depth)
  {
    PutFits(PrintValue(v, rest).head, rest, depth);
  }

  lemma ArgFits(a: Arg, depth: nat)
    requires WfValue(a.value)
    ensures Inline(PrintArg, a, depth)
  {
    forall rest | More(rest, depth) ensures First(PrintArg(a, rest), depth) {
      ValueFits(a.value, rest, depth);
      if a.name.Some? {
        PutFits(Token(EQ, "=="), PrintValue(a.value, rest), depth);
        PutFits(Token(IDENT, a.name.value), Put(EQ, "==", PrintValue(a.value, rest)), depth);
      }
    }
  }

  lemma ArgsFit(args: seq<Arg>, rest: Toks, depth: nat)
    requires WfArgs(args) && More(rest, depth)
    ensures More(PrintArgs(args, rest), depth)
  {
    forall i | 0 <= i < |args| ensures Inline(PrintArg, args[i], depth) {
      ArgFits(args[i], depth);
    }
    CommasFit(PrintArg, Token(RPAREN, ")"), true, args, rest, depth);
    PutFits(Token(LPAREN, "("), Commas(PrintArg, Token(RPAREN, ")"), true, args, rest), depth);
  }

  lemma CallFits(c: FeatureCall, rest: Toks, depth: nat)
    requires WfAction(c) && More(rest, depth)
    ensures First(PrintCall(c, rest), depth) && More(PrintCall(c, rest), depth)
  {
    ArgsFit(c.args, rest, depth);
    PutFits(Token(IDENT, c.name), PrintArgs(c.args, rest), depth);
  }

  lemma IdentsFit(xs: seq<string>, rest: Toks, depth: nat)
    requires More(rest, depth)
    ensures More(PrintIdents(xs, rest), depth)
  {
    forall i | 0 <= i < |xs| ensures Inline(Name, xs[i], depth) {
      NameFits(xs[i], depth);
    }
    CommasFit(Name, Token(RBRACKET, "]"), true, xs, rest, depth);
    PutFits(Token(LBRACKET, "["), Commas(Name, Token(RBRACKET, "]"), true, xs, rest), depth);
  }

  lemma ReferenceFits(r: Require, rest: Toks, depth: nat)
    requires WfRequire(r) && More(rest, depth)
    ensures More(PrintReference(r, rest), depth)
  {
    match r
    case AwaitRef(trigger) =>
      PutFits(Token(IDENT, trigger), rest, depth);
      PutFits(Token(AWAIT, "await"), Name(trigger, rest), depth);
    case FeatureRef(call) => CallFits(call, rest, depth);
    case PhaseRef(phase, condition) =>
      PutFits(PrintCondition(condition, rest).head, rest, depth);
      PutFits(Token(DOT, "."), PrintCondition(condition, rest), depth);
      PutFits(Token(IDENT, phase), Put(DOT, ".", PrintCondition(condition, rest)), depth);
    case BuiltinRef(name) => PutFits(Token(IDENT, name), rest, depth);
  }

  lemma PredicateFits(p: Predicate, rest: Toks, depth: nat)
    requires WfPredicate(p) && More(rest, depth)
    ensures More(PrintPredicate(p, rest), depth)
  {
    ValueFits(p.value, rest, depth);
    PutFits(Token(KindOf(p.operator), p.operator), PrintValue(p.value, rest), depth);
    DottedFits(p.field, PrintTest(p.operator, p.value, rest), depth);
  }

  // ------------------------------------------------------------------ statements

  lemma RequireFits(r: Require, depth: nat)
    requires WfRequire(r)
    ensures Lines(PrintRequire, r, depth)
  {
    forall rest | Next(rest, depth) ensures First(PrintRequire(r, rest), depth) {
      LineFits(rest, depth);
      ReferenceFits(r, Line(rest), depth);
      PutFits(Token(REQUIRE, "require"), PrintReference(r, Line(rest)), depth);
    }
  }

  lemma ActionFits(c: FeatureCall, depth: nat)
    requires WfAction(c)
    ensures Lines(PrintAction, c, depth)
  {
    forall rest | Next(rest, depth) ensures First(PrintAction(c, rest), depth) {
      LineFits(rest, depth);
      CallFits(c, Line(rest), depth);
      PutFits(Token(ACTION, "action"), PrintCall(c, Line(rest)), depth);
    }
  }

  lemma NamedFits(key: Token, x: string, rest: Toks, depth: nat)
    requires !IsLayout(key.kind) && NotDoc(key) && Next(rest, depth)
    ensures First(PrintNamed(key, x, rest), depth)
  {
    LineFits(rest, depth);
    PutFits(Token(IDENT, x), Line(rest), depth);
    PutFits(key, Name(x, Line(rest)), depth);
  }

  lemma OutputFits(x: string, depth: nat)
    ensures Lines(PrintOutput, x, depth)
  {
    forall rest | Next(rest, depth) ensures First(PrintOutput(x, rest), depth) {
      NamedFits(Token(OUTPUT, "output"), x, rest, depth);
    }
  }

  lemma AwaitFits(x: string, depth: nat)
    ensures Lines(PrintAwait, x, depth)
  {
    forall rest | Next(rest, depth) ensures First(PrintAwait(x, rest), depth) {
      NamedFits(Token(AWAIT, "await"), x, rest, depth);
    }
  }

  lemma EvidenceFits(x: string, depth: nat)
    ensures Lines(PrintEvidence, x, depth)
  {
    forall rest | Next(rest, depth) ensures First(PrintEvidence(x, rest), depth) {
      NamedFits(Token(EVIDENCE, "evidence"), x, rest, depth);
    }
  }

  lemma CertifyFits(q: string, depth: nat)
    ensures Lines(PrintCertify, q, depth)
  {
    forall rest | Next(rest, depth) ensures First(PrintCertify(q, rest), depth) {
      LineFits(rest, depth);
      PutFits(Token(if q == "immutable" then IMMUTABLE else IDENT, q), Line(rest), depth);
      PutFits(Token(CERTIFY, "certify"), PrintCertify(q, rest).tail, depth);
    }
  }

  lemma LimitFits(ttl: Option<int>, rest: Toks, depth: nat)
    requires More(rest, depth)
    ensures More(PrintLimit(ttl, rest), depth)
  {
    if ttl.Some? && ttl.value >= 0 {
      PutFits(Token(IDENT, "m"), rest, depth);
      PutFits(Token(INT, NatText(ttl.value)), Name("m", rest), depth);
      PutFits(Token(FOR, "for"), PrintInt(ttl.value, Name("m", rest)), depth);
    }
  }

  lemma GrantFits(g: Grant, depth: nat)
    ensures Lines(PrintGrant, g, depth)
  {
    forall rest | Next(rest, depth) ensures First(PrintGrant(g, rest), depth) {
      LineFits(rest, depth);
      LimitFits(g.ttlMinutes, Line(rest), depth);
      PutFits(Token(IDENT, g.documentType), PrintLimit(g.ttlMinutes, Line(rest)), depth);
      PutFits(Token(GRANTS, "grants"), Name(g.documentType, PrintLimit(g.ttlMinutes, Line(rest))), depth);
    }
  }

  lemma WhenHeadFits(p: Predicate, body: Toks, depth: nat)
    requires WfPredicate(p) && First(body, depth + 1)
    ensures First(PrintWhenHead(p, body), depth)
  {
    BeginFits(body, depth);
    PredicateFits(p, Begin(body), depth);
    PutFits(Token(WHEN, "when"), PrintPredicate(p, Begin(body)), depth);
  }

  lemma RequiresFit(xs: seq<Require>, rest: Toks, depth: nat)
    requires Next(rest, depth) && forall i :: 0 <= i < |xs| ==> WfRequire(xs[i])
    ensures var all := All(PrintRequire, xs, rest);
      Next(all, depth) && (xs != [] || First(rest, depth) ==> First(all, depth))
  {
    forall i | 0 <= i < |xs| ensures Lines(PrintRequire, xs[i], depth) {
      RequireFits(xs[i], depth);
    }
    AllFits(PrintRequire, xs, rest, depth);
  }

  lemma ActionsFit(xs: seq<FeatureCall>, rest: Toks, depth: nat)
    requires Next(rest, depth) && forall i :: 0 <= i < |xs| ==> WfAction(xs[i])
    ensures var all := All(PrintAction, xs, rest);
      Next(all, depth) && (xs != [] || First(rest, depth) ==> First(all, depth))
  {
    forall i | 0 <= i < |xs| ensures Lines(PrintAction, xs[i], depth) {
      ActionFits(xs[i], depth);
    }
    AllFits(PrintAction, xs, rest, depth);
  }

  lemma AwaitsFit(xs: seq<string>, rest: Toks, depth: nat)
    requires Next(rest, depth)
    ensures var all := All(PrintAwait, xs, rest);
      Next(all, depth) && (xs != [] || First(rest, depth) ==> First(all, depth))
  {
    forall i | 0 <= i < |xs| ensures Lines(PrintAwait, xs[i], depth) {
      AwaitFits(xs[i], depth);
    }
    AllFits(PrintAwait, xs, rest, depth);
  }

  lemma OutputsFit(xs: seq<string>, rest: Toks, depth: nat)
    requires Next(rest, depth)
    ensures var all := All(PrintOutput, xs, rest);
      Next(all, depth) && (xs != [] || First(rest, depth) ==> First(all, depth))
  {
    forall i | 0 <= i < |xs| ensures Lines(PrintOutput, xs[i], depth) {
      OutputFits(xs[i], depth);
    }
    AllFits(PrintOutput, xs, rest, depth);
  }

  lemma GrantsFit(xs: seq<Grant>, rest: Toks, depth: nat)
    requires Next(rest, depth)
    ensures var all := All(PrintGrant, xs, rest);
      Next(all, depth) && (xs != [] || First(rest, depth) ==> First(all, depth))
  {
    forall i | 0 <= i < |xs| ensures Lines(PrintGrant, xs[i], depth) {
      GrantFits(xs[i], depth);
    }
    AllFits(PrintGrant, xs, rest, depth);
  }

  lemma OptionFits(print_: (string, Toks) -> Toks, x: Option<string>, rest: Toks, depth: nat)
    requires Next(rest, depth) && (x.Some? ==> Lines(print_, x.value, depth))
    ensures var one := PrintOption(print_, x, rest);
      Next(one, depth) && (x.Some? || First(rest, depth) ==> First(one, depth))
  {
    if x.Some? {
      FirstFits(print_(x.value, rest), depth);
    }
  }

  // ------------------------------------------------------------------ blocks

  lemma WhenBodyFits(w: WhenBlock, rest: Toks, depth: nat)
    requires WfWhen(w) && FilledWhen(w) && Next(rest, depth)
    ensures First(PrintWhenBody(w, rest), depth)
  {
    var awaits := All(PrintAwait, w.awaits, rest);
    var actions := All(PrintAction, w.actions, awaits);
    AwaitsFit(w.awaits, rest, depth);
    ActionsFit(w.actions, awaits, depth);
    RequiresFit(w.requires_, actions, depth);
  }

  lemma WhenFits(w: WhenBlock, depth: nat)
    requires WfWhen(w) && FilledWhen(w)
    ensures Lines(PrintWhen, w, depth)
  {
    forall rest | Next(rest, depth) ensures First(PrintWhen(w, rest), depth) {
      DedentFits(rest, depth);
      WhenBodyFits(w, Put(DEDENT, "", rest), depth + 1);
      WhenHeadFits(w.predicate_, PrintWhenBody(w, Put(DEDENT, "", rest)), depth);
    }
  }

  lemma WhensFit(xs: seq<WhenBlock>, rest: Toks, depth: nat)
    requires Next(rest, depth) && forall i :: 0 <= i < |xs| ==> WfWhen(xs[i]) && FilledWhen(xs[i])
    ensures var all := All(PrintWhen, xs, rest);
      Next(all, depth) && (xs != [] || First(rest, depth) ==> First(all, depth))
  {
    forall i | 0 <= i < |xs| ensures Lines(PrintWhen, xs[i], depth) {
      WhenFits(xs[i], depth);
    }
    AllFits(PrintWhen, xs, rest, depth);
  }

  lemma PhaseEndFits(p: Phase, rest: Toks, depth: nat)
    requires WfPhase(p) && FilledPhase(p) && Next(rest, depth)
    ensures Next(PrintPhaseEnd(p, rest), depth)
    ensures p.certify.Some? || p.evidence.Some? || p.whenBlocks != [] || p.awaits != [] ==>
            First(PrintPhaseEnd(p, rest), depth)
  {
    var awaits := All(PrintAwait, p.awaits, rest);
    var whens := All(PrintWhen, p.whenBlocks, awaits);
    var evidence := PrintOption(PrintEvidence, p.evidence, whens);
    AwaitsFit(p.awaits, rest, depth);
    WhensFit(p.whenBlocks, awaits, depth);
    if p.evidence.Some? {
      EvidenceFits(p.evidence.value, depth);
    }
    OptionFits(PrintEvidence, p.evidence, whens, depth);
    if p.certify.Some? {
      CertifyFits(p.certify.value, depth);
    }
    OptionFits(PrintCertify, p.certify, evidence, depth);
  }

  lemma PhaseBodyFits(p: Phase, rest: Toks, depth: nat)
    requires WfPhase(p) && FilledPhase(p) && Next(rest, depth)
    ensures First(PrintPhaseBody(p, rest), depth)
  {
    var end := PrintPhaseEnd(p, rest);
    var outputs := All(PrintOutput, p.outputs, end);
    var actions := All(PrintAction, p.actions, outputs);
    var grants := All(PrintGrant, p.grants, actions);
    PhaseEndFits(p, rest, depth);
    OutputsFit(p.outputs, end, depth);
    ActionsFit(p.actions, outputs, depth);
    GrantsFit(p.grants, actions, depth);
    RequiresFit(p.requires_, grants, depth);
  }

  /** A line of a keyword, a name and the rest of the line. */
  lemma KeyedFits(key: Token, name: string, rest: Toks, depth: nat)
    requires !IsLayout(key.kind) && NotDoc(key) && More(rest, depth)
    ensures First(Tok(key, Name(name, rest)), depth)
  {
    PutFits(Token(IDENT, name), rest, depth);
    PutFits(key, Name(name, rest), depth);
  }

  lemma PhaseLinesFit(p: Phase, rest: Toks, depth: nat)
    requires WfPhase(p) && FilledPhase(p) && Next(rest, depth)
    ensures More(Begin(PrintPhaseBody(p, Put(DEDENT, "", rest))), depth)
  {
    DedentFits(rest, depth);
    PhaseBodyFits(p, Put(DEDENT, "", rest), depth + 1);
    BeginFits(PrintPhaseBody(p, Put(DEDENT, "", rest)), depth);
  }

  lemma PhaseFits(p: Phase, depth: nat)
    requires WfPhase(p) && FilledPhase(p)
    ensures Lines(PrintPhase, p, depth)
  {
    forall rest | Next(rest, depth) ensures First(PrintPhase(p, rest), depth) {
      PhaseLinesFit(p, rest, depth);
      KeyedFits(Token(PHASE, "phase"), p.name, Begin(PrintPhaseBody(p, Put(DEDENT, "", rest))), depth);
    }
  }

  lemma PhasesFit(xs: seq<Phase>, rest: Toks, depth: nat)
    requires xs != [] && Next(rest, depth) && forall i :: 0 <= i < |xs| ==> WfPhase(xs[i]) && FilledPhase(xs[i])
    ensures More(PrintBlock(PrintPhase, xs, rest), depth)
  {
    forall i | 0 <= i < |xs| ensures Lines(PrintPhase, xs[i], depth + 1) {
      PhaseFits(xs[i], depth + 1);
    }
    BlockFits(PrintPhase, xs, rest, depth);
  }

  lemma WorkflowFits(w: Workflow, depth: nat)
    requires WfWorkflow(w) && FilledWorkflow(w)
    ensures Lines(PrintWorkflow, w, depth)
  {
    forall rest | Next(rest, depth) ensures First(PrintWorkflow(w, rest), depth) {
      PhasesFit(w.phases, rest, depth);
      KeyedFits(Token(WORKFLOW, "workflow"), w.name, PrintBlock(PrintPhase, w.phases, rest), depth);
    }
  }

  lemma WaitingFits(p: WaitingPeriod, rest: Toks, depth: nat)
    requires WfWaiting(p) && Next(rest, depth)
    ensures First(PrintWaiting(p, rest), depth)
  {
    var unit_ := PrintUnit(p.unit_, Line(rest));
    var max := PrintInt(p.maxValue, unit_);
    LineFits(rest, depth);
    PutFits(unit_.head, Line(rest), depth);
    PutFits(Token(INT, NatText(p.maxValue)), unit_, depth);
    PutFits(Token(DOTDOT, ".."), max, depth);
    PutFits(Token(INT, NatText(p.minValue)), Put(DOTDOT, "..", max), depth);
    PutFits(Token(WAITING_PERIOD, "waiting_period"), PrintRange(p.minValue, p.maxValue, unit_), depth);
  }

  lemma SituationFits(s: Situation, depth: nat)
    requires WfSituation(s) && FilledSituation(s)
    ensures Lines(PrintSituation, s, depth)
  {
    forall rest | Next(rest, depth) ensures First(PrintSituation(s, rest), depth) {
      var end := Put(DEDENT, "", rest);
      DedentFits(rest, depth);
      RequiresFit(s.requires_, end, depth + 1);
      if s.waitingPeriod.Some? {
        WaitingFits(s.waitingPeriod.value, All(PrintRequire, s.requires_, end), depth + 1);
      }
      WhenHeadFits(s.predicate_, PrintSituationBody(s, end), depth);
    }
  }

  lemma FlagFits(key: Token, flag: bool, rest: Toks, depth: nat)
    requires !IsLayout(key.kind) && NotDoc(key) && Next(rest, depth)
    ensures First(PrintFlag(key, flag, rest), depth) && Next(PrintFlag(key, flag, rest), depth)
  {
    var value := Token(if flag then TRUE else FALSE, if flag then "true" else "false");
    LineFits(rest, depth);
    PutFits(value, Line(rest), depth);
    PutFits(Token(COLON, ":"), Tok(value, Line(rest)), depth);
    PutFits(key, Put(COLON, ":", Tok(value, Line(rest))), depth);
  }

  lemma RoleActionsFit(xs: seq<string>, rest: Toks, depth: nat)
    requires More(rest, depth)
    ensures First(Put(ACTIONS, "actions", Put(COLON, ":", PrintIdents(xs, rest))), depth)
  {
    IdentsFit(xs, rest, depth);
    PutFits(Token(COLON, ":"), PrintIdents(xs, rest), depth);
    PutFits(Token(ACTIONS, "actions"), Put(COLON, ":", PrintIdents(xs, rest)), depth);
  }

  lemma RoleBodyFits(role: Role, rest: Toks, depth: nat)
    requires Next(rest, depth)
    ensures First(PrintRoleBody(role, rest), depth)
  {
    var mfa := PrintFlag(Token(REQUIRES_MFA, "requires_mfa"), role.requiresMfa, rest);
    var glass := PrintFlag(Token(BREAK_GLASS, "break_glass"), role.breakGlass, mfa);
    FlagFits(Token(REQUIRES_MFA, "requires_mfa"), role.requiresMfa, rest, depth);
    FlagFits(Token(BREAK_GLASS, "break_glass"), role.breakGlass, mfa, depth);
    LineFits(glass, depth);
    RoleActionsFit(role.actions, Line(glass), depth);
  }

  lemma RoleFits(role: Role, depth: nat)
    ensures Lines(PrintRole, role, depth)
  {
    forall rest | Next(rest, depth) ensures First(PrintRole(role, rest), depth) {
      var body := PrintRoleBody(role, Put(DEDENT, "", rest));
      DedentFits(rest, depth);
      RoleBodyFits(role, Put(DEDENT, "", rest), depth + 1);
      BeginFits(body, depth);
      PutFits(Token(IDENT, role.name), Begin(body), depth);
    }
  }

  // ------------------------------------------------------------------ header and sections

  lemma AtVersionFits(version: string, rest: Toks, depth: nat)
    requires More(rest, depth)
    ensures More(Put(AT, "@", Put(VersionKind(version), version, rest)), depth)
  {
    PutFits(Token(VersionKind(version), version), rest, depth);
    PutFits(Token(AT, "@"), Put(VersionKind(version), version, rest), depth);
  }

  lemma SchemaFits(s: SchemaRef, depth: nat)
    ensures Lines(PrintSchema, s, depth)
  {
    forall rest | Next(rest, depth) ensures First(PrintSchema(s, rest), depth) {
      var after := Put(AT, "@", Put(VersionKind(s.version), s.version, Line(rest)));
      LineFits(rest, depth);
      AtVersionFits(s.version, Line(rest), depth);
      DottedFits(s.namespace_, after, depth);
      PutFits(Token(DASH, "-"), PrintDotted(s.namespace_, after), depth);
    }
  }

  lemma PackageFits(name: string, depth: nat)
    ensures Lines(PrintPackage, name, depth)
  {
    KeywordKinds(name);
    forall rest | Next(rest, depth) ensures First(PrintPackage(name, rest), depth) {
      LineFits(rest, depth);
      PutFits(Word(name), Line(rest), depth);
      PutFits(Token(DASH, "-"), Tok(Word(name), Line(rest)), depth);
    }
  }

  lemma PolicyFits(id: string, depth: nat)
    ensures Lines(PrintPolicy, id, depth)
  {
    forall rest | Next(rest, depth) ensures First(PrintPolicy(id, rest), depth) {
      LineFits(rest, depth);
      DottedFits(id, Line(rest), depth);
      PutFits(Token(DASH, "-"), PrintDotted(id, Line(rest)), depth);
    }
  }

  lemma TriggerFits(name: string, depth: nat)
    ensures Lines(PrintTrigger, name, depth)
  {
    forall rest | Next(rest, depth) ensures First(PrintTrigger(name, rest), depth) {
      LineFits(rest, depth);
      PutFits(Token(IDENT, name), Line(rest), depth);
    }
  }

  lemma VersionFits(version: string, rest: Toks, depth: nat)
    requires More(rest, depth)
    ensures More(PrintVersion(version, rest), depth)
  {
    var parts := Split(version);
    if |parts| == 1 {
      PutFits(Token(IDENT, version), rest, depth);
    } else {
      var minor := Put(INT, Join(parts[1..]), rest);
      PutFits(Token(INT, Join(parts[1..])), rest, depth);
      PutFits(Token(DOT, "."), minor, depth);
      PutFits(Token(IDENT, parts[0]), Put(DOT, ".", minor), depth);
    }
  }

  lemma HeaderFits(name: string, version: string, rest: Toks)
    requires Next(rest, 0)
    ensures Next(PrintHeader(name, version, rest), 0)
  {
    LineFits(rest, 0);
    VersionFits(version, Line(rest), 0);
    PutFits(Token(STRING, name), PrintVersion(version, Line(rest)), 0);
    PutFits(Token(CHARTER, "charter"), Put(STRING, name, PrintVersion(version, Line(rest))), 0);
  }

  lemma RolesFit(xs: seq<Role>, rest: Toks)
    requires Next(rest, 0)
    ensures Next(PrintSection(Token(ROLES, "roles"), PrintRole, xs, rest), 0)
  {
    forall i | 0 <= i < |xs| ensures Lines(PrintRole, xs[i], 1) {
      RoleFits(xs[i], 1);
    }
    SectionFits(Token(ROLES, "roles"), PrintRole, xs, rest, 0);
  }

  lemma SituationsFit(xs: seq<Situation>, rest: Toks)
    requires Next(rest, 0) && forall i :: 0 <= i < |xs| ==> WfSituation(xs[i]) && FilledSituation(xs[i])
    ensures Next(PrintSection(Token(SITUATIONS, "situations"), PrintSituation, xs, rest), 0)
  {
    forall i | 0 <= i < |xs| ensures Lines(PrintSituation, xs[i], 1) {
      SituationFits(xs[i], 1);
    }
    SectionFits(Token(SITUATIONS, "situations"), PrintSituation, xs, rest, 0);
  }

  lemma WorkflowsFit(xs: seq<Workflow>, rest: Toks)
    requires Next(rest, 0) && forall i :: 0 <= i < |xs| ==> WfWorkflow(xs[i]) && FilledWorkflow(xs[i])
    ensures Next(All(PrintWorkflow, xs, rest), 0)
  {
    forall i | 0 <= i < |xs| ensures Lines(PrintWorkflow, xs[i], 0) {
      WorkflowFits(xs[i], 0);
    }
    AllFits(PrintWorkflow, xs, rest, 0);
  }

  lemma EndFits()
    ensures Next(Put(EOF, "", End), 0)
  {
  }

  lemma BlocksFit(c: Charter)
    requires WfCharter(c) && Filled(c)
    ensures Next(PrintBlocks(c), 0)
  {
    var end := Put(EOF, "", End);
    var roles := PrintSection(Token(ROLES, "roles"), PrintRole, c.roles, end);
    EndFits();
    RolesFit(c.roles, end);
    SituationsFit(c.situations, roles);
    WorkflowsFit(c.workflows, PrintSection(Token(SITUATIONS, "situations"), PrintSituation, c.situations, roles));
  }

  lemma TriggersFit(xs: seq<string>, rest: Toks)
    requires Next(rest, 0)
    ensures Next(PrintSection(Token(TRIGGERS, "triggers"), PrintTrigger, xs, rest), 0)
  {
    forall i | 0 <= i < |xs| ensures Lines(PrintTrigger, xs[i], 1) {
      TriggerFits(xs[i], 1);
    }
    SectionFits(Token(TRIGGERS, "triggers"), PrintTrigger, xs, rest, 0);
  }

  lemma PoliciesFit(xs: seq<string>, rest: Toks)
    requires Next(rest, 0)
    ensures Next(PrintSection(Token(POLICIES, "policies"), PrintPolicy, xs, rest), 0)
  {
    forall i | 0 <= i < |xs| ensures Lines(PrintPolicy, xs[i], 1) {
      PolicyFits(xs[i], 1);
    }
    SectionFits(Token(POLICIES, "policies"), PrintPolicy, xs, rest, 0);
  }

  lemma PackagesFit(xs: seq<string>, rest: Toks)
    requires Next(rest, 0)
    ensures Next(PrintSection(Token(PACKAGES, "packages"), PrintPackage, xs, rest), 0)
  {
    forall i | 0 <= i < |xs| ensures Lines(PrintPackage, xs[i], 1) {
      PackageFits(xs[i], 1);
    }
    SectionFits(Token(PACKAGES, "packages"), PrintPackage, xs, rest, 0);
  }

  lemma SchemasFit(xs: seq<SchemaRef>, rest: Toks)
    requires Next(rest, 0)
    ensures Next(PrintSection(Token(SCHEMAS, "schemas"), PrintSchema, xs, rest), 0)
  {
    forall i | 0 <= i < |xs| ensures Lines(PrintSchema, xs[i], 1) {
      SchemaFits(xs[i], 1);
    }
    SectionFits(Token(SCHEMAS, "schemas"), PrintSchema, xs, rest, 0);
  }

  lemma ListsFit(c: Charter, rest: Toks)
    requires Next(rest, 0)
    ensures Next(PrintLists(c, rest), 0)
  {
    var triggers := PrintSection(Token(TRIGGERS, "triggers"), PrintTrigger, c.triggers, rest);
    var policies := PrintSection(Token(POLICIES, "policies"), PrintPolicy, c.policies, triggers);
    TriggersFit(c.triggers, rest);
    PoliciesFit(c.policies, triggers);
    PackagesFit(c.packages, policies);
    SchemasFit(c.schemas, PrintSection(Token(PACKAGES, "packages"), PrintPackage, c.packages, policies));
  }

  /** Every printing is laid out properly: lines, blocks and the end are where the lexer puts them. */
  lemma PrintFits(c: Charter)
    requires WfCharter(c) && Filled(c)
    ensures Next(Print(c), 0)
  {
    BlocksFit(c);
    ListsFit(c, PrintBlocks(c));
    HeaderFits(c.name, c.version, PrintLists(c, PrintBlocks(c)));
  }

  // ------------------------------------------------------------------ the text

  lemma {:induction false} LexableLayout(ts: Toks, depth: nat, place: Place)
    requires Laid(ts, depth, place, NotDoc) && AllLexable(ts)
    ensures Laid(ts, depth, place, Lexable)
    decreases ts
  {
    var k := ts.head.kind;
    if k == NEWLINE {
      LexableLayout(ts.tail, depth, Fresh);
    } else if k == INDENT {
      LexableLayout(ts.tail, depth + 1, Indented);
    } else if k == DEDENT {
      LexableLayout(ts.tail, depth - 1, Dedented);
    } else if k != EOF {
      LexableLayout(ts.tail, depth, Within);
    }
  }

  /** The text of a charter lexes to its canonical tokens. */
  lemma WrittenLexes(c: Charter)
    requires Writable(c)
    ensures Lex(Write(c)) == Some(Listing(Print(c)))
  {
    PrintFits(c);
    LexableLayout(Print(c), 0, Dedented);
    LexRender(Print(c));
  }

  /** What holds of a listing holds of the first token and of the listing of the others. */
  lemma ListingTail(ts: Toks, p: Token -> bool)
    requires ts.Tok? && forall i :: 0 <= i < |Listing(ts)| ==> p(Listing(ts)[i])
    ensures p(ts.head) && forall i :: 0 <= i < |Listing(ts.tail)| ==> p(Listing(ts.tail)[i])
  {
    var list, rest := Listing(ts), Listing(ts.tail);
    assert list[0] == ts.head;
    forall i | 0 <= i < |rest| ensures p(rest[i]) {
      assert list[i + 1] == rest[i];
    }
  }

  lemma {:induction false} EmittableList(ts: Toks, depth: nat, place: Place)
    requires Laid(ts, depth, place, NotDoc) && AllEmittable(Listing(ts))
    ensures AllLexable(ts)
    decreases ts
  {
    var k := ts.head.kind;
    ListingTail(ts, Emittable);
    if k == NEWLINE {
      EmittableList(ts.tail, depth, Fresh);
    } else if k == INDENT {
      EmittableList(ts.tail, depth + 1, Indented);
    } else if k == DEDENT {
      EmittableList(ts.tail, depth - 1, Dedented);
    } else if k != EOF {
      EmittableList(ts.tail, depth, Within);
    }
  }

  /** Some text lexes to a charter's tokens exactly when each of them can be written, and then its own text does. */
  lemma WritableIff(c: Charter)
    requires WfCharter(c) && Filled(c)
    ensures (exists text :: Lex(text) == Some(Listing(Print(c)))) <==> AllLexable(Print(c))
  {
    if AllLexable(Print(c)) {
      WrittenLexes(c);
    }
    forall text | Lex(text) == Some(Listing(Print(c))) ensures AllLexable(Print(c)) {
      LexEmittable(text);
      PrintFits(c);
      EmittableList(Print(c), 0, Dedented);
    }
  }
}
