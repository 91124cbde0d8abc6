/**
 * What the recursive-descent parser accepts and builds, as functions from the remaining tokens to a
 * value and the tokens after it. Every function is total, so parsing halts on every token list.
 */
module Grammar {
  import opened Options
  import opened CharterAst
  import opened Tokens

  /** A parsed value with the tokens after it; `:-` propagates errors and otherwise gives both. */
  datatype Parse<+T> = Ok(value: T, rest: Toks) | Err {
    predicate IsFailure() {
      Err?
    }

    function PropagateFailure<U>(): Parse<U>
      requires IsFailure()
    {
      Err
    }

    function Extract(): (r: Parse<T>)
      requires !IsFailure()
      ensures r.Ok?
    {
      this
    }
  }

  /** Success leaves fewer tokens than there were. */
  predicate Shorter<T>(r: Parse<T>, ts: Toks) {
    r.Ok? ==> Len(r.rest) < Len(ts)
  }

  ghost predicate Consumes<S(!new)>(stmt: (Toks, S) -> Parse<S>) {
    forall ts, s :: Shorter(stmt(ts, s), ts)
  }

  // ------------------------------------------------------------------ well-formed syntax

  predicate WfValue(v: Value) {
    v.IntValue? ==> v.number >= 0
  }

  predicate WfArgs(args: seq<Arg>) {
    forall i :: 0 <= i < |args| ==> WfValue(args[i].value)
  }

  predicate WfRequire(r: Require) {
    r.FeatureRef? ==> WfArgs(r.call.args)
  }

  predicate WfAction(c: FeatureCall) {
    WfArgs(c.args)
  }

  predicate WfGrant(g: Grant) {
    g.ttlMinutes.Some? ==> g.ttlMinutes.value >= 0
  }

  predicate WfPredicate(p: Predicate) {
    WfValue(p.value)
  }

  predicate WfWhen(w: WhenBlock) {
    && WfPredicate(w.predicate_)
    && (forall i :: 0 <= i < |w.requires_| ==> WfRequire(w.requires_[i]))
    && (forall i :: 0 <= i < |w.actions| ==> WfAction(w.actions[i]))
  }

  predicate WfPhase(p: Phase) {
    && (forall i :: 0 <= i < |p.requires_| ==> WfRequire(p.requires_[i]))
    && (forall i :: 0 <= i < |p.actions| ==> WfAction(p.actions[i]))
    && (forall i :: 0 <= i < |p.grants| ==> WfGrant(p.grants[i]))
    && (forall i :: 0 <= i < |p.whenBlocks| ==> WfWhen(p.whenBlocks[i]))
  }

  predicate WfPhases(ps: seq<Phase>) {
    forall i :: 0 <= i < |ps| ==> WfPhase(ps[i])
  }

  predicate WfWorkflow(w: Workflow) {
    w.phases != [] && WfPhases(w.phases)
  }

  predicate WfWaiting(p: WaitingPeriod) {
    p.minValue >= 0 && p.maxValue >= 0
  }

  predicate WfSituation(s: Situation) {
    && WfPredicate(s.predicate_) && (s.waitingPeriod.Some? ==> WfWaiting(s.waitingPeriod.value))
    && (forall i :: 0 <= i < |s.requires_| ==> WfRequire(s.requires_[i]))
  }

  predicate WfSituations(ss: seq<Situation>) {
    forall i :: 0 <= i < |ss| ==> WfSituation(ss[i])
  }

  /** What every parsed charter satisfies: integers are not negative, and workflows not empty. */
  predicate WfCharter(c: Charter) {
    (forall i :: 0 <= i < |c.workflows| ==> WfWorkflow(c.workflows[i])) && WfSituations(c.situations)
  }

  // ------------------------------------------------------------------ navigation

  function Expect(k: Kind, ts: Toks): (r: Parse<string>)
    ensures Shorter(r, ts)
  {
    if ts.Kind() == k && ts.Tok? then Ok(ts.Text(), ts.Rest()) else Err
  }

  function SkipNewlines(ts: Toks): (r: Toks)
    ensures Len(r) <= Len(ts) && r.Kind() != NEWLINE
  {
    if ts.Kind() == NEWLINE then SkipNewlines(ts.Rest()) else ts
  }

  function SkipDocstrings(ts: Toks): (r: Toks)
    ensures Len(r) <= Len(ts) && r.Kind() != DOCSTRING && (ts.Kind() != NEWLINE ==> r.Kind() != NEWLINE)
    decreases Len(ts)
  {
    if ts.Kind() == DOCSTRING then SkipDocstrings(SkipNewlines(ts.Rest())) else ts
  }

  predicate AtEnd(ts: Toks) {
    ts.Kind() == DEDENT || ts.Kind() == EOF
  }

  /** COLON, line ends, INDENT. */
  function Open(ts: Toks): (r: Parse<string>)
    ensures Shorter(r, ts)
  {
    var colon :- Expect(COLON, ts);
    Expect(INDENT, SkipNewlines(colon.rest))
  }

  function Close(ts: Toks): (r: Toks)
    ensures Len(r) <= Len(ts)
  {
    if ts.Kind() == DEDENT then ts.Rest() else ts
  }

  /** Line ends, and where they are allowed docstrings, before an item. */
  function Lead(docs: bool, ts: Toks): (r: Toks)
    ensures Len(r) <= Len(ts)
  {
    if docs then SkipDocstrings(SkipNewlines(ts)) else SkipNewlines(ts)
  }

  /** The statements of an indented block, each applied to what has been built so far. */
  ghost function Body<S(!new)>(stmt: (Toks, S) -> Parse<S>, docs: bool, ts: Toks, s: S): (r: Parse<S>)
    requires Consumes(stmt)
    ensures r.Ok? ==> Len(r.rest) <= Len(ts)
    decreases Len(ts)
  {
    var at := Lead(docs, ts);
    if AtEnd(at) then Ok(s, Close(at))
    else
      assert Shorter(stmt(at, s), at);
      var x :- stmt(at, s);
      Body(stmt, docs, SkipNewlines(x.rest), x.value)
  }

  /** Skipping ahead to the next statement changes nothing. */
  lemma BodyLead<S(!new)>(stmt: (Toks, S) -> Parse<S>, docs: bool, ts: Toks, s: S)
    requires Consumes(stmt)
    ensures Body(stmt, docs, Lead(docs, ts), s) == Body(stmt, docs, ts, s)
  {
    assert Lead(docs, Lead(docs, ts)) == Lead(docs, ts);
  }

  /** What every statement keeps, the block keeps. */
  lemma {:induction false} BodyKeeps<S(!new)>(stmt: (Toks, S) -> Parse<S>, docs: bool, p: S -> bool, ts: Toks, s: S)
    requires Consumes(stmt) && p(s) && forall t, x :: p(x) && stmt(t, x).Ok? ==> p(stmt(t, x).value)
    ensures var r := Body(stmt, docs, ts, s); r.Ok? ==> p(r.value)
    decreases Len(ts)
  {
    var at := Lead(docs, ts);
    if !AtEnd(at) && stmt(at, s).Ok? {
      assert Shorter(stmt(at, s), at);
      BodyKeeps(stmt, docs, p, SkipNewlines(stmt(at, s).rest), stmt(at, s).value);
    }
  }

  lemma BlockKeeps<S(!new)>(stmt: (Toks, S) -> Parse<S>, docs: bool, p: S -> bool, ts: Toks, s: S)
    requires Consumes(stmt) && p(s) && forall t, x :: p(x) && stmt(t, x).Ok? ==> p(stmt(t, x).value)
    ensures var r := Block(stmt, docs, ts, s); r.Ok? ==> p(r.value)
  {
    if Open(ts).Ok? {
      BodyKeeps(stmt, docs, p, Open(ts).rest, s);
    }
  }

  /** A colon and an indented block. */
  ghost function Block<S(!new)>(stmt: (Toks, S) -> Parse<S>, docs: bool, ts: Toks, s: S): (r: Parse<S>)
    requires Consumes(stmt)
    ensures Shorter(r, ts)
  {
    var open :- Open(ts);
    Body(stmt, docs, open.rest, s)
  }

  /** The comma due before every list element but the first. */
  function Separator(first: bool, ts: Toks): (r: Parse<string>)
    ensures r.Ok? ==> Len(r.rest) <= Len(ts)
  {
    if first then Ok("", ts) else Expect(COMMA, ts)
  }

  /** The elements of a comma-separated list up to its closing bracket, each added to those before. */
  ghost function Listed<T(!new)>(element: (Toks, seq<T>) -> Parse<seq<T>>, close: Kind, ts: Toks, acc: seq<T>):
      (r: Parse<seq<T>>)
    requires Consumes(element)
    ensures Shorter(r, ts)
    decreases Len(ts)
  {
    if ts.Kind() == close || ts.Kind() == EOF then
      var end :- Expect(close, ts);
      Ok(acc, end.rest)
    else
      var comma :- Separator(acc == [], ts);
      assert Shorter(element(comma.rest, acc), comma.rest);
      var x :- element(comma.rest, acc);
      Listed(element, close, x.rest, x.value)
  }

  lemma {:induction false} ListedKeeps<T(!new)>(element: (Toks, seq<T>) -> Parse<seq<T>>, close: Kind,
                                                p: seq<T> -> bool, ts: Toks, acc: seq<T>)
    requires Consumes(element) && p(acc) && forall t, x :: p(x) && element(t, x).Ok? ==> p(element(t, x).value)
    ensures var r := Listed(element, close, ts, acc); r.Ok? ==> p(r.value)
    decreases Len(ts)
  {
    var comma := Separator(acc == [], ts);
    if ts.Kind() != close && ts.Kind() != EOF && comma.Ok? && element(comma.rest, acc).Ok? {
      assert Shorter(element(comma.rest, acc), comma.rest);
      ListedKeeps(element, close, p, element(comma.rest, acc).rest, element(comma.rest, acc).value);
    }
  }

  // ------------------------------------------------------------------ names, values, arguments

  function DottedRest(ts: Toks, parts: seq<string>): (r: Parse<string>)
    ensures r.Ok? ==> Len(r.rest) <= Len(ts)
    decreases Len(ts)
  {
    if ts.Kind() != DOT then Ok(Join(parts), ts)
    else
      var part :- Expect(IDENT, ts.Rest());
      DottedRest(part.rest, parts + [part.value])
  }

  function DottedName(ts: Toks): (r: Parse<string>)
    ensures Shorter(r, ts)
  {
    var part :- Expect(IDENT, ts);
    DottedRest(part.rest, [part.value])
  }

  function Integer(ts: Toks): (r: Parse<int>)
    ensures Shorter(r, ts)
    ensures r.Ok? ==> r.value >= 0
  {
    var text :- Expect(INT, ts);
    match ParseNat(text.value)
    case None => Err
    case Some(n) => Ok(n, text.rest)
  }

  function ArgValue(ts: Toks): (r: Parse<Value>)
    ensures Shorter(r, ts)
    ensures r.Ok? ==> WfValue(r.value)
  {
    if ts.Kind() == STRING then Ok(StrValue(ts.Text()), ts.Rest())
    else if ts.Kind() == IDENT then Ok(StrValue(ts.Text()), ts.Rest())
    else if ts.Kind() == INT then (var n :- Integer(ts); Ok(IntValue(n.value), n.rest))
    else if ts.Kind() == FLOAT then Ok(FloatValue(ts.Text()), ts.Rest())
    else if ts.Kind() == TRUE then Ok(BoolValue(true), ts.Rest())
    else if ts.Kind() == FALSE then Ok(BoolValue(false), ts.Rest())
    else Err
  }

  /** A positional value, or a name, EQ and a value. */
  function OneArg(ts: Toks): (r: Parse<Arg>)
    ensures Shorter(r, ts)
    ensures r.Ok? ==> WfValue(r.value.value)
  {
    if ts.Kind() == IDENT && ts.Rest().Kind() == EQ then
      var v :- ArgValue(ts.Rest().Rest());
      Ok(Arg(Some(ts.Text()), v.value), v.rest)
    else
      var v :- ArgValue(ts);
      Ok(Arg(None, v.value), v.rest)
  }

  function AddArg(ts: Toks, acc: seq<Arg>): (r: Parse<seq<Arg>>)
    ensures Shorter(r, ts)
    ensures r.Ok? ==> WfArgs(acc) ==> WfArgs(r.value)
  {
    var a :- OneArg(ts);
    Ok(acc + [a.value], a.rest)
  }

  ghost function Args(ts: Toks): (r: Parse<seq<Arg>>)
    ensures Shorter(r, ts)
    ensures r.Ok? ==> WfArgs(r.value)
  {
    var paren :- Expect(LPAREN, ts);
    ListedKeeps(AddArg, RPAREN, WfArgs, paren.rest, []);
    Listed(AddArg, RPAREN, paren.rest, [])
  }

  ghost function Call(ts: Toks): (r: Parse<FeatureCall>)
    ensures Shorter(r, ts)
    ensures r.Ok? ==> WfAction(r.value)
  {
    var name :- Expect(IDENT, ts);
    var args :- Args(name.rest);
    Ok(FeatureCall(name.value, args.value), args.rest)
  }

  function AddIdent(ts: Toks, acc: seq<string>): (r: Parse<seq<string>>)
    ensures Shorter(r, ts)
  {
    var x :- Expect(IDENT, ts);
    Ok(acc + [x.value], x.rest)
  }

  ghost function Idents(ts: Toks): (r: Parse<seq<string>>)
    ensures Shorter(r, ts)
  {
    var bracket :- Expect(LBRACKET, ts);
    Listed(AddIdent, RBRACKET, bracket.rest, [])
  }

  function Boolean(ts: Toks): (r: Parse<bool>)
    ensures Shorter(r, ts)
  {
    if ts.Kind() == TRUE then Ok(true, ts.Rest()) else if ts.Kind() == FALSE then Ok(false, ts.Rest()) else Err
  }

  // ------------------------------------------------------------------ statements

  function Condition(phase: string, ts: Toks): (r: Parse<Require>)
    ensures Shorter(r, ts)
    ensures r.Ok? ==> WfRequire(r.value)
  {
    if ts.Kind() == PASSED then Ok(PhaseRef(phase, "passed"), ts.Rest())
    else if ts.Kind() == COMPLETE then Ok(PhaseRef(phase, "complete"), ts.Rest())
    else if ts.Kind() == IDENT then Ok(PhaseRef(phase, ts.Text()), ts.Rest())
    else Err
  }

  /** What a require refers to, told apart by the token after the identifier. */
  ghost function Reference(ts: Toks): (r: Parse<Require>)
    ensures Shorter(r, ts)
    ensures r.Ok? ==> WfRequire(r.value)
  {
    var ident :- Expect(IDENT, ts);
    if ident.rest.Kind() == LPAREN then (
      var args :- Args(ident.rest); Ok(FeatureRef(FeatureCall(ident.value, args.value)), args.rest))
    else if ident.rest.Kind() == DOT then Condition(ident.value, ident.rest.Rest())
    else Ok(BuiltinRef(ident.value), ident.rest)
  }

  ghost function RequireStmt(ts: Toks): (r: Parse<Require>)
    ensures Shorter(r, ts)
    ensures r.Ok? ==> WfRequire(r.value)
  {
    var kw :- Expect(REQUIRE, ts);
    if kw.rest.Kind() == AWAIT then
      var trigger :- Expect(IDENT, kw.rest.Rest());
      Ok(AwaitRef(trigger.value), trigger.rest)
    else
      Reference(kw.rest)
  }

  ghost function ActionStmt(ts: Toks): (r: Parse<FeatureCall>)
    ensures Shorter(r, ts)
    ensures r.Ok? ==> WfAction(r.value)
  {
    var kw :- Expect(ACTION, ts);
    Call(kw.rest)
  }

  /** A keyword followed by one identifier. */
  function NameStmt(k: Kind, ts: Toks): (r: Parse<string>)
    ensures Shorter(r, ts)
  {
    var kw :- Expect(k, ts);
    Expect(IDENT, kw.rest)
  }

  function CertifyStmt(ts: Toks): (r: Parse<string>)
    ensures Shorter(r, ts)
  {
    var kw :- Expect(CERTIFY, ts);
    if kw.rest.Kind() == IMMUTABLE then Expect(IMMUTABLE, kw.rest) else Expect(IDENT, kw.rest)
  }

  /** The optional `m` after a number of minutes. */
  function Minutes(ts: Toks): (r: Toks)
    ensures Len(r) <= Len(ts)
  {
    if ts.Kind() == IDENT && ts.Text() == "m" then ts.Rest() else ts
  }

  function GrantStmt(ts: Toks): (r: Parse<Grant>)
    ensures Shorter(r, ts)
    ensures r.Ok? ==> WfGrant(r.value)
  {
    var doc :- NameStmt(GRANTS, ts);
    if doc.rest.Kind() != FOR then Ok(Grant(doc.value, None), doc.rest)
    else
      var n :- Integer(doc.rest.Rest());
      Ok(Grant(doc.value, Some(n.value)), Minutes(n.rest))
  }

  predicate IsComparator(k: Kind) {
    k == EQ || k == NEQ || k == GT || k == GTE || k == LT || k == LTE
  }

  function Comparison(ts: Toks): (r: Parse<Predicate>)
    ensures Shorter(r, ts)
    ensures r.Ok? ==> WfPredicate(r.value)
  {
    var field :- DottedName(ts);
    if !IsComparator(field.rest.Kind()) then Err
    else
      var v :- ArgValue(field.rest.Rest());
      Ok(Predicate(field.value, field.rest.Text(), v.value), v.rest)
  }

  /** WHEN, a predicate and the start of a block. */
  function WhenHead(ts: Toks): (r: Parse<Predicate>)
    ensures Shorter(r, ts)
    ensures r.Ok? ==> WfPredicate(r.value)
  {
    var kw :- Expect(WHEN, ts);
    var p :- Comparison(kw.rest);
    var open :- Open(p.rest);
    Ok(p.value, open.rest)
  }

  ghost function WhenStmt(ts: Toks, w: WhenBlock): (r: Parse<WhenBlock>)
    ensures Shorter(r, ts)
    ensures r.Ok? ==> WfWhen(w) ==> WfWhen(r.value)
  {
    if ts.Kind() == REQUIRE then (var x :- RequireStmt(ts); Ok(w.(requires_ := w.requires_ + [x.value]), x.rest))
    else if ts.Kind() == ACTION then (var x :- ActionStmt(ts); Ok(w.(actions := w.actions + [x.value]), x.rest))
    else if ts.Kind() == AWAIT then (var x :- NameStmt(AWAIT, ts); Ok(w.(awaits := w.awaits + [x.value]), x.rest))
    else Err
  }

  ghost function When(ts: Toks): (r: Parse<WhenBlock>)
    ensures Shorter(r, ts)
    ensures r.Ok? ==> WfWhen(r.value)
  {
    var p :- WhenHead(ts);
    BodyKeeps(WhenStmt, false, WfWhen, p.rest, WhenBlock(p.value, [], [], []));
    Body(WhenStmt, false, p.rest, WhenBlock(p.value, [], [], []))
  }

  // ------------------------------------------------------------------ phases and workflows

  function WithRequire(p: Phase, x: Require): (r: Phase)
    ensures WfPhase(p) && WfRequire(x) ==> WfPhase(r)
  {
    p.(requires_ := p.requires_ + [x])
  }

  function WithGrant(p: Phase, x: Grant): (r: Phase)
    ensures WfPhase(p) && WfGrant(x) ==> WfPhase(r)
  {
    p.(grants := p.grants + [x])
  }

  function WithAction(p: Phase, x: FeatureCall): (r: Phase)
    ensures WfPhase(p) && WfAction(x) ==> WfPhase(r)
  {
    p.(actions := p.actions + [x])
  }

  function WithWhen(p: Phase, x: WhenBlock): (r: Phase)
    ensures WfPhase(p) && WfWhen(x) ==> WfPhase(r)
  {
    p.(whenBlocks := p.whenBlocks + [x])
  }

  /** A statement that occupies one line. */
  ghost function PhaseLine(ts: Toks, p: Phase): (r: Parse<Phase>)
    ensures Shorter(r, ts)
    ensures r.Ok? ==> WfPhase(p) ==> WfPhase(r.value)
  {
    if ts.Kind() == REQUIRE then (var x :- RequireStmt(ts); Ok(WithRequire(p, x.value), x.rest))
    else if ts.Kind() == GRANTS then (var x :- GrantStmt(ts); Ok(WithGrant(p, x.value), x.rest))
    else if ts.Kind() == ACTION then (var x :- ActionStmt(ts); Ok(WithAction(p, x.value), x.rest))
    else if ts.Kind() == OUTPUT then (var x :- NameStmt(OUTPUT, ts); Ok(p.(outputs := p.outputs + [x.value]), x.rest))
    else if ts.Kind() == AWAIT then (var x :- NameStmt(AWAIT, ts); Ok(p.(awaits := p.awaits + [x.value]), x.rest))
    else Err
  }

  /** A statement that may appear once. */
  function PhaseSingle(ts: Toks, p: Phase): (r: Parse<Phase>)
    ensures Shorter(r, ts)
    ensures r.Ok? ==> WfPhase(p) ==> WfPhase(r.value)
  {
    if ts.Kind() == CERTIFY && p.certify.None? then (var x :- CertifyStmt(ts); Ok(p.(certify := Some(x.value)), x.rest))
    else if ts.Kind() == EVIDENCE && p.evidence.None? then (
      var x :- NameStmt(EVIDENCE, ts); Ok(p.(evidence := Some(x.value)), x.rest))
    else Err
  }

  ghost function PhaseStmt(ts: Toks, p: Phase): (r: Parse<Phase>)
    ensures Shorter(r, ts)
    ensures r.Ok? ==> WfPhase(p) ==> WfPhase(r.value)
  {
    if ts.Kind() == WHEN then (var x :- When(ts); Ok(WithWhen(p, x.value), x.rest))
    else if ts.Kind() == CERTIFY || ts.Kind() == EVIDENCE then PhaseSingle(ts, p)
    else PhaseLine(ts, p)
  }

  function NewPhase(name: string): Phase {
    Phase(name, [], [], [], [], None, None, [], [])
  }

  ghost function PhaseDecl(ts: Toks): (r: Parse<Phase>)
    ensures Shorter(r, ts)
    ensures r.Ok? ==> WfPhase(r.value)
  {
    var name :- NameStmt(PHASE, ts);
    BlockKeeps(PhaseStmt, true, WfPhase, name.rest, NewPhase(name.value));
    Block(PhaseStmt, true, name.rest, NewPhase(name.value))
  }

  function PhasesWith(acc: seq<Phase>, p: Phase): (r: seq<Phase>)
    ensures WfPhases(acc) && WfPhase(p) ==> WfPhases(r)
  {
    acc + [p]
  }

  ghost function AddPhase(ts: Toks, acc: seq<Phase>): (r: Parse<seq<Phase>>)
    ensures Shorter(r, ts)
    ensures r.Ok? ==> WfPhases(acc) ==> WfPhases(r.value)
  {
    var p :- PhaseDecl(ts);
    Ok(PhasesWith(acc, p.value), p.rest)
  }

  ghost function WorkflowDecl(ts: Toks): (r: Parse<Workflow>)
    ensures Shorter(r, ts)
    ensures r.Ok? ==> WfWorkflow(r.value)
  {
    var name :- NameStmt(WORKFLOW, ts);
    BlockKeeps(AddPhase, true, WfPhases, name.rest, []);
    var phases :- Block(AddPhase, true, name.rest, []);
    if phases.value == [] then Err else Ok(Workflow(name.value, phases.value), phases.rest)
  }

  // ------------------------------------------------------------------ situations and roles

  function Range(ts: Toks): (r: Parse<(int, int)>)
    ensures Shorter(r, ts)
    ensures r.Ok? ==> r.value.0 >= 0 && r.value.1 >= 0
  {
    var min :- Integer(ts);
    var dots :- Expect(DOTDOT, min.rest);
    var max :- Integer(dots.rest);
    Ok((min.value, max.value), max.rest)
  }

  function WaitingStmt(ts: Toks): (r: Parse<WaitingPeriod>)
    ensures Shorter(r, ts)
    ensures r.Ok? ==> WfWaiting(r.value)
  {
    var kw :- Expect(WAITING_PERIOD, ts);
    var range :- Range(kw.rest);
    var at := range.rest;
    if at.Kind() == DAYS || at.Kind() == HOURS || at.Kind() == IDENT
    then Ok(WaitingPeriod(range.value.0, range.value.1, at.Text()), at.Rest()) else Err
  }

  ghost function SituationStmt(ts: Toks, s: Situation): (r: Parse<Situation>)
    ensures Shorter(r, ts)
    ensures r.Ok? ==> WfSituation(s) ==> WfSituation(r.value)
  {
    if ts.Kind() == WAITING_PERIOD then (var x :- WaitingStmt(ts); Ok(s.(waitingPeriod := Some(x.value)), x.rest))
    else if ts.Kind() == REQUIRE then (var x :- RequireStmt(ts); Ok(s.(requires_ := s.requires_ + [x.value]), x.rest))
    else Err
  }

  ghost function SituationDecl(ts: Toks): (r: Parse<Situation>)
    ensures Shorter(r, ts)
    ensures r.Ok? ==> WfSituation(r.value)
  {
    var p :- WhenHead(ts);
    BodyKeeps(SituationStmt, false, WfSituation, p.rest, Situation(p.value, None, []));
    Body(SituationStmt, false, p.rest, Situation(p.value, None, []))
  }

  /** A property keyword, a colon and a boolean. */
  function Flag(ts: Toks): (r: Parse<bool>)
    ensures Shorter(r, ts)
  {
    var colon :- Expect(COLON, ts.Rest());
    Boolean(colon.rest)
  }

  /** The actions keyword, a colon and a list of identifiers. */
  ghost function ActionList(ts: Toks): (r: Parse<seq<string>>)
    ensures Shorter(r, ts)
  {
    var colon :- Expect(COLON, ts.Rest());
    Idents(colon.rest)
  }

  ghost function RoleProp(ts: Toks, role: Role): (r: Parse<Role>)
    ensures Shorter(r, ts)
  {
    if ts.Kind() == ACTIONS then (var x :- ActionList(ts); Ok(role.(actions := x.value), x.rest))
    else if ts.Kind() == BREAK_GLASS then (var x :- Flag(ts); Ok(role.(breakGlass := x.value), x.rest))
    else if ts.Kind() == REQUIRES_MFA then (var x :- Flag(ts); Ok(role.(requiresMfa := x.value), x.rest))
    else Err
  }

  ghost function RoleDecl(ts: Toks): (r: Parse<Role>)
    ensures Shorter(r, ts)
  {
    var name :- Expect(IDENT, ts);
    Block(RoleProp, false, name.rest, Role(name.value, [], false, true))
  }

  // ------------------------------------------------------------------ header and sections

  function Version(ts: Toks): (r: Parse<string>)
    ensures Shorter(r, ts)
  {
    var major :- Expect(IDENT, ts);
    if major.rest.Kind() != DOT then major
    else
      var minor :- Expect(INT, major.rest.Rest());
      Ok(major.value + "." + minor.value, minor.rest)
  }

  function Header(ts: Toks): (r: Parse<(string, string)>)
    ensures Shorter(r, ts)
  {
    var kw :- Expect(CHARTER, ts);
    var name :- Expect(STRING, kw.rest);
    var version :- Version(name.rest);
    Ok((name.value, version.value), version.rest)
  }

  function SchemaVersion(ts: Toks): (r: Parse<string>)
    ensures Shorter(r, ts)
  {
    if ts.Kind() == INT && ts.Rest().Kind() == DOT then
      var minor :- Expect(INT, ts.Rest().Rest());
      Ok(ts.Text() + "." + minor.value, minor.rest)
    else if ts.Kind() == INT || ts.Kind() == FLOAT || ts.Kind() == IDENT then Ok(ts.Text(), ts.Rest())
    else Err
  }

  function Schema(ts: Toks): (r: Parse<SchemaRef>)
    ensures Shorter(r, ts)
  {
    var name :- DottedName(ts);
    var at :- Expect(AT, name.rest);
    var version :- SchemaVersion(at.rest);
    Ok(SchemaRef(name.value, version.value), version.rest)
  }

  function AddSchema(ts: Toks, acc: seq<SchemaRef>): (r: Parse<seq<SchemaRef>>)
    ensures Shorter(r, ts)
  {
    var dash :- Expect(DASH, ts);
    var x :- Schema(dash.rest);
    Ok(acc + [x.value], x.rest)
  }

  /** Any identifier, or any token whose text is a keyword. */
  function PackageName(ts: Toks): (r: Parse<string>)
    ensures Shorter(r, ts)
  {
    if ts.Tok? && (ts.Kind() == IDENT || ts.Text() in KEYWORDS) then Ok(ts.Text(), ts.Rest()) else Err
  }

  function AddPackage(ts: Toks, acc: seq<string>): (r: Parse<seq<string>>)
    ensures Shorter(r, ts)
  {
    var dash :- Expect(DASH, ts);
    var x :- PackageName(dash.rest);
    Ok(acc + [x.value], x.rest)
  }

  function AddPolicy(ts: Toks, acc: seq<string>): (r: Parse<seq<string>>)
    ensures Shorter(r, ts)
  {
    var dash :- Expect(DASH, ts);
    var x :- DottedName(dash.rest);
    Ok(acc + [x.value], x.rest)
  }

  ghost function AddSituation(ts: Toks, acc: seq<Situation>): (r: Parse<seq<Situation>>)
    ensures Shorter(r, ts)
    ensures r.Ok? ==> WfSituations(acc) ==> WfSituations(r.value)
  {
    var x :- SituationDecl(ts);
    Ok(acc + [x.value], x.rest)
  }

  ghost function AddRole(ts: Toks, acc: seq<Role>): (r: Parse<seq<Role>>)
    ensures Shorter(r, ts)
  {
    var x :- RoleDecl(ts);
    Ok(acc + [x.value], x.rest)
  }

  /** The block of a schemas section, after its colon. */
  ghost function SchemaBlock(ts: Toks): (r: Parse<seq<SchemaRef>>)
    ensures Shorter(r, ts)
  {
    var indent :- Expect(INDENT, SkipNewlines(ts));
    Body(AddSchema, false, indent.rest, [])
  }

  /** A schemas section: a block when a line end follows the colon, one inline reference otherwise. */
  ghost function Schemas(ts: Toks): (r: Parse<seq<SchemaRef>>)
    ensures Shorter(r, ts)
  {
    var colon :- Expect(COLON, ts);
    if colon.rest.Kind() == NEWLINE then SchemaBlock(colon.rest)
    else
      var x :- Schema(colon.rest);
      Ok([x.value], SkipNewlines(x.rest))
  }

  ghost function SourceSection(ts: Toks, c: Charter): (r: Parse<Charter>)
    ensures Shorter(r, ts)
    ensures r.Ok? ==> WfCharter(c) ==> WfCharter(r.value)
  {
    if ts.Kind() == SCHEMAS then (var x :- Schemas(ts.Rest()); Ok(c.(schemas := x.value), x.rest))
    else if ts.Kind() == PACKAGES then (
      var x :- Block(AddPackage, false, ts.Rest(), []); Ok(c.(packages := x.value), x.rest))
    else Err
  }

  /** A section that is a plain list, entered at its keyword. */
  ghost function ListSection(ts: Toks, c: Charter): (r: Parse<Charter>)
    ensures Shorter(r, ts)
    ensures r.Ok? ==> WfCharter(c) ==> WfCharter(r.value)
  {
    if ts.Kind() == SCHEMAS || ts.Kind() == PACKAGES then SourceSection(ts, c)
    else if ts.Kind() == POLICIES then (
      var x :- Block(AddPolicy, false, ts.Rest(), []); Ok(c.(policies := x.value), x.rest))
    else if ts.Kind() == TRIGGERS then (
      var x :- Block(AddIdent, false, ts.Rest(), []); Ok(c.(triggers := x.value), x.rest))
    else Err
  }

  /** One section, entered at its keyword; all but workflows may appear once. */
  ghost function Section(ts: Toks, seen: set<Kind>, c: Charter): (r: Parse<Charter>)
    ensures Shorter(r, ts)
    ensures r.Ok? ==> WfCharter(c) ==> WfCharter(r.value)
  {
    if ts.Kind() in seen then Err
    else if ts.Kind() == WORKFLOW then (var x :- WorkflowDecl(ts); Ok(c.(workflows := c.workflows + [x.value]), x.rest))
    else if ts.Kind() == SITUATIONS then
      BlockKeeps(AddSituation, false, WfSituations, ts.Rest(), []);
      var x :- Block(AddSituation, false, ts.Rest(), []);
      Ok(c.(situations := x.value), x.rest)
    else if ts.Kind() == ROLES then (var x :- Block(AddRole, false, ts.Rest(), []); Ok(c.(roles := x.value), x.rest))
    else ListSection(ts, c)
  }

  function Seen(k: Kind, seen: set<Kind>): set<Kind> {
    if k == WORKFLOW then seen else seen + {k}
  }

  ghost function Sections(ts: Toks, seen: set<Kind>, c: Charter): (r: Parse<Charter>)
    ensures r.Ok? && WfCharter(c) ==> WfCharter(r.value)
    decreases Len(ts)
  {
    var at := SkipNewlines(ts);
    if at.Kind() == EOF then Ok(c, at)
    else
      var x :- Section(at, seen, c);
      Sections(SkipNewlines(x.rest), Seen(at.Kind(), seen), x.value)
  }

  function NewCharter(name: string, version: string): (c: Charter)
    ensures WfCharter(c)
  {
    Charter(name, version, [], [], [], [], [], [], [])
  }

  /** A whole charter. */
  ghost function CharterText(ts: Toks): (r: Parse<Charter>)
    ensures r.Ok? ==> WfCharter(r.value)
  {
    var head :- Header(SkipNewlines(ts));
    Sections(SkipNewlines(head.rest), {}, NewCharter(head.value.0, head.value.1))
  }
}
