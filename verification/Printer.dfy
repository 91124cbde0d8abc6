/**
 * The canonical token printing of a charter, and the round trip: parsing what was printed gives
 * back the charter. Printers put their tokens in front of the tokens that follow.
 */
module Printer {
  import opened Options
  import opened CharterAst
  import opened Tokens
  import opened Grammar

  function Put(k: Kind, text: string, rest: Toks): Toks {
    Tok(Token(k, text), rest)
  }

  function Name(x: string, rest: Toks): Toks {
    Put(IDENT, x, rest)
  }

  function Line(rest: Toks): Toks {
    Put(NEWLINE, "\n", rest)
  }

  /** The colon, line end and indentation that open a block. */
  function Begin(rest: Toks): Toks {
    Put(COLON, ":", Line(Put(INDENT, "", rest)))
  }

  function All<T>(print_: (T, Toks) -> Toks, xs: seq<T>, rest: Toks): Toks {
    if xs == [] then rest else print_(xs[0], All(print_, xs[1..], rest))
  }

  const OPERATORS: map<string, Kind> := map["==" := EQ, "!=" := NEQ, ">" := GT, ">=" := GTE, "<" := LT, "<=" := LTE]

  // ------------------------------------------------------------------ names, values, arguments

  function PartsRest(parts: seq<string>, rest: Toks): Toks {
    if parts == [] then rest else Put(DOT, ".", Name(parts[0], PartsRest(parts[1..], rest)))
  }

  function PrintDotted(name: string, rest: Toks): Toks {
    var parts := Split(name);
    Name(parts[0], PartsRest(parts[1..], rest))
  }

  lemma PartsStep(part: string, at: Toks, done: seq<string>)
    ensures DottedRest(Put(DOT, ".", Name(part, at)), done) == DottedRest(at, done + [part])
  {
  }

  lemma PartsShift(done: seq<string>, parts: seq<string>)
    requires parts != []
    ensures done + [parts[0]] + parts[1..] == done + parts
  {
  }

  lemma {:induction false} PartsParse(parts: seq<string>, done: seq<string>, rest: Toks)
    requires rest.Kind() != DOT
    ensures DottedRest(PartsRest(parts, rest), done) == Ok(Join(done + parts), rest)
  {
    if parts == [] {
      assert done + parts == done;
    } else {
      PartsStep(parts[0], PartsRest(parts[1..], rest), done);
      PartsParse(parts[1..], done + [parts[0]], rest);
      PartsShift(done, parts);
    }
  }

  lemma DottedRoundTrip(name: string, rest: Toks)
    requires rest.Kind() != DOT
    ensures DottedName(PrintDotted(name, rest)) == Ok(name, rest)
  {
    var parts := Split(name);
    PartsParse(parts[1..], [parts[0]], rest);
    assert [parts[0]] + parts[1..] == parts;
    JoinSplit(name);
  }

  function PrintInt(n: int, rest: Toks): Toks
    requires n >= 0
  {
    Put(INT, NatText(n), rest)
  }

  lemma NumeralParses(text: string, n: int, rest: Toks)
    requires ParseNat(text) == Some(n)
    ensures Integer(Put(INT, text, rest)) == Ok(n, rest)
  {
  }

  lemma IntRoundTrip(n: int, rest: Toks)
    requires n >= 0
    ensures Integer(PrintInt(n, rest)) == Ok(n, rest)
  {
    NatTextParses(n);
    NumeralParses(NatText(n), n, rest);
  }

  function PrintValue(v: Value, rest: Toks): Toks {
    match v
    case StrValue(text) => Put(STRING, text, rest)
    case IntValue(n) => if n >= 0 then PrintInt(n, rest) else rest
    case FloatValue(text) => Put(FLOAT, text, rest)
    case BoolValue(flag) => Put(if flag then TRUE else FALSE, if flag then "true" else "false", rest)
  }

  lemma ValueRoundTrip(v: Value, rest: Toks)
    requires WfValue(v)
    ensures ArgValue(PrintValue(v, rest)) == Ok(v, rest)
  {
    if v.IntValue? {
      IntRoundTrip(v.number, rest);
      ValueOfInt(PrintInt(v.number, rest), v.number, rest);
    }
  }

  lemma ValueOfInt(at: Toks, n: int, rest: Toks)
    requires at.Kind() == INT && Integer(at) == Ok(n, rest)
    ensures ArgValue(at) == Ok(IntValue(n), rest)
  {
  }

  function PrintArg(a: Arg, rest: Toks): Toks {
    match a.name
    case None => PrintValue(a.value, rest)
    case Some(name) => Name(name, Put(EQ, "==", PrintValue(a.value, rest)))
  }

  lemma ArgRoundTrip(a: Arg, rest: Toks)
    requires WfValue(a.value)
    ensures OneArg(PrintArg(a, rest)) == Ok(a, rest)
    ensures var k := PrintArg(a, rest).Kind(); k != RPAREN && k != EOF
  {
    ValueRoundTrip(a.value, rest);
  }

  function Comma(first: bool, at: Toks): Toks {
    if first then at else Put(COMMA, ",", at)
  }

  /** The elements with commas between them, and the closing bracket. */
  function Commas<T>(print_: (T, Toks) -> Toks, close: Token, first: bool, xs: seq<T>, rest: Toks): Toks {
    if xs == [] then Tok(close, rest) else Comma(first, print_(xs[0], Commas(print_, close, false, xs[1..], rest)))
  }

  ghost predicate Element<T(!new)>(element: (Toks, seq<T>) -> Parse<seq<T>>, close: Kind, at: Toks, x: T, rest: Toks) {
    && at.Kind() != close && at.Kind() != EOF && close != COMMA
    && forall acc :: ElementAt(element, at, acc, x, rest)
  }

  ghost predicate ElementAt<T(!new)>(element: (Toks, seq<T>) -> Parse<seq<T>>, at: Toks, acc: seq<T>, x: T,
                                     rest: Toks) {
    element(at, acc) == Ok(acc + [x], rest)
  }

  lemma ListStep<T(!new)>(element: (Toks, seq<T>) -> Parse<seq<T>>, close: Kind, at: Toks, acc: seq<T>, x: T,
                          rest: Toks)
    requires Consumes(element) && Element(element, close, at, x, rest)
    ensures Listed(element, close, Comma(acc == [], at), acc) == Listed(element, close, rest, acc + [x])
  {
    assert ElementAt(element, at, acc, x, rest);
  }

  /** Reading an element, with its comma unless it is the first, adds it to the list. */
  ghost predicate Adds<T(!new)>(read: (Toks, seq<T>) -> Parse<seq<T>>, at: Toks, acc: seq<T>, x: T, rest: Toks) {
    read(Comma(acc == [], at), acc) == read(rest, acc + [x])
  }

  ghost predicate Ends<T(!new)>(read: (Toks, seq<T>) -> Parse<seq<T>>, close: Token, acc: seq<T>, rest: Toks) {
    read(Tok(close, rest), acc) == Ok(acc, rest)
  }

  /** What adds elements one by one and stops at the bracket reads a printed list. */
  lemma {:induction false} ListFills<T(!new)>(read: (Toks, seq<T>) -> Parse<seq<T>>, print_: (T, Toks) -> Toks,
                                              close: Token, xs: seq<T>, acc: seq<T>, rest: Toks)
    requires forall sofar, r :: Ends(read, close, sofar, r)
    requires forall i, r, sofar :: 0 <= i < |xs| ==> Adds(read, print_(xs[i], r), sofar, xs[i], r)
    ensures read(Commas(print_, close, acc == [], xs, rest), acc) == Ok(acc + xs, rest)
    decreases |xs|
  {
    if xs == [] {
      assert acc + xs == acc;
      assert Ends(read, close, acc, rest);
    } else {
      var after := Commas(print_, close, false, xs[1..], rest);
      assert Adds(read, print_(xs[0], after), acc, xs[0], after);
      forall i, r, sofar | 0 <= i < |xs[1..]| ensures Adds(read, print_(xs[1..][i], r), sofar, xs[1..][i], r) {
        assert xs[1..][i] == xs[i + 1];
      }
      ListFills(read, print_, close, xs[1..], acc + [xs[0]], rest);
      assert acc + [xs[0]] + xs[1..] == acc + xs;
    }
  }

  /** A printed list is read back element by element. */
  lemma ListParses<T(!new)>(element: (Toks, seq<T>) -> Parse<seq<T>>, print_: (T, Toks) -> Toks, close: Token,
                            xs: seq<T>, rest: Toks)
    requires Consumes(element) && close.kind != EOF
    requires forall i, r :: 0 <= i < |xs| ==> Element(element, close.kind, print_(xs[i], r), xs[i], r)
    ensures Listed(element, close.kind, Commas(print_, close, true, xs, rest), []) == Ok(xs, rest)
  {
    var read := (ts: Toks, acc: seq<T>) => Listed(element, close.kind, ts, acc);
    forall sofar, r ensures Ends(read, close, sofar, r) {
    }
    forall i, r, sofar | 0 <= i < |xs| ensures Adds(read, print_(xs[i], r), sofar, xs[i], r) {
      ListStep(element, close.kind, print_(xs[i], r), sofar, xs[i], r);
    }
    ListFills(read, print_, close, xs, [], rest);
    assert [] + xs == xs;
  }

  function PrintArgs(args: seq<Arg>, rest: Toks): Toks {
    Put(LPAREN, "(", Commas(PrintArg, Token(RPAREN, ")"), true, args, rest))
  }

  lemma ArgsRoundTrip(args: seq<Arg>, rest: Toks)
    requires WfArgs(args)
    ensures Args(PrintArgs(args, rest)) == Ok(args, rest)
  {
    forall i, r | 0 <= i < |args| ensures Element(AddArg, RPAREN, PrintArg(args[i], r), args[i], r) {
      ArgRoundTrip(args[i], r);
      ArgElement(PrintArg(args[i], r), args[i], r);
    }
    ListParses(AddArg, PrintArg, Token(RPAREN, ")"), args, rest);
    ArgsOf(Commas(PrintArg, Token(RPAREN, ")"), true, args, rest), args, rest);
  }

  lemma ArgElement(at: Toks, a: Arg, rest: Toks)
    requires at.Kind() != RPAREN && at.Kind() != EOF && OneArg(at) == Ok(a, rest)
    ensures Element(AddArg, RPAREN, at, a, rest)
  {
  }

  lemma ArgsOf(at: Toks, args: seq<Arg>, rest: Toks)
    requires Listed(AddArg, RPAREN, at, []) == Ok(args, rest)
    ensures Args(Put(LPAREN, "(", at)) == Ok(args, rest)
  {
  }

  function PrintCall(c: FeatureCall, rest: Toks): Toks {
    Name(c.name, PrintArgs(c.args, rest))
  }

  lemma CallRoundTrip(c: FeatureCall, rest: Toks)
    requires WfArgs(c.args)
    ensures Call(PrintCall(c, rest)) == Ok(c, rest)
  {
    ArgsRoundTrip(c.args, rest);
    CallOf(c, PrintArgs(c.args, rest), rest);
  }

  lemma CallOf(c: FeatureCall, at: Toks, rest: Toks)
    requires Args(at) == Ok(c.args, rest)
    ensures Call(Name(c.name, at)) == Ok(c, rest)
  {
  }

  function PrintIdents(xs: seq<string>, rest: Toks): Toks {
    Put(LBRACKET, "[", Commas(Name, Token(RBRACKET, "]"), true, xs, rest))
  }

  lemma IdentsRoundTrip(xs: seq<string>, rest: Toks)
    ensures Idents(PrintIdents(xs, rest)) == Ok(xs, rest)
  {
    forall i, r | 0 <= i < |xs| ensures Element(AddIdent, RBRACKET, Name(xs[i], r), xs[i], r) {
    }
    ListParses(AddIdent, Name, Token(RBRACKET, "]"), xs, rest);
  }

  // ------------------------------------------------------------------ blocks

  predicate StartsItem(ts: Toks) {
    var k := ts.Kind();
    k != NEWLINE && k != DOCSTRING && k != DEDENT && k != EOF
  }

  /** The statement at `at` takes the draft from `s` to `s'` and leaves `rest`, up to line ends. */
  ghost predicate Takes<S(!new)>(stmt: (Toks, S) -> Parse<S>, at: Toks, s: S, s': S, rest: Toks) {
    var r := stmt(at, s);
    StartsItem(at) && r.Ok? && r.value == s' && SkipNewlines(r.rest) == SkipNewlines(rest)
  }

  lemma BodyStep<S(!new)>(stmt: (Toks, S) -> Parse<S>, docs: bool, at: Toks, s: S, s': S, rest: Toks)
    requires Consumes(stmt) && Takes(stmt, at, s, s', rest)
    ensures Body(stmt, docs, at, s) == Body(stmt, docs, rest, s')
  {
    var next := SkipNewlines(rest);
    assert SkipNewlines(next) == next;
    assert Lead(docs, next) == Lead(docs, rest);
    assert Body(stmt, docs, next, s') == Body(stmt, docs, rest, s');
  }

  /** The statement at `at` puts `x` at the end of the list that `put` puts into the draft. */
  ghost predicate Appends<S(!new), T(!new)>(stmt: (Toks, S) -> Parse<S>, put: seq<T> -> S, at: Toks, x: T, rest: Toks) {
    forall acc :: AppendsTo(stmt, put, at, acc, x, rest)
  }

  ghost predicate AppendsTo<S(!new), T(!new)>(stmt: (Toks, S) -> Parse<S>, put: seq<T> -> S, at: Toks, acc: seq<T>,
                                              x: T, rest: Toks) {
    Takes(stmt, at, put(acc), put(acc + [x]), rest)
  }

  lemma BodyFillsOne<S(!new), T(!new)>(stmt: (Toks, S) -> Parse<S>, docs: bool, put: seq<T> -> S, at: Toks, x: T,
                                       acc: seq<T>, rest: Toks)
    requires Consumes(stmt) && Appends(stmt, put, at, x, rest)
    ensures Body(stmt, docs, at, put(acc)) == Body(stmt, docs, rest, put(acc + [x]))
  {
    assert AppendsTo(stmt, put, at, acc, x, rest);
    BodyStep(stmt, docs, at, put(acc), put(acc + [x]), rest);
  }

  /** Reading on from `at` is reading on from `rest` with `x` added to the list. */
  ghost predicate Moves<S(!new), T(!new), R>(read: (Toks, S) -> R, put: seq<T> -> S, at: Toks, acc: seq<T>, x: T,
                                             rest: Toks) {
    read(at, put(acc)) == read(rest, put(acc + [x]))
  }

  /** What adds one printed element at a time fills the list with all of them. */
  lemma {:induction false} Fills<S(!new), T(!new), R>(read: (Toks, S) -> R, print_: (T, Toks) -> Toks, put: seq<T> -> S,
                                                   xs: seq<T>, acc: seq<T>, rest: Toks)
    requires forall k, r, sofar :: 0 <= k < |xs| ==> Moves(read, put, print_(xs[k], r), sofar, xs[k], r)
    ensures read(All(print_, xs, rest), put(acc)) == read(rest, put(acc + xs))
    decreases |xs|
  {
    if xs == [] {
      assert acc + xs == acc;
    } else {
      var after := All(print_, xs[1..], rest);
      assert Moves(read, put, print_(xs[0], after), acc, xs[0], after);
      forall k, r, sofar | 0 <= k < |xs[1..]| ensures Moves(read, put, print_(xs[1..][k], r), sofar, xs[1..][k], r) {
        assert xs[1..][k] == xs[k + 1];
      }
      Fills(read, print_, put, xs[1..], acc + [xs[0]], rest);
      assert acc + [xs[0]] + xs[1..] == acc + xs;
    }
  }

  /** A run of printed statements fills the list. */
  lemma BodyFills<S(!new), T(!new)>(stmt: (Toks, S) -> Parse<S>, docs: bool, print_: (T, Toks) -> Toks,
                                    put: seq<T> -> S,
                                   xs: seq<T>, rest: Toks)
    requires Consumes(stmt)
    requires forall k, r :: 0 <= k < |xs| ==> Appends(stmt, put, print_(xs[k], r), xs[k], r)
    ensures Body(stmt, docs, All(print_, xs, rest), put([])) == Body(stmt, docs, rest, put(xs))
  {
    var read := (ts: Toks, s: S) => Body(stmt, docs, ts, s);
    forall k, r, sofar | 0 <= k < |xs| ensures Moves(read, put, print_(xs[k], r), sofar, xs[k], r) {
      BodyFillsOne(stmt, docs, put, print_(xs[k], r), xs[k], sofar, r);
    }
    Fills(read, print_, put, xs, [], rest);
    assert [] + xs == xs;
  }

  function Itself<T>(): seq<T> -> seq<T> {
    (acc: seq<T>) => acc
  }

  function PrintBlock<T>(print_: (T, Toks) -> Toks, xs: seq<T>, rest: Toks): Toks {
    Begin(All(print_, xs, Put(DEDENT, "", rest)))
  }

  lemma BlockOpens<S(!new)>(stmt: (Toks, S) -> Parse<S>, docs: bool, at: Toks, s: S)
    requires Consumes(stmt)
    ensures Block(stmt, docs, Begin(at), s) == Body(stmt, docs, at, s)
  {
    assert SkipNewlines(Line(Put(INDENT, "", at))) == Put(INDENT, "", at);
  }

  lemma BodyEnds<S(!new)>(stmt: (Toks, S) -> Parse<S>, docs: bool, s: S, rest: Toks)
    requires Consumes(stmt)
    ensures Body(stmt, docs, Put(DEDENT, "", rest), s) == Ok(s, rest)
  {
  }

  lemma BlockRoundTrip<T(!new)>(add: (Toks, seq<T>) -> Parse<seq<T>>, docs: bool, print_: (T, Toks) -> Toks,
                                xs: seq<T>, rest: Toks)
    requires Consumes(add)
    requires forall k, r :: 0 <= k < |xs| ==> Appends(add, Itself(), print_(xs[k], r), xs[k], r)
    ensures Block(add, docs, PrintBlock(print_, xs, rest), []) == Ok(xs, rest)
  {
    BlockOpens(add, docs, All(print_, xs, Put(DEDENT, "", rest)), []);
    BodyFills(add, docs, print_, Itself(), xs, Put(DEDENT, "", rest));
    BodyEnds(add, docs, xs, rest);
  }

  // ------------------------------------------------------------------ statements, one line each

  function PrintCondition(c: string, rest: Toks): Toks {
    Put(if c == "passed" then PASSED else if c == "complete" then COMPLETE else IDENT, c, rest)
  }

  function PrintReference(r: Require, rest: Toks): Toks {
    match r
    case AwaitRef(trigger) => Put(AWAIT, "await", Name(trigger, rest))
    case FeatureRef(call) => PrintCall(call, rest)
    case PhaseRef(phase, condition) => Name(phase, Put(DOT, ".", PrintCondition(condition, rest)))
    case BuiltinRef(name) => Name(name, rest)
  }

  function PrintRequire(r: Require, rest: Toks): Toks {
    Put(REQUIRE, "require", PrintReference(r, Line(rest)))
  }

  lemma FeatureReference(call: FeatureCall, at: Toks, rest: Toks)
    requires Args(at) == Ok(call.args, rest) && at.Kind() == LPAREN
    ensures RequireStmt(Put(REQUIRE, "require", Name(call.name, at))) == Ok(FeatureRef(call), rest)
  {
  }

  lemma ConditionRoundTrip(phase: string, c: string, rest: Toks)
    ensures Condition(phase, PrintCondition(c, rest)) == Ok(PhaseRef(phase, c), rest)
  {
  }

  lemma RequireOf(at: Toks, r: Require, rest: Toks)
    requires at.Kind() == REQUIRE && at.Rest().Kind() != AWAIT && Reference(at.Rest()) == Ok(r, rest)
    ensures RequireStmt(at) == Ok(r, rest)
  {
  }

  lemma PhaseReference(phase: string, condition: string, rest: Toks)
    ensures Reference(Name(phase, Put(DOT, ".", PrintCondition(condition, rest)))) ==
            Ok(PhaseRef(phase, condition), rest)
  {
    ConditionRoundTrip(phase, condition, rest);
  }

  lemma PlainReference(r: Require, rest: Toks)
    requires !r.FeatureRef? && rest.Kind() == NEWLINE
    ensures RequireStmt(Put(REQUIRE, "require", PrintReference(r, rest))) == Ok(r, rest)
  {
    if r.PhaseRef? {
      PhaseReference(r.phase, r.condition, rest);
      RequireOf(Put(REQUIRE, "require", PrintReference(r, rest)), r, rest);
    }
  }

  lemma RequireRoundTrip(r: Require, rest: Toks)
    requires WfRequire(r)
    ensures RequireStmt(PrintRequire(r, rest)) == Ok(r, Line(rest))
  {
    if r.FeatureRef? {
      var call := r.call;
      ArgsRoundTrip(call.args, Line(rest));
      FeatureReference(call, PrintArgs(call.args, Line(rest)), Line(rest));
    } else {
      PlainReference(r, Line(rest));
    }
  }

  function PrintAction(c: FeatureCall, rest: Toks): Toks {
    Put(ACTION, "action", PrintCall(c, Line(rest)))
  }

  lemma ActionRoundTrip(c: FeatureCall, rest: Toks)
    requires WfAction(c)
    ensures ActionStmt(PrintAction(c, rest)) == Ok(c, Line(rest))
  {
    CallRoundTrip(c, Line(rest));
  }

  lemma NamedOf(k: Kind, text: string, name: string, at: Toks)
    ensures NameStmt(k, Put(k, text, Name(name, at))) == Ok(name, at)
  {
  }

  function PrintNamed(key: Token, x: string, rest: Toks): Toks {
    Tok(key, Name(x, Line(rest)))
  }

  function PrintOutput(x: string, rest: Toks): Toks {
    PrintNamed(Token(OUTPUT, "output"), x, rest)
  }

  function PrintAwait(x: string, rest: Toks): Toks {
    PrintNamed(Token(AWAIT, "await"), x, rest)
  }

  function PrintCertify(q: string, rest: Toks): Toks {
    Put(CERTIFY, "certify", Put(if q == "immutable" then IMMUTABLE else IDENT, q, Line(rest)))
  }

  function PrintGrant(g: Grant, rest: Toks): Toks {
    Put(GRANTS, "grants", Name(g.documentType, PrintLimit(g.ttlMinutes, Line(rest))))
  }

  function PrintLimit(ttl: Option<int>, rest: Toks): Toks {
    if ttl.Some? && ttl.value >= 0 then Put(FOR, "for", PrintInt(ttl.value, Name("m", rest))) else rest
  }

  lemma GrantOf(doc: string, limit: Toks, ttl: Option<int>, rest: Toks)
    requires if ttl.None? then limit == rest && rest.Kind() != FOR
             else limit.Kind() == FOR && Integer(limit.Rest()) == Ok(ttl.value, Name("m", rest))
    ensures GrantStmt(Put(GRANTS, "grants", Name(doc, limit))) == Ok(Grant(doc, ttl), rest)
  {
    NamedOf(GRANTS, "grants", doc, limit);
    assert Minutes(Name("m", rest)) == rest;
  }

  lemma GrantRoundTrip(g: Grant, rest: Toks)
    requires WfGrant(g)
    ensures GrantStmt(PrintGrant(g, rest)) == Ok(g, Line(rest))
  {
    var limit := PrintLimit(g.ttlMinutes, Line(rest));
    if g.ttlMinutes.Some? {
      IntRoundTrip(g.ttlMinutes.value, Name("m", Line(rest)));
    }
    GrantOf(g.documentType, limit, g.ttlMinutes, Line(rest));
  }

  /** The token kind of an operator; a text that is none of the six goes out as EQ and comes back as itself. */
  function KindOf(operator: string): Kind {
    if operator in OPERATORS then OPERATORS[operator] else EQ
  }

  lemma OperatorKind(operator: string)
    ensures IsComparator(KindOf(operator)) && KindOf(operator) != DOT
  {
  }

  function PrintTest(operator: string, v: Value, rest: Toks): Toks {
    Put(KindOf(operator), operator, PrintValue(v, rest))
  }

  function PrintPredicate(p: Predicate, rest: Toks): Toks {
    PrintDotted(p.field, PrintTest(p.operator, p.value, rest))
  }

  lemma ComparisonOf(at: Toks, field: string, test: Toks, v: Value, rest: Toks)
    requires DottedName(at) == Ok(field, test) && IsComparator(test.Kind()) && ArgValue(test.Rest()) == Ok(v, rest)
    ensures Comparison(at) == Ok(Predicate(field, test.Text(), v), rest)
  {
  }

  lemma PredicateRoundTrip(p: Predicate, rest: Toks)
    requires WfPredicate(p)
    ensures Comparison(PrintPredicate(p, rest)) == Ok(p, rest)
  {
    var test := PrintTest(p.operator, p.value, rest);
    OperatorKind(p.operator);
    DottedRoundTrip(p.field, test);
    ValueRoundTrip(p.value, rest);
    ComparisonOf(PrintPredicate(p, rest), p.field, test, p.value, rest);
  }

  function PrintWhenHead(p: Predicate, rest: Toks): Toks {
    Put(WHEN, "when", PrintPredicate(p, Begin(rest)))
  }

  lemma OpenOf(rest: Toks)
    ensures Open(Begin(rest)).Ok? && Open(Begin(rest)).rest == rest
  {
    assert SkipNewlines(Line(Put(INDENT, "", rest))) == Put(INDENT, "", rest);
  }

  lemma WhenHeadOf(at: Toks, p: Predicate, begin: Toks, rest: Toks)
    requires at.Kind() == WHEN && Comparison(at.Rest()) == Ok(p, begin) && Open(begin).Ok? && Open(begin).rest == rest
    ensures WhenHead(at) == Ok(p, rest)
  {
  }

  lemma WhenHeadRoundTrip(p: Predicate, rest: Toks)
    requires WfPredicate(p)
    ensures WhenHead(PrintWhenHead(p, rest)) == Ok(p, rest)
  {
    PredicateRoundTrip(p, Begin(rest));
    OpenOf(rest);
    WhenHeadOf(PrintWhenHead(p, rest), p, Begin(rest), rest);
  }

  // ------------------------------------------------------------------ when blocks

  function PrintWhen(w: WhenBlock, rest: Toks): Toks {
    PrintWhenHead(w.predicate_, PrintWhenBody(w, Put(DEDENT, "", rest)))
  }

  function PrintWhenBody(w: WhenBlock, rest: Toks): Toks {
    All(PrintRequire, w.requires_, All(PrintAction, w.actions, All(PrintAwait, w.awaits, rest)))
  }

  /** Where a statement ends: at its line end, or right before what follows. */
  ghost predicate EndsAt(at: Toks, rest: Toks) {
    SkipNewlines(at) == SkipNewlines(rest)
  }

  function WhenWithRequires(w: WhenBlock): seq<Require> -> WhenBlock {
    (acc: seq<Require>) => w.(requires_ := acc)
  }

  function WhenWithActions(w: WhenBlock): seq<FeatureCall> -> WhenBlock {
    (acc: seq<FeatureCall>) => w.(actions := acc)
  }

  function WhenWithAwaits(w: WhenBlock): seq<string> -> WhenBlock {
    (acc: seq<string>) => w.(awaits := acc)
  }

  lemma WhenRequireStep(w: WhenBlock, at: Toks, x: Require, after: Toks)
    requires at.Kind() == REQUIRE && RequireStmt(at) == Ok(x, after)
    ensures WhenStmt(at, w) == Ok(w.(requires_ := w.requires_ + [x]), after)
  {
  }

  lemma WhenTakesRequire(w: WhenBlock, at: Toks, x: Require, after: Toks, rest: Toks)
    requires at.Kind() == REQUIRE && RequireStmt(at) == Ok(x, after) && EndsAt(after, rest)
    ensures Appends(WhenStmt, WhenWithRequires(w), at, x, rest)
  {
    forall acc ensures AppendsTo(WhenStmt, WhenWithRequires(w), at, acc, x, rest) {
      WhenRequireStep(w.(requires_ := acc), at, x, after);
    }
  }

  lemma WhenActionStep(w: WhenBlock, at: Toks, x: FeatureCall, after: Toks)
    requires at.Kind() == ACTION && ActionStmt(at) == Ok(x, after)
    ensures WhenStmt(at, w) == Ok(w.(actions := w.actions + [x]), after)
  {
  }

  lemma WhenTakesAction(w: WhenBlock, at: Toks, x: FeatureCall, after: Toks, rest: Toks)
    requires at.Kind() == ACTION && ActionStmt(at) == Ok(x, after) && EndsAt(after, rest)
    ensures Appends(WhenStmt, WhenWithActions(w), at, x, rest)
  {
    forall acc ensures AppendsTo(WhenStmt, WhenWithActions(w), at, acc, x, rest) {
      WhenActionStep(w.(actions := acc), at, x, after);
    }
  }

  lemma WhenAwaitStep(w: WhenBlock, at: Toks, x: string, after: Toks)
    requires at.Kind() == AWAIT && NameStmt(AWAIT, at) == Ok(x, after)
    ensures WhenStmt(at, w) == Ok(w.(awaits := w.awaits + [x]), after)
  {
  }

  lemma WhenTakesAwait(w: WhenBlock, at: Toks, x: string, after: Toks, rest: Toks)
    requires at.Kind() == AWAIT && NameStmt(AWAIT, at) == Ok(x, after) && EndsAt(after, rest)
    ensures Appends(WhenStmt, WhenWithAwaits(w), at, x, rest)
  {
    forall acc ensures AppendsTo(WhenStmt, WhenWithAwaits(w), at, acc, x, rest) {
      WhenAwaitStep(w.(awaits := acc), at, x, after);
    }
  }

  lemma WhenRequires(w: WhenBlock, xs: seq<Require>, rest: Toks)
    requires forall i :: 0 <= i < |xs| ==> WfRequire(xs[i])
    ensures Body(WhenStmt, false, All(PrintRequire, xs, rest), w.(requires_ := [])) ==
            Body(WhenStmt, false, rest, w.(requires_ := xs))
  {
    forall k, r | 0 <= k < |xs| ensures Appends(WhenStmt, WhenWithRequires(w), PrintRequire(xs[k], r), xs[k], r) {
      RequireRoundTrip(xs[k], r);
      WhenTakesRequire(w, PrintRequire(xs[k], r), xs[k], Line(r), r);
    }
    BodyFills(WhenStmt, false, PrintRequire, WhenWithRequires(w), xs, rest);
  }

  lemma WhenActions(w: WhenBlock, xs: seq<FeatureCall>, rest: Toks)
    requires forall i :: 0 <= i < |xs| ==> WfAction(xs[i])
    ensures Body(WhenStmt, false, All(PrintAction, xs, rest), w.(actions := [])) ==
            Body(WhenStmt, false, rest, w.(actions := xs))
  {
    forall k, r | 0 <= k < |xs| ensures Appends(WhenStmt, WhenWithActions(w), PrintAction(xs[k], r), xs[k], r) {
      ActionRoundTrip(xs[k], r);
      WhenTakesAction(w, PrintAction(xs[k], r), xs[k], Line(r), r);
    }
    BodyFills(WhenStmt, false, PrintAction, WhenWithActions(w), xs, rest);
  }

  lemma WhenAwaits(w: WhenBlock, xs: seq<string>, rest: Toks)
    ensures Body(WhenStmt, false, All(PrintAwait, xs, rest), w.(awaits := [])) ==
            Body(WhenStmt, false, rest, w.(awaits := xs))
  {
    forall k, r | 0 <= k < |xs| ensures Appends(WhenStmt, WhenWithAwaits(w), PrintAwait(xs[k], r), xs[k], r) {
      WhenTakesAwait(w, PrintAwait(xs[k], r), xs[k], Line(r), r);
    }
    BodyFills(WhenStmt, false, PrintAwait, WhenWithAwaits(w), xs, rest);
  }

  lemma WhenBodyRoundTrip(w: WhenBlock, rest: Toks)
    requires WfWhen(w)
    ensures Body(WhenStmt, false, PrintWhenBody(w, Put(DEDENT, "", rest)), WhenBlock(w.predicate_, [], [], [])) ==
            Ok(w, rest)
  {
    var w0 := WhenBlock(w.predicate_, [], [], []);
    var w1 := w0.(requires_ := w.requires_);
    var w2 := w1.(actions := w.actions);
    var end := Put(DEDENT, "", rest);
    var awaits := All(PrintAwait, w.awaits, end);
    WhenRequires(w0, w.requires_, All(PrintAction, w.actions, awaits));
    WhenActions(w1, w.actions, awaits);
    WhenAwaits(w2, w.awaits, end);
    BodyEnds(WhenStmt, false, w, rest);
  }

  lemma WhenOf(at: Toks, body: Toks, p: Predicate, w: WhenBlock, rest: Toks)
    requires WhenHead(at) == Ok(p, body) && Body(WhenStmt, false, body, WhenBlock(p, [], [], [])) == Ok(w, rest)
    ensures When(at) == Ok(w, rest)
  {
  }

  lemma WhenRoundTrip(w: WhenBlock, rest: Toks)
    requires WfWhen(w)
    ensures When(PrintWhen(w, rest)) == Ok(w, rest)
  {
    var body := PrintWhenBody(w, Put(DEDENT, "", rest));
    WhenHeadRoundTrip(w.predicate_, body);
    WhenBodyRoundTrip(w, rest);
    WhenOf(PrintWhen(w, rest), body, w.predicate_, w, rest);
  }

  // ------------------------------------------------------------------ phases and workflows

  function PrintOption(print_: (string, Toks) -> Toks, x: Option<string>, rest: Toks): Toks {
    if x.Some? then print_(x.value, rest) else rest
  }

  function PrintEvidence(x: string, rest: Toks): Toks {
    PrintNamed(Token(EVIDENCE, "evidence"), x, rest)
  }

  function PrintPhaseEnd(p: Phase, rest: Toks): Toks {
    PrintOption(PrintCertify, p.certify, PrintOption(PrintEvidence, p.evidence,
      All(PrintWhen, p.whenBlocks, All(PrintAwait, p.awaits, rest))))
  }

  function PrintPhaseBody(p: Phase, rest: Toks): Toks {
    All(PrintRequire, p.requires_, All(PrintGrant, p.grants,
      All(PrintAction, p.actions, All(PrintOutput, p.outputs, PrintPhaseEnd(p, rest)))))
  }

  function PrintPhase(p: Phase, rest: Toks): Toks {
    Put(PHASE, "phase", Name(p.name, Begin(PrintPhaseBody(p, Put(DEDENT, "", rest)))))
  }

  function WithRequires(p: Phase): seq<Require> -> Phase {
    (acc: seq<Require>) => p.(requires_ := acc)
  }

  function WithGrants(p: Phase): seq<Grant> -> Phase {
    (acc: seq<Grant>) => p.(grants := acc)
  }

  function WithActions(p: Phase): seq<FeatureCall> -> Phase {
    (acc: seq<FeatureCall>) => p.(actions := acc)
  }

  function WithOutputs(p: Phase): seq<string> -> Phase {
    (acc: seq<string>) => p.(outputs := acc)
  }

  function WithWhens(p: Phase): seq<WhenBlock> -> Phase {
    (acc: seq<WhenBlock>) => p.(whenBlocks := acc)
  }

  function WithAwaits(p: Phase): seq<string> -> Phase {
    (acc: seq<string>) => p.(awaits := acc)
  }

  /** A statement of one line is read as such. */
  lemma PhaseLineAt(at: Toks, p: Phase, r: Parse<Phase>)
    requires at.Kind() != WHEN && at.Kind() != CERTIFY && at.Kind() != EVIDENCE && PhaseLine(at, p) == r
    ensures PhaseStmt(at, p) == r
  {
  }

  lemma RequireStep(p: Phase, at: Toks, x: Require, after: Toks)
    requires at.Kind() == REQUIRE && RequireStmt(at) == Ok(x, after)
    ensures PhaseLine(at, p) == Ok(p.(requires_ := p.requires_ + [x]), after)
  {
  }

  lemma PhaseTakesRequire(p: Phase, at: Toks, x: Require, after: Toks, rest: Toks)
    requires at.Kind() == REQUIRE && RequireStmt(at) == Ok(x, after) && EndsAt(after, rest)
    ensures Appends(PhaseStmt, WithRequires(p), at, x, rest)
  {
    forall acc ensures AppendsTo(PhaseStmt, WithRequires(p), at, acc, x, rest) {
      RequireStep(p.(requires_ := acc), at, x, after);
      PhaseLineAt(at, p.(requires_ := acc), Ok(p.(requires_ := acc + [x]), after));
    }
  }

  lemma GrantStep(p: Phase, at: Toks, x: Grant, after: Toks)
    requires at.Kind() == GRANTS && GrantStmt(at) == Ok(x, after)
    ensures PhaseLine(at, p) == Ok(p.(grants := p.grants + [x]), after)
  {
  }

  lemma PhaseTakesGrant(p: Phase, at: Toks, x: Grant, after: Toks, rest: Toks)
    requires at.Kind() == GRANTS && GrantStmt(at) == Ok(x, after) && EndsAt(after, rest)
    ensures Appends(PhaseStmt, WithGrants(p), at, x, rest)
  {
    forall acc ensures AppendsTo(PhaseStmt, WithGrants(p), at, acc, x, rest) {
      GrantStep(p.(grants := acc), at, x, after);
      PhaseLineAt(at, p.(grants := acc), Ok(p.(grants := acc + [x]), after));
    }
  }

  lemma ActionStep(p: Phase, at: Toks, x: FeatureCall, after: Toks)
    requires at.Kind() == ACTION && ActionStmt(at) == Ok(x, after)
    ensures PhaseLine(at, p) == Ok(p.(actions := p.actions + [x]), after)
  {
  }

  lemma PhaseTakesAction(p: Phase, at: Toks, x: FeatureCall, after: Toks, rest: Toks)
    requires at.Kind() == ACTION && ActionStmt(at) == Ok(x, after) && EndsAt(after, rest)
    ensures Appends(PhaseStmt, WithActions(p), at, x, rest)
  {
    forall acc ensures AppendsTo(PhaseStmt, WithActions(p), at, acc, x, rest) {
      ActionStep(p.(actions := acc), at, x, after);
      PhaseLineAt(at, p.(actions := acc), Ok(p.(actions := acc + [x]), after));
    }
  }

  lemma OutputStep(p: Phase, at: Toks, x: string, after: Toks)
    requires at.Kind() == OUTPUT && NameStmt(OUTPUT, at) == Ok(x, after)
    ensures PhaseLine(at, p) == Ok(p.(outputs := p.outputs + [x]), after)
  {
  }

  lemma PhaseTakesOutput(p: Phase, at: Toks, x: string, after: Toks, rest: Toks)
    requires at.Kind() == OUTPUT && NameStmt(OUTPUT, at) == Ok(x, after) && EndsAt(after, rest)
    ensures Appends(PhaseStmt, WithOutputs(p), at, x, rest)
  {
    forall acc ensures AppendsTo(PhaseStmt, WithOutputs(p), at, acc, x, rest) {
      OutputStep(p.(outputs := acc), at, x, after);
      PhaseLineAt(at, p.(outputs := acc), Ok(p.(outputs := acc + [x]), after));
    }
  }

  lemma WhenStep(p: Phase, at: Toks, x: WhenBlock, after: Toks)
    requires at.Kind() == WHEN && When(at) == Ok(x, after)
    ensures PhaseStmt(at, p) == Ok(p.(whenBlocks := p.whenBlocks + [x]), after)
  {
  }

  lemma PhaseTakesWhen(p: Phase, at: Toks, x: WhenBlock, after: Toks, rest: Toks)
    requires at.Kind() == WHEN && When(at) == Ok(x, after) && EndsAt(after, rest)
    ensures Appends(PhaseStmt, WithWhens(p), at, x, rest)
  {
    forall acc ensures AppendsTo(PhaseStmt, WithWhens(p), at, acc, x, rest) {
      WhenStep(p.(whenBlocks := acc), at, x, after);
    }
  }

  lemma AwaitStep(p: Phase, at: Toks, x: string, after: Toks)
    requires at.Kind() == AWAIT && NameStmt(AWAIT, at) == Ok(x, after)
    ensures PhaseLine(at, p) == Ok(p.(awaits := p.awaits + [x]), after)
  {
  }

  lemma PhaseTakesAwait(p: Phase, at: Toks, x: string, after: Toks, rest: Toks)
    requires at.Kind() == AWAIT && NameStmt(AWAIT, at) == Ok(x, after) && EndsAt(after, rest)
    ensures Appends(PhaseStmt, WithAwaits(p), at, x, rest)
  {
    forall acc ensures AppendsTo(PhaseStmt, WithAwaits(p), at, acc, x, rest) {
      AwaitStep(p.(awaits := acc), at, x, after);
      PhaseLineAt(at, p.(awaits := acc), Ok(p.(awaits := acc + [x]), after));
    }
  }

  lemma PhaseRequires(p: Phase, xs: seq<Require>, rest: Toks)
    requires forall i :: 0 <= i < |xs| ==> WfRequire(xs[i])
    ensures Body(PhaseStmt, true, All(PrintRequire, xs, rest), p.(requires_ := [])) ==
            Body(PhaseStmt, true, rest, p.(requires_ := xs))
  {
    forall k, r | 0 <= k < |xs| ensures Appends(PhaseStmt, WithRequires(p), PrintRequire(xs[k], r), xs[k], r) {
      RequireRoundTrip(xs[k], r);
      PhaseTakesRequire(p, PrintRequire(xs[k], r), xs[k], Line(r), r);
    }
    BodyFills(PhaseStmt, true, PrintRequire, WithRequires(p), xs, rest);
  }

  lemma PhaseGrants(p: Phase, xs: seq<Grant>, rest: Toks)
    requires forall i :: 0 <= i < |xs| ==> WfGrant(xs[i])
    ensures Body(PhaseStmt, true, All(PrintGrant, xs, rest), p.(grants := [])) ==
            Body(PhaseStmt, true, rest, p.(grants := xs))
  {
    forall k, r | 0 <= k < |xs| ensures Appends(PhaseStmt, WithGrants(p), PrintGrant(xs[k], r), xs[k], r) {
      GrantRoundTrip(xs[k], r);
      PhaseTakesGrant(p, PrintGrant(xs[k], r), xs[k], Line(r), r);
    }
    BodyFills(PhaseStmt, true, PrintGrant, WithGrants(p), xs, rest);
  }

  lemma PhaseActions(p: Phase, xs: seq<FeatureCall>, rest: Toks)
    requires forall i :: 0 <= i < |xs| ==> WfAction(xs[i])
    ensures Body(PhaseStmt, true, All(PrintAction, xs, rest), p.(actions := [])) ==
            Body(PhaseStmt, true, rest, p.(actions := xs))
  {
    forall k, r | 0 <= k < |xs| ensures Appends(PhaseStmt, WithActions(p), PrintAction(xs[k], r), xs[k], r) {
      ActionRoundTrip(xs[k], r);
      PhaseTakesAction(p, PrintAction(xs[k], r), xs[k], Line(r), r);
    }
    BodyFills(PhaseStmt, true, PrintAction, WithActions(p), xs, rest);
  }

  lemma PhaseOutputs(p: Phase, xs: seq<string>, rest: Toks)
    ensures Body(PhaseStmt, true, All(PrintOutput, xs, rest), p.(outputs := [])) ==
            Body(PhaseStmt, true, rest, p.(outputs := xs))
  {
    forall k, r | 0 <= k < |xs| ensures Appends(PhaseStmt, WithOutputs(p), PrintOutput(xs[k], r), xs[k], r) {
      PhaseTakesOutput(p, PrintOutput(xs[k], r), xs[k], Line(r), r);
    }
    BodyFills(PhaseStmt, true, PrintOutput, WithOutputs(p), xs, rest);
  }

  lemma PhaseWhens(p: Phase, xs: seq<WhenBlock>, rest: Toks)
    requires forall i :: 0 <= i < |xs| ==> WfWhen(xs[i])
    ensures Body(PhaseStmt, true, All(PrintWhen, xs, rest), p.(whenBlocks := [])) ==
            Body(PhaseStmt, true, rest, p.(whenBlocks := xs))
  {
    forall k, r | 0 <= k < |xs| ensures Appends(PhaseStmt, WithWhens(p), PrintWhen(xs[k], r), xs[k], r) {
      WhenRoundTrip(xs[k], r);
      PhaseTakesWhen(p, PrintWhen(xs[k], r), xs[k], r, r);
    }
    BodyFills(PhaseStmt, true, PrintWhen, WithWhens(p), xs, rest);
  }

  lemma PhaseAwaits(p: Phase, xs: seq<string>, rest: Toks)
    ensures Body(PhaseStmt, true, All(PrintAwait, xs, rest), p.(awaits := [])) ==
            Body(PhaseStmt, true, rest, p.(awaits := xs))
  {
    forall k, r | 0 <= k < |xs| ensures Appends(PhaseStmt, WithAwaits(p), PrintAwait(xs[k], r), xs[k], r) {
      PhaseTakesAwait(p, PrintAwait(xs[k], r), xs[k], Line(r), r);
    }
    BodyFills(PhaseStmt, true, PrintAwait, WithAwaits(p), xs, rest);
  }

  lemma SingleTakes(at: Toks, p: Phase, p': Phase, rest: Toks)
    requires (at.Kind() == CERTIFY || at.Kind() == EVIDENCE) && PhaseSingle(at, p) == Ok(p', Line(rest))
    ensures Takes(PhaseStmt, at, p, p', rest)
  {
  }

  lemma CertifyStep(p: Phase, q: string, rest: Toks)
    requires p.certify.None?
    ensures PhaseSingle(PrintCertify(q, rest), p) == Ok(p.(certify := Some(q)), Line(rest))
  {
  }

  lemma PhaseCertify(p: Phase, certify: Option<string>, rest: Toks)
    requires p.certify.None?
    ensures Body(PhaseStmt, true, PrintOption(PrintCertify, certify, rest), p) ==
            Body(PhaseStmt, true, rest, p.(certify := certify))
  {
    if certify.Some? {
      var at, p' := PrintCertify(certify.value, rest), p.(certify := certify);
      CertifyStep(p, certify.value, rest);
      SingleTakes(at, p, p', rest);
      BodyStep(PhaseStmt, true, at, p, p', rest);
    }
  }

  lemma EvidenceStep(p: Phase, x: string, rest: Toks)
    requires p.evidence.None?
    ensures PhaseSingle(PrintEvidence(x, rest), p) == Ok(p.(evidence := Some(x)), Line(rest))
  {
  }

  lemma PhaseEvidence(p: Phase, evidence: Option<string>, rest: Toks)
    requires p.evidence.None?
    ensures Body(PhaseStmt, true, PrintOption(PrintEvidence, evidence, rest), p) ==
            Body(PhaseStmt, true, rest, p.(evidence := evidence))
  {
    if evidence.Some? {
      var at, p' := PrintEvidence(evidence.value, rest), p.(evidence := evidence);
      EvidenceStep(p, evidence.value, rest);
      SingleTakes(at, p, p', rest);
      BodyStep(PhaseStmt, true, at, p, p', rest);
    }
  }

  lemma PhaseBodyStart(p: Phase, rest: Toks)
    requires WfPhase(p)
    ensures Body(PhaseStmt, true, PrintPhaseBody(p, rest), NewPhase(p.name)) ==
            Body(PhaseStmt, true, PrintPhaseEnd(p, rest),
                 Phase(p.name, p.requires_, p.actions, p.outputs, p.grants, None, None, [], []))
  {
    var p0 := NewPhase(p.name);
    var p1 := p0.(requires_ := p.requires_);
    var p2 := p1.(grants := p.grants);
    var p3 := p2.(actions := p.actions);
    var end := PrintPhaseEnd(p, rest);
    var outputs := All(PrintOutput, p.outputs, end);
    var actions := All(PrintAction, p.actions, outputs);
    PhaseRequires(p0, p.requires_, All(PrintGrant, p.grants, actions));
    PhaseGrants(p1, p.grants, actions);
    PhaseActions(p2, p.actions, outputs);
    PhaseOutputs(p3, p.outputs, end);
  }

  lemma PhaseBodyEnd(p: Phase, rest: Toks)
    requires WfPhase(p)
    ensures Body(PhaseStmt, true, PrintPhaseEnd(p, Put(DEDENT, "", rest)),
                 Phase(p.name, p.requires_, p.actions, p.outputs, p.grants, None, None, [], [])) == Ok(p, rest)
  {
    var p0 := Phase(p.name, p.requires_, p.actions, p.outputs, p.grants, None, None, [], []);
    var p1 := p0.(certify := p.certify, evidence := p.evidence);
    var p2 := p1.(whenBlocks := p.whenBlocks);
    var end := Put(DEDENT, "", rest);
    var awaits := All(PrintAwait, p.awaits, end);
    var whens := All(PrintWhen, p.whenBlocks, awaits);
    PhaseCertify(p0, p.certify, PrintOption(PrintEvidence, p.evidence, whens));
    PhaseEvidence(p0.(certify := p.certify), p.evidence, whens);
    PhaseWhens(p1, p.whenBlocks, awaits);
    PhaseAwaits(p2, p.awaits, end);
    BodyEnds(PhaseStmt, true, p, rest);
  }

  lemma PhaseOf(name: string, at: Toks, p: Phase, rest: Toks)
    requires Block(PhaseStmt, true, at, NewPhase(name)) == Ok(p, rest)
    ensures PhaseDecl(Put(PHASE, "phase", Name(name, at))) == Ok(p, rest)
  {
    NamedOf(PHASE, "phase", name, at);
  }

  lemma PhaseRoundTrip(p: Phase, rest: Toks)
    requires WfPhase(p)
    ensures PhaseDecl(PrintPhase(p, rest)) == Ok(p, rest)
  {
    PhaseBodyStart(p, Put(DEDENT, "", rest));
    PhaseBodyEnd(p, rest);
    var body := PrintPhaseBody(p, Put(DEDENT, "", rest));
    BlockOpens(PhaseStmt, true, body, NewPhase(p.name));
    PhaseOf(p.name, Begin(body), p, rest);
  }

  function PrintWorkflow(w: Workflow, rest: Toks): Toks {
    Put(WORKFLOW, "workflow", Name(w.name, PrintBlock(PrintPhase, w.phases, rest)))
  }

  lemma AddPhaseOf(at: Toks, acc: seq<Phase>, p: Phase, rest: Toks)
    requires PhaseDecl(at) == Ok(p, rest)
    ensures AddPhase(at, acc) == Ok(acc + [p], rest)
  {
  }

  lemma CollectsPhase(at: Toks, p: Phase, rest: Toks)
    requires at.Kind() == PHASE && PhaseDecl(at) == Ok(p, rest)
    ensures Appends(AddPhase, Itself(), at, p, rest)
  {
    forall acc ensures AppendsTo(AddPhase, Itself(), at, acc, p, rest) {
      AddPhaseOf(at, acc, p, rest);
    }
  }

  lemma WorkflowOf(w: Workflow, at: Toks, rest: Toks)
    requires Block(AddPhase, true, at, []) == Ok(w.phases, rest) && w.phases != []
    ensures WorkflowDecl(Put(WORKFLOW, "workflow", Name(w.name, at))) == Ok(w, rest)
  {
    NamedOf(WORKFLOW, "workflow", w.name, at);
  }

  lemma WorkflowRoundTrip(w: Workflow, rest: Toks)
    requires WfWorkflow(w)
    ensures WorkflowDecl(PrintWorkflow(w, rest)) == Ok(w, rest)
  {
    forall k, r | 0 <= k < |w.phases| ensures Appends(AddPhase, Itself(), PrintPhase(w.phases[k], r), w.phases[k], r) {
      PhaseRoundTrip(w.phases[k], r);
      CollectsPhase(PrintPhase(w.phases[k], r), w.phases[k], r);
    }
    BlockRoundTrip(AddPhase, true, PrintPhase, w.phases, rest);
    WorkflowOf(w, PrintBlock(PrintPhase, w.phases, rest), rest);
  }

  // ------------------------------------------------------------------ situations

  function PrintUnit(unit_: string, rest: Toks): Toks {
    Put(if unit_ == "days" then DAYS else if unit_ == "hours" then HOURS else IDENT, unit_, rest)
  }

  function PrintWaiting(p: WaitingPeriod, rest: Toks): Toks {
    Put(WAITING_PERIOD, "waiting_period", PrintRange(p.minValue, p.maxValue, PrintUnit(p.unit_, Line(rest))))
  }

  function PrintRange(min: int, max: int, rest: Toks): Toks {
    if min >= 0 && max >= 0 then PrintInt(min, Put(DOTDOT, "..", PrintInt(max, rest))) else rest
  }

  lemma RangeOf(at: Toks, min: int, dots: Toks, max: int, rest: Toks)
    requires Integer(at) == Ok(min, dots) && dots.Kind() == DOTDOT && Integer(dots.Rest()) == Ok(max, rest)
    ensures Range(at) == Ok((min, max), rest)
  {
  }

  lemma RangeRoundTrip(min: int, max: int, rest: Toks)
    requires min >= 0 && max >= 0
    ensures Range(PrintRange(min, max, rest)) == Ok((min, max), rest)
  {
    var dots := Put(DOTDOT, "..", PrintInt(max, rest));
    IntRoundTrip(min, dots);
    IntRoundTrip(max, rest);
    RangeOf(PrintInt(min, dots), min, dots, max, rest);
  }

  lemma WaitingOf(at: Toks, min: int, max: int, unit_: string, rest: Toks)
    requires Range(at) == Ok((min, max), PrintUnit(unit_, rest))
    ensures WaitingStmt(Put(WAITING_PERIOD, "waiting_period", at)) == Ok(WaitingPeriod(min, max, unit_), rest)
  {
  }

  lemma WaitingRoundTrip(p: WaitingPeriod, rest: Toks)
    requires WfWaiting(p)
    ensures WaitingStmt(PrintWaiting(p, rest)) == Ok(p, Line(rest))
  {
    var unit_ := PrintUnit(p.unit_, Line(rest));
    RangeRoundTrip(p.minValue, p.maxValue, unit_);
    WaitingOf(PrintRange(p.minValue, p.maxValue, unit_), p.minValue, p.maxValue, p.unit_, Line(rest));
  }

  function PrintSituationBody(s: Situation, rest: Toks): Toks {
    var requires_ := All(PrintRequire, s.requires_, rest);
    if s.waitingPeriod.Some? then PrintWaiting(s.waitingPeriod.value, requires_) else requires_
  }

  function PrintSituation(s: Situation, rest: Toks): Toks {
    PrintWhenHead(s.predicate_, PrintSituationBody(s, Put(DEDENT, "", rest)))
  }

  function SituationWithRequires(s: Situation): seq<Require> -> Situation {
    (acc: seq<Require>) => s.(requires_ := acc)
  }

  lemma SituationTakesRequire(s: Situation, at: Toks, x: Require, after: Toks, rest: Toks)
    requires at.Kind() == REQUIRE && RequireStmt(at) == Ok(x, after) && EndsAt(after, rest)
    ensures Appends(SituationStmt, SituationWithRequires(s), at, x, rest)
  {
  }

  lemma SituationTakesWaiting(s: Situation, at: Toks, x: WaitingPeriod, after: Toks, rest: Toks)
    requires at.Kind() == WAITING_PERIOD && WaitingStmt(at) == Ok(x, after) && EndsAt(after, rest)
    ensures Takes(SituationStmt, at, s, s.(waitingPeriod := Some(x)), rest)
  {
  }

  lemma SituationRequires(s: Situation, xs: seq<Require>, rest: Toks)
    requires forall i :: 0 <= i < |xs| ==> WfRequire(xs[i])
    ensures Body(SituationStmt, false, All(PrintRequire, xs, rest), s.(requires_ := [])) ==
            Body(SituationStmt, false, rest, s.(requires_ := xs))
  {
    forall k, r | 0 <= k < |xs|
      ensures Appends(SituationStmt, SituationWithRequires(s), PrintRequire(xs[k], r), xs[k], r) {
      RequireRoundTrip(xs[k], r);
      SituationTakesRequire(s, PrintRequire(xs[k], r), xs[k], Line(r), r);
    }
    BodyFills(SituationStmt, false, PrintRequire, SituationWithRequires(s), xs, rest);
  }

  lemma SituationBodyRoundTrip(s: Situation, rest: Toks)
    requires WfSituation(s)
    ensures Body(SituationStmt, false, PrintSituationBody(s, Put(DEDENT, "", rest)),
                 Situation(s.predicate_, None, [])) ==
            Ok(s, rest)
  {
    var s0, s1 := Situation(s.predicate_, None, []), Situation(s.predicate_, s.waitingPeriod, []);
    var requires_ := All(PrintRequire, s.requires_, Put(DEDENT, "", rest));
    if s.waitingPeriod.Some? {
      var at := PrintWaiting(s.waitingPeriod.value, requires_);
      WaitingRoundTrip(s.waitingPeriod.value, requires_);
      SituationTakesWaiting(s0, at, s.waitingPeriod.value, Line(requires_), requires_);
      BodyStep(SituationStmt, false, at, s0, s1, requires_);
    }
    SituationRequires(s1, s.requires_, Put(DEDENT, "", rest));
    BodyEnds(SituationStmt, false, s, rest);
  }

  lemma SituationOf(at: Toks, body: Toks, p: Predicate, s: Situation, rest: Toks)
    requires WhenHead(at) == Ok(p, body) && Body(SituationStmt, false, body, Situation(p, None, [])) == Ok(s, rest)
    ensures SituationDecl(at) == Ok(s, rest)
  {
  }

  lemma SituationRoundTrip(s: Situation, rest: Toks)
    requires WfSituation(s)
    ensures SituationDecl(PrintSituation(s, rest)) == Ok(s, rest)
  {
    var body := PrintSituationBody(s, Put(DEDENT, "", rest));
    WhenHeadRoundTrip(s.predicate_, body);
    SituationBodyRoundTrip(s, rest);
    SituationOf(PrintSituation(s, rest), body, s.predicate_, s, rest);
  }

  lemma CollectsSituation(at: Toks, s: Situation, rest: Toks)
    requires at.Kind() == WHEN && SituationDecl(at) == Ok(s, rest)
    ensures Appends(AddSituation, Itself(), at, s, rest)
  {
    forall acc ensures AppendsTo(AddSituation, Itself(), at, acc, s, rest) {
      assert AddSituation(at, acc) == Ok(acc + [s], rest);
    }
  }

  // ------------------------------------------------------------------ roles

  function PrintFlag(key: Token, flag: bool, rest: Toks): Toks {
    Tok(key, Put(COLON, ":", Put(if flag then TRUE else FALSE, if flag then "true" else "false", Line(rest))))
  }

  function PrintRoleBody(role: Role, rest: Toks): Toks {
    Put(ACTIONS, "actions", Put(COLON, ":", PrintIdents(role.actions,
      Line(PrintFlag(Token(BREAK_GLASS, "break_glass"), role.breakGlass,
           PrintFlag(Token(REQUIRES_MFA, "requires_mfa"), role.requiresMfa, rest))))))
  }

  function PrintRole(role: Role, rest: Toks): Toks {
    Name(role.name, Begin(PrintRoleBody(role, Put(DEDENT, "", rest))))
  }

  lemma RoleTakesActions(role: Role, at: Toks, xs: seq<string>, rest: Toks)
    requires Idents(at) == Ok(xs, Line(rest))
    ensures Takes(RoleProp, Put(ACTIONS, "actions", Put(COLON, ":", at)), role, role.(actions := xs), rest)
  {
  }

  lemma FlagOf(key: Token, flag: bool, rest: Toks)
    ensures Flag(PrintFlag(key, flag, rest)) == Ok(flag, Line(rest))
  {
  }

  lemma RoleTakesFlag(role: Role, key: Token, flag: bool, rest: Toks)
    requires key.kind == BREAK_GLASS || key.kind == REQUIRES_MFA
    ensures Takes(RoleProp, PrintFlag(key, flag, rest), role,
                  if key.kind == BREAK_GLASS then role.(breakGlass := flag) else role.(requiresMfa := flag), rest)
  {
    FlagOf(key, flag, rest);
  }

  lemma RoleBodyRoundTrip(role: Role, rest: Toks)
    ensures Body(RoleProp, false, PrintRoleBody(role, Put(DEDENT, "", rest)), Role(role.name, [], false, true)) ==
            Ok(role, rest)
  {
    var r0 := Role(role.name, [], false, true);
    var r1 := r0.(actions := role.actions);
    var r2 := r1.(breakGlass := role.breakGlass);
    var end := Put(DEDENT, "", rest);
    var mfa := PrintFlag(Token(REQUIRES_MFA, "requires_mfa"), role.requiresMfa, end);
    var glass := PrintFlag(Token(BREAK_GLASS, "break_glass"), role.breakGlass, mfa);
    IdentsRoundTrip(role.actions, Line(glass));
    RoleTakesActions(r0, PrintIdents(role.actions, Line(glass)), role.actions, glass);
    BodyStep(RoleProp, false, PrintRoleBody(role, end), r0, r1, glass);
    RoleTakesFlag(r1, Token(BREAK_GLASS, "break_glass"), role.breakGlass, mfa);
    BodyStep(RoleProp, false, glass, r1, r2, mfa);
    RoleTakesFlag(r2, Token(REQUIRES_MFA, "requires_mfa"), role.requiresMfa, end);
    BodyStep(RoleProp, false, mfa, r2, role, end);
    BodyEnds(RoleProp, false, role, rest);
  }

  lemma RoleOf(name: string, at: Toks, role: Role, rest: Toks)
    requires Block(RoleProp, false, at, Role(name, [], false, true)) == Ok(role, rest)
    ensures RoleDecl(Name(name, at)) == Ok(role, rest)
  {
  }

  lemma RoleRoundTrip(role: Role, rest: Toks)
    ensures RoleDecl(PrintRole(role, rest)) == Ok(role, rest)
  {
    var body := PrintRoleBody(role, Put(DEDENT, "", rest));
    RoleBodyRoundTrip(role, rest);
    BlockOpens(RoleProp, false, body, Role(role.name, [], false, true));
    RoleOf(role.name, Begin(body), role, rest);
  }

  lemma CollectsRole(at: Toks, role: Role, rest: Toks)
    requires at.Kind() == IDENT && RoleDecl(at) == Ok(role, rest)
    ensures Appends(AddRole, Itself(), at, role, rest)
  {
    forall acc ensures AppendsTo(AddRole, Itself(), at, acc, role, rest) {
      assert AddRole(at, acc) == Ok(acc + [role], rest);
    }
  }

  // ------------------------------------------------------------------ schemas, packages, policies, triggers

  /** All digits: an INT; digits around one dot: a FLOAT; anything else: an identifier. */
  function VersionKind(v: string): Kind {
    var parts := Split(v);
    if IsNumeral(v) then INT else if |parts| == 2 && IsNumeral(parts[0]) && IsNumeral(parts[1]) then FLOAT else IDENT
  }

  function PrintSchema(s: SchemaRef, rest: Toks): Toks {
    Put(DASH, "-", PrintDotted(s.namespace_, Put(AT, "@", Put(VersionKind(s.version), s.version, Line(rest)))))
  }

  lemma SchemaVersionOf(k: Kind, v: string, rest: Toks)
    requires (k == INT || k == FLOAT || k == IDENT) && rest.Kind() != DOT
    ensures SchemaVersion(Put(k, v, rest)) == Ok(v, rest)
  {
  }

  lemma AddSchemaOf(at: Toks, acc: seq<SchemaRef>, name: string, v: Toks, version: string, rest: Toks)
    requires at.Kind() == DASH && DottedName(at.Rest()) == Ok(name, v) && v.Kind() == AT
    requires SchemaVersion(v.Rest()) == Ok(version, rest)
    ensures AddSchema(at, acc) == Ok(acc + [SchemaRef(name, version)], rest)
  {
  }

  lemma SchemaOf(at: Toks, name: string, v: Toks, version: string, rest: Toks)
    requires DottedName(at) == Ok(name, Put(AT, "@", v)) && SchemaVersion(v) == Ok(version, Line(rest))
    ensures Appends(AddSchema, Itself(), Put(DASH, "-", at), SchemaRef(name, version), rest)
  {
    forall acc ensures AppendsTo(AddSchema, Itself(), Put(DASH, "-", at), acc, SchemaRef(name, version), rest) {
      AddSchemaOf(Put(DASH, "-", at), acc, name, Put(AT, "@", v), version, Line(rest));
    }
  }

  lemma CollectsSchema(s: SchemaRef, rest: Toks)
    ensures Appends(AddSchema, Itself(), PrintSchema(s, rest), s, rest)
  {
    var k := VersionKind(s.version);
    var v := Put(k, s.version, Line(rest));
    SchemaVersionOf(k, s.version, Line(rest));
    DottedRoundTrip(s.namespace_, Put(AT, "@", v));
    SchemaOf(PrintDotted(s.namespace_, Put(AT, "@", v)), s.namespace_, v, s.version, rest);
  }

  function PrintPackage(name: string, rest: Toks): Toks {
    Put(DASH, "-", Put(WordKind(name), name, Line(rest)))
  }

  lemma CollectsPackage(name: string, rest: Toks)
    ensures Appends(AddPackage, Itself(), PrintPackage(name, rest), name, rest)
  {
    PackageOf(Put(WordKind(name), name, Line(rest)), name, rest);
  }

  lemma PackageOf(at: Toks, name: string, rest: Toks)
    requires PackageName(at) == Ok(name, Line(rest))
    ensures Appends(AddPackage, Itself(), Put(DASH, "-", at), name, rest)
  {
    forall acc ensures AppendsTo(AddPackage, Itself(), Put(DASH, "-", at), acc, name, rest) {
      assert AddPackage(Put(DASH, "-", at), acc) == Ok(acc + [name], Line(rest));
    }
  }

  function PrintPolicy(id: string, rest: Toks): Toks {
    Put(DASH, "-", PrintDotted(id, Line(rest)))
  }

  lemma CollectsPolicy(id: string, rest: Toks)
    ensures Appends(AddPolicy, Itself(), PrintPolicy(id, rest), id, rest)
  {
    DottedRoundTrip(id, Line(rest));
    PolicyOf(PrintDotted(id, Line(rest)), id, rest);
  }

  lemma PolicyOf(at: Toks, id: string, rest: Toks)
    requires DottedName(at) == Ok(id, Line(rest))
    ensures Appends(AddPolicy, Itself(), Put(DASH, "-", at), id, rest)
  {
    forall acc ensures AppendsTo(AddPolicy, Itself(), Put(DASH, "-", at), acc, id, rest) {
      assert AddPolicy(Put(DASH, "-", at), acc) == Ok(acc + [id], Line(rest));
    }
  }

  function PrintTrigger(name: string, rest: Toks): Toks {
    Name(name, Line(rest))
  }

  lemma CollectsTrigger(name: string, rest: Toks)
    ensures Appends(AddIdent, Itself(), PrintTrigger(name, rest), name, rest)
  {
    forall acc ensures AppendsTo(AddIdent, Itself(), PrintTrigger(name, rest), acc, name, rest) {
      assert AddIdent(PrintTrigger(name, rest), acc) == Ok(acc + [name], Line(rest));
    }
  }

  // ------------------------------------------------------------------ sections

  /** A section is printed only when it has something in it. */
  function PrintSection<T>(key: Token, print_: (T, Toks) -> Toks, xs: seq<T>, rest: Toks): Toks {
    if xs == [] then rest else Tok(key, PrintBlock(print_, xs, rest))
  }

  lemma SectionStep(at: Toks, seen: set<Kind>, c: Charter, c': Charter, rest: Toks)
    requires at.Kind() != NEWLINE && at.Kind() != EOF && Section(at, seen, c) == Ok(c', rest)
    ensures Sections(at, seen, c) == Sections(rest, Seen(at.Kind(), seen), c')
  {
    var next := SkipNewlines(rest);
    assert SkipNewlines(next) == next;
    assert Sections(next, Seen(at.Kind(), seen), c') == Sections(rest, Seen(at.Kind(), seen), c');
  }

  /** What `seen` becomes after a printed section. */
  function SeenIf(k: Kind, some: bool, seen: set<Kind>): set<Kind> {
    if some then seen + {k} else seen
  }

  lemma SchemasBlock(xs: seq<SchemaRef>, rest: Toks)
    ensures Block(AddSchema, false, PrintBlock(PrintSchema, xs, rest), []) == Ok(xs, rest)
  {
    forall k, r | 0 <= k < |xs| ensures Appends(AddSchema, Itself(), PrintSchema(xs[k], r), xs[k], r) {
      CollectsSchema(xs[k], r);
    }
    BlockRoundTrip(AddSchema, false, PrintSchema, xs, rest);
  }

  lemma SchemasOf(at: Toks, xs: seq<SchemaRef>, rest: Toks)
    requires at.Rest().Kind() == NEWLINE && Block(AddSchema, false, at, []) == Ok(xs, rest)
    ensures Schemas(at) == Ok(xs, rest)
  {
  }

  /** The sections that are plain lists are read as such. */
  lemma ListSectionAt(at: Toks, seen: set<Kind>, c: Charter, r: Parse<Charter>)
    requires at.Kind() !in seen && at.Kind() != WORKFLOW && at.Kind() != SITUATIONS && at.Kind() != ROLES
    requires ListSection(at, c) == r
    ensures Section(at, seen, c) == r
  {
  }

  lemma SchemasList(at: Toks, c: Charter, xs: seq<SchemaRef>, rest: Toks)
    requires at.Rest().Kind() == NEWLINE && Block(AddSchema, false, at, []) == Ok(xs, rest)
    ensures ListSection(Put(SCHEMAS, "schemas", at), c) == Ok(c.(schemas := xs), rest)
  {
    SchemasOf(at, xs, rest);
  }

  lemma EnterSchemas(at: Toks, seen: set<Kind>, c: Charter, xs: seq<SchemaRef>, rest: Toks)
    requires at.Rest().Kind() == NEWLINE && Block(AddSchema, false, at, []) == Ok(xs, rest) && SCHEMAS !in seen
    ensures Sections(Put(SCHEMAS, "schemas", at), seen, c) == Sections(rest, seen + {SCHEMAS}, c.(schemas := xs))
  {
    SchemasList(at, c, xs, rest);
    ListSectionAt(Put(SCHEMAS, "schemas", at), seen, c, Ok(c.(schemas := xs), rest));
    SectionStep(Put(SCHEMAS, "schemas", at), seen, c, c.(schemas := xs), rest);
  }

  lemma SchemasSection(c: Charter, xs: seq<SchemaRef>, seen: set<Kind>, rest: Toks)
    requires c.schemas == [] && SCHEMAS !in seen
    ensures Sections(PrintSection(Token(SCHEMAS, "schemas"), PrintSchema, xs, rest), seen, c) ==
            Sections(rest, SeenIf(SCHEMAS, xs != [], seen), c.(schemas := xs))
  {
    if xs != [] {
      SchemasBlock(xs, rest);
      EnterSchemas(PrintBlock(PrintSchema, xs, rest), seen, c, xs, rest);
    }
  }

  lemma PackagesBlock(xs: seq<string>, rest: Toks)
    ensures Block(AddPackage, false, PrintBlock(PrintPackage, xs, rest), []) == Ok(xs, rest)
  {
    forall k, r | 0 <= k < |xs| ensures Appends(AddPackage, Itself(), PrintPackage(xs[k], r), xs[k], r) {
      CollectsPackage(xs[k], r);
    }
    BlockRoundTrip(AddPackage, false, PrintPackage, xs, rest);
  }

  lemma PackagesList(at: Toks, c: Charter, xs: seq<string>, rest: Toks)
    requires Block(AddPackage, false, at, []) == Ok(xs, rest)
    ensures ListSection(Put(PACKAGES, "packages", at), c) == Ok(c.(packages := xs), rest)
  {
  }

  lemma EnterPackages(at: Toks, seen: set<Kind>, c: Charter, xs: seq<string>, rest: Toks)
    requires Block(AddPackage, false, at, []) == Ok(xs, rest) && PACKAGES !in seen
    ensures Sections(Put(PACKAGES, "packages", at), seen, c) == Sections(rest, seen + {PACKAGES}, c.(packages := xs))
  {
    PackagesList(at, c, xs, rest);
    ListSectionAt(Put(PACKAGES, "packages", at), seen, c, Ok(c.(packages := xs), rest));
    SectionStep(Put(PACKAGES, "packages", at), seen, c, c.(packages := xs), rest);
  }

  lemma PackagesSection(c: Charter, xs: seq<string>, seen: set<Kind>, rest: Toks)
    requires c.packages == [] && PACKAGES !in seen
    ensures Sections(PrintSection(Token(PACKAGES, "packages"), PrintPackage, xs, rest), seen, c) ==
            Sections(rest, SeenIf(PACKAGES, xs != [], seen), c.(packages := xs))
  {
    if xs != [] {
      PackagesBlock(xs, rest);
      EnterPackages(PrintBlock(PrintPackage, xs, rest), seen, c, xs, rest);
    }
  }

  lemma PoliciesBlock(xs: seq<string>, rest: Toks)
    ensures Block(AddPolicy, false, PrintBlock(PrintPolicy, xs, rest), []) == Ok(xs, rest)
  {
    forall k, r | 0 <= k < |xs| ensures Appends(AddPolicy, Itself(), PrintPolicy(xs[k], r), xs[k], r) {
      CollectsPolicy(xs[k], r);
    }
    BlockRoundTrip(AddPolicy, false, PrintPolicy, xs, rest);
  }

  lemma PoliciesList(at: Toks, c: Charter, xs: seq<string>, rest: Toks)
    requires Block(AddPolicy, false, at, []) == Ok(xs, rest)
    ensures ListSection(Put(POLICIES, "policies", at), c) == Ok(c.(policies := xs), rest)
  {
  }

  lemma EnterPolicies(at: Toks, seen: set<Kind>, c: Charter, xs: seq<string>, rest: Toks)
    requires Block(AddPolicy, false, at, []) == Ok(xs, rest) && POLICIES !in seen
    ensures Sections(Put(POLICIES, "policies", at), seen, c) == Sections(rest, seen + {POLICIES}, c.(policies := xs))
  {
    PoliciesList(at, c, xs, rest);
    ListSectionAt(Put(POLICIES, "policies", at), seen, c, Ok(c.(policies := xs), rest));
    SectionStep(Put(POLICIES, "policies", at), seen, c, c.(policies := xs), rest);
  }

  lemma PoliciesSection(c: Charter, xs: seq<string>, seen: set<Kind>, rest: Toks)
    requires c.policies == [] && POLICIES !in seen
    ensures Sections(PrintSection(Token(POLICIES, "policies"), PrintPolicy, xs, rest), seen, c) ==
            Sections(rest, SeenIf(POLICIES, xs != [], seen), c.(policies := xs))
  {
    if xs != [] {
      PoliciesBlock(xs, rest);
      EnterPolicies(PrintBlock(PrintPolicy, xs, rest), seen, c, xs, rest);
    }
  }

  lemma TriggersBlock(xs: seq<string>, rest: Toks)
    ensures Block(AddIdent, false, PrintBlock(PrintTrigger, xs, rest), []) == Ok(xs, rest)
  {
    forall k, r | 0 <= k < |xs| ensures Appends(AddIdent, Itself(), PrintTrigger(xs[k], r), xs[k], r) {
      CollectsTrigger(xs[k], r);
    }
    BlockRoundTrip(AddIdent, false, PrintTrigger, xs, rest);
  }

  lemma TriggersList(at: Toks, c: Charter, xs: seq<string>, rest: Toks)
    requires Block(AddIdent, false, at, []) == Ok(xs, rest)
    ensures ListSection(Put(TRIGGERS, "triggers", at), c) == Ok(c.(triggers := xs), rest)
  {
  }

  lemma EnterTriggers(at: Toks, seen: set<Kind>, c: Charter, xs: seq<string>, rest: Toks)
    requires Block(AddIdent, false, at, []) == Ok(xs, rest) && TRIGGERS !in seen
    ensures Sections(Put(TRIGGERS, "triggers", at), seen, c) == Sections(rest, seen + {TRIGGERS}, c.(triggers := xs))
  {
    TriggersList(at, c, xs, rest);
    ListSectionAt(Put(TRIGGERS, "triggers", at), seen, c, Ok(c.(triggers := xs), rest));
    SectionStep(Put(TRIGGERS, "triggers", at), seen, c, c.(triggers := xs), rest);
  }

  lemma TriggersSection(c: Charter, xs: seq<string>, seen: set<Kind>, rest: Toks)
    requires c.triggers == [] && TRIGGERS !in seen
    ensures Sections(PrintSection(Token(TRIGGERS, "triggers"), PrintTrigger, xs, rest), seen, c) ==
            Sections(rest, SeenIf(TRIGGERS, xs != [], seen), c.(triggers := xs))
  {
    if xs != [] {
      TriggersBlock(xs, rest);
      EnterTriggers(PrintBlock(PrintTrigger, xs, rest), seen, c, xs, rest);
    }
  }

  lemma SituationsBlock(xs: seq<Situation>, rest: Toks)
    requires forall i :: 0 <= i < |xs| ==> WfSituation(xs[i])
    ensures Block(AddSituation, false, PrintBlock(PrintSituation, xs, rest), []) == Ok(xs, rest)
  {
    forall k, r | 0 <= k < |xs| ensures Appends(AddSituation, Itself(), PrintSituation(xs[k], r), xs[k], r) {
      SituationRoundTrip(xs[k], r);
      CollectsSituation(PrintSituation(xs[k], r), xs[k], r);
    }
    BlockRoundTrip(AddSituation, false, PrintSituation, xs, rest);
  }

  lemma SituationsAt(at: Toks, seen: set<Kind>, c: Charter, xs: seq<Situation>, rest: Toks)
    requires at.Kind() == SITUATIONS && Block(AddSituation, false, at.Rest(), []) == Ok(xs, rest) && SITUATIONS !in seen
    ensures Section(at, seen, c) == Ok(c.(situations := xs), rest)
  {
  }

  lemma EnterSituations(at: Toks, seen: set<Kind>, c: Charter, xs: seq<Situation>, rest: Toks)
    requires Block(AddSituation, false, at, []) == Ok(xs, rest) && SITUATIONS !in seen
    ensures Sections(Put(SITUATIONS, "situations", at), seen, c) ==
            Sections(rest, seen + {SITUATIONS}, c.(situations := xs))
  {
    SituationsAt(Put(SITUATIONS, "situations", at), seen, c, xs, rest);
    SectionStep(Put(SITUATIONS, "situations", at), seen, c, c.(situations := xs), rest);
  }

  lemma SituationsSection(c: Charter, xs: seq<Situation>, seen: set<Kind>, rest: Toks)
    requires c.situations == [] && SITUATIONS !in seen
    requires forall i :: 0 <= i < |xs| ==> WfSituation(xs[i])
    ensures Sections(PrintSection(Token(SITUATIONS, "situations"), PrintSituation, xs, rest), seen, c) ==
            Sections(rest, SeenIf(SITUATIONS, xs != [], seen), c.(situations := xs))
  {
    if xs != [] {
      SituationsBlock(xs, rest);
      EnterSituations(PrintBlock(PrintSituation, xs, rest), seen, c, xs, rest);
    }
  }

  lemma RolesBlock(xs: seq<Role>, rest: Toks)
    ensures Block(AddRole, false, PrintBlock(PrintRole, xs, rest), []) == Ok(xs, rest)
  {
    forall k, r | 0 <= k < |xs| ensures Appends(AddRole, Itself(), PrintRole(xs[k], r), xs[k], r) {
      RoleRoundTrip(xs[k], r);
      CollectsRole(PrintRole(xs[k], r), xs[k], r);
    }
    BlockRoundTrip(AddRole, false, PrintRole, xs, rest);
  }

  lemma RolesAt(at: Toks, seen: set<Kind>, c: Charter, xs: seq<Role>, rest: Toks)
    requires at.Kind() == ROLES && Block(AddRole, false, at.Rest(), []) == Ok(xs, rest) && ROLES !in seen
    ensures Section(at, seen, c) == Ok(c.(roles := xs), rest)
  {
  }

  lemma EnterRoles(at: Toks, seen: set<Kind>, c: Charter, xs: seq<Role>, rest: Toks)
    requires Block(AddRole, false, at, []) == Ok(xs, rest) && ROLES !in seen
    ensures Sections(Put(ROLES, "roles", at), seen, c) == Sections(rest, seen + {ROLES}, c.(roles := xs))
  {
    RolesAt(Put(ROLES, "roles", at), seen, c, xs, rest);
    SectionStep(Put(ROLES, "roles", at), seen, c, c.(roles := xs), rest);
  }

  lemma RolesSection(c: Charter, xs: seq<Role>, seen: set<Kind>, rest: Toks)
    requires c.roles == [] && ROLES !in seen
    ensures Sections(PrintSection(Token(ROLES, "roles"), PrintRole, xs, rest), seen, c) ==
            Sections(rest, SeenIf(ROLES, xs != [], seen), c.(roles := xs))
  {
    if xs != [] {
      RolesBlock(xs, rest);
      EnterRoles(PrintBlock(PrintRole, xs, rest), seen, c, xs, rest);
    }
  }

  function WithWorkflows(c: Charter): seq<Workflow> -> Charter {
    (acc: seq<Workflow>) => c.(workflows := acc)
  }

  lemma WorkflowSections(c: Charter, xs: seq<Workflow>, seen: set<Kind>, rest: Toks)
    requires WORKFLOW !in seen && c.workflows == [] && forall i :: 0 <= i < |xs| ==> WfWorkflow(xs[i])
    ensures Sections(All(PrintWorkflow, xs, rest), seen, c) == Sections(rest, seen, c.(workflows := xs))
  {
    var read := (ts: Toks, c: Charter) => Sections(ts, seen, c);
    forall k, r, sofar | 0 <= k < |xs| ensures Moves(read, WithWorkflows(c), PrintWorkflow(xs[k], r), sofar, xs[k], r) {
      OneWorkflow(c.(workflows := sofar), xs[k], seen, r);
    }
    Fills(read, PrintWorkflow, WithWorkflows(c), xs, [], rest);
    assert [] + xs == xs;
  }

  lemma OneWorkflow(c: Charter, w: Workflow, seen: set<Kind>, rest: Toks)
    requires WORKFLOW !in seen && WfWorkflow(w)
    ensures Sections(PrintWorkflow(w, rest), seen, c) == Sections(rest, seen, c.(workflows := c.workflows + [w]))
  {
    WorkflowRoundTrip(w, rest);
    EnterWorkflow(PrintWorkflow(w, rest), seen, c, w, rest);
  }

  lemma EnterWorkflow(at: Toks, seen: set<Kind>, c: Charter, w: Workflow, rest: Toks)
    requires at.Kind() == WORKFLOW && WORKFLOW !in seen && WorkflowDecl(at) == Ok(w, rest)
    ensures Sections(at, seen, c) == Sections(rest, seen, c.(workflows := c.workflows + [w]))
  {
    assert Section(at, seen, c) == Ok(c.(workflows := c.workflows + [w]), rest);
    SectionStep(at, seen, c, c.(workflows := c.workflows + [w]), rest);
  }

  // ------------------------------------------------------------------ charters

  /** The version before its first dot as an identifier, the rest as a number. */
  function PrintVersion(v: string, rest: Toks): Toks {
    var parts := Split(v);
    if |parts| == 1 then Name(v, rest) else Name(parts[0], Put(DOT, ".", Put(INT, Join(parts[1..]), rest)))
  }

  lemma VersionRoundTrip(v: string, rest: Toks)
    requires rest.Kind() != DOT
    ensures Version(PrintVersion(v, rest)) == Ok(v, rest)
  {
    JoinSplit(v);
    var parts := Split(v);
    if |parts| > 1 {
      assert Version(Name(parts[0], Put(DOT, ".", Put(INT, Join(parts[1..]), rest)))) ==
        Ok(parts[0] + "." + Join(parts[1..]), rest);
    }
  }

  function PrintHeader(name: string, version: string, rest: Toks): Toks {
    Put(CHARTER, "charter", Put(STRING, name, PrintVersion(version, Line(rest))))
  }

  lemma HeaderOf(name: string, at: Toks, version: string, rest: Toks)
    requires Version(at) == Ok(version, rest)
    ensures Header(Put(CHARTER, "charter", Put(STRING, name, at))) == Ok((name, version), rest)
  {
  }

  function PrintLists(c: Charter, rest: Toks): Toks {
    PrintSection(Token(SCHEMAS, "schemas"), PrintSchema, c.schemas,
      PrintSection(Token(PACKAGES, "packages"), PrintPackage, c.packages,
        PrintSection(Token(POLICIES, "policies"), PrintPolicy, c.policies,
          PrintSection(Token(TRIGGERS, "triggers"), PrintTrigger, c.triggers, rest))))
  }

  function PrintBlocks(c: Charter): Toks {
    All(PrintWorkflow, c.workflows, PrintSection(Token(SITUATIONS, "situations"), PrintSituation, c.situations,
      PrintSection(Token(ROLES, "roles"), PrintRole, c.roles, Put(EOF, "", End))))
  }

  /** The whole charter, ended by EOF. */
  function Print(c: Charter): Toks {
    PrintHeader(c.name, c.version, PrintLists(c, PrintBlocks(c)))
  }

  function ListsOf(c: Charter): Charter {
    Charter(c.name, c.version, c.schemas, c.packages, c.policies, c.triggers, [], [], [])
  }

  function ListsSeen(c: Charter): set<Kind> {
    SeenIf(TRIGGERS, c.triggers != [], SeenIf(POLICIES, c.policies != [],
      SeenIf(PACKAGES, c.packages != [], SeenIf(SCHEMAS, c.schemas != [], {}))))
  }

  lemma ListsRoundTrip(c: Charter, rest: Toks)
    ensures Sections(PrintLists(c, rest), {}, NewCharter(c.name, c.version)) == Sections(rest, ListsSeen(c), ListsOf(c))
  {
    var c0 := NewCharter(c.name, c.version);
    var c2 := c0.(schemas := c.schemas, packages := c.packages);
    var s2 := SeenIf(PACKAGES, c.packages != [], SeenIf(SCHEMAS, c.schemas != [], {}));
    var t3 := PrintSection(Token(POLICIES, "policies"), PrintPolicy, c.policies,
                           PrintSection(Token(TRIGGERS, "triggers"), PrintTrigger, c.triggers, rest));
    LastLists(c2, s2, c.policies, c.triggers, rest);
    ThenLists(c0, {}, c.schemas, c.packages, t3, s2, c2, Sections(rest, ListsSeen(c), ListsOf(c)));
  }

  lemma ThenLists(c: Charter, seen: set<Kind>, schemas: seq<SchemaRef>, packages: seq<string>, lists: Toks,
                  seen': set<Kind>, c': Charter, r: Parse<Charter>)
    requires c.schemas == [] && c.packages == [] && SCHEMAS !in seen && PACKAGES !in seen
    requires seen' == SeenIf(PACKAGES, packages != [], SeenIf(SCHEMAS, schemas != [], seen))
    requires c' == c.(schemas := schemas, packages := packages) && Sections(lists, seen', c') == r
    ensures Sections(PrintSection(Token(SCHEMAS, "schemas"), PrintSchema, schemas,
                                  PrintSection(Token(PACKAGES, "packages"), PrintPackage, packages, lists)), seen, c) ==
            r
  {
    FirstLists(c, seen, schemas, packages, lists);
  }

  lemma FirstLists(c: Charter, seen: set<Kind>, schemas: seq<SchemaRef>, packages: seq<string>, rest: Toks)
    requires c.schemas == [] && c.packages == [] && SCHEMAS !in seen && PACKAGES !in seen
    ensures Sections(PrintSection(Token(SCHEMAS, "schemas"), PrintSchema, schemas,
                                  PrintSection(Token(PACKAGES, "packages"), PrintPackage, packages, rest)), seen, c) ==
            Sections(rest, SeenIf(PACKAGES, packages != [], SeenIf(SCHEMAS, schemas != [], seen)),
                     c.(schemas := schemas, packages := packages))
  {
    SchemasSection(c, schemas, seen, PrintSection(Token(PACKAGES, "packages"), PrintPackage, packages, rest));
    PackagesSection(c.(schemas := schemas), packages, SeenIf(SCHEMAS, schemas != [], seen), rest);
  }

  lemma LastLists(c: Charter, seen: set<Kind>, policies: seq<string>, triggers: seq<string>, rest: Toks)
    requires c.policies == [] && c.triggers == [] && POLICIES !in seen && TRIGGERS !in seen
    ensures Sections(PrintSection(Token(POLICIES, "policies"), PrintPolicy, policies,
                                  PrintSection(Token(TRIGGERS, "triggers"), PrintTrigger, triggers, rest)), seen, c) ==
            Sections(rest, SeenIf(TRIGGERS, triggers != [], SeenIf(POLICIES, policies != [], seen)),
                     c.(policies := policies, triggers := triggers))
  {
    PoliciesSection(c, policies, seen, PrintSection(Token(TRIGGERS, "triggers"), PrintTrigger, triggers, rest));
    TriggersSection(c.(policies := policies), triggers, SeenIf(POLICIES, policies != [], seen), rest);
  }

  lemma SectionsEnd(seen: set<Kind>, c: Charter)
    ensures Sections(Put(EOF, "", End), seen, c) == Ok(c, Put(EOF, "", End))
  {
  }

  lemma LastRoles(c: Charter, seen: set<Kind>, roles: seq<Role>)
    requires ROLES !in seen && c.roles == []
    ensures Sections(PrintSection(Token(ROLES, "roles"), PrintRole, roles, Put(EOF, "", End)), seen, c) ==
            Ok(c.(roles := roles), Put(EOF, "", End))
  {
    RolesSection(c, roles, seen, Put(EOF, "", End));
    SectionsEnd(SeenIf(ROLES, roles != [], seen), c.(roles := roles));
  }

  lemma LastSections(c: Charter, seen: set<Kind>, situations: seq<Situation>, roles: seq<Role>)
    requires SITUATIONS !in seen && ROLES !in seen && c.situations == [] && c.roles == []
    requires forall i :: 0 <= i < |situations| ==> WfSituation(situations[i])
    ensures Sections(PrintSection(Token(SITUATIONS, "situations"), PrintSituation, situations,
                                  PrintSection(Token(ROLES, "roles"), PrintRole, roles, Put(EOF, "", End))), seen, c) ==
            Ok(c.(situations := situations, roles := roles), Put(EOF, "", End))
  {
    SituationsSection(c, situations, seen, PrintSection(Token(ROLES, "roles"), PrintRole, roles, Put(EOF, "", End)));
    LastRoles(c.(situations := situations), SeenIf(SITUATIONS, situations != [], seen), roles);
  }

  lemma ThenLast(c0: Charter, xs: seq<Workflow>, seen: set<Kind>, last: Toks, r: Parse<Charter>)
    requires WORKFLOW !in seen && c0.workflows == [] && forall i :: 0 <= i < |xs| ==> WfWorkflow(xs[i])
    requires Sections(last, seen, c0.(workflows := xs)) == r
    ensures Sections(All(PrintWorkflow, xs, last), seen, c0) == r
  {
    WorkflowSections(c0, xs, seen, last);
  }

  lemma BlocksRoundTrip(c0: Charter, seen: set<Kind>, c: Charter)
    requires WfCharter(c) && c0 == c.(workflows := [], situations := [], roles := [])
    requires WORKFLOW !in seen && SITUATIONS !in seen && ROLES !in seen
    ensures Sections(PrintBlocks(c), seen, c0) == Ok(c, Put(EOF, "", End))
  {
    LastSections(c0.(workflows := c.workflows), seen, c.situations, c.roles);
    ThenLast(c0, c.workflows, seen,
             PrintSection(Token(SITUATIONS, "situations"), PrintSituation, c.situations,
                          PrintSection(Token(ROLES, "roles"), PrintRole, c.roles, Put(EOF, "", End))),
             Ok(c, Put(EOF, "", End)));
  }

  lemma HeaderRoundTrip(name: string, version: string, body: Toks)
    ensures CharterText(PrintHeader(name, version, body)) == Sections(body, {}, NewCharter(name, version))
  {
    VersionRoundTrip(version, Line(body));
    HeaderOf(name, PrintVersion(version, Line(body)), version, Line(body));
    CharterOf(PrintHeader(name, version, body), name, version, body);
  }

  lemma ThenBlocks(c: Charter, blocks: Toks, r: Parse<Charter>)
    requires Sections(blocks, ListsSeen(c), ListsOf(c)) == r
    ensures Sections(PrintLists(c, blocks), {}, NewCharter(c.name, c.version)) == r
  {
    ListsRoundTrip(c, blocks);
  }

  lemma SectionsRoundTrip(c: Charter)
    requires WfCharter(c)
    ensures Sections(PrintLists(c, PrintBlocks(c)), {}, NewCharter(c.name, c.version)) == Ok(c, Put(EOF, "", End))
  {
    BlocksRoundTrip(ListsOf(c), ListsSeen(c), c);
    ThenBlocks(c, PrintBlocks(c), Ok(c, Put(EOF, "", End)));
  }

  /** The round trip: parsing the canonical printing of a well-formed charter gives the charter back. */
  lemma RoundTrip(c: Charter)
    requires WfCharter(c)
    ensures CharterText(Print(c)) == Ok(c, Put(EOF, "", End))
  {
    SectionsRoundTrip(c);
    HeaderRoundTrip(c.name, c.version, PrintLists(c, PrintBlocks(c)));
  }

  lemma CharterOf(at: Toks, name: string, version: string, body: Toks)
    requires at.Kind() != NEWLINE && Header(at) == Ok((name, version), Line(body))
    ensures CharterText(at) == Sections(body, {}, NewCharter(name, version))
  {
    var next := SkipNewlines(Line(body));
    assert next == SkipNewlines(body) && SkipNewlines(next) == next;
    assert Sections(next, {}, NewCharter(name, version)) == Sections(body, {}, NewCharter(name, version));
  }

  /** Whatever was parsed, printing and parsing it again gives the same charter. */
  lemma ParsePrintParse(ts: Toks)
    requires CharterText(ts).Ok?
    ensures CharterText(Print(CharterText(ts).value)) == Ok(CharterText(ts).value, Put(EOF, "", End))
  {
    RoundTrip(CharterText(ts).value);
  }
}
