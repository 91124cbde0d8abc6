/**
 * The charter language as a relation between token lists and what they mean, and the proof that the
 * grammar computes it: a charter is parsed from a list exactly when the list is a way of writing it.
 */
module CharterSyntax {
  import opened Options
  import opened CharterAst
  import opened Tokens
  import opened Grammar

  // ------------------------------------------------------------------ tokens, names and values

  /** The list starts with a token of the kind. */
  ghost predicate Is(k: Kind, ts: Toks, text: string, rest: Toks) {
    ts == Tok(Token(k, text), rest)
  }

  /** A keyword, whatever its spelling, and something after it. */
  ghost predicate After(k: Kind, ts: Toks, rest: Toks) {
    ts.Tok? && ts.head.kind == k && ts.tail == rest
  }

  /** Dots and identifiers in turn. */
  ghost predicate Parts(ts: Toks, parts: seq<string>, rest: Toks)
    decreases parts
  {
    if parts == [] then ts == rest && rest.Kind() != DOT
    else ts.Tok? && ts.head.kind == DOT && ts.tail.Tok? && ts.tail.head == Token(IDENT, parts[0]) &&
         Parts(ts.tail.tail, parts[1..], rest)
  }

  /** Identifiers with dots between them. */
  ghost predicate Dotted(ts: Toks, name: string, rest: Toks) {
    exists parts: seq<string> :: parts != [] && name == Join(parts) && DottedAs(ts, parts, rest)
  }

  ghost predicate DottedAs(ts: Toks, parts: seq<string>, rest: Toks)
    requires parts != []
  {
    ts.Tok? && ts.head == Token(IDENT, parts[0]) && Parts(ts.tail, parts[1..], rest)
  }

  ghost predicate PartsAfter(ts: Toks, done: seq<string>, name: string, rest: Toks) {
    exists more: seq<string> :: name == Join(done + more) && Parts(ts, more, rest)
  }

  lemma PartsEnd(ts: Toks, done: seq<string>, name: string, rest: Toks)
    requires ts.Kind() != DOT
    ensures PartsAfter(ts, done, name, rest) <==> name == Join(done) && rest == ts
  {
    if name == Join(done) && rest == ts {
      assert done + [] == done && Parts(ts, [], rest);
    }
    if PartsAfter(ts, done, name, rest) {
      var more: seq<string> :| name == Join(done + more) && Parts(ts, more, rest);
      assert more == [] && done + [] == done;
    }
  }

  /** One more dot and identifier. */
  lemma PartsMore(ts: Toks, x: string, at: Toks, done: seq<string>, name: string, rest: Toks)
    requires ts.Kind() == DOT && Is(IDENT, ts.tail, x, at)
    ensures PartsAfter(ts, done, name, rest) <==> PartsAfter(at, done + [x], name, rest)
  {
    if PartsAfter(at, done + [x], name, rest) {
      var more: seq<string> :| name == Join(done + [x] + more) && Parts(at, more, rest);
      assert done + [x] + more == done + ([x] + more) && ([x] + more)[1..] == more;
      assert Parts(ts, [x] + more, rest);
    }
    if PartsAfter(ts, done, name, rest) {
      var more: seq<string> :| name == Join(done + more) && Parts(ts, more, rest);
      assert more == [x] + more[1..] && done + more == done + [x] + more[1..];
    }
  }

  lemma {:induction false} PartsIs(ts: Toks, done: seq<string>, name: string, rest: Toks)
    ensures DottedRest(ts, done) == Ok(name, rest) <==> PartsAfter(ts, done, name, rest)
    decreases Len(ts)
  {
    if ts.Kind() != DOT {
      PartsEnd(ts, done, name, rest);
    } else if Expect(IDENT, ts.Rest()).Ok? {
      var x, at := ts.tail.head.text, ts.tail.tail;
      PartsMore(ts, x, at, done, name, rest);
      PartsIs(at, done + [x], name, rest);
    }
  }

  lemma DottedTakes(ts: Toks, name: string, rest: Toks)
    requires DottedName(ts) == Ok(name, rest)
    ensures Dotted(ts, name, rest)
  {
    var x := ts.head.text;
    PartsIs(ts.tail, [x], name, rest);
    var more: seq<string> :| name == Join([x] + more) && Parts(ts.tail, more, rest);
    assert ([x] + more)[1..] == more && DottedAs(ts, [x] + more, rest);
  }

  lemma DottedReads(ts: Toks, parts: seq<string>, rest: Toks)
    requires parts != [] && DottedAs(ts, parts, rest)
    ensures DottedName(ts) == Ok(Join(parts), rest)
  {
    assert parts == [parts[0]] + parts[1..];
    PartsIs(ts.tail, [parts[0]], Join(parts), rest);
  }

  lemma DottedIs(ts: Toks, name: string, rest: Toks)
    ensures DottedName(ts) == Ok(name, rest) <==> Dotted(ts, name, rest)
  {
    if DottedName(ts) == Ok(name, rest) {
      DottedTakes(ts, name, rest);
    }
    if Dotted(ts, name, rest) {
      var parts: seq<string> :| parts != [] && name == Join(parts) && DottedAs(ts, parts, rest);
      DottedReads(ts, parts, rest);
    }
  }

  /** An integer literal: digits. */
  ghost predicate Number(ts: Toks, n: int, rest: Toks) {
    After(INT, ts, rest) && IsNumeral(ts.head.text) && n == NumeralValue(ts.head.text)
  }

  lemma NumberIs(ts: Toks, n: int, rest: Toks)
    ensures Integer(ts) == Ok(n, rest) <==> Number(ts, n, rest)
  {
  }

  /** A literal of the right kind; a bare identifier is a string as well. */
  ghost predicate Literal(ts: Toks, v: Value, rest: Toks) {
    ts.Tok? && ts.tail == rest &&
    match v
    case StrValue(text) => (ts.head.kind == STRING || ts.head.kind == IDENT) && ts.head.text == text
    case IntValue(n) => Number(ts, n, rest)
    case FloatValue(text) => ts.head == Token(FLOAT, text)
    case BoolValue(flag) => ts.head.kind == if flag then TRUE else FALSE
  }

  lemma LiteralIs(ts: Toks, v: Value, rest: Toks)
    ensures ArgValue(ts) == Ok(v, rest) <==> Literal(ts, v, rest)
  {
    if ts.Kind() == INT {
      if v.IntValue? {
        NumberIs(ts, v.number, rest);
      }
      if Integer(ts).Ok? {
        NumberIs(ts, Integer(ts).value, Integer(ts).rest);
      }
    }
  }

  /** A value, or a name, EQ and a value; an identifier before EQ is always a name. */
  ghost predicate Argument(ts: Toks, a: Arg, rest: Toks) {
    if a.name.Some? then
      ts.Tok? && ts.head == Token(IDENT, a.name.value) && ts.tail.Tok? && ts.tail.head.kind == EQ &&
      Literal(ts.tail.tail, a.value, rest)
    else Literal(ts, a.value, rest) && !(ts.head.kind == IDENT && rest.Kind() == EQ)
  }

  lemma ArgumentIs(ts: Toks, a: Arg, rest: Toks)
    ensures OneArg(ts) == Ok(a, rest) <==> Argument(ts, a, rest)
  {
    LiteralIs(ts, a.value, rest);
    LiteralIs(ts.Rest().Rest(), a.value, rest);
  }

  // ------------------------------------------------------------------ lists

  /** The comma before every element but the first. */
  ghost predicate Comma(first: bool, ts: Toks, at: Toks) {
    if first then ts == at else After(COMMA, ts, at)
  }

  ghost predicate OneMore<T(!new)>(one: (Toks, T, Toks) -> bool, close: Kind, first: bool, ts: Toks, x: T, at: Toks,
                                   mid: Toks) {
    ts.Kind() != close && ts.Kind() != EOF && Comma(first, ts, at) && one(at, x, mid)
  }

  /** Elements with commas between them, up to the closing bracket. */
  ghost predicate Elements<T(!new)>(one: (Toks, T, Toks) -> bool, close: Kind, first: bool, ts: Toks, xs: seq<T>,
                                    rest: Toks)
    decreases xs
  {
    if xs == [] then After(close, ts, rest)
    else exists at, mid ::
         OneMore(one, close, first, ts, xs[0], at, mid) && Elements(one, close, false, mid, xs[1..], rest)
  }

  /** The element parser appends exactly the elements of the relation. */
  ghost predicate Gathers<T(!new)>(element: (Toks, seq<T>) -> Parse<seq<T>>, one: (Toks, T, Toks) -> bool) {
    forall ts, acc, r :: GathersAt(element, one, ts, acc, r)
  }

  ghost predicate GathersAt<T(!new)>(element: (Toks, seq<T>) -> Parse<seq<T>>, one: (Toks, T, Toks) -> bool, ts: Toks,
                                     acc: seq<T>, r: Parse<seq<T>>) {
    r.Ok? ==> (element(ts, acc) == r <==> exists x :: r.value == acc + [x] && one(ts, x, r.rest))
  }

  ghost predicate ElementsAfter<T(!new)>(one: (Toks, T, Toks) -> bool, close: Kind, ts: Toks, acc: seq<T>, all: seq<T>,
                                         rest: Toks) {
    exists xs: seq<T> :: all == acc + xs && Elements(one, close, acc == [], ts, xs, rest)
  }

  /** A list read to its end is one element and the rest of the list. */
  lemma ElementsHead<T(!new)>(one: (Toks, T, Toks) -> bool, close: Kind, first: bool, ts: Toks, x: T, at: Toks,
                              mid: Toks, xs: seq<T>, rest: Toks)
    requires OneMore(one, close, first, ts, x, at, mid) && Elements(one, close, false, mid, xs, rest)
    ensures Elements(one, close, first, ts, [x] + xs, rest)
  {
    var ys := [x] + xs;
    assert ys[0] == x && ys[1..] == xs;
  }

  lemma ElementsStep<T(!new)>(one: (Toks, T, Toks) -> bool, close: Kind, ts: Toks, acc: seq<T>, all: seq<T>, x: T,
                              at: Toks, mid: Toks, rest: Toks)
    requires OneMore(one, close, acc == [], ts, x, at, mid) && ElementsAfter(one, close, mid, acc + [x], all, rest)
    ensures ElementsAfter(one, close, ts, acc, all, rest)
  {
    var xs: seq<T> :| all == acc + [x] + xs && Elements(one, close, false, mid, xs, rest);
    ElementsHead(one, close, acc == [], ts, x, at, mid, xs, rest);
    assert acc + [x] + xs == acc + ([x] + xs);
  }

  lemma ElementsTail<T(!new)>(one: (Toks, T, Toks) -> bool, close: Kind, first: bool, ts: Toks, xs: seq<T>, rest: Toks)
    returns (at: Toks, mid: Toks)
    requires Elements(one, close, first, ts, xs, rest) && ts.Kind() != close
    ensures xs != [] && OneMore(one, close, first, ts, xs[0], at, mid)
    ensures Elements(one, close, false, mid, xs[1..], rest)
  {
    at, mid :| OneMore(one, close, first, ts, xs[0], at, mid) && Elements(one, close, false, mid, xs[1..], rest);
  }

  lemma ElementsSplit<T(!new)>(one: (Toks, T, Toks) -> bool, close: Kind, ts: Toks, acc: seq<T>, all: seq<T>,
                               rest: Toks)
    returns (x: T, at: Toks, mid: Toks)
    requires ElementsAfter(one, close, ts, acc, all, rest) && ts.Kind() != close
    ensures OneMore(one, close, acc == [], ts, x, at, mid) && ElementsAfter(one, close, mid, acc + [x], all, rest)
  {
    var xs: seq<T> :| all == acc + xs && Elements(one, close, acc == [], ts, xs, rest);
    at, mid := ElementsTail(one, close, acc == [], ts, xs, rest);
    x := xs[0];
    assert acc + [x] + xs[1..] == acc + xs;
  }

  lemma ElementsEnd<T(!new)>(one: (Toks, T, Toks) -> bool, close: Kind, ts: Toks, acc: seq<T>, all: seq<T>, rest: Toks)
    requires ts.Kind() == close || ts.Kind() == EOF
    ensures ElementsAfter(one, close, ts, acc, all, rest) <==> all == acc && After(close, ts, rest)
  {
    if all == acc && After(close, ts, rest) {
      assert acc + [] == acc && Elements(one, close, acc == [], ts, [], rest);
    }
    if ElementsAfter(one, close, ts, acc, all, rest) {
      var xs: seq<T> :| all == acc + xs && Elements(one, close, acc == [], ts, xs, rest);
      assert xs == [];
    }
  }

  lemma {:induction false} ListedIs<T(!new)>(element: (Toks, seq<T>) -> Parse<seq<T>>, one: (Toks, T, Toks) -> bool,
                                            close: Kind, ts: Toks, acc: seq<T>, all: seq<T>, rest: Toks)
    requires Consumes(element) && Gathers(element, one) && close != EOF
    ensures Listed(element, close, ts, acc) == Ok(all, rest) <==> ElementsAfter(one, close, ts, acc, all, rest)
    decreases Len(ts)
  {
    if ts.Kind() == close || ts.Kind() == EOF {
      ElementsEnd(one, close, ts, acc, all, rest);
    } else {
      ListedStep(element, one, close, ts, acc, all, rest);
    }
  }

  lemma ListedMore<T(!new)>(element: (Toks, seq<T>) -> Parse<seq<T>>, close: Kind, ts: Toks, acc: seq<T>, at: Toks,
                            acc': seq<T>, mid: Toks)
    requires Consumes(element) && ts.Kind() != close && ts.Kind() != EOF && Comma(acc == [], ts, at)
    requires element(at, acc) == Ok(acc', mid)
    ensures Len(mid) < Len(ts) && Listed(element, close, ts, acc) == Listed(element, close, mid, acc')
  {
    assert Shorter(element(at, acc), at);
  }

  lemma {:induction false} ListedStep<T(!new)>(element: (Toks, seq<T>) -> Parse<seq<T>>, one: (Toks, T, Toks) -> bool,
                                              close: Kind, ts: Toks, acc: seq<T>, all: seq<T>, rest: Toks)
    requires Consumes(element) && Gathers(element, one) && close != EOF && ts.Kind() != close && ts.Kind() != EOF
    ensures Listed(element, close, ts, acc) == Ok(all, rest) <==> ElementsAfter(one, close, ts, acc, all, rest)
    decreases Len(ts), 0
  {
    if Listed(element, close, ts, acc) == Ok(all, rest) {
      var at := Separator(acc == [], ts).rest;
      var r := element(at, acc);
      assert GathersAt(element, one, at, acc, r);
      var x :| r.value == acc + [x] && one(at, x, r.rest);
      ListedMore(element, close, ts, acc, at, r.value, r.rest);
      ListedIs(element, one, close, r.rest, r.value, all, rest);
      ElementsStep(one, close, ts, acc, all, x, at, r.rest, rest);
    }
    if ElementsAfter(one, close, ts, acc, all, rest) {
      var x, at, mid := ElementsSplit(one, close, ts, acc, all, rest);
      assert GathersAt(element, one, at, acc, Ok(acc + [x], mid));
      ListedMore(element, close, ts, acc, at, acc + [x], mid);
      ListedIs(element, one, close, mid, acc + [x], all, rest);
    }
  }

  /** A bracketed list. */
  ghost predicate Bracketed<T(!new)>(open: Kind, one: (Toks, T, Toks) -> bool, close: Kind, ts: Toks, xs: seq<T>,
                                     rest: Toks) {
    ts.Tok? && ts.head.kind == open && Elements(one, close, true, ts.tail, xs, rest)
  }

  lemma BracketedIs<T(!new)>(element: (Toks, seq<T>) -> Parse<seq<T>>, one: (Toks, T, Toks) -> bool, close: Kind,
                             ts: Toks, xs: seq<T>, rest: Toks)
    requires Consumes(element) && Gathers(element, one) && close != EOF
    ensures Listed(element, close, ts, []) == Ok(xs, rest) <==> Elements(one, close, true, ts, xs, rest)
  {
    ListedIs(element, one, close, ts, [], xs, rest);
    assert [] + xs == xs;
    if ElementsAfter(one, close, ts, [], xs, rest) {
      var ys: seq<T> :| xs == [] + ys && Elements(one, close, true, ts, ys, rest);
      assert ys == xs;
    }
  }

  lemma AddArgGathers()
    ensures Consumes(AddArg) && Gathers(AddArg, Argument)
  {
    forall ts, acc, r ensures GathersAt(AddArg, Argument, ts, acc, r) {
      if r.Ok? {
        if AddArg(ts, acc) == r {
          ArgumentIs(ts, OneArg(ts).value, OneArg(ts).rest);
        }
        forall x | r.value == acc + [x] && Argument(ts, x, r.rest) ensures AddArg(ts, acc) == r {
          ArgumentIs(ts, x, r.rest);
        }
      }
    }
  }

  ghost predicate Ident(ts: Toks, x: string, rest: Toks) {
    Is(IDENT, ts, x, rest)
  }

  lemma AddIdentGathers()
    ensures Consumes(AddIdent) && Gathers(AddIdent, Ident)
  {
    forall ts, acc, r ensures GathersAt(AddIdent, Ident, ts, acc, r) {
      if r.Ok? {
        if AddIdent(ts, acc) == r {
          assert Ident(ts, ts.head.text, r.rest);
        }
      }
    }
  }

  /** Arguments between parentheses. */
  ghost predicate Arguments(ts: Toks, args: seq<Arg>, rest: Toks) {
    Bracketed(LPAREN, Argument, RPAREN, ts, args, rest)
  }

  lemma ArgumentsIs(ts: Toks, args: seq<Arg>, rest: Toks)
    ensures Args(ts) == Ok(args, rest) <==> Arguments(ts, args, rest)
  {
    AddArgGathers();
    if Expect(LPAREN, ts).Ok? {
      BracketedIs(AddArg, Argument, RPAREN, ts.tail, args, rest);
    }
  }

  /** Identifiers between brackets. */
  ghost predicate Identifiers(ts: Toks, xs: seq<string>, rest: Toks) {
    Bracketed(LBRACKET, Ident, RBRACKET, ts, xs, rest)
  }

  lemma IdentifiersIs(ts: Toks, xs: seq<string>, rest: Toks)
    ensures Idents(ts) == Ok(xs, rest) <==> Identifiers(ts, xs, rest)
  {
    AddIdentGathers();
    if Expect(LBRACKET, ts).Ok? {
      BracketedIs(AddIdent, Ident, RBRACKET, ts.tail, xs, rest);
    }
  }

  /** A name and its arguments. */
  ghost predicate Invocation(ts: Toks, c: FeatureCall, rest: Toks) {
    ts.Tok? && ts.head == Token(IDENT, c.name) && Arguments(ts.tail, c.args, rest)
  }

  lemma InvocationIs(ts: Toks, c: FeatureCall, rest: Toks)
    ensures Call(ts) == Ok(c, rest) <==> Invocation(ts, c, rest)
  {
    if Expect(IDENT, ts).Ok? {
      ArgumentsIs(ts.tail, c.args, rest);
    }
  }

  // ------------------------------------------------------------------ statements of one line

  ghost predicate Referred(ts: Toks, r: Require, rest: Toks) {
    match r
    case AwaitRef(trigger) => ts.Tok? && ts.head.kind == AWAIT && Is(IDENT, ts.tail, trigger, rest)
    case FeatureRef(call) => Invocation(ts, call, rest)
    case PhaseRef(phase, condition) =>
      && ts.Tok? && ts.head == Token(IDENT, phase) && ts.tail.Kind() == DOT && ts.tail.tail.Tok?
      && ts.tail.tail.tail == rest && ConditionToken(ts.tail.tail.head, condition)
    case BuiltinRef(name) => Is(IDENT, ts, name, rest) && rest.Kind() != LPAREN && rest.Kind() != DOT
  }

  ghost predicate ConditionToken(t: Token, condition: string) {
    || (t.kind == PASSED && condition == "passed")
    || (t.kind == COMPLETE && condition == "complete")
    || (t.kind == IDENT && condition == t.text)
  }

  lemma ReferredCall(ts: Toks, call: FeatureCall, rest: Toks)
    ensures Reference(ts) == Ok(FeatureRef(call), rest) <==> Invocation(ts, call, rest)
  {
    if Expect(IDENT, ts).Ok? {
      ArgumentsIs(ts.tail, call.args, rest);
    }
  }

  lemma ReferredPhase(ts: Toks, phase: string, condition: string, rest: Toks)
    ensures Reference(ts) == Ok(PhaseRef(phase, condition), rest) <==> Referred(ts, PhaseRef(phase, condition), rest)
  {
  }

  lemma ReferredBuiltin(ts: Toks, name: string, rest: Toks)
    ensures Reference(ts) == Ok(BuiltinRef(name), rest) <==> Referred(ts, BuiltinRef(name), rest)
  {
  }

  lemma ReferredIs(ts: Toks, r: Require, rest: Toks)
    requires !r.AwaitRef?
    ensures Reference(ts) == Ok(r, rest) <==> Referred(ts, r, rest)
  {
    match r
    case FeatureRef(call) => ReferredCall(ts, call, rest);
    case PhaseRef(phase, condition) => ReferredPhase(ts, phase, condition, rest);
    case BuiltinRef(name) => ReferredBuiltin(ts, name, rest);
  }

  /** A require statement: the keyword and what it refers to. */
  ghost predicate Requirement(ts: Toks, r: Require, rest: Toks) {
    ts.Tok? && ts.head.kind == REQUIRE && Referred(ts.tail, r, rest)
  }

  lemma NeverAwait(ts: Toks)
    ensures Reference(ts).Ok? ==> !Reference(ts).value.AwaitRef?
  {
  }

  lemma RequirementIs(ts: Toks, r: Require, rest: Toks)
    ensures RequireStmt(ts) == Ok(r, rest) <==> Requirement(ts, r, rest)
  {
    if Expect(REQUIRE, ts).Ok? && ts.tail.Kind() != AWAIT {
      NeverAwait(ts.tail);
      if !r.AwaitRef? {
        ReferredIs(ts.tail, r, rest);
      }
    }
  }

  ghost predicate Acting(ts: Toks, c: FeatureCall, rest: Toks) {
    ts.Tok? && ts.head.kind == ACTION && Invocation(ts.tail, c, rest)
  }

  lemma ActingIs(ts: Toks, c: FeatureCall, rest: Toks)
    ensures ActionStmt(ts) == Ok(c, rest) <==> Acting(ts, c, rest)
  {
    if Expect(ACTION, ts).Ok? {
      InvocationIs(ts.tail, c, rest);
    }
  }

  /** A keyword and a name. */
  ghost predicate Keyed(k: Kind, ts: Toks, x: string, rest: Toks) {
    ts.Tok? && ts.head.kind == k && Is(IDENT, ts.tail, x, rest)
  }

  lemma KeyedIs(k: Kind, ts: Toks, x: string, rest: Toks)
    ensures NameStmt(k, ts) == Ok(x, rest) <==> Keyed(k, ts, x, rest)
  {
  }

  ghost predicate Certifying(ts: Toks, q: string, rest: Toks) {
    ts.Tok? && ts.head.kind == CERTIFY && (Is(IMMUTABLE, ts.tail, q, rest) || Is(IDENT, ts.tail, q, rest))
  }

  lemma CertifyingIs(ts: Toks, q: string, rest: Toks)
    ensures CertifyStmt(ts) == Ok(q, rest) <==> Certifying(ts, q, rest)
  {
  }

  /** `for`, minutes and possibly the letter m. */
  ghost predicate Limited(at: Toks, n: int, rest: Toks) {
    at.Tok? && at.head.kind == FOR && at.tail.Tok? &&
    var after := at.tail.tail;
    Number(at.tail, n, after) &&
    if after.Tok? && after.head == Token(IDENT, "m") then rest == after.tail else rest == after
  }

  /** A document type, and possibly a limit. */
  ghost predicate Granting(ts: Toks, g: Grant, rest: Toks) {
    exists at :: Keyed(GRANTS, ts, g.documentType, at) &&
                 if g.ttlMinutes.Some? then Limited(at, g.ttlMinutes.value, rest) else at == rest && rest.Kind() != FOR
  }

  lemma LimitedIs(at: Toks, n: int, rest: Toks)
    ensures Limited(at, n, rest) <==>
            at.Kind() == FOR && Integer(at.Rest()).Ok? && Integer(at.Rest()).value == n &&
            Minutes(Integer(at.Rest()).rest) == rest
  {
    if at.Kind() == FOR && Integer(at.Rest()).Ok? {
      NumberIs(at.tail, Integer(at.tail).value, Integer(at.tail).rest);
    }
    if Limited(at, n, rest) {
      NumberIs(at.tail, n, at.tail.tail);
    }
  }

  lemma GrantingIs(ts: Toks, g: Grant, rest: Toks)
    ensures GrantStmt(ts) == Ok(g, rest) <==> Granting(ts, g, rest)
  {
    var head := NameStmt(GRANTS, ts);
    if head.Ok? {
      KeyedIs(GRANTS, ts, head.value, head.rest);
      if g.ttlMinutes.Some? {
        LimitedIs(head.rest, g.ttlMinutes.value, rest);
      }
    }
    forall at | Keyed(GRANTS, ts, g.documentType, at) ensures head == Ok(g.documentType, at) {
      KeyedIs(GRANTS, ts, g.documentType, at);
    }
  }

  /** A field, a comparator and a value. */
  ghost predicate Compared(ts: Toks, p: Predicate, rest: Toks) {
    exists at :: Dotted(ts, p.field, at) && ComparesWith(at, p, rest)
  }

  ghost predicate ComparesWith(at: Toks, p: Predicate, rest: Toks) {
    at.Tok? && at.head.kind in {EQ, NEQ, GT, GTE, LT, LTE} && at.head.text == p.operator &&
    Literal(at.tail, p.value, rest)
  }

  lemma ComparedIs(ts: Toks, p: Predicate, rest: Toks)
    ensures Comparison(ts) == Ok(p, rest) <==> Compared(ts, p, rest)
  {
    if DottedName(ts).Ok? {
      var at := DottedName(ts).rest;
      DottedIs(ts, DottedName(ts).value, at);
      LiteralIs(at.Rest(), p.value, rest);
      if Comparison(ts) == Ok(p, rest) {
        assert ComparesWith(at, p, rest);
      }
    }
    if Compared(ts, p, rest) {
      var at :| Dotted(ts, p.field, at) && ComparesWith(at, p, rest);
      DottedIs(ts, p.field, at);
      LiteralIs(at.tail, p.value, rest);
    }
  }

  // ------------------------------------------------------------------ blocks

  /** What comes after line ends and, where they are allowed, docstrings. */
  ghost predicate Leads(docs: bool, ts: Toks, at: Toks)
    decreases ts
  {
    if ts.Tok? && (ts.head.kind == NEWLINE || (docs && ts.head.kind == DOCSTRING)) then Leads(docs, ts.tail, at)
    else at == ts
  }

  lemma {:induction false} SkipsIs(ts: Toks, at: Toks)
    ensures SkipNewlines(ts) == at <==> Leads(false, ts, at)
    decreases ts
  {
    if ts.Kind() == NEWLINE {
      SkipsIs(ts.tail, at);
    }
  }

  lemma {:induction false} LeadIs(docs: bool, ts: Toks, at: Toks)
    ensures Lead(docs, ts) == at <==> Leads(docs, ts, at)
    decreases Len(ts)
  {
    if !docs {
      SkipsIs(ts, at);
    } else if ts.Kind() == NEWLINE || ts.Kind() == DOCSTRING {
      LeadIs(docs, ts.tail, at);
    }
  }

  lemma LeadAgain(docs: bool, ts: Toks)
    ensures Lead(docs, SkipNewlines(ts)) == Lead(docs, ts)
  {
  }

  /** A colon, line ends and one step to the right. */
  ghost predicate Opens(ts: Toks, at: Toks) {
    ts.Tok? && ts.head.kind == COLON && exists mid :: Leads(false, ts.tail, mid) && After(INDENT, mid, at)
  }

  lemma OpensIs(ts: Toks, at: Toks)
    ensures (Open(ts).Ok? && Open(ts).rest == at) <==> Opens(ts, at)
  {
    if Expect(COLON, ts).Ok? {
      SkipsIs(ts.tail, SkipNewlines(ts.tail));
      forall mid | Leads(false, ts.tail, mid) ensures mid == SkipNewlines(ts.tail) {
        SkipsIs(ts.tail, mid);
      }
    }
  }

  /** A block ends with a step to the left, or with the list. */
  ghost predicate Closes(at: Toks, rest: Toks) {
    if at.Kind() == DEDENT then rest == at.tail else at.Kind() == EOF && rest == at
  }

  /** Items one after another up to the end of the block. */
  ghost predicate Items<T(!new)>(item: (Toks, T, Toks) -> bool, docs: bool, ts: Toks, xs: seq<T>, rest: Toks)
    decreases xs
  {
    if xs == [] then Closes(Lead(docs, ts), rest)
    else exists mid :: Item(item, Lead(docs, ts), xs[0], mid) && Items(item, docs, mid, xs[1..], rest)
  }

  ghost predicate Item<T(!new)>(item: (Toks, T, Toks) -> bool, at: Toks, x: T, mid: Toks) {
    !AtEnd(at) && item(at, x, mid)
  }

  /** A draft after each item in turn has been worked in, unless one is refused. */
  ghost function Built<S(!new), T(!new)>(apply: (S, T) -> Option<S>, s: S, xs: seq<T>): Option<S> {
    if xs == [] then Some(s)
    else
      var next := apply(s, xs[0]);
      if next.Some? then Built(apply, next.value, xs[1..]) else None
  }

  /** The statement parser reads exactly the items of the relation and works them in. */
  ghost predicate Reads<S(!new), T(!new)>(stmt: (Toks, S) -> Parse<S>, item: (Toks, T, Toks) -> bool,
                                         apply: (S, T) -> Option<S>) {
    forall ts, s, r :: ReadsAt(stmt, item, apply, ts, s, r)
  }

  ghost predicate ReadsAt<S(!new), T(!new)>(stmt: (Toks, S) -> Parse<S>, item: (Toks, T, Toks) -> bool,
                                           apply: (S, T) -> Option<S>, ts: Toks, s: S, r: Parse<S>) {
    r.Ok? ==> (stmt(ts, s) == r <==> exists x :: item(ts, x, r.rest) && apply(s, x) == Some(r.value))
  }

  ghost predicate BuiltFrom<S(!new), T(!new)>(item: (Toks, T, Toks) -> bool, apply: (S, T) -> Option<S>, docs: bool,
                                             ts: Toks, s: S, s': S, rest: Toks) {
    exists xs: seq<T> :: Items(item, docs, ts, xs, rest) && Built(apply, s, xs) == Some(s')
  }

  lemma BuiltStep<S(!new), T(!new)>(item: (Toks, T, Toks) -> bool, apply: (S, T) -> Option<S>, docs: bool, ts: Toks,
                                    s: S, x: T, mid: Toks, s1: S, s': S, rest: Toks)
    requires Item(item, Lead(docs, ts), x, mid) && apply(s, x) == Some(s1)
    requires BuiltFrom(item, apply, docs, mid, s1, s', rest)
    ensures BuiltFrom(item, apply, docs, ts, s, s', rest)
  {
    var xs: seq<T> :| Items(item, docs, mid, xs, rest) && Built(apply, s1, xs) == Some(s');
    var ys := [x] + xs;
    assert ys[0] == x && ys[1..] == xs;
    assert Items(item, docs, ts, ys, rest);
  }

  lemma BuiltSplit<S(!new), T(!new)>(item: (Toks, T, Toks) -> bool, apply: (S, T) -> Option<S>, docs: bool, ts: Toks,
                                     s: S, s': S, rest: Toks)
    returns (x: T, mid: Toks, s1: S)
    requires BuiltFrom(item, apply, docs, ts, s, s', rest) && !AtEnd(Lead(docs, ts))
    ensures Item(item, Lead(docs, ts), x, mid) && apply(s, x) == Some(s1)
    ensures BuiltFrom(item, apply, docs, mid, s1, s', rest)
  {
    var xs: seq<T> :| Items(item, docs, ts, xs, rest) && Built(apply, s, xs) == Some(s');
    x := xs[0];
    mid :| Item(item, Lead(docs, ts), xs[0], mid) && Items(item, docs, mid, xs[1..], rest);
    s1 := apply(s, x).value;
  }

  lemma BuiltEnd<S(!new), T(!new)>(item: (Toks, T, Toks) -> bool, apply: (S, T) -> Option<S>, docs: bool, ts: Toks,
                                   s: S, s': S, rest: Toks)
    requires AtEnd(Lead(docs, ts))
    ensures BuiltFrom(item, apply, docs, ts, s, s', rest) <==> s' == s && rest == Close(Lead(docs, ts))
  {
    if s' == s && rest == Close(Lead(docs, ts)) {
      assert Items(item, docs, ts, [], rest) && Built(apply, s, []) == Some(s');
    }
    if BuiltFrom(item, apply, docs, ts, s, s', rest) {
      var xs: seq<T> :| Items(item, docs, ts, xs, rest) && Built(apply, s, xs) == Some(s');
      assert xs == [];
    }
  }

  lemma {:induction false} BodyIs<S(!new), T(!new)>(stmt: (Toks, S) -> Parse<S>, item: (Toks, T, Toks) -> bool,
                                                   apply: (S, T) -> Option<S>, docs: bool, ts: Toks, s: S, s': S,
                                                   rest: Toks)
    requires Consumes(stmt) && Reads(stmt, item, apply)
    ensures Body(stmt, docs, ts, s) == Ok(s', rest) <==> BuiltFrom(item, apply, docs, ts, s, s', rest)
    decreases Len(ts)
  {
    var at := Lead(docs, ts);
    if AtEnd(at) {
      BuiltEnd(item, apply, docs, ts, s, s', rest);
    } else {
      BodyStepIs(stmt, item, apply, docs, ts, s, s', rest);
    }
  }

  lemma {:induction false} BodyStepIs<S(!new), T(!new)>(stmt: (Toks, S) -> Parse<S>, item: (Toks, T, Toks) -> bool,
                                                       apply: (S, T) -> Option<S>, docs: bool, ts: Toks, s: S, s': S,
                                                       rest: Toks)
    requires Consumes(stmt) && Reads(stmt, item, apply) && !AtEnd(Lead(docs, ts))
    ensures Body(stmt, docs, ts, s) == Ok(s', rest) <==> BuiltFrom(item, apply, docs, ts, s, s', rest)
    decreases Len(ts), 0
  {
    var at := Lead(docs, ts);
    if stmt(at, s).Ok? {
      var r := stmt(at, s);
      assert Shorter(stmt(at, s), at) && ReadsAt(stmt, item, apply, at, s, r);
      var x :| item(at, x, r.rest) && apply(s, x) == Some(r.value);
      BodyIs(stmt, item, apply, docs, r.rest, r.value, s', rest);
      BodyAgain(stmt, docs, r.rest, r.value);
      if Body(stmt, docs, ts, s) == Ok(s', rest) {
        BuiltStep(item, apply, docs, ts, s, x, r.rest, r.value, s', rest);
      }
    }
    if BuiltFrom(item, apply, docs, ts, s, s', rest) {
      var x, mid, s1 := BuiltSplit(item, apply, docs, ts, s, s', rest);
      assert ReadsAt(stmt, item, apply, at, s, Ok(s1, mid));
      assert stmt(at, s) == Ok(s1, mid) && Shorter(stmt(at, s), at);
      BodyIs(stmt, item, apply, docs, mid, s1, s', rest);
      BodyAgain(stmt, docs, mid, s1);
    }
  }

  lemma BodyAgain<S(!new)>(stmt: (Toks, S) -> Parse<S>, docs: bool, ts: Toks, s: S)
    requires Consumes(stmt)
    ensures Body(stmt, docs, SkipNewlines(ts), s) == Body(stmt, docs, ts, s)
  {
    LeadAgain(docs, ts);
  }

  /** A colon and an indented block of items that build something. */
  ghost predicate BlockOf<S(!new), T(!new)>(item: (Toks, T, Toks) -> bool, apply: (S, T) -> Option<S>, docs: bool,
                                           ts: Toks, s: S, s': S, rest: Toks) {
    exists at :: Opens(ts, at) && BuiltFrom(item, apply, docs, at, s, s', rest)
  }

  lemma BlockIs<S(!new), T(!new)>(stmt: (Toks, S) -> Parse<S>, item: (Toks, T, Toks) -> bool,
                                  apply: (S, T) -> Option<S>, docs: bool, ts: Toks, s: S, s': S, rest: Toks)
    requires Consumes(stmt) && Reads(stmt, item, apply)
    ensures Block(stmt, docs, ts, s) == Ok(s', rest) <==> BlockOf(item, apply, docs, ts, s, s', rest)
  {
    if Open(ts).Ok? {
      OpensIs(ts, Open(ts).rest);
      BodyIs(stmt, item, apply, docs, Open(ts).rest, s, s', rest);
    }
    forall at | Opens(ts, at) ensures Open(ts).Ok? && Open(ts).rest == at {
      OpensIs(ts, at);
    }
  }

  /** Collecting: every item goes to the end of a list. */
  ghost function Collect<T(!new)>(acc: seq<T>, x: T): Option<seq<T>> {
    Some(acc + [x])
  }

  lemma {:induction false} Collected<T(!new)>(acc: seq<T>, xs: seq<T>)
    ensures Built(Collect, acc, xs) == Some(acc + xs)
    decreases |xs|
  {
    if xs == [] {
      assert acc + [] == acc;
    } else {
      Collected(acc + [xs[0]], xs[1..]);
      assert acc + [xs[0]] + xs[1..] == acc + xs;
    }
  }

  lemma GathersReads<T(!new)>(add: (Toks, seq<T>) -> Parse<seq<T>>, one: (Toks, T, Toks) -> bool)
    requires Gathers(add, one)
    ensures Reads(add, one, Collect)
  {
    forall ts, acc, r ensures ReadsAt(add, one, Collect, ts, acc, r) {
      assert GathersAt(add, one, ts, acc, r);
    }
  }

  /** A colon and an indented block that lists items. */
  ghost predicate ListBlock<T(!new)>(item: (Toks, T, Toks) -> bool, docs: bool, ts: Toks, xs: seq<T>, rest: Toks) {
    exists at :: Opens(ts, at) && Items(item, docs, at, xs, rest)
  }

  lemma ListBlockIs<T(!new)>(add: (Toks, seq<T>) -> Parse<seq<T>>, one: (Toks, T, Toks) -> bool, docs: bool, ts: Toks,
                             xs: seq<T>, rest: Toks)
    requires Consumes(add) && Gathers(add, one)
    ensures Block(add, docs, ts, []) == Ok(xs, rest) <==> ListBlock(one, docs, ts, xs, rest)
  {
    GathersReads(add, one);
    BlockIs(add, one, Collect, docs, ts, [], xs, rest);
    forall at ensures BuiltFrom(one, Collect, docs, at, [], xs, rest) <==> Items(one, docs, at, xs, rest) {
      ListBuilt(one, docs, at, xs, rest);
    }
  }

  lemma ListBuilt<T(!new)>(one: (Toks, T, Toks) -> bool, docs: bool, at: Toks, xs: seq<T>, rest: Toks)
    ensures BuiltFrom(one, Collect, docs, at, [], xs, rest) <==> Items(one, docs, at, xs, rest)
  {
    Collected([], xs);
    assert [] + xs == xs;
    if BuiltFrom(one, Collect, docs, at, [], xs, rest) {
      var ys: seq<T> :| Items(one, docs, at, ys, rest) && Built(Collect, [], ys) == Some(xs);
      Collected([], ys);
      assert [] + ys == ys;
    }
  }

  // ------------------------------------------------------------------ when blocks, phases and workflows

  /** What may stand in a phase, a when block or a situation. */
  datatype Statement =
    | Requires(require_: Require)
    | Acts(call: FeatureCall)
    | Awaits(trigger: string)
    | Grants(grant: Grant)
    | Outputs(name: string)
    | Certifies(quality: string)
    | Evidences(name: string)
    | Branches(when_: WhenBlock)
    | Waits(period: WaitingPeriod)

  /** A statement of a when block. */
  ghost predicate InBranch(ts: Toks, x: Statement, rest: Toks) {
    match x
    case Requires(r) => Requirement(ts, r, rest)
    case Acts(c) => Acting(ts, c, rest)
    case Awaits(t) => Keyed(AWAIT, ts, t, rest)
    case _ => false
  }

  ghost function WithBranch(w: WhenBlock, x: Statement): Option<WhenBlock> {
    match x
    case Requires(r) => Some(w.(requires_ := w.requires_ + [r]))
    case Acts(c) => Some(w.(actions := w.actions + [c]))
    case Awaits(t) => Some(w.(awaits := w.awaits + [t]))
    case _ => None
  }

  lemma WhenReads()
    ensures Consumes(WhenStmt) && Reads(WhenStmt, InBranch, WithBranch)
  {
    forall ts, w, r ensures ReadsAt(WhenStmt, InBranch, WithBranch, ts, w, r) {
      if r.Ok? {
        WhenStmtIs(ts, w, r.value, r.rest);
      }
    }
  }

  ghost predicate TakesBranch(ts: Toks, w: WhenBlock, w': WhenBlock, rest: Toks) {
    exists x :: InBranch(ts, x, rest) && WithBranch(w, x) == Some(w')
  }

  lemma WhenStmtIs(ts: Toks, w: WhenBlock, w': WhenBlock, rest: Toks)
    ensures WhenStmt(ts, w) == Ok(w', rest) <==> TakesBranch(ts, w, w', rest)
  {
    if WhenStmt(ts, w) == Ok(w', rest) {
      if ts.Kind() == REQUIRE {
        RequirementIs(ts, RequireStmt(ts).value, rest);
        assert InBranch(ts, Requires(RequireStmt(ts).value), rest);
      } else if ts.Kind() == ACTION {
        ActingIs(ts, ActionStmt(ts).value, rest);
        assert InBranch(ts, Acts(ActionStmt(ts).value), rest);
      } else {
        KeyedIs(AWAIT, ts, NameStmt(AWAIT, ts).value, rest);
        assert InBranch(ts, Awaits(NameStmt(AWAIT, ts).value), rest);
      }
    }
    forall x | InBranch(ts, x, rest) && WithBranch(w, x) == Some(w') ensures WhenStmt(ts, w) == Ok(w', rest) {
      match x {
        case Requires(r) => RequirementIs(ts, r, rest);
        case Acts(c) => ActingIs(ts, c, rest);
        case Awaits(t) => KeyedIs(AWAIT, ts, t, rest);
      }
    }
  }

  /** `when`, a predicate and the opening of a block. */
  ghost predicate Guarded(ts: Toks, p: Predicate, at: Toks) {
    ts.Tok? && ts.head.kind == WHEN && exists mid :: Compared(ts.tail, p, mid) && Opens(mid, at)
  }

  lemma GuardedIs(ts: Toks, p: Predicate, at: Toks)
    ensures WhenHead(ts) == Ok(p, at) <==> Guarded(ts, p, at)
  {
    if WhenHead(ts) == Ok(p, at) {
      var mid := Comparison(ts.tail).rest;
      ComparedIs(ts.tail, p, mid);
      OpensIs(mid, at);
    }
    if Guarded(ts, p, at) {
      var mid :| Compared(ts.tail, p, mid) && Opens(mid, at);
      ComparedIs(ts.tail, p, mid);
      OpensIs(mid, at);
    }
  }

  ghost predicate Branch(ts: Toks, w: WhenBlock, rest: Toks) {
    exists at :: Guarded(ts, w.predicate_, at) &&
                 BuiltFrom(InBranch, WithBranch, false, at, WhenBlock(w.predicate_, [], [], []), w, rest)
  }

  lemma BranchIs(ts: Toks, w: WhenBlock, rest: Toks)
    ensures When(ts) == Ok(w, rest) <==> Branch(ts, w, rest)
  {
    WhenReads();
    if When(ts) == Ok(w, rest) {
      var head := WhenHead(ts);
      var w0 := WhenBlock(head.value, [], [], []);
      GuardedIs(ts, head.value, head.rest);
      BodyIs(WhenStmt, InBranch, WithBranch, false, head.rest, w0, w, rest);
      BranchKeeps(head.rest, w0, w, rest);
    }
    if Branch(ts, w, rest) {
      var at :| Guarded(ts, w.predicate_, at) &&
                BuiltFrom(InBranch, WithBranch, false, at, WhenBlock(w.predicate_, [], [], []), w, rest);
      GuardedIs(ts, w.predicate_, at);
      BodyIs(WhenStmt, InBranch, WithBranch, false, at, WhenBlock(w.predicate_, [], [], []), w, rest);
    }
  }

  lemma {:induction false} BranchPredicate(w: WhenBlock, xs: seq<Statement>)
    ensures Built(WithBranch, w, xs).Some? ==> Built(WithBranch, w, xs).value.predicate_ == w.predicate_
    decreases |xs|
  {
    if xs != [] && WithBranch(w, xs[0]).Some? {
      BranchPredicate(WithBranch(w, xs[0]).value, xs[1..]);
    }
  }

  lemma BranchKeeps(at: Toks, w0: WhenBlock, w: WhenBlock, rest: Toks)
    requires BuiltFrom(InBranch, WithBranch, false, at, w0, w, rest)
    ensures w.predicate_ == w0.predicate_
  {
    var xs: seq<Statement> :| Items(InBranch, false, at, xs, rest) && Built(WithBranch, w0, xs) == Some(w);
    BranchPredicate(w0, xs);
  }

  /** A statement of a phase. */
  ghost predicate InPhase(ts: Toks, x: Statement, rest: Toks) {
    match x
    case Requires(r) => Requirement(ts, r, rest)
    case Acts(c) => Acting(ts, c, rest)
    case Awaits(t) => Keyed(AWAIT, ts, t, rest)
    case Grants(g) => Granting(ts, g, rest)
    case Outputs(o) => Keyed(OUTPUT, ts, o, rest)
    case Certifies(q) => Certifying(ts, q, rest)
    case Evidences(e) => Keyed(EVIDENCE, ts, e, rest)
    case Branches(w) => Branch(ts, w, rest)
    case Waits(_) => false
  }

  /** A phase may certify once and name its evidence once. */
  ghost function WithStatement(p: Phase, x: Statement): Option<Phase> {
    match x
    case Requires(r) => Some(p.(requires_ := p.requires_ + [r]))
    case Acts(c) => Some(p.(actions := p.actions + [c]))
    case Awaits(t) => Some(p.(awaits := p.awaits + [t]))
    case Grants(g) => Some(p.(grants := p.grants + [g]))
    case Outputs(o) => Some(p.(outputs := p.outputs + [o]))
    case Certifies(q) => if p.certify.None? then Some(p.(certify := Some(q))) else None
    case Evidences(e) => if p.evidence.None? then Some(p.(evidence := Some(e))) else None
    case Branches(w) => Some(p.(whenBlocks := p.whenBlocks + [w]))
    case Waits(_) => None
  }

  ghost predicate TakesStatement(ts: Toks, p: Phase, p': Phase, rest: Toks) {
    exists x :: InPhase(ts, x, rest) && WithStatement(p, x) == Some(p')
  }

  lemma NamedLineTakes(ts: Toks, p: Phase, p': Phase, rest: Toks)
    requires PhaseLine(ts, p) == Ok(p', rest) && (ts.Kind() == OUTPUT || ts.Kind() == AWAIT)
    ensures TakesStatement(ts, p, p', rest)
  {
    if ts.Kind() == OUTPUT {
      KeyedIs(OUTPUT, ts, NameStmt(OUTPUT, ts).value, rest);
      assert InPhase(ts, Outputs(NameStmt(OUTPUT, ts).value), rest);
    } else {
      KeyedIs(AWAIT, ts, NameStmt(AWAIT, ts).value, rest);
      assert InPhase(ts, Awaits(NameStmt(AWAIT, ts).value), rest);
    }
  }

  lemma LineDispatched(ts: Toks, p: Phase, p': Phase, rest: Toks)
    requires PhaseLine(ts, p) == Ok(p', rest)
    ensures ts.Kind() in {REQUIRE, GRANTS, ACTION, OUTPUT, AWAIT}
    ensures ts.Kind() == REQUIRE ==>
            RequireStmt(ts).Ok? && RequireStmt(ts).rest == rest &&
            p' == p.(requires_ := p.requires_ + [RequireStmt(ts).value])
    ensures ts.Kind() == GRANTS ==>
            GrantStmt(ts).Ok? && GrantStmt(ts).rest == rest && p' == p.(grants := p.grants + [GrantStmt(ts).value])
    ensures ts.Kind() == ACTION ==>
            ActionStmt(ts).Ok? && ActionStmt(ts).rest == rest && p' == p.(actions := p.actions + [ActionStmt(ts).value])
  {
  }

  lemma PhaseLineTakes(ts: Toks, p: Phase, p': Phase, rest: Toks)
    requires PhaseLine(ts, p) == Ok(p', rest)
    ensures TakesStatement(ts, p, p', rest)
  {
    LineDispatched(ts, p, p', rest);
    if ts.Kind() == REQUIRE {
      RequirementIs(ts, RequireStmt(ts).value, rest);
      StatementTaken(ts, p, Requires(RequireStmt(ts).value), p', rest);
    } else if ts.Kind() == GRANTS {
      GrantingIs(ts, GrantStmt(ts).value, rest);
      StatementTaken(ts, p, Grants(GrantStmt(ts).value), p', rest);
    } else if ts.Kind() == ACTION {
      ActingIs(ts, ActionStmt(ts).value, rest);
      StatementTaken(ts, p, Acts(ActionStmt(ts).value), p', rest);
    } else {
      NamedLineTakes(ts, p, p', rest);
    }
  }

  lemma PhaseSingleTakes(ts: Toks, p: Phase, p': Phase, rest: Toks)
    requires PhaseSingle(ts, p) == Ok(p', rest)
    ensures TakesStatement(ts, p, p', rest)
  {
    if ts.Kind() == CERTIFY {
      CertifyingIs(ts, CertifyStmt(ts).value, rest);
      assert InPhase(ts, Certifies(CertifyStmt(ts).value), rest);
    } else {
      KeyedIs(EVIDENCE, ts, NameStmt(EVIDENCE, ts).value, rest);
      assert InPhase(ts, Evidences(NameStmt(EVIDENCE, ts).value), rest);
    }
  }

  /** Which parser a statement of a phase goes to. */
  lemma Dispatched(ts: Toks, p: Phase, p': Phase, rest: Toks)
    requires PhaseStmt(ts, p) == Ok(p', rest)
    ensures ts.Kind() == WHEN ==>
            When(ts).Ok? && When(ts).rest == rest && p' == p.(whenBlocks := p.whenBlocks + [When(ts).value])
    ensures ts.Kind() == CERTIFY || ts.Kind() == EVIDENCE ==> PhaseSingle(ts, p) == Ok(p', rest)
    ensures ts.Kind() != WHEN && ts.Kind() != CERTIFY && ts.Kind() != EVIDENCE ==> PhaseLine(ts, p) == Ok(p', rest)
  {
  }

  lemma StatementTaken(ts: Toks, p: Phase, x: Statement, p': Phase, rest: Toks)
    requires InPhase(ts, x, rest) && WithStatement(p, x) == Some(p')
    ensures TakesStatement(ts, p, p', rest)
  {
  }

  lemma PhaseStmtTakes(ts: Toks, p: Phase, p': Phase, rest: Toks)
    requires PhaseStmt(ts, p) == Ok(p', rest)
    ensures TakesStatement(ts, p, p', rest)
  {
    Dispatched(ts, p, p', rest);
    if ts.Kind() == WHEN {
      BranchIs(ts, When(ts).value, rest);
      StatementTaken(ts, p, Branches(When(ts).value), p', rest);
    } else if ts.Kind() == CERTIFY || ts.Kind() == EVIDENCE {
      PhaseSingleTakes(ts, p, p', rest);
    } else {
      PhaseLineTakes(ts, p, p', rest);
    }
  }

  lemma NamedLineReads(ts: Toks, p: Phase, x: Statement, p': Phase, rest: Toks)
    requires InPhase(ts, x, rest) && WithStatement(p, x) == Some(p') && (x.Awaits? || x.Outputs?)
    ensures PhaseLine(ts, p) == Ok(p', rest) && ts.Kind() != WHEN && ts.Kind() != CERTIFY && ts.Kind() != EVIDENCE
  {
    if x.Awaits? {
      KeyedIs(AWAIT, ts, x.trigger, rest);
    } else {
      KeyedIs(OUTPUT, ts, x.name, rest);
    }
  }

  lemma RequireLineReads(ts: Toks, p: Phase, r: Require, rest: Toks)
    requires RequireStmt(ts) == Ok(r, rest)
    ensures PhaseLine(ts, p) == Ok(p.(requires_ := p.requires_ + [r]), rest) && ts.Kind() == REQUIRE
  {
  }

  lemma ActionLineReads(ts: Toks, p: Phase, c: FeatureCall, rest: Toks)
    requires ActionStmt(ts) == Ok(c, rest)
    ensures PhaseLine(ts, p) == Ok(p.(actions := p.actions + [c]), rest) && ts.Kind() == ACTION
  {
  }

  lemma GrantLineReads(ts: Toks, p: Phase, g: Grant, rest: Toks)
    requires GrantStmt(ts) == Ok(g, rest)
    ensures PhaseLine(ts, p) == Ok(p.(grants := p.grants + [g]), rest) && ts.Kind() == GRANTS
  {
  }

  lemma StatementLine(ts: Toks, p: Phase, x: Statement, p': Phase, rest: Toks)
    requires InPhase(ts, x, rest) && WithStatement(p, x) == Some(p')
    requires !x.Branches? && !x.Certifies? && !x.Evidences?
    ensures PhaseLine(ts, p) == Ok(p', rest) && ts.Kind() != WHEN && ts.Kind() != CERTIFY && ts.Kind() != EVIDENCE
  {
    match x
    case Requires(r) =>
      RequirementIs(ts, r, rest);
      RequireLineReads(ts, p, r, rest);
    case Acts(c) =>
      ActingIs(ts, c, rest);
      ActionLineReads(ts, p, c, rest);
    case Grants(g) =>
      GrantingIs(ts, g, rest);
      GrantLineReads(ts, p, g, rest);
    case _ => NamedLineReads(ts, p, x, p', rest);
  }

  lemma SingleReads(ts: Toks, p: Phase, x: Statement, p': Phase, rest: Toks)
    requires InPhase(ts, x, rest) && WithStatement(p, x) == Some(p') && (x.Certifies? || x.Evidences?)
    ensures PhaseSingle(ts, p) == Ok(p', rest) && (ts.Kind() == CERTIFY || ts.Kind() == EVIDENCE)
  {
    if x.Certifies? {
      CertifyingIs(ts, x.quality, rest);
    } else {
      KeyedIs(EVIDENCE, ts, x.name, rest);
    }
  }

  lemma BranchReads(ts: Toks, p: Phase, w: WhenBlock, rest: Toks)
    requires Branch(ts, w, rest)
    ensures PhaseStmt(ts, p) == Ok(p.(whenBlocks := p.whenBlocks + [w]), rest)
  {
    BranchIs(ts, w, rest);
  }

  lemma DispatchReads(ts: Toks, p: Phase, r: Parse<Phase>)
    ensures (ts.Kind() == CERTIFY || ts.Kind() == EVIDENCE) && PhaseSingle(ts, p) == r ==> PhaseStmt(ts, p) == r
    ensures ts.Kind() != WHEN && ts.Kind() != CERTIFY && ts.Kind() != EVIDENCE && PhaseLine(ts, p) == r ==>
            PhaseStmt(ts, p) == r
  {
  }

  lemma StatementReads(ts: Toks, p: Phase, x: Statement, p': Phase, rest: Toks)
    requires InPhase(ts, x, rest) && WithStatement(p, x) == Some(p')
    ensures PhaseStmt(ts, p) == Ok(p', rest)
  {
    DispatchReads(ts, p, Ok(p', rest));
    if x.Branches? {
      BranchReads(ts, p, x.when_, rest);
    } else if x.Certifies? || x.Evidences? {
      SingleReads(ts, p, x, p', rest);
    } else {
      StatementLine(ts, p, x, p', rest);
    }
  }

  lemma PhaseReads()
    ensures Consumes(PhaseStmt) && Reads(PhaseStmt, InPhase, WithStatement)
  {
    forall ts, p, r ensures ReadsAt(PhaseStmt, InPhase, WithStatement, ts, p, r) {
      if r.Ok? {
        if PhaseStmt(ts, p) == r {
          PhaseStmtTakes(ts, p, r.value, r.rest);
        }
        forall x | InPhase(ts, x, r.rest) && WithStatement(p, x) == Some(r.value) ensures PhaseStmt(ts, p) == r {
          StatementReads(ts, p, x, r.value, r.rest);
        }
      }
    }
  }

  /** `phase`, a name and a block of statements in any order, docstrings between them. */
  ghost predicate Phased(ts: Toks, p: Phase, rest: Toks) {
    exists name, at :: Keyed(PHASE, ts, name, at) && BlockOf(InPhase, WithStatement, true, at, NewPhase(name), p, rest)
  }

  lemma PhasedIs(ts: Toks, p: Phase, rest: Toks)
    ensures PhaseDecl(ts) == Ok(p, rest) <==> Phased(ts, p, rest)
  {
    PhaseReads();
    if PhaseDecl(ts) == Ok(p, rest) {
      var head := NameStmt(PHASE, ts);
      KeyedIs(PHASE, ts, head.value, head.rest);
      BlockIs(PhaseStmt, InPhase, WithStatement, true, head.rest, NewPhase(head.value), p, rest);
    }
    if Phased(ts, p, rest) {
      var name, at :| Keyed(PHASE, ts, name, at) && BlockOf(InPhase, WithStatement, true, at, NewPhase(name), p, rest);
      KeyedIs(PHASE, ts, name, at);
      BlockIs(PhaseStmt, InPhase, WithStatement, true, at, NewPhase(name), p, rest);
    }
  }

  lemma AddPhaseGathers()
    ensures Consumes(AddPhase) && Gathers(AddPhase, Phased)
  {
    forall ts, acc, r ensures GathersAt(AddPhase, Phased, ts, acc, r) {
      if r.Ok? {
        if AddPhase(ts, acc) == r {
          PhasedIs(ts, PhaseDecl(ts).value, r.rest);
        }
        forall x | r.value == acc + [x] && Phased(ts, x, r.rest) ensures AddPhase(ts, acc) == r {
          PhasedIs(ts, x, r.rest);
        }
      }
    }
  }

  /** `workflow`, a name and at least one phase. */
  ghost predicate Workflows(ts: Toks, w: Workflow, rest: Toks) {
    w.phases != [] && exists at :: Keyed(WORKFLOW, ts, w.name, at) && ListBlock(Phased, true, at, w.phases, rest)
  }

  lemma WorkflowOf(ts: Toks, w: Workflow, rest: Toks)
    ensures WorkflowDecl(ts) == Ok(w, rest) <==>
            var head := NameStmt(WORKFLOW, ts);
            head.Ok? && head.value == w.name && w.phases != [] &&
            Block(AddPhase, true, head.rest, []) == Ok(w.phases, rest)
  {
  }

  lemma WorkflowsIs(ts: Toks, w: Workflow, rest: Toks)
    ensures WorkflowDecl(ts) == Ok(w, rest) <==> Workflows(ts, w, rest)
  {
    var head := NameStmt(WORKFLOW, ts);
    AddPhaseGathers();
    WorkflowOf(ts, w, rest);
    if WorkflowDecl(ts) == Ok(w, rest) {
      KeyedIs(WORKFLOW, ts, w.name, head.rest);
      ListBlockIs(AddPhase, Phased, true, head.rest, w.phases, rest);
    }
    if Workflows(ts, w, rest) {
      var at :| Keyed(WORKFLOW, ts, w.name, at) && ListBlock(Phased, true, at, w.phases, rest);
      KeyedIs(WORKFLOW, ts, w.name, at);
      ListBlockIs(AddPhase, Phased, true, at, w.phases, rest);
    }
  }

  // ------------------------------------------------------------------ situations and roles

  /** Two numbers with two dots between them. */
  ghost predicate Ranged(ts: Toks, min: int, max: int, rest: Toks) {
    ts.Tok? && Number(ts, min, ts.tail) && ts.tail.Tok? && ts.tail.head.kind == DOTDOT &&
    Number(ts.tail.tail, max, rest)
  }

  lemma RangedIs(ts: Toks, min: int, max: int, rest: Toks)
    ensures Range(ts) == Ok((min, max), rest) <==> Ranged(ts, min, max, rest)
  {
    if Integer(ts).Ok? {
      NumberIs(ts, Integer(ts).value, Integer(ts).rest);
      if Expect(DOTDOT, ts.tail).Ok? {
        NumberIs(ts.tail.tail, max, rest);
      }
    }
  }

  /** `waiting_period`, a range and a unit. */
  ghost predicate Waiting(ts: Toks, p: WaitingPeriod, rest: Toks) {
    ts.Tok? && ts.head.kind == WAITING_PERIOD &&
    exists at :: Ranged(ts.tail, p.minValue, p.maxValue, at) && Unit(at, p.unit_, rest)
  }

  ghost predicate Unit(at: Toks, unit_: string, rest: Toks) {
    at.Tok? && at.head.kind in {DAYS, HOURS, IDENT} && at.head.text == unit_ && at.tail == rest
  }

  lemma WaitingOf(ts: Toks, p: WaitingPeriod, rest: Toks)
    requires ts.Kind() == WAITING_PERIOD
    ensures WaitingStmt(ts) == Ok(p, rest) <==>
            var range := Range(ts.Rest());
            range.Ok? && range.value == (p.minValue, p.maxValue) && Unit(range.rest, p.unit_, rest)
  {
  }

  lemma WaitingIs(ts: Toks, p: WaitingPeriod, rest: Toks)
    ensures WaitingStmt(ts) == Ok(p, rest) <==> Waiting(ts, p, rest)
  {
    if ts.Kind() == WAITING_PERIOD {
      WaitingOf(ts, p, rest);
      var range := Range(ts.tail);
      if range.Ok? && range.value == (p.minValue, p.maxValue) {
        RangedIs(ts.tail, p.minValue, p.maxValue, range.rest);
      }
      forall at | Ranged(ts.tail, p.minValue, p.maxValue, at) ensures range == Ok((p.minValue, p.maxValue), at) {
        RangedIs(ts.tail, p.minValue, p.maxValue, at);
      }
    }
  }

  ghost predicate InSituation(ts: Toks, x: Statement, rest: Toks) {
    match x
    case Requires(r) => Requirement(ts, r, rest)
    case Waits(p) => Waiting(ts, p, rest)
    case _ => false
  }

  /** The last waiting period counts. */
  ghost function WithCondition(s: Situation, x: Statement): Option<Situation> {
    match x
    case Requires(r) => Some(s.(requires_ := s.requires_ + [r]))
    case Waits(p) => Some(s.(waitingPeriod := Some(p)))
    case _ => None
  }

  lemma ConditionDispatched(ts: Toks, s: Situation, s': Situation, rest: Toks)
    requires SituationStmt(ts, s) == Ok(s', rest)
    ensures ts.Kind() in {WAITING_PERIOD, REQUIRE}
    ensures ts.Kind() == WAITING_PERIOD ==>
            WaitingStmt(ts).Ok? && WaitingStmt(ts).rest == rest &&
            s' == s.(waitingPeriod := Some(WaitingStmt(ts).value))
    ensures ts.Kind() == REQUIRE ==>
            RequireStmt(ts).Ok? && RequireStmt(ts).rest == rest &&
            s' == s.(requires_ := s.requires_ + [RequireStmt(ts).value])
  {
  }

  lemma ConditionTaken(ts: Toks, s: Situation, x: Statement, s': Situation, rest: Toks)
    requires InSituation(ts, x, rest) && WithCondition(s, x) == Some(s')
    ensures exists y :: InSituation(ts, y, rest) && WithCondition(s, y) == Some(s')
  {
  }

  lemma ConditionTakes(ts: Toks, s: Situation, s': Situation, rest: Toks)
    requires SituationStmt(ts, s) == Ok(s', rest)
    ensures exists x :: InSituation(ts, x, rest) && WithCondition(s, x) == Some(s')
  {
    ConditionDispatched(ts, s, s', rest);
    if ts.Kind() == WAITING_PERIOD {
      WaitingIs(ts, WaitingStmt(ts).value, rest);
      ConditionTaken(ts, s, Waits(WaitingStmt(ts).value), s', rest);
    } else {
      RequirementIs(ts, RequireStmt(ts).value, rest);
      ConditionTaken(ts, s, Requires(RequireStmt(ts).value), s', rest);
    }
  }

  lemma ConditionReads(ts: Toks, s: Situation, x: Statement, s': Situation, rest: Toks)
    requires InSituation(ts, x, rest) && WithCondition(s, x) == Some(s')
    ensures SituationStmt(ts, s) == Ok(s', rest)
  {
    if x.Requires? {
      RequirementIs(ts, x.require_, rest);
    } else {
      WaitingIs(ts, x.period, rest);
    }
  }

  lemma SituationReads()
    ensures Consumes(SituationStmt) && Reads(SituationStmt, InSituation, WithCondition)
  {
    forall ts, s, r ensures ReadsAt(SituationStmt, InSituation, WithCondition, ts, s, r) {
      if r.Ok? {
        if SituationStmt(ts, s) == r {
          ConditionTakes(ts, s, r.value, r.rest);
        }
        forall x | InSituation(ts, x, r.rest) && WithCondition(s, x) == Some(r.value)
          ensures SituationStmt(ts, s) == r {
          ConditionReads(ts, s, x, r.value, r.rest);
        }
      }
    }
  }

  ghost predicate Situated(ts: Toks, s: Situation, rest: Toks) {
    exists p, at :: Guarded(ts, p, at) &&
                    BuiltFrom(InSituation, WithCondition, false, at, Situation(p, None, []), s, rest)
  }

  lemma SituatedIs(ts: Toks, s: Situation, rest: Toks)
    ensures SituationDecl(ts) == Ok(s, rest) <==> Situated(ts, s, rest)
  {
    SituationReads();
    if SituationDecl(ts) == Ok(s, rest) {
      var head := WhenHead(ts);
      GuardedIs(ts, head.value, head.rest);
      BodyIs(SituationStmt, InSituation, WithCondition, false, head.rest, Situation(head.value, None, []), s, rest);
    }
    if Situated(ts, s, rest) {
      var p, at :| Guarded(ts, p, at) &&
                   BuiltFrom(InSituation, WithCondition, false, at, Situation(p, None, []), s, rest);
      GuardedIs(ts, p, at);
      BodyIs(SituationStmt, InSituation, WithCondition, false, at, Situation(p, None, []), s, rest);
    }
  }

  datatype Property = MayDo(actions: seq<string>) | BreaksGlass(flag: bool) | NeedsMfa(flag: bool)

  /** A keyword, a colon and `true` or `false`. */
  ghost predicate Flagged(k: Kind, ts: Toks, flag: bool, rest: Toks) {
    ts.Tok? && ts.head.kind == k && ts.tail.Tok? && ts.tail.head.kind == COLON &&
    After(if flag then TRUE else FALSE, ts.tail.tail, rest)
  }

  ghost predicate InRole(ts: Toks, x: Property, rest: Toks) {
    match x
    case MayDo(actions) =>
      ts.Tok? && ts.head.kind == ACTIONS && ts.tail.Tok? && ts.tail.head.kind == COLON &&
      Identifiers(ts.tail.tail, actions, rest)
    case BreaksGlass(flag) => Flagged(BREAK_GLASS, ts, flag, rest)
    case NeedsMfa(flag) => Flagged(REQUIRES_MFA, ts, flag, rest)
  }

  ghost function WithProperty(role: Role, x: Property): Option<Role> {
    match x
    case MayDo(actions) => Some(role.(actions := actions))
    case BreaksGlass(flag) => Some(role.(breakGlass := flag))
    case NeedsMfa(flag) => Some(role.(requiresMfa := flag))
  }

  lemma RolePropIs(ts: Toks, role: Role, x: Property, rest: Toks)
    requires InRole(ts, x, rest)
    ensures RoleProp(ts, role) == Ok(WithProperty(role, x).value, rest)
  {
    if x.MayDo? {
      IdentifiersIs(ts.tail.tail, x.actions, rest);
    }
  }

  lemma RolePropTakes(ts: Toks, role: Role, role': Role, rest: Toks)
    requires RoleProp(ts, role) == Ok(role', rest)
    ensures exists x :: InRole(ts, x, rest) && WithProperty(role, x) == Some(role')
  {
    if ts.Kind() == ACTIONS {
      var xs := Idents(ts.tail.tail).value;
      IdentifiersIs(ts.tail.tail, xs, rest);
      assert InRole(ts, MayDo(xs), rest);
    } else if ts.Kind() == BREAK_GLASS {
      assert InRole(ts, BreaksGlass(Flag(ts).value), rest);
    } else {
      assert InRole(ts, NeedsMfa(Flag(ts).value), rest);
    }
  }

  lemma RoleReads()
    ensures Consumes(RoleProp) && Reads(RoleProp, InRole, WithProperty)
  {
    forall ts, role, r ensures ReadsAt(RoleProp, InRole, WithProperty, ts, role, r) {
      if r.Ok? {
        if RoleProp(ts, role) == r {
          RolePropTakes(ts, role, r.value, r.rest);
        }
        forall x | InRole(ts, x, r.rest) && WithProperty(role, x) == Some(r.value) ensures RoleProp(ts, role) == r {
          RolePropIs(ts, role, x, r.rest);
        }
      }
    }
  }

  /** A name and properties in any order; without them a role may do nothing, breaks no glass and needs MFA. */
  ghost predicate Roled(ts: Toks, role: Role, rest: Toks) {
    exists name, at :: Is(IDENT, ts, name, at) &&
                       BlockOf(InRole, WithProperty, false, at, Role(name, [], false, true), role, rest)
  }

  lemma RoledIs(ts: Toks, role: Role, rest: Toks)
    ensures RoleDecl(ts) == Ok(role, rest) <==> Roled(ts, role, rest)
  {
    RoleReads();
    if RoleDecl(ts) == Ok(role, rest) {
      BlockIs(RoleProp, InRole, WithProperty, false, ts.tail, Role(ts.head.text, [], false, true), role, rest);
      assert Is(IDENT, ts, ts.head.text, ts.tail);
    }
    if Roled(ts, role, rest) {
      var name, at :| Is(IDENT, ts, name, at) &&
                      BlockOf(InRole, WithProperty, false, at, Role(name, [], false, true), role, rest);
      BlockIs(RoleProp, InRole, WithProperty, false, at, Role(name, [], false, true), role, rest);
    }
  }

  // ------------------------------------------------------------------ header and sections

  /** An identifier, or an identifier, a dot and a number. */
  ghost predicate Versioned(ts: Toks, v: string, rest: Toks) {
    ts.Tok? && ts.head.kind == IDENT &&
    if ts.tail.Kind() == DOT then After(INT, ts.tail.tail, rest) && v == ts.head.text + "." + ts.tail.tail.head.text
    else v == ts.head.text && rest == ts.tail
  }

  lemma VersionedIs(ts: Toks, v: string, rest: Toks)
    ensures Version(ts) == Ok(v, rest) <==> Versioned(ts, v, rest)
  {
  }

  /** `charter`, a string and a version. */
  ghost predicate Headed(ts: Toks, name: string, version: string, rest: Toks) {
    ts.Tok? && ts.head.kind == CHARTER && ts.tail.Tok? && ts.tail.head == Token(STRING, name) &&
    Versioned(ts.tail.tail, version, rest)
  }

  lemma HeadedIs(ts: Toks, name: string, version: string, rest: Toks)
    ensures Header(ts) == Ok((name, version), rest) <==> Headed(ts, name, version, rest)
  {
    if Expect(CHARTER, ts).Ok? && Expect(STRING, ts.tail).Ok? {
      VersionedIs(ts.tail.tail, version, rest);
    }
  }

  /** One number, with a dot and another one possibly, a decimal or an identifier. */
  ghost predicate SchemaVersioned(ts: Toks, v: string, rest: Toks) {
    ts.Tok? &&
    if ts.head.kind == INT && ts.tail.Kind() == DOT then
      After(INT, ts.tail.tail, rest) && v == ts.head.text + "." + ts.tail.tail.head.text
    else ts.head.kind in {INT, FLOAT, IDENT} && v == ts.head.text && rest == ts.tail
  }

  lemma SchemaVersionedIs(ts: Toks, v: string, rest: Toks)
    ensures SchemaVersion(ts) == Ok(v, rest) <==> SchemaVersioned(ts, v, rest)
  {
  }

  /** A dotted name, `@` and a version. */
  ghost predicate SchemaReference(ts: Toks, s: SchemaRef, rest: Toks) {
    exists at :: Dotted(ts, s.namespace_, at) && at.Tok? && at.head.kind == AT &&
                 SchemaVersioned(at.tail, s.version, rest)
  }

  lemma SchemaReferenceIs(ts: Toks, s: SchemaRef, rest: Toks)
    ensures Schema(ts) == Ok(s, rest) <==> SchemaReference(ts, s, rest)
  {
    if DottedName(ts).Ok? {
      var at := DottedName(ts).rest;
      DottedIs(ts, DottedName(ts).value, at);
      SchemaVersionedIs(at.Rest(), s.version, rest);
    }
    if SchemaReference(ts, s, rest) {
      var at :| Dotted(ts, s.namespace_, at) && at.Tok? && at.head.kind == AT &&
                SchemaVersioned(at.tail, s.version, rest);
      DottedIs(ts, s.namespace_, at);
      SchemaVersionedIs(at.tail, s.version, rest);
    }
  }

  /** An entry after a dash. */
  ghost predicate Dashed<T(!new)>(one: (Toks, T, Toks) -> bool, ts: Toks, x: T, rest: Toks) {
    ts.Tok? && ts.head.kind == DASH && one(ts.tail, x, rest)
  }

  ghost predicate SchemaEntry(ts: Toks, s: SchemaRef, rest: Toks) {
    Dashed(SchemaReference, ts, s, rest)
  }

  lemma AddSchemaGathers()
    ensures Consumes(AddSchema) && Gathers(AddSchema, SchemaEntry)
  {
    forall ts, acc, r ensures GathersAt(AddSchema, SchemaEntry, ts, acc, r) {
      if r.Ok? {
        if AddSchema(ts, acc) == r {
          SchemaReferenceIs(ts.tail, Schema(ts.tail).value, r.rest);
          assert SchemaEntry(ts, Schema(ts.tail).value, r.rest);
        }
        forall x | r.value == acc + [x] && SchemaEntry(ts, x, r.rest) ensures AddSchema(ts, acc) == r {
          SchemaReferenceIs(ts.tail, x, r.rest);
        }
      }
    }
  }

  /** An identifier, or any token spelled like a keyword, after a dash. */
  ghost predicate PackageEntry(ts: Toks, name: string, rest: Toks) {
    ts.Tok? && ts.head.kind == DASH && ts.tail.Tok? && ts.tail.tail == rest && ts.tail.head.text == name &&
    (ts.tail.head.kind == IDENT || name in KEYWORDS)
  }

  lemma AddPackageGathers()
    ensures Consumes(AddPackage) && Gathers(AddPackage, PackageEntry)
  {
    forall ts, acc, r ensures GathersAt(AddPackage, PackageEntry, ts, acc, r) {
      if r.Ok? && AddPackage(ts, acc) == r {
        assert PackageEntry(ts, ts.tail.head.text, r.rest);
      }
    }
  }

  ghost predicate PolicyEntry(ts: Toks, id: string, rest: Toks) {
    Dashed(Dotted, ts, id, rest)
  }

  lemma AddPolicyGathers()
    ensures Consumes(AddPolicy) && Gathers(AddPolicy, PolicyEntry)
  {
    forall ts, acc, r ensures GathersAt(AddPolicy, PolicyEntry, ts, acc, r) {
      if r.Ok? {
        if AddPolicy(ts, acc) == r {
          DottedIs(ts.tail, DottedName(ts.tail).value, r.rest);
          assert PolicyEntry(ts, DottedName(ts.tail).value, r.rest);
        }
        forall x | r.value == acc + [x] && PolicyEntry(ts, x, r.rest) ensures AddPolicy(ts, acc) == r {
          DottedIs(ts.tail, x, r.rest);
        }
      }
    }
  }

  lemma AddSituationGathers()
    ensures Consumes(AddSituation) && Gathers(AddSituation, Situated)
  {
    forall ts, acc, r ensures GathersAt(AddSituation, Situated, ts, acc, r) {
      if r.Ok? {
        if AddSituation(ts, acc) == r {
          SituatedIs(ts, SituationDecl(ts).value, r.rest);
        }
        forall x | r.value == acc + [x] && Situated(ts, x, r.rest) ensures AddSituation(ts, acc) == r {
          SituatedIs(ts, x, r.rest);
        }
      }
    }
  }

  lemma AddRoleGathers()
    ensures Consumes(AddRole) && Gathers(AddRole, Roled)
  {
    forall ts, acc, r ensures GathersAt(AddRole, Roled, ts, acc, r) {
      if r.Ok? {
        if AddRole(ts, acc) == r {
          RoledIs(ts, RoleDecl(ts).value, r.rest);
        }
        forall x | r.value == acc + [x] && Roled(ts, x, r.rest) ensures AddRole(ts, acc) == r {
          RoledIs(ts, x, r.rest);
        }
      }
    }
  }

  /** Schemas: one on the same line, or a block of dashed entries. */
  ghost predicate SchemaSection(ts: Toks, xs: seq<SchemaRef>, rest: Toks) {
    ts.Tok? && ts.head.kind == COLON &&
    if ts.tail.Kind() == NEWLINE then ListBlock(SchemaEntry, false, ts, xs, rest)
    else |xs| == 1 && InlineSchema(ts.tail, xs[0], rest)
  }

  /** A reference and the line ends after it. */
  ghost predicate InlineSchema(ts: Toks, s: SchemaRef, rest: Toks) {
    exists at :: SchemaReference(ts, s, at) && Leads(false, at, rest)
  }

  lemma InlineSchemaIs(ts: Toks, s: SchemaRef, rest: Toks)
    ensures InlineSchema(ts, s, rest) <==>
            Schema(ts).Ok? && Schema(ts).value == s && SkipNewlines(Schema(ts).rest) == rest
  {
    if Schema(ts).Ok? && Schema(ts).value == s {
      SchemaReferenceIs(ts, s, Schema(ts).rest);
      SkipsIs(Schema(ts).rest, rest);
    }
    if InlineSchema(ts, s, rest) {
      var at :| SchemaReference(ts, s, at) && Leads(false, at, rest);
      SchemaReferenceIs(ts, s, at);
      SkipsIs(at, rest);
    }
  }

  lemma SchemaSectionIs(ts: Toks, xs: seq<SchemaRef>, rest: Toks)
    ensures Schemas(ts) == Ok(xs, rest) <==> SchemaSection(ts, xs, rest)
  {
    if Expect(COLON, ts).Ok? {
      if ts.tail.Kind() == NEWLINE {
        AddSchemaGathers();
        ListBlockIs(AddSchema, SchemaEntry, false, ts, xs, rest);
      } else {
        InlineIs(ts, xs, rest);
      }
    }
  }

  lemma InlineIs(ts: Toks, xs: seq<SchemaRef>, rest: Toks)
    requires ts.Tok? && ts.head.kind == COLON && ts.tail.Kind() != NEWLINE
    ensures Schemas(ts) == Ok(xs, rest) <==> |xs| == 1 && InlineSchema(ts.tail, xs[0], rest)
  {
    if |xs| == 1 {
      InlineSchemaIs(ts.tail, xs[0], rest);
      assert xs == [xs[0]];
    }
  }

  datatype Part =
    | SchemaPart(schemas: seq<SchemaRef>)
    | PackagePart(packages: seq<string>)
    | PolicyPart(policies: seq<string>)
    | TriggerPart(triggers: seq<string>)
    | WorkflowPart(workflow: Workflow)
    | SituationPart(situations: seq<Situation>)
    | RolePart(roles: seq<Role>)

  function PartKind(x: Part): Kind {
    match x
    case SchemaPart(_) => SCHEMAS
    case PackagePart(_) => PACKAGES
    case PolicyPart(_) => POLICIES
    case TriggerPart(_) => TRIGGERS
    case WorkflowPart(_) => WORKFLOW
    case SituationPart(_) => SITUATIONS
    case RolePart(_) => ROLES
  }

  /** A section: its keyword and what the section holds. */
  ghost predicate Sectioned(ts: Toks, x: Part, rest: Toks) {
    ts.Tok? && ts.head.kind == PartKind(x) &&
    match x
    case SchemaPart(xs) => SchemaSection(ts.tail, xs, rest)
    case PackagePart(xs) => ListBlock(PackageEntry, false, ts.tail, xs, rest)
    case PolicyPart(xs) => ListBlock(PolicyEntry, false, ts.tail, xs, rest)
    case TriggerPart(xs) => ListBlock(Ident, false, ts.tail, xs, rest)
    case WorkflowPart(w) => Workflows(ts, w, rest)
    case SituationPart(xs) => ListBlock(Situated, false, ts.tail, xs, rest)
    case RolePart(xs) => ListBlock(Roled, false, ts.tail, xs, rest)
  }

  ghost function WithSection(c: Charter, x: Part): Charter {
    match x
    case SchemaPart(xs) => c.(schemas := xs)
    case PackagePart(xs) => c.(packages := xs)
    case PolicyPart(xs) => c.(policies := xs)
    case TriggerPart(xs) => c.(triggers := xs)
    case WorkflowPart(w) => c.(workflows := c.workflows + [w])
    case SituationPart(xs) => c.(situations := xs)
    case RolePart(xs) => c.(roles := xs)
  }

  lemma SchemaPartIs(ts: Toks, c: Charter, xs: seq<SchemaRef>, rest: Toks)
    requires ts.Kind() == SCHEMAS
    ensures ListSection(ts, c) == Ok(c.(schemas := xs), rest) <==> SchemaSection(ts.tail, xs, rest)
  {
    SchemaSectionIs(ts.tail, xs, rest);
  }

  lemma PackagePartIs(ts: Toks, c: Charter, xs: seq<string>, rest: Toks)
    requires ts.Kind() == PACKAGES
    ensures ListSection(ts, c) == Ok(c.(packages := xs), rest) <==> ListBlock(PackageEntry, false, ts.tail, xs, rest)
  {
    AddPackageGathers();
    ListBlockIs(AddPackage, PackageEntry, false, ts.tail, xs, rest);
  }

  lemma PolicyPartIs(ts: Toks, c: Charter, xs: seq<string>, rest: Toks)
    requires ts.Kind() == POLICIES
    ensures ListSection(ts, c) == Ok(c.(policies := xs), rest) <==> ListBlock(PolicyEntry, false, ts.tail, xs, rest)
  {
    AddPolicyGathers();
    ListBlockIs(AddPolicy, PolicyEntry, false, ts.tail, xs, rest);
  }

  lemma TriggerPartIs(ts: Toks, c: Charter, xs: seq<string>, rest: Toks)
    requires ts.Kind() == TRIGGERS
    ensures ListSection(ts, c) == Ok(c.(triggers := xs), rest) <==> ListBlock(Ident, false, ts.tail, xs, rest)
  {
    AddIdentGathers();
    ListBlockIs(AddIdent, Ident, false, ts.tail, xs, rest);
  }

  lemma SituationPartOf(ts: Toks, seen: set<Kind>, c: Charter, xs: seq<Situation>, rest: Toks)
    requires ts.Kind() == SITUATIONS && SITUATIONS !in seen
    ensures Section(ts, seen, c) == Ok(c.(situations := xs), rest) <==>
            Block(AddSituation, false, ts.Rest(), []) == Ok(xs, rest)
  {
  }

  lemma SituationPartIs(ts: Toks, seen: set<Kind>, c: Charter, xs: seq<Situation>, rest: Toks)
    requires ts.Kind() == SITUATIONS && SITUATIONS !in seen
    ensures Section(ts, seen, c) == Ok(c.(situations := xs), rest) <==> ListBlock(Situated, false, ts.tail, xs, rest)
  {
    AddSituationGathers();
    ListBlockIs(AddSituation, Situated, false, ts.tail, xs, rest);
    SituationPartOf(ts, seen, c, xs, rest);
  }

  lemma RolePartOf(ts: Toks, seen: set<Kind>, c: Charter, xs: seq<Role>, rest: Toks)
    requires ts.Kind() == ROLES && ROLES !in seen
    ensures Section(ts, seen, c) == Ok(c.(roles := xs), rest) <==> Block(AddRole, false, ts.Rest(), []) == Ok(xs, rest)
  {
  }

  lemma RolePartIs(ts: Toks, seen: set<Kind>, c: Charter, xs: seq<Role>, rest: Toks)
    requires ts.Kind() == ROLES && ROLES !in seen
    ensures Section(ts, seen, c) == Ok(c.(roles := xs), rest) <==> ListBlock(Roled, false, ts.tail, xs, rest)
  {
    AddRoleGathers();
    ListBlockIs(AddRole, Roled, false, ts.tail, xs, rest);
    RolePartOf(ts, seen, c, xs, rest);
  }

  /** What a section of a kind leaves unchanged. */
  lemma OnlyRoles(ts: Toks, seen: set<Kind>, c: Charter, c': Charter, rest: Toks)
    requires Section(ts, seen, c) == Ok(c', rest)
    ensures ts.Kind() !in seen
    ensures ts.Kind() == ROLES ==> c' == c.(roles := c'.roles)
    ensures ts.Kind() == SITUATIONS ==> c' == c.(situations := c'.situations)
  {
  }

  lemma WorkflowPartReads(ts: Toks, seen: set<Kind>, c: Charter, w: Workflow, rest: Toks)
    requires ts.Kind() == WORKFLOW && WORKFLOW !in seen && WorkflowDecl(ts) == Ok(w, rest)
    ensures Section(ts, seen, c) == Ok(c.(workflows := c.workflows + [w]), rest)
  {
  }

  lemma WorkflowPartTakes(ts: Toks, seen: set<Kind>, c: Charter, c': Charter, rest: Toks)
    requires ts.Kind() == WORKFLOW && Section(ts, seen, c) == Ok(c', rest)
    ensures WorkflowDecl(ts).Ok? && WorkflowDecl(ts).rest == rest
    ensures c' == c.(workflows := c.workflows + [WorkflowDecl(ts).value])
  {
  }

  /** What a list section changes. */
  lemma OnlyList(ts: Toks, c: Charter, c': Charter, rest: Toks)
    requires ListSection(ts, c) == Ok(c', rest)
    ensures ts.Kind() in {SCHEMAS, PACKAGES, POLICIES, TRIGGERS}
    ensures ts.Kind() == SCHEMAS ==> c' == c.(schemas := c'.schemas)
    ensures ts.Kind() == PACKAGES ==> c' == c.(packages := c'.packages)
    ensures ts.Kind() == POLICIES ==> c' == c.(policies := c'.policies)
    ensures ts.Kind() == TRIGGERS ==> c' == c.(triggers := c'.triggers)
  {
  }

  lemma ListPartTakes(ts: Toks, c: Charter, c': Charter, rest: Toks)
    requires ListSection(ts, c) == Ok(c', rest)
    ensures TakesPart(ts, c, c', rest)
  {
    OnlyList(ts, c, c', rest);
    if ts.Kind() == SCHEMAS {
      SchemaPartIs(ts, c, c'.schemas, rest);
      PartTaken(ts, c, SchemaPart(c'.schemas), c', rest);
    } else if ts.Kind() == PACKAGES {
      PackagePartIs(ts, c, c'.packages, rest);
      PartTaken(ts, c, PackagePart(c'.packages), c', rest);
    } else if ts.Kind() == POLICIES {
      PolicyPartIs(ts, c, c'.policies, rest);
      PartTaken(ts, c, PolicyPart(c'.policies), c', rest);
    } else {
      TriggerPartIs(ts, c, c'.triggers, rest);
      PartTaken(ts, c, TriggerPart(c'.triggers), c', rest);
    }
  }

  lemma ListPartReads(ts: Toks, c: Charter, x: Part, rest: Toks)
    requires Sectioned(ts, x, rest) && (x.SchemaPart? || x.PackagePart? || x.PolicyPart? || x.TriggerPart?)
    ensures ListSection(ts, c) == Ok(WithSection(c, x), rest)
  {
    match x
    case SchemaPart(xs) => SchemaPartIs(ts, c, xs, rest);
    case PackagePart(xs) => PackagePartIs(ts, c, xs, rest);
    case PolicyPart(xs) => PolicyPartIs(ts, c, xs, rest);
    case TriggerPart(xs) => TriggerPartIs(ts, c, xs, rest);
    case _ =>
  }

  /** The sections that are plain lists are read as such. */
  lemma PlainSection(ts: Toks, seen: set<Kind>, c: Charter, r: Parse<Charter>)
    requires ts.Kind() !in seen && ts.Kind() != WORKFLOW && ts.Kind() != SITUATIONS && ts.Kind() != ROLES
    requires ListSection(ts, c) == r
    ensures Section(ts, seen, c) == r
  {
  }

  ghost predicate TakesPart(ts: Toks, c: Charter, c': Charter, rest: Toks) {
    exists x :: Sectioned(ts, x, rest) && c' == WithSection(c, x)
  }

  lemma PartTaken(ts: Toks, c: Charter, x: Part, c': Charter, rest: Toks)
    requires Sectioned(ts, x, rest) && c' == WithSection(c, x)
    ensures TakesPart(ts, c, c', rest)
  {
  }

  lemma TakesWorkflow(ts: Toks, seen: set<Kind>, c: Charter, c': Charter, rest: Toks)
    requires Section(ts, seen, c) == Ok(c', rest) && ts.Kind() == WORKFLOW
    ensures TakesPart(ts, c, c', rest)
  {
    var w := WorkflowDecl(ts).value;
    WorkflowPartTakes(ts, seen, c, c', rest);
    WorkflowsIs(ts, w, rest);
    PartTaken(ts, c, WorkflowPart(w), c', rest);
  }

  lemma TakesSituations(ts: Toks, seen: set<Kind>, c: Charter, c': Charter, rest: Toks)
    requires Section(ts, seen, c) == Ok(c', rest) && ts.Kind() == SITUATIONS
    ensures TakesPart(ts, c, c', rest)
  {
    OnlyRoles(ts, seen, c, c', rest);
    SituationPartIs(ts, seen, c, c'.situations, rest);
    PartTaken(ts, c, SituationPart(c'.situations), c', rest);
  }

  lemma TakesRoles(ts: Toks, seen: set<Kind>, c: Charter, c': Charter, rest: Toks)
    requires Section(ts, seen, c) == Ok(c', rest) && ts.Kind() == ROLES
    ensures TakesPart(ts, c, c', rest)
  {
    OnlyRoles(ts, seen, c, c', rest);
    RolePartIs(ts, seen, c, c'.roles, rest);
    PartTaken(ts, c, RolePart(c'.roles), c', rest);
  }

  lemma PartTakes(ts: Toks, seen: set<Kind>, c: Charter, c': Charter, rest: Toks)
    requires Section(ts, seen, c) == Ok(c', rest)
    ensures ts.Kind() !in seen && TakesPart(ts, c, c', rest)
  {
    if ts.Kind() == WORKFLOW {
      TakesWorkflow(ts, seen, c, c', rest);
    } else if ts.Kind() == SITUATIONS {
      TakesSituations(ts, seen, c, c', rest);
    } else if ts.Kind() == ROLES {
      TakesRoles(ts, seen, c, c', rest);
    } else {
      PlainSection(ts, seen, c, ListSection(ts, c));
      ListPartTakes(ts, c, c', rest);
    }
  }

  lemma PartReads(ts: Toks, seen: set<Kind>, c: Charter, x: Part, rest: Toks)
    requires Sectioned(ts, x, rest) && PartKind(x) !in seen
    ensures Section(ts, seen, c) == Ok(WithSection(c, x), rest)
  {
    match x
    case WorkflowPart(w) =>
      WorkflowsIs(ts, w, rest);
      WorkflowPartReads(ts, seen, c, w, rest);
    case SituationPart(xs) => SituationPartIs(ts, seen, c, xs, rest);
    case RolePart(xs) => RolePartIs(ts, seen, c, xs, rest);
    case _ =>
      ListPartReads(ts, c, x, rest);
      PlainSection(ts, seen, c, Ok(WithSection(c, x), rest));
  }

  /** Sections one after another up to the end of the list. */
  ghost predicate SectionList(ts: Toks, xs: seq<Part>, rest: Toks)
    decreases xs
  {
    var at := SkipNewlines(ts);
    if xs == [] then at.Kind() == EOF && rest == at
    else exists mid :: NextSection(at, xs[0], mid) && SectionList(mid, xs[1..], rest)
  }

  ghost predicate NextSection(at: Toks, x: Part, mid: Toks) {
    at.Kind() != EOF && Sectioned(at, x, mid)
  }

  /** No kind of section but workflows comes twice, and none of the given kinds at all. */
  ghost predicate Fresh(xs: seq<Part>, seen: set<Kind>) {
    && (forall i :: 0 <= i < |xs| ==> PartKind(xs[i]) !in seen)
    && forall i, j :: 0 <= i < j < |xs| && PartKind(xs[i]) == PartKind(xs[j]) ==> xs[i].WorkflowPart?
  }

  ghost function Assembled(c: Charter, xs: seq<Part>): Charter
    decreases |xs|
  {
    if xs == [] then c else Assembled(WithSection(c, xs[0]), xs[1..])
  }

  ghost predicate AssembledFrom(ts: Toks, seen: set<Kind>, c: Charter, c': Charter, rest: Toks) {
    exists xs: seq<Part> :: SectionList(ts, xs, rest) && Fresh(xs, seen) && c' == Assembled(c, xs)
  }

  lemma FreshStep(x: Part, xs: seq<Part>, seen: set<Kind>)
    ensures Fresh([x] + xs, seen) <==> PartKind(x) !in seen && Fresh(xs, Seen(PartKind(x), seen))
  {
    var ys := [x] + xs;
    assert forall i :: 0 <= i < |xs| ==> ys[i + 1] == xs[i];
    if PartKind(x) !in seen && Fresh(xs, Seen(PartKind(x), seen)) {
      forall i, j | 0 <= i < j < |ys| && PartKind(ys[i]) == PartKind(ys[j]) ensures ys[i].WorkflowPart? {
        assert ys[j] == xs[j - 1];
        if i > 0 {
          assert ys[i] == xs[i - 1];
        }
      }
    }
    if Fresh(ys, seen) {
      assert ys[0] == x;
      forall i | 0 <= i < |xs| ensures PartKind(xs[i]) !in Seen(PartKind(x), seen) {
        assert ys[i + 1] == xs[i];
      }
      forall i, j | 0 <= i < j < |xs| && PartKind(xs[i]) == PartKind(xs[j]) ensures xs[i].WorkflowPart? {
        assert ys[i + 1] == xs[i] && ys[j + 1] == xs[j];
      }
    }
  }

  lemma SectionListHead(ts: Toks, x: Part, mid: Toks, xs: seq<Part>, rest: Toks)
    requires NextSection(SkipNewlines(ts), x, mid) && SectionList(mid, xs, rest)
    ensures SectionList(ts, [x] + xs, rest)
  {
    var ys := [x] + xs;
    assert ys[0] == x && ys[1..] == xs;
  }

  lemma AssembledHead(c: Charter, x: Part, xs: seq<Part>)
    ensures Assembled(c, [x] + xs) == Assembled(WithSection(c, x), xs)
  {
    assert ([x] + xs)[1..] == xs;
  }

  lemma AssembledStep(ts: Toks, seen: set<Kind>, c: Charter, c': Charter, x: Part, mid: Toks, rest: Toks)
    requires NextSection(SkipNewlines(ts), x, mid) && PartKind(x) !in seen
    requires AssembledFrom(mid, Seen(PartKind(x), seen), WithSection(c, x), c', rest)
    ensures AssembledFrom(ts, seen, c, c', rest)
  {
    var xs: seq<Part> :|
      SectionList(mid, xs, rest) && Fresh(xs, Seen(PartKind(x), seen)) && c' == Assembled(WithSection(c, x), xs);
    FreshStep(x, xs, seen);
    AssembledHead(c, x, xs);
    SectionListHead(ts, x, mid, xs, rest);
  }

  lemma SectionListTail(ts: Toks, xs: seq<Part>, rest: Toks) returns (mid: Toks)
    requires SectionList(ts, xs, rest) && SkipNewlines(ts).Kind() != EOF
    ensures xs != [] && NextSection(SkipNewlines(ts), xs[0], mid) && SectionList(mid, xs[1..], rest)
  {
    mid :| NextSection(SkipNewlines(ts), xs[0], mid) && SectionList(mid, xs[1..], rest);
  }

  lemma AssembledSplit(ts: Toks, seen: set<Kind>, c: Charter, c': Charter, rest: Toks) returns (x: Part, mid: Toks)
    requires AssembledFrom(ts, seen, c, c', rest) && SkipNewlines(ts).Kind() != EOF
    ensures NextSection(SkipNewlines(ts), x, mid) && PartKind(x) !in seen
    ensures AssembledFrom(mid, Seen(PartKind(x), seen), WithSection(c, x), c', rest)
  {
    var xs: seq<Part> :| SectionList(ts, xs, rest) && Fresh(xs, seen) && c' == Assembled(c, xs);
    mid := SectionListTail(ts, xs, rest);
    x := xs[0];
    assert xs == [x] + xs[1..];
    FreshStep(x, xs[1..], seen);
    AssembledHead(c, x, xs[1..]);
  }

  lemma AssembledEnd(ts: Toks, seen: set<Kind>, c: Charter, c': Charter, rest: Toks)
    requires SkipNewlines(ts).Kind() == EOF
    ensures AssembledFrom(ts, seen, c, c', rest) <==> c' == c && rest == SkipNewlines(ts)
  {
    if c' == c && rest == SkipNewlines(ts) {
      assert SectionList(ts, [], rest) && Fresh([], seen) && c' == Assembled(c, []);
    }
    if AssembledFrom(ts, seen, c, c', rest) {
      var xs: seq<Part> :| SectionList(ts, xs, rest) && Fresh(xs, seen) && c' == Assembled(c, xs);
      assert xs == [];
    }
  }

  lemma SectionsAgain(ts: Toks, seen: set<Kind>, c: Charter)
    ensures Sections(SkipNewlines(ts), seen, c) == Sections(ts, seen, c)
  {
    assert SkipNewlines(SkipNewlines(ts)) == SkipNewlines(ts);
  }

  lemma {:induction false} SectionsAre(ts: Toks, seen: set<Kind>, c: Charter, c': Charter, rest: Toks)
    ensures Sections(ts, seen, c) == Ok(c', rest) <==> AssembledFrom(ts, seen, c, c', rest)
    decreases Len(ts)
  {
    var at := SkipNewlines(ts);
    if at.Kind() == EOF {
      AssembledEnd(ts, seen, c, c', rest);
    } else {
      if Sections(ts, seen, c) == Ok(c', rest) {
        var r := Section(at, seen, c);
        PartTakes(at, seen, c, r.value, r.rest);
        var x :| Sectioned(at, x, r.rest) && r.value == WithSection(c, x);
        SectionsAre(r.rest, Seen(PartKind(x), seen), r.value, c', rest);
        SectionsAgain(r.rest, Seen(PartKind(x), seen), r.value);
        AssembledStep(ts, seen, c, c', x, r.rest, rest);
      }
      if AssembledFrom(ts, seen, c, c', rest) {
        var x, mid := AssembledSplit(ts, seen, c, c', rest);
        PartReads(at, seen, c, x, mid);
        SectionsAre(mid, Seen(PartKind(x), seen), WithSection(c, x), c', rest);
        SectionsAgain(mid, Seen(PartKind(x), seen), WithSection(c, x));
      }
    }
  }

  /**
   * A way of writing a charter: line ends, the header, and sections in any order, each kind but
   * workflows at most once, up to the end of the list.
   */
  ghost predicate Written(ts: Toks, c: Charter, rest: Toks) {
    exists at, name, version, mid ::
      Leads(false, ts, at) && Headed(at, name, version, mid) &&
      AssembledFrom(mid, {}, Charter(name, version, [], [], [], [], [], [], []), c, rest)
  }

  /** The grammar computes the language: a list parses to a charter exactly when it is a way of writing it. */
  lemma ParsesExactly(ts: Toks, c: Charter, rest: Toks)
    ensures CharterText(ts) == Ok(c, rest) <==> Written(ts, c, rest)
  {
    var at := SkipNewlines(ts);
    SkipsIs(ts, at);
    if CharterText(ts) == Ok(c, rest) {
      var head := Header(at);
      var c0 := Charter(head.value.0, head.value.1, [], [], [], [], [], [], []);
      HeadedIs(at, head.value.0, head.value.1, head.rest);
      SectionsAgain(head.rest, {}, c0);
      SectionsAre(head.rest, {}, c0, c, rest);
    }
    if Written(ts, c, rest) {
      var at', name, version, mid :|
        Leads(false, ts, at') && Headed(at', name, version, mid) &&
        AssembledFrom(mid, {}, Charter(name, version, [], [], [], [], [], [], []), c, rest);
      SkipsIs(ts, at');
      HeadedIs(at, name, version, mid);
      SectionsAre(mid, {}, NewCharter(name, version), c, rest);
      SectionsAgain(mid, {}, NewCharter(name, version));
    }
  }

  /** The language is unambiguous: no list is a way of writing two charters. */
  lemma Unambiguous(ts: Toks, c: Charter, rest: Toks, d: Charter, rest': Toks)
    requires Written(ts, c, rest) && Written(ts, d, rest')
    ensures c == d && rest == rest'
  {
    ParsesExactly(ts, c, rest);
    ParsesExactly(ts, d, rest');
  }
}
