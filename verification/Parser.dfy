/**
 * The parser as the source writes it: a position that moves through the token list. Every method
 * builds exactly what the grammar prescribes and stops exactly where the grammar says.
 */
module CharterParser {
  import opened Options
  import opened CharterAst
  import opened Tokens
  import opened Grammar
  import Printer
  import CharterLexer
  import opened TextPrinter
  import opened CharterLayout
  import opened CharterComments
  import opened TextNames

  /** The tokens from a position on. */
  ghost function From(tokens: seq<Token>, pos: nat): Toks
    requires pos <= |tokens|
    decreases |tokens| - pos
  {
    if pos == |tokens| then End else Tok(tokens[pos], From(tokens, pos + 1))
  }

  /** A token list as the lexer leaves it: it ends in EOF, and EOF has no text. */
  ghost predicate Terminated(tokens: seq<Token>) {
    |tokens| > 0 && tokens[|tokens| - 1].kind == EOF &&
    forall i :: 0 <= i < |tokens| && tokens[i].kind == EOF ==> tokens[i].text == ""
  }

  /** A method's answer is the grammar's: the same value and the same remaining tokens, or an error. */
  ghost predicate Agrees<T>(r: Option<T>, g: Parse<T>, rest: Toks) {
    if g.Ok? then r == Some(g.value) && rest == g.rest else r.None?
  }

  class Parser {
    const tokens: seq<Token>
    var pos: nat

    ghost predicate Valid()
      reads this
    {
      Terminated(tokens) && pos < |tokens|
    }

    ghost function Rest(): Toks
      requires Valid()
      reads this
    {
      From(tokens, pos)
    }

    constructor (tokens: seq<Token>)
      requires Terminated(tokens)
      ensures Valid() && this.tokens == tokens && pos == 0
    {
      this.tokens := tokens;
      pos := 0;
    }

    function Kind(): (k: Kind)
      requires Valid()
      reads this
      ensures k == Rest().Kind()
    {
      tokens[pos].kind
    }

    function Text(): (text: string)
      requires Valid()
      reads this
      ensures text == Rest().Text()
    {
      tokens[pos].text
    }

    /** Consumes the current token; the last one stays current. */
    method Advance() returns (text: string)
      requires Valid()
      modifies this
      ensures Valid() && text == old(Rest()).Text()
      ensures Rest() == if old(pos) < |tokens| - 1 then old(Rest()).Rest() else old(Rest())
      ensures old(Kind()) != EOF ==> old(pos) < |tokens| - 1
    {
      text := tokens[pos].text;
      if pos < |tokens| - 1 {
        pos := pos + 1;
      }
    }

    method Expect(k: Kind) returns (r: Option<string>)
      requires Valid() && k != EOF
      modifies this
      ensures Valid() && Agrees(r, Grammar.Expect(k, old(Rest())), Rest())
    {
      if Kind() != k {
        return None;
      }
      var text := Advance();
      return Some(text);
    }

    method SkipNewlines()
      requires Valid()
      modifies this
      ensures Valid() && Rest() == Grammar.SkipNewlines(old(Rest()))
    {
      while Kind() == NEWLINE
        invariant Valid() && Grammar.SkipNewlines(Rest()) == Grammar.SkipNewlines(old(Rest()))
        decreases Len(Rest())
      {
        var _ := Advance();
      }
    }

    method SkipDocstrings()
      requires Valid()
      modifies this
      ensures Valid() && Rest() == Grammar.SkipDocstrings(old(Rest()))
    {
      while Kind() == DOCSTRING
        invariant Valid() && Grammar.SkipDocstrings(Rest()) == Grammar.SkipDocstrings(old(Rest()))
        decreases Len(Rest())
      {
        var _ := Advance();
        SkipNewlines();
      }
    }

    /** Skips to the next statement of a block. */
    method Lead(docs: bool)
      requires Valid()
      modifies this
      ensures Valid() && Rest() == Grammar.Lead(docs, old(Rest()))
    {
      SkipNewlines();
      if docs {
        SkipDocstrings();
      }
    }

    function AtEnd(): (r: bool)
      requires Valid()
      reads this
      ensures r == Grammar.AtEnd(Rest())
    {
      Kind() == DEDENT || Kind() == EOF
    }

    method Open() returns (r: Option<string>)
      requires Valid()
      modifies this
      ensures Valid() && Agrees(r, Grammar.Open(old(Rest())), Rest())
    {
      var _ :- Expect(COLON);
      SkipNewlines();
      r := Expect(INDENT);
    }

    method Close()
      requires Valid()
      modifies this
      ensures Valid() && Rest() == Grammar.Close(old(Rest()))
    {
      if Kind() == DEDENT {
        var _ := Advance();
      }
    }

    // ---------------------------------------------------------------- names, values, arguments

    method ParseDottedName() returns (r: Option<string>)
      requires Valid()
      modifies this
      ensures Valid() && Agrees(r, DottedName(old(Rest())), Rest())
    {
      var part :- Expect(IDENT);
      var parts := [part];
      while Kind() == DOT
        invariant Valid() && DottedRest(Rest(), parts) == DottedName(old(Rest()))
        decreases Len(Rest())
      {
        var _ := Advance();
        part :- Expect(IDENT);
        parts := parts + [part];
      }
      return Some(Join(parts));
    }

    method ParseInteger() returns (r: Option<int>)
      requires Valid()
      modifies this
      ensures Valid() && Agrees(r, Integer(old(Rest())), Rest())
    {
      var text :- Expect(INT);
      r := ParseNat(text);
    }

    method ParseValue() returns (r: Option<Value>)
      requires Valid()
      modifies this
      ensures Valid() && Agrees(r, ArgValue(old(Rest())), Rest())
    {
      if Kind() == INT {
        var n :- ParseInteger();
        return Some(IntValue(n));
      }
      var k := Kind();
      if k != STRING && k != IDENT && k != FLOAT && k != TRUE && k != FALSE {
        return None;
      }
      var text := Advance();
      return Some(if k == FLOAT then FloatValue(text)
                  else if k == TRUE || k == FALSE then BoolValue(k == TRUE) else StrValue(text));
    }

    method ParseArg() returns (r: Option<Arg>)
      requires Valid()
      modifies this
      ensures Valid() && Agrees(r, OneArg(old(Rest())), Rest())
    {
      if Kind() != IDENT {
        var value :- ParseValue();
        return Some(Arg(None, value));
      }
      var ident := Advance();
      if Kind() != EQ {
        return Some(Arg(None, StrValue(ident)));
      }
      var _ := Advance();
      var value :- ParseValue();
      return Some(Arg(Some(ident), value));
    }

    method Separator(first: bool) returns (r: Option<string>)
      requires Valid()
      modifies this
      ensures Valid() && Agrees(r, Grammar.Separator(first, old(Rest())), Rest())
    {
      if first {
        return Some("");
      }
      r := Expect(COMMA);
    }

    method ParseArgs() returns (r: Option<seq<Arg>>)
      requires Valid()
      modifies this
      ensures Valid() && Agrees(r, Args(old(Rest())), Rest())
    {
      var _ :- Expect(LPAREN);
      var args: seq<Arg> := [];
      while Kind() != RPAREN && Kind() != EOF
        invariant Valid() && Listed(AddArg, RPAREN, Rest(), args) == Args(old(Rest()))
        decreases Len(Rest())
      {
        var _ :- Separator(args == []);
        var a :- ParseArg();
        args := args + [a];
      }
      var _ :- Expect(RPAREN);
      return Some(args);
    }

    method ParseIdents() returns (r: Option<seq<string>>)
      requires Valid()
      modifies this
      ensures Valid() && Agrees(r, Idents(old(Rest())), Rest())
    {
      var _ :- Expect(LBRACKET);
      var items: seq<string> := [];
      while Kind() != RBRACKET && Kind() != EOF
        invariant Valid() && Listed(AddIdent, RBRACKET, Rest(), items) == Idents(old(Rest()))
        decreases Len(Rest())
      {
        var _ :- Separator(items == []);
        var x :- Expect(IDENT);
        items := items + [x];
      }
      var _ :- Expect(RBRACKET);
      return Some(items);
    }

    method ParseCall() returns (r: Option<FeatureCall>)
      requires Valid()
      modifies this
      ensures Valid() && Agrees(r, Call(old(Rest())), Rest())
    {
      var name :- Expect(IDENT);
      var args :- ParseArgs();
      return Some(FeatureCall(name, args));
    }

    method ParseBool() returns (r: Option<bool>)
      requires Valid()
      modifies this
      ensures Valid() && Agrees(r, Boolean(old(Rest())), Rest())
    {
      var k := Kind();
      if k != TRUE && k != FALSE {
        return None;
      }
      var _ := Advance();
      return Some(k == TRUE);
    }

    // ---------------------------------------------------------------- statements

    method ParseCondition(phase: string) returns (r: Option<Require>)
      requires Valid()
      modifies this
      ensures Valid() && Agrees(r, Condition(phase, old(Rest())), Rest())
    {
      var k := Kind();
      if k != PASSED && k != COMPLETE && k != IDENT {
        return None;
      }
      var text := Advance();
      return Some(PhaseRef(phase, if k == PASSED then "passed" else if k == COMPLETE then "complete" else text));
    }

    method ParseReference() returns (r: Option<Require>)
      requires Valid()
      modifies this
      ensures Valid() && Agrees(r, Reference(old(Rest())), Rest())
    {
      var ident :- Expect(IDENT);
      if Kind() == LPAREN {
        var args :- ParseArgs();
        return Some(FeatureRef(FeatureCall(ident, args)));
      }
      if Kind() == DOT {
        var _ := Advance();
        r := ParseCondition(ident);
        return;
      }
      return Some(BuiltinRef(ident));
    }

    method ParseRequire() returns (r: Option<Require>)
      requires Valid()
      modifies this
      ensures Valid() && Agrees(r, RequireStmt(old(Rest())), Rest())
    {
      var _ :- Expect(REQUIRE);
      if Kind() == AWAIT {
        var _ := Advance();
        var trigger :- Expect(IDENT);
        return Some(AwaitRef(trigger));
      }
      r := ParseReference();
    }

    method ParseAction() returns (r: Option<FeatureCall>)
      requires Valid()
      modifies this
      ensures Valid() && Agrees(r, ActionStmt(old(Rest())), Rest())
    {
      var _ :- Expect(ACTION);
      r := ParseCall();
    }

    /** A keyword followed by one identifier: output, evidence, await, grants, phase, workflow. */
    method ParseNamed(k: Kind) returns (r: Option<string>)
      requires Valid() && k != EOF
      modifies this
      ensures Valid() && Agrees(r, NameStmt(k, old(Rest())), Rest())
    {
      var _ :- Expect(k);
      r := Expect(IDENT);
    }

    method ParseCertify() returns (r: Option<string>)
      requires Valid()
      modifies this
      ensures Valid() && Agrees(r, CertifyStmt(old(Rest())), Rest())
    {
      var _ :- Expect(CERTIFY);
      if Kind() != IMMUTABLE && Kind() != IDENT {
        return None;
      }
      var qualifier := Advance();
      return Some(qualifier);
    }

    method ParseGrant() returns (r: Option<Grant>)
      requires Valid()
      modifies this
      ensures Valid() && Agrees(r, GrantStmt(old(Rest())), Rest())
    {
      var doc :- ParseNamed(GRANTS);
      if Kind() != FOR {
        return Some(Grant(doc, None));
      }
      var _ := Advance();
      var n :- ParseInteger();
      if Kind() == IDENT && Text() == "m" {
        var _ := Advance();
      }
      return Some(Grant(doc, Some(n)));
    }

    method ParsePredicate() returns (r: Option<Predicate>)
      requires Valid()
      modifies this
      ensures Valid() && Agrees(r, Comparison(old(Rest())), Rest())
    {
      var field :- ParseDottedName();
      if !IsComparator(Kind()) {
        return None;
      }
      var operator := Advance();
      var value :- ParseValue();
      return Some(Predicate(field, operator, value));
    }

    method ParseWhenHead() returns (r: Option<Predicate>)
      requires Valid()
      modifies this
      ensures Valid() && Agrees(r, WhenHead(old(Rest())), Rest())
    {
      var _ :- Expect(WHEN);
      var p :- ParsePredicate();
      var _ :- Open();
      return Some(p);
    }

    method ParseWhenStmt(w: WhenBlock) returns (r: Option<WhenBlock>)
      requires Valid()
      modifies this
      ensures Valid() && Agrees(r, WhenStmt(old(Rest()), w), Rest())
    {
      if Kind() == REQUIRE {
        var x :- ParseRequire();
        return Some(w.(requires_ := w.requires_ + [x]));
      } else if Kind() == ACTION {
        var x :- ParseAction();
        return Some(w.(actions := w.actions + [x]));
      } else if Kind() == AWAIT {
        var x :- ParseNamed(AWAIT);
        return Some(w.(awaits := w.awaits + [x]));
      }
      return None;
    }

    method ParseWhen() returns (r: Option<WhenBlock>)
      requires Valid()
      modifies this
      ensures Valid() && Agrees(r, When(old(Rest())), Rest())
    {
      var p :- ParseWhenHead();
      var w := WhenBlock(p, [], [], []);
      ghost var start := Rest();
      while !AtEnd()
        invariant Valid() && Body(WhenStmt, false, Rest(), w) == Body(WhenStmt, false, start, WhenBlock(p, [], [], []))
        decreases Len(Rest())
      {
        BodyLead(WhenStmt, false, Rest(), w);
        Lead(false);
        if AtEnd() {
          break;
        }
        w :- ParseWhenStmt(w);
        SkipNewlines();
      }
      Close();
      return Some(w);
    }

    // ---------------------------------------------------------------- phases and workflows

    method ParsePhaseLine(p: Phase) returns (r: Option<Phase>)
      requires Valid()
      modifies this
      ensures Valid() && Agrees(r, PhaseLine(old(Rest()), p), Rest())
    {
      if Kind() == REQUIRE {
        var x :- ParseRequire();
        return Some(p.(requires_ := p.requires_ + [x]));
      } else if Kind() == GRANTS {
        var x :- ParseGrant();
        return Some(p.(grants := p.grants + [x]));
      } else if Kind() == ACTION {
        var x :- ParseAction();
        return Some(p.(actions := p.actions + [x]));
      } else if Kind() == OUTPUT {
        var x :- ParseNamed(OUTPUT);
        return Some(p.(outputs := p.outputs + [x]));
      } else if Kind() == AWAIT {
        var x :- ParseNamed(AWAIT);
        return Some(p.(awaits := p.awaits + [x]));
      }
      return None;
    }

    method ParsePhaseStmt(p: Phase) returns (r: Option<Phase>)
      requires Valid()
      modifies this
      ensures Valid() && Agrees(r, PhaseStmt(old(Rest()), p), Rest())
    {
      if Kind() == CERTIFY {
        if p.certify.Some? {
          return None;
        }
        var x :- ParseCertify();
        return Some(p.(certify := Some(x)));
      } else if Kind() == EVIDENCE {
        if p.evidence.Some? {
          return None;
        }
        var x :- ParseNamed(EVIDENCE);
        return Some(p.(evidence := Some(x)));
      } else if Kind() == WHEN {
        var x :- ParseWhen();
        return Some(p.(whenBlocks := p.whenBlocks + [x]));
      }
      r := ParsePhaseLine(p);
    }

    method ParsePhaseBody(start: Phase) returns (r: Option<Phase>)
      requires Valid()
      modifies this
      ensures Valid() && Agrees(r, Body(PhaseStmt, true, old(Rest()), start), Rest())
    {
      var p := start;
      while !AtEnd()
        invariant Valid() && Body(PhaseStmt, true, Rest(), p) == Body(PhaseStmt, true, old(Rest()), start)
        decreases Len(Rest())
      {
        BodyLead(PhaseStmt, true, Rest(), p);
        Lead(true);
        if AtEnd() {
          break;
        }
        p :- ParsePhaseStmt(p);
        SkipNewlines();
      }
      Close();
      return Some(p);
    }

    method ParsePhase() returns (r: Option<Phase>)
      requires Valid()
      modifies this
      ensures Valid() && Agrees(r, PhaseDecl(old(Rest())), Rest())
    {
      var name :- ParseNamed(PHASE);
      var _ :- Open();
      r := ParsePhaseBody(NewPhase(name));
    }

    method ParsePhases() returns (r: Option<seq<Phase>>)
      requires Valid()
      modifies this
      ensures Valid() && Agrees(r, Body(AddPhase, true, old(Rest()), []), Rest())
    {
      var phases: seq<Phase> := [];
      while !AtEnd()
        invariant Valid() && Body(AddPhase, true, Rest(), phases) == Body(AddPhase, true, old(Rest()), [])
        decreases Len(Rest())
      {
        BodyLead(AddPhase, true, Rest(), phases);
        Lead(true);
        if AtEnd() {
          break;
        }
        var p :- ParsePhase();
        phases := phases + [p];
        SkipNewlines();
      }
      Close();
      return Some(phases);
    }

    method ParseWorkflow() returns (r: Option<Workflow>)
      requires Valid()
      modifies this
      ensures Valid() && Agrees(r, WorkflowDecl(old(Rest())), Rest())
    {
      var name :- ParseNamed(WORKFLOW);
      var _ :- Open();
      var phases :- ParsePhases();
      if phases == [] {
        return None;
      }
      return Some(Workflow(name, phases));
    }

    // ---------------------------------------------------------------- situations and roles

    method ParseWaiting() returns (r: Option<WaitingPeriod>)
      requires Valid()
      modifies this
      ensures Valid() && Agrees(r, WaitingStmt(old(Rest())), Rest())
    {
      var _ :- Expect(WAITING_PERIOD);
      var range :- ParseRange();
      if Kind() != DAYS && Kind() != HOURS && Kind() != IDENT {
        return None;
      }
      var unit_ := Advance();
      return Some(WaitingPeriod(range.0, range.1, unit_));
    }

    method ParseRange() returns (r: Option<(int, int)>)
      requires Valid()
      modifies this
      ensures Valid() && Agrees(r, Range(old(Rest())), Rest())
    {
      var min :- ParseInteger();
      var _ :- Expect(DOTDOT);
      var max :- ParseInteger();
      return Some((min, max));
    }

    method ParseSituationStmt(s: Situation) returns (r: Option<Situation>)
      requires Valid()
      modifies this
      ensures Valid() && Agrees(r, SituationStmt(old(Rest()), s), Rest())
    {
      if Kind() == WAITING_PERIOD {
        var x :- ParseWaiting();
        return Some(s.(waitingPeriod := Some(x)));
      } else if Kind() == REQUIRE {
        var x :- ParseRequire();
        return Some(s.(requires_ := s.requires_ + [x]));
      }
      return None;
    }

    method ParseSituation() returns (r: Option<Situation>)
      requires Valid()
      modifies this
      ensures Valid() && Agrees(r, SituationDecl(old(Rest())), Rest())
    {
      var p :- ParseWhenHead();
      var s := Situation(p, None, []);
      ghost var start := Rest();
      while !AtEnd()
        invariant Valid()
        invariant Body(SituationStmt, false, Rest(), s) == Body(SituationStmt, false, start, Situation(p, None, []))
        decreases Len(Rest())
      {
        BodyLead(SituationStmt, false, Rest(), s);
        Lead(false);
        if AtEnd() {
          break;
        }
        s :- ParseSituationStmt(s);
        SkipNewlines();
      }
      Close();
      return Some(s);
    }

    method ParseFlag() returns (r: Option<bool>)
      requires Valid() && Kind() != EOF
      modifies this
      ensures Valid() && Agrees(r, Flag(old(Rest())), Rest())
    {
      var _ := Advance();
      var _ :- Expect(COLON);
      r := ParseBool();
    }

    method ParseActionList() returns (r: Option<seq<string>>)
      requires Valid() && Kind() != EOF
      modifies this
      ensures Valid() && Agrees(r, ActionList(old(Rest())), Rest())
    {
      var _ := Advance();
      var _ :- Expect(COLON);
      r := ParseIdents();
    }

    method ParseRoleProp(role: Role) returns (r: Option<Role>)
      requires Valid()
      modifies this
      ensures Valid() && Agrees(r, RoleProp(old(Rest()), role), Rest())
    {
      if Kind() == ACTIONS {
        var x :- ParseActionList();
        return Some(role.(actions := x));
      } else if Kind() == BREAK_GLASS {
        var x :- ParseFlag();
        return Some(role.(breakGlass := x));
      } else if Kind() == REQUIRES_MFA {
        var x :- ParseFlag();
        return Some(role.(requiresMfa := x));
      }
      return None;
    }

    method ParseRole() returns (r: Option<Role>)
      requires Valid()
      modifies this
      ensures Valid() && Agrees(r, RoleDecl(old(Rest())), Rest())
    {
      var name :- Expect(IDENT);
      var _ :- Open();
      var role := Role(name, [], false, true);
      ghost var start := Rest();
      while !AtEnd()
        invariant Valid()
        invariant Body(RoleProp, false, Rest(), role) == Body(RoleProp, false, start, Role(name, [], false, true))
        decreases Len(Rest())
      {
        BodyLead(RoleProp, false, Rest(), role);
        Lead(false);
        if AtEnd() {
          break;
        }
        role :- ParseRoleProp(role);
        SkipNewlines();
      }
      Close();
      return Some(role);
    }

    // ---------------------------------------------------------------- sections

    method ParseVersion() returns (r: Option<string>)
      requires Valid()
      modifies this
      ensures Valid() && Agrees(r, Version(old(Rest())), Rest())
    {
      var major :- Expect(IDENT);
      if Kind() != DOT {
        return Some(major);
      }
      var _ := Advance();
      var minor :- Expect(INT);
      return Some(major + "." + minor);
    }

    method ParseHeader() returns (r: Option<(string, string)>)
      requires Valid()
      modifies this
      ensures Valid() && Agrees(r, Header(old(Rest())), Rest())
    {
      var _ :- Expect(CHARTER);
      var name :- Expect(STRING);
      var version :- ParseVersion();
      return Some((name, version));
    }

    method ParseSchemaVersion() returns (r: Option<string>)
      requires Valid()
      modifies this
      ensures Valid() && Agrees(r, SchemaVersion(old(Rest())), Rest())
    {
      var k := Kind();
      if k != INT && k != FLOAT && k != IDENT {
        return None;
      }
      var major := Advance();
      if k != INT || Kind() != DOT {
        return Some(major);
      }
      var _ := Advance();
      var minor :- Expect(INT);
      return Some(major + "." + minor);
    }

    method ParseSchema() returns (r: Option<SchemaRef>)
      requires Valid()
      modifies this
      ensures Valid() && Agrees(r, Schema(old(Rest())), Rest())
    {
      var name :- ParseDottedName();
      var _ :- Expect(AT);
      var version :- ParseSchemaVersion();
      return Some(SchemaRef(name, version));
    }

    method ParsePackageName() returns (r: Option<string>)
      requires Valid()
      modifies this
      ensures Valid() && Agrees(r, PackageName(old(Rest())), Rest())
    {
      if Kind() != IDENT && Text() !in KEYWORDS {
        return None;
      }
      var name := Advance();
      return Some(name);
    }

    method ParsePackage(items: seq<string>) returns (r: Option<seq<string>>)
      requires Valid()
      modifies this
      ensures Valid() && Agrees(r, AddPackage(old(Rest()), items), Rest())
    {
      var _ :- Expect(DASH);
      var x :- ParsePackageName();
      return Some(items + [x]);
    }

    method ParsePackages() returns (r: Option<seq<string>>)
      requires Valid()
      modifies this
      ensures Valid() && Agrees(r, Body(AddPackage, false, old(Rest()), []), Rest())
    {
      var items: seq<string> := [];
      while !AtEnd()
        invariant Valid() && Body(AddPackage, false, Rest(), items) == Body(AddPackage, false, old(Rest()), [])
        decreases Len(Rest())
      {
        BodyLead(AddPackage, false, Rest(), items);
        Lead(false);
        if AtEnd() {
          break;
        }
        items :- ParsePackage(items);
        SkipNewlines();
      }
      Close();
      return Some(items);
    }

    method ParsePolicy(items: seq<string>) returns (r: Option<seq<string>>)
      requires Valid()
      modifies this
      ensures Valid() && Agrees(r, AddPolicy(old(Rest()), items), Rest())
    {
      var _ :- Expect(DASH);
      var x :- ParseDottedName();
      return Some(items + [x]);
    }

    method ParsePolicies() returns (r: Option<seq<string>>)
      requires Valid()
      modifies this
      ensures Valid() && Agrees(r, Body(AddPolicy, false, old(Rest()), []), Rest())
    {
      var items: seq<string> := [];
      while !AtEnd()
        invariant Valid() && Body(AddPolicy, false, Rest(), items) == Body(AddPolicy, false, old(Rest()), [])
        decreases Len(Rest())
      {
        BodyLead(AddPolicy, false, Rest(), items);
        Lead(false);
        if AtEnd() {
          break;
        }
        items :- ParsePolicy(items);
        SkipNewlines();
      }
      Close();
      return Some(items);
    }

    method ParseTrigger(items: seq<string>) returns (r: Option<seq<string>>)
      requires Valid()
      modifies this
      ensures Valid() && Agrees(r, AddIdent(old(Rest()), items), Rest())
    {
      var x :- Expect(IDENT);
      return Some(items + [x]);
    }

    method ParseTriggers() returns (r: Option<seq<string>>)
      requires Valid()
      modifies this
      ensures Valid() && Agrees(r, Body(AddIdent, false, old(Rest()), []), Rest())
    {
      var items: seq<string> := [];
      while !AtEnd()
        invariant Valid() && Body(AddIdent, false, Rest(), items) == Body(AddIdent, false, old(Rest()), [])
        decreases Len(Rest())
      {
        BodyLead(AddIdent, false, Rest(), items);
        Lead(false);
        if AtEnd() {
          break;
        }
        items :- ParseTrigger(items);
        SkipNewlines();
      }
      Close();
      return Some(items);
    }

    method AppendSituation(items: seq<Situation>) returns (r: Option<seq<Situation>>)
      requires Valid()
      modifies this
      ensures Valid() && Agrees(r, AddSituation(old(Rest()), items), Rest())
    {
      var x :- ParseSituation();
      return Some(items + [x]);
    }

    method ParseSituations() returns (r: Option<seq<Situation>>)
      requires Valid()
      modifies this
      ensures Valid() && Agrees(r, Body(AddSituation, false, old(Rest()), []), Rest())
    {
      var items: seq<Situation> := [];
      while !AtEnd()
        invariant Valid() && Body(AddSituation, false, Rest(), items) == Body(AddSituation, false, old(Rest()), [])
        decreases Len(Rest())
      {
        BodyLead(AddSituation, false, Rest(), items);
        Lead(false);
        if AtEnd() {
          break;
        }
        items :- AppendSituation(items);
        SkipNewlines();
      }
      Close();
      return Some(items);
    }

    method AppendRole(items: seq<Role>) returns (r: Option<seq<Role>>)
      requires Valid()
      modifies this
      ensures Valid() && Agrees(r, AddRole(old(Rest()), items), Rest())
    {
      var x :- ParseRole();
      return Some(items + [x]);
    }

    method ParseRoles() returns (r: Option<seq<Role>>)
      requires Valid()
      modifies this
      ensures Valid() && Agrees(r, Body(AddRole, false, old(Rest()), []), Rest())
    {
      var items: seq<Role> := [];
      while !AtEnd()
        invariant Valid() && Body(AddRole, false, Rest(), items) == Body(AddRole, false, old(Rest()), [])
        decreases Len(Rest())
      {
        BodyLead(AddRole, false, Rest(), items);
        Lead(false);
        if AtEnd() {
          break;
        }
        items :- AppendRole(items);
        SkipNewlines();
      }
      Close();
      return Some(items);
    }

    method ParseSchemas() returns (r: Option<seq<SchemaRef>>)
      requires Valid()
      modifies this
      ensures Valid() && Agrees(r, Schemas(old(Rest())), Rest())
    {
      var _ :- Expect(COLON);
      if Kind() != NEWLINE {
        var x :- ParseSchema();
        SkipNewlines();
        return Some([x]);
      }
      SkipNewlines();
      var _ :- Expect(INDENT);
      r := ParseSchemaBlock();
    }

    method ParseSchemaItem(items: seq<SchemaRef>) returns (r: Option<seq<SchemaRef>>)
      requires Valid()
      modifies this
      ensures Valid() && Agrees(r, AddSchema(old(Rest()), items), Rest())
    {
      var _ :- Expect(DASH);
      var x :- ParseSchema();
      return Some(items + [x]);
    }

    /** The block form, entered after its indentation. */
    method ParseSchemaBlock() returns (r: Option<seq<SchemaRef>>)
      requires Valid()
      modifies this
      ensures Valid() && Agrees(r, Body(AddSchema, false, old(Rest()), []), Rest())
    {
      var items: seq<SchemaRef> := [];
      while !AtEnd()
        invariant Valid() && Body(AddSchema, false, Rest(), items) == Body(AddSchema, false, old(Rest()), [])
        decreases Len(Rest())
      {
        BodyLead(AddSchema, false, Rest(), items);
        Lead(false);
        if AtEnd() {
          break;
        }
        items :- ParseSchemaItem(items);
        SkipNewlines();
      }
      Close();
      return Some(items);
    }

    method ParseSection(seen: set<Kind>, c: Charter) returns (r: Option<Charter>)
      requires Valid()
      modifies this
      ensures Valid() && Agrees(r, Section(old(Rest()), seen, c), Rest())
    {
      if Kind() in seen {
        return None;
      }
      if Kind() == WORKFLOW {
        var x :- ParseWorkflow();
        return Some(c.(workflows := c.workflows + [x]));
      } else if Kind() == SITUATIONS {
        var _ := Advance();
        var _ :- Open();
        var x :- ParseSituations();
        return Some(c.(situations := x));
      } else if Kind() == ROLES {
        var _ := Advance();
        var _ :- Open();
        var x :- ParseRoles();
        return Some(c.(roles := x));
      }
      r := ParseListSection(c);
    }

    method ParseListSection(c: Charter) returns (r: Option<Charter>)
      requires Valid()
      modifies this
      ensures Valid() && Agrees(r, ListSection(old(Rest()), c), Rest())
    {
      if Kind() == SCHEMAS || Kind() == PACKAGES {
        r := ParseSourceSection(c);
      } else if Kind() == POLICIES {
        var _ := Advance();
        var _ :- Open();
        var x :- ParsePolicies();
        return Some(c.(policies := x));
      } else if Kind() == TRIGGERS {
        var _ := Advance();
        var _ :- Open();
        var x :- ParseTriggers();
        return Some(c.(triggers := x));
      } else {
        return None;
      }
    }

    method ParseSourceSection(c: Charter) returns (r: Option<Charter>)
      requires Valid() && (Kind() == SCHEMAS || Kind() == PACKAGES)
      modifies this
      ensures Valid() && Agrees(r, SourceSection(old(Rest()), c), Rest())
    {
      var k := Kind();
      var _ := Advance();
      if k == SCHEMAS {
        var x :- ParseSchemas();
        return Some(c.(schemas := x));
      } else {
        var _ :- Open();
        var x :- ParsePackages();
        return Some(c.(packages := x));
      }
    }

    /** Parses a whole charter. */
    method Parse() returns (r: Option<Charter>)
      requires Valid()
      modifies this
      ensures Valid() && Agrees(r, CharterText(old(Rest())), Rest())
      ensures r.Some? ==> WfCharter(r.value)
    {
      SkipNewlines();
      var head :- ParseHeader();
      SkipNewlines();
      ghost var start := Rest();
      var c := NewCharter(head.0, head.1);
      var seen: set<Kind> := {};
      while Kind() != EOF
        invariant Valid() && Sections(Rest(), seen, c) == Sections(start, {}, NewCharter(head.0, head.1))
        decreases Len(Rest())
      {
        SkipNewlines();
        if Kind() == EOF {
          break;
        }
        var k := Kind();
        c :- ParseSection(seen, c);
        seen := Seen(k, seen);
        SkipNewlines();
      }
      return Some(c);
    }
  }

  /** What the lexer leaves is what the parser takes. */
  lemma LexedTerminates(tokens: seq<Token>)
    requires CharterLexer.Ended(tokens)
    ensures Terminated(tokens)
    ensures forall i :: 0 <= i < |tokens| && tokens[i].kind == INT ==> ParseNat(tokens[i].text).Some?
  {
    var n := |tokens| - 1;
    forall i | 0 <= i < n ensures tokens[i].kind != EOF && (tokens[i].kind == INT ==> IsNumeral(tokens[i].text)) {
      assert tokens[i] == tokens[..n][i];
    }
  }

  lemma {:induction false} FromListing(ts: Toks, done: seq<Token>)
    ensures From(done + Listing(ts), |done|) == ts
    decreases ts
  {
    var tokens := done + Listing(ts);
    if ts.Tok? {
      FromListing(ts.tail, done + [ts.head]);
      assert tokens == done + [ts.head] + Listing(ts.tail);
    }
  }

  /** A charter's text lexes to tokens that parse to the charter. */
  lemma WrittenParses(c: Charter)
    requires Writable(c)
    ensures var lexed := CharterLexer.Lex(Write(c));
      lexed.Some? && CharterText(From(lexed.value, 0)) == Ok(c, Printer.Put(EOF, "", End))
  {
    WrittenLexes(c);
    FromListing(Printer.Print(c), []);
    assert [] + Listing(Printer.Print(c)) == Listing(Printer.Print(c));
    Printer.RoundTrip(c);
  }

  lemma {:induction false} NewlinesAhead(tokens: seq<Token>, j: nat, n: nat)
    requires j <= n <= |tokens| && forall i :: j <= i < n ==> tokens[i].kind == NEWLINE
    ensures Grammar.SkipNewlines(From(tokens, j)) == Grammar.SkipNewlines(From(tokens, n))
    decreases n - j
  {
    if j < n {
      NewlinesAhead(tokens, j + 1, n);
    }
  }

  /** Line ends before a charter are not looked at. */
  lemma CharterAhead(a: Toks, b: Toks, r: Parse<Charter>)
    requires Grammar.SkipNewlines(a) == Grammar.SkipNewlines(b) && CharterText(b) == r
    ensures CharterText(a) == r
  {
  }

  lemma FromLineEnds(fs: seq<Filler>, ts: Toks)
    ensures Grammar.SkipNewlines(From(LineEnds(fs) + Listing(ts), 0)) == Grammar.SkipNewlines(ts)
  {
    var tokens, n := LineEnds(fs) + Listing(ts), |LineEnds(fs)|;
    FromListing(ts, LineEnds(fs));
    forall i | 0 <= i < n ensures tokens[i].kind == NEWLINE {
      OnlyLineEnds(fs, i);
    }
    NewlinesAhead(tokens, 0, n);
  }

  /** Comment and blank lines before a charter's text change nothing. */
  lemma CommentedParses(fs: seq<Filler>, c: Charter)
    requires Proper(fs) && Writable(c)
    ensures var lexed := CharterLexer.Lex(Leading(fs) + Write(c));
      lexed.Some? && CharterText(From(lexed.value, 0)) == Ok(c, Printer.Put(EOF, "", End))
  {
    var ts := Printer.Print(c);
    WrittenLexes(c);
    assert Listing(ts)[0] == ts.head;
    LexLeading(fs, Write(c));
    FromLineEnds(fs, ts);
    Printer.RoundTrip(c);
    CharterAhead(From(LineEnds(fs) + Listing(ts), 0), ts, Ok(c, Printer.Put(EOF, "", End)));
  }

  /** The text of a charter with proper names and no empty block, after any comment and blank lines. */
  ghost predicate SourceOf(source: string, c: Charter) {
    WfCharter(c) && Filled(c) && Named(c) && exists fs :: Proper(fs) && source == Leading(fs) + Write(c)
  }

  lemma SourceParses(source: string, c: Charter)
    requires SourceOf(source, c)
    ensures var lexed := CharterLexer.Lex(source);
      lexed.Some? && CharterText(From(lexed.value, 0)) == Ok(c, Printer.Put(EOF, "", End))
  {
    NamedIff(c);
    var fs :| Proper(fs) && source == Leading(fs) + Write(c);
    CommentedParses(fs, c);
  }

  /**
   * Lexes and parses a source text. Whatever it returns is well formed and survives printing and
   * parsing again, and the text of a charter, after any comment and blank lines, gives that charter.
   */
  method ParseCharter(source: string) returns (r: Option<Charter>)
    ensures var lexed := CharterLexer.Lex(source);
      if lexed.Some? && Terminated(lexed.value) && CharterText(From(lexed.value, 0)).Ok?
      then r == Some(CharterText(From(lexed.value, 0)).value) else r.None?
    ensures r.Some? ==>
            WfCharter(r.value) && CharterText(Printer.Print(r.value)) == Ok(r.value, Printer.Put(EOF, "", End))
    ensures forall c :: SourceOf(source, c) ==> r == Some(c)
  {
    forall c | SourceOf(source, c)
      ensures CharterLexer.Lex(source).Some?
      ensures CharterText(From(CharterLexer.Lex(source).value, 0)) == Ok(c, Printer.Put(EOF, "", End))
    {
      SourceParses(source, c);
    }
    var lexer := new CharterLexer.Lexer(source);
    var lexed := lexer.Tokenize();
    if lexed.LexError? {
      return None;
    }
    LexedTerminates(lexed.tokens);
    r := ParseTokens(lexed.tokens);
  }

  /** Parses a token list: exactly what the grammar accepts, and the canonical printing of a charter to that charter. */
  method ParseTokens(tokens: seq<Token>) returns (r: Option<Charter>)
    requires Terminated(tokens)
    ensures var g := CharterText(From(tokens, 0)); if g.Ok? then r == Some(g.value) else r.None?
    ensures forall c :: WfCharter(c) && From(tokens, 0) == Printer.Print(c) ==> r == Some(c)
    ensures r.Some? ==>
            WfCharter(r.value) && CharterText(Printer.Print(r.value)) == Ok(r.value, Printer.Put(EOF, "", End))
  {
    var parser := new Parser(tokens);
    r := parser.Parse();
    forall c | WfCharter(c) && From(tokens, 0) == Printer.Print(c) ensures r == Some(c) {
      Printer.RoundTrip(c);
    }
    if r.Some? {
      Printer.RoundTrip(r.value);
    }
  }
}
