/** The lexical elements of the charter language. */
module Tokens {
  import opened Options

  datatype Kind =
    | CHARTER | SCHEMAS | PACKAGES | POLICIES | TRIGGERS | WORKFLOW | PHASE | REQUIRE | AWAIT | ACTION | OUTPUT
    | CERTIFY | EVIDENCE | GRANTS | FOR | SITUATIONS | WHEN | WAITING_PERIOD | ROLES | BREAK_GLASS | REQUIRES_MFA
    | ACTIONS | IMMUTABLE | DAYS | HOURS | PASSED | COMPLETE | TRUE | FALSE | OR
    | IDENT | STRING | DOCSTRING | INT | FLOAT
    | COLON | COMMA | DOT | DOTDOT | LPAREN | RPAREN | LBRACKET | RBRACKET | AT | DASH
    | EQ | NEQ | GT | GTE | LT | LTE
    | INDENT | DEDENT | NEWLINE | EOF

  datatype Token = Token(kind: Kind, text: string)

  const KEYWORDS: map<string, Kind> := map[
    "charter" := CHARTER, "schemas" := SCHEMAS, "packages" := PACKAGES, "policies" := POLICIES, "triggers" := TRIGGERS,
    "workflow" := WORKFLOW, "phase" := PHASE, "require" := REQUIRE, "await" := AWAIT, "action" := ACTION,
    "output" := OUTPUT, "certify" := CERTIFY, "evidence" := EVIDENCE, "grants" := GRANTS, "for" := FOR,
    "situations" := SITUATIONS, "when" := WHEN, "waiting_period" := WAITING_PERIOD, "roles" := ROLES,
    "break_glass" := BREAK_GLASS, "requires_mfa" := REQUIRES_MFA, "actions" := ACTIONS, "immutable" := IMMUTABLE,
    "days" := DAYS, "hours" := HOURS, "passed" := PASSED, "complete" := COMPLETE, "true" := TRUE, "false" := FALSE,
    "or" := OR
  ]

  /** The token of a word: a keyword if it is one, an identifier otherwise. */
  function WordKind(word: string): Kind {
    if word in KEYWORDS then KEYWORDS[word] else IDENT
  }

  function Word(word: string): Token {
    Token(WordKind(word), word)
  }

  /** What is left of a token list; past the last token everything reads as EOF. */
  datatype Toks = End | Tok(head: Token, tail: Toks) {
    function Kind(): Kind {
      if End? then EOF else head.kind
    }

    function Text(): string {
      if End? then "" else head.text
    }

    function Rest(): Toks {
      if End? then End else tail
    }
  }

  function Len(ts: Toks): nat {
    if ts.End? then 0 else 1 + Len(ts.tail)
  }

  // ------------------------------------------------------------------ decimal numerals

  predicate IsDigit(c: char) {
    '0' <= c <= '9'
  }

  function DigitValue(c: char): (d: nat)
    requires IsDigit(c)
    ensures d < 10
  {
    c as int - '0' as int
  }

  function DigitChar(d: nat): (c: char)
    requires d < 10
    ensures IsDigit(c) && DigitValue(c) == d
  {
    "0123456789"[d]
  }

  predicate AllDigits(text: string) {
    forall i :: 0 <= i < |text| ==> IsDigit(text[i])
  }

  predicate IsNumeral(text: string) {
    text != [] && AllDigits(text)
  }

  function NumeralValue(text: string): nat
    requires AllDigits(text)
  {
    if text == [] then 0 else NumeralValue(text[..|text| - 1]) * 10 + DigitValue(text[|text| - 1])
  }

  /** The value of an integer literal; nothing else converts. */
  function ParseNat(text: string): Option<int> {
    if IsNumeral(text) then Some(NumeralValue(text)) else None
  }

  function NatText(n: nat): (text: string)
    ensures IsNumeral(text)
  {
    (if n < 10 then "" else NatText(n / 10)) + [DigitChar(n % 10)]
  }

  lemma {:induction false} NatTextParses(n: nat)
    ensures ParseNat(NatText(n)) == Some(n)
  {
    var text := NatText(n);
    if n >= 10 {
      NatTextParses(n / 10);
      assert text[..|text| - 1] == NatText(n / 10);
    } else {
      assert text == [DigitChar(n)] && NumeralValue(text[..0]) == 0;
    }
  }

  // ------------------------------------------------------------------ dotted names

  /** The parts of a name between its dots. */
  function Split(name: string): (parts: seq<string>)
    ensures parts != []
  {
    if name == [] then [[]]
    else
      var rest := Split(name[1..]);
      if name[0] == '.' then [[]] + rest else [[name[0]] + rest[0]] + rest[1..]
  }

  function Join(parts: seq<string>): string {
    if parts == [] then [] else if |parts| == 1 then parts[0] else parts[0] + "." + Join(parts[1..])
  }

  lemma {:induction false} JoinSplit(name: string)
    ensures Join(Split(name)) == name
  {
    if name != [] {
      var rest := Split(name[1..]);
      JoinSplit(name[1..]);
      assert name == [name[0]] + name[1..];
      if name[0] == '.' {
        assert ([[]] + rest)[1..] == rest;
      } else {
        var parts := [[name[0]] + rest[0]] + rest[1..];
        assert parts[1..] == rest[1..];
      }
    }
  }
}
