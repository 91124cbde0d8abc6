/**
 * The indentation-aware tokenizer: a position that moves through the text, a stack of indentation
 * levels, and the tokens emitted so far.
 */
module CharterLexer {
  import opened Options
  import opened Digraph
  import opened Tokens

  // ------------------------------------------------------------------ positions

  function LineOf(text: string, p: nat): nat
    requires p <= |text|
  {
    if p == 0 then 1 else LineOf(text, p - 1) + if text[p - 1] == '\n' then 1 else 0
  }

  function ColumnOf(text: string, p: nat): nat
    requires p <= |text|
  {
    if p == 0 || text[p - 1] == '\n' then 1 else ColumnOf(text, p - 1) + 1
  }

  // ------------------------------------------------------------------ string literals

  predicate IsQuote(c: char) {
    c == '"' || c == '\''
  }

  function Unescape(c: char): char {
    if c == 'n' then '\n' else if c == 't' then '\t' else if c == 'r' then '\r' else c
  }

  function Prepend(c: char, r: Option<(string, nat)>): Option<(string, nat)> {
    if r.Some? then Some(([c] + r.value.0, r.value.1)) else None
  }

  /** The value of a string literal from inside its quotes on, and the position after it. */
  function StringBody(text: string, i: nat, quote: char): Option<(string, nat)>
    decreases |text| - i
  {
    if i >= |text| then None
    else if text[i] == quote then Some(("", i + 1))
    else if text[i] != '\\' then Prepend(text[i], StringBody(text, i + 1, quote))
    else if i + 1 >= |text| then None
    else Prepend(Unescape(text[i + 1]), StringBody(text, i + 2, quote))
  }

  predicate Triple(text: string, i: nat, quote: char) {
    i + 2 < |text| && text[i] == quote && text[i + 1] == quote && text[i + 2] == quote
  }

  /** The text up to the next three quotes, and the position after them. */
  function DocBody(text: string, i: nat, quote: char): Option<(string, nat)>
    decreases |text| - i
  {
    if i >= |text| then None
    else if Triple(text, i, quote) then Some(("", i + 3))
    else Prepend(text[i], DocBody(text, i + 1, quote))
  }

  /** A docstring's value is the text itself up to the first three quotes in a row. */
  lemma {:induction false} DocBodyMeans(text: string, i: nat, quote: char)
    requires i <= |text|
    ensures var r := DocBody(text, i, quote);
      && (r.None? <==> forall k :: i <= k ==> !Triple(text, k, quote))
      && (r.Some? ==> i + 3 <= r.value.1 <= |text| && r.value.0 == text[i..r.value.1 - 3])
      && (r.Some? ==> Triple(text, r.value.1 - 3, quote))
      && (r.Some? ==> forall k :: i <= k < r.value.1 - 3 ==> !Triple(text, k, quote))
    decreases |text| - i
  {
    if i < |text| && !Triple(text, i, quote) {
      DocBodyMeans(text, i + 1, quote);
      var rest := DocBody(text, i + 1, quote);
      if rest.Some? {
        assert text[i..rest.value.1 - 3] == [text[i]] + text[i + 1..rest.value.1 - 3];
      }
    }
  }

  function EscapeChar(c: char, quote: char): (e: string)
    ensures e != []
  {
    if c == '\n' then "\\n" else if c == '\t' then "\\t" else if c == '\r' then "\\r"
    else if c == '\\' || c == quote then ['\\', c] else [c]
  }

  function Escape(v: string, quote: char): string {
    if v == [] then [] else EscapeChar(v[0], quote) + Escape(v[1..], quote)
  }

  /** A value as a literal between quotes. */
  function Literal(v: string, quote: char): string {
    [quote] + Escape(v, quote) + [quote]
  }

  /** The text reads `s` at position `i`. */
  ghost predicate ReadsAt(text: string, i: nat, s: string) {
    i + |s| <= |text| && text[i..i + |s|] == s
  }

  /** One escaped character reads as itself. */
  lemma EscapedCharReads(text: string, i: nat, c: char, quote: char)
    requires IsQuote(quote) && ReadsAt(text, i, EscapeChar(c, quote))
    ensures StringBody(text, i, quote) == Prepend(c, StringBody(text, i + |EscapeChar(c, quote)|, quote))
  {
    var e := EscapeChar(c, quote);
    assert text[i] == e[0];
    if |e| == 2 {
      assert text[i + 1] == e[1];
    }
  }

  lemma ReadsBoth(text: string, i: nat, a: string, b: string)
    requires ReadsAt(text, i, a + b)
    ensures ReadsAt(text, i, a) && ReadsAt(text, i + |a|, b)
  {
    var all := text[i..i + |a| + |b|];
    assert text[i..i + |a|] == all[..|a|] && text[i + |a|..i + |a| + |b|] == all[|a|..];
  }

  lemma {:induction false} EscapedReads(text: string, i: nat, v: string, quote: char)
    requires IsQuote(quote) && ReadsAt(text, i, Escape(v, quote) + [quote])
    ensures StringBody(text, i, quote) == Some((v, i + |Escape(v, quote)| + 1))
    decreases |v|
  {
    if v == [] {
      assert text[i] == text[i..i + 1][0];
    } else {
      var n := |EscapeChar(v[0], quote)|;
      EscapeSplit(text, i, v, quote);
      EscapedReads(text, i + n, v[1..], quote);
      EscapedStep(text, i, v, quote, i + n + |Escape(v[1..], quote)| + 1);
    }
  }

  lemma EscapedStep(text: string, i: nat, v: string, quote: char, next: nat)
    requires IsQuote(quote) && v != [] && ReadsAt(text, i, EscapeChar(v[0], quote))
    requires StringBody(text, i + |EscapeChar(v[0], quote)|, quote) == Some((v[1..], next))
    ensures StringBody(text, i, quote) == Some((v, next))
  {
    EscapedCharReads(text, i, v[0], quote);
    PrependHead(v, next);
  }

  lemma EscapeHead(v: string, quote: char, e: string, rest: string)
    requires v != [] && e == EscapeChar(v[0], quote) && rest == Escape(v[1..], quote)
    ensures Escape(v, quote) == e + rest
  {
  }

  lemma EscapeSplit(text: string, i: nat, v: string, quote: char)
    requires v != [] && ReadsAt(text, i, Escape(v, quote) + [quote])
    ensures var e := EscapeChar(v[0], quote);
      && |Escape(v, quote)| == |e| + |Escape(v[1..], quote)|
      && ReadsAt(text, i, e) && ReadsAt(text, i + |e|, Escape(v[1..], quote) + [quote])
  {
    var e, rest := EscapeChar(v[0], quote), Escape(v[1..], quote);
    EscapeHead(v, quote, e, rest);
    ReadsSplit(text, i, e, rest, [quote]);
  }

  lemma ReadsSplit(text: string, i: nat, a: string, b: string, c: string)
    requires ReadsAt(text, i, (a + b) + c)
    ensures ReadsAt(text, i, a) && ReadsAt(text, i + |a|, b + c)
  {
    Regroup(a, b, c);
    ReadsBoth(text, i, a, b + c);
  }

  lemma Regroup(a: string, b: string, c: string)
    ensures (a + b) + c == a + (b + c)
  {
  }

  lemma PrependHead(v: string, next: nat)
    requires v != []
    ensures Prepend(v[0], Some((v[1..], next))) == Some((v, next))
  {
    assert [v[0]] + v[1..] == v;
  }

  datatype StringResult = StringToken(value: string, next: nat) | DocToken(value: string, next: nat) | Unterminated

  /** What reading a literal at position `i` gives: three quotes in a row open a docstring. */
  function ReadLiteral(text: string, i: nat): StringResult
    requires i < |text|
  {
    if Triple(text, i, text[i]) then
      match DocBody(text, i + 3, text[i])
      case None => Unterminated
      case Some((v, next)) => DocToken(v, next)
    else
      match StringBody(text, i + 1, text[i])
      case None => Unterminated
      case Some((v, next)) => StringToken(v, next)
  }

  /**
   * An escaped literal reads back as its value, whatever follows it, except that an empty literal
   * directly followed by one more quote opens a docstring.
   */
  lemma LiteralRoundTrip(pre: string, v: string, quote: char, rest: string)
    requires IsQuote(quote)
    ensures ReadLiteral(pre + Literal(v, quote) + rest, |pre|) == StringToken(v, |pre| + |Literal(v, quote)|)
            <==> !(v == [] && rest != [] && rest[0] == quote)
  {
    var text, i := pre + Literal(v, quote) + rest, |pre|;
    var esc := Escape(v, quote);
    assert text[i] == quote && ReadsAt(text, i + 1, esc + [quote]);
    EscapedReads(text, i + 1, v, quote);
    if v == [] {
      assert esc == [] && (rest != [] ==> text[i + 2] == rest[0]);
    } else {
      assert text[i + 1] == esc[0] && esc[0] == EscapeChar(v[0], quote)[0];
    }
  }

  // ------------------------------------------------------------------ indentation

  ghost predicate Increasing(s: seq<nat>) {
    forall i, j :: 0 <= i < j < |s| ==> s[i] < s[j]
  }

  /** The levels still open after lines of these indentations: those no later line has dropped below. */
  ghost function Levels(lines: seq<nat>): set<nat> {
    {0} + set i | 0 <= i < |lines| && (forall j :: i < j < |lines| ==> lines[i] <= lines[j]) :: lines[i]
  }

  /** The levels open after one more line. */
  ghost function Keep(levels: set<nat>, level: nat): set<nat> {
    (set v | v in levels && v <= level) + {level}
  }

  lemma LevelsStep(lines: seq<nat>, level: nat)
    ensures Levels(lines + [level]) == Keep(Levels(lines), level)
  {
    var longer := lines + [level];
    forall v | v in Levels(longer) && v != 0 ensures v == level || (v in Levels(lines) && v <= level) {
      var i :| 0 <= i < |longer| && longer[i] == v && forall j :: i < j < |longer| ==> longer[i] <= longer[j];
      if i < |lines| {
        assert longer[|lines|] == level;
        assert lines[i] == v;
        forall j | i < j < |lines| ensures lines[i] <= lines[j] {
          assert longer[j] == lines[j];
        }
      }
    }
    forall v | v in Levels(lines) && v <= level && v != 0 ensures v in Levels(longer) {
      var i :| 0 <= i < |lines| && lines[i] == v && forall j :: i < j < |lines| ==> lines[i] <= lines[j];
      assert longer[i] == v;
    }
    assert longer[|lines|] == level;
  }

  function Depth(tokens: seq<Token>): int {
    if tokens == [] then 0
    else
      var last := tokens[|tokens| - 1].kind;
      Depth(tokens[..|tokens| - 1]) + if last == INDENT then 1 else if last == DEDENT then -1 else 0
  }

  /** No DEDENT comes before its INDENT. */
  ghost predicate NeverNegative(tokens: seq<Token>) {
    forall k :: 0 <= k <= |tokens| ==> Depth(tokens[..k]) >= 0
  }

  ghost predicate Balanced(tokens: seq<Token>) {
    NeverNegative(tokens) && Depth(tokens) == 0
  }

  /** The stack holds exactly the open levels, lowest first, and each but the bottom one has its INDENT. */
  ghost predicate Nested(tokens: seq<Token>, stack: seq<nat>, lines: seq<nat>) {
    && |stack| > 0 && stack[0] == 0 && Increasing(stack) && Elems(stack) == Levels(lines)
    && NeverNegative(tokens) && Depth(tokens) == |stack| - 1
  }

  lemma DepthAppend(tokens: seq<Token>, t: Token)
    requires NeverNegative(tokens) && (t.kind == DEDENT ==> Depth(tokens) > 0)
    ensures NeverNegative(tokens + [t])
    ensures Depth(tokens + [t]) == Depth(tokens) + if t.kind == INDENT then 1 else if t.kind == DEDENT then -1 else 0
  {
    var longer := tokens + [t];
    assert longer[..|tokens|] == tokens && tokens[..|tokens|] == tokens;
    forall k | 0 <= k <= |longer| ensures Depth(longer[..k]) >= 0 {
      if k <= |tokens| {
        assert longer[..k] == tokens[..k];
      } else {
        assert longer[..k] == longer;
      }
    }
  }

  /** A token that is not about indentation leaves the nesting alone. */
  lemma PlainAppend(tokens: seq<Token>, stack: seq<nat>, lines: seq<nat>, t: Token)
    requires Nested(tokens, stack, lines) && t.kind != INDENT && t.kind != DEDENT
    ensures Nested(tokens + [t], stack, lines)
  {
    DepthAppend(tokens, t);
  }

  function Dedents(n: nat): (ts: seq<Token>)
    ensures |ts| == n && forall i :: 0 <= i < n ==> ts[i] == Token(DEDENT, "")
  {
    seq(n, _ => Token(DEDENT, ""))
  }

  lemma DedentsNext(tokens: seq<Token>, n: nat)
    ensures tokens + Dedents(n) + [Token(DEDENT, "")] == tokens + Dedents(n + 1)
  {
  }

  /** How many levels of the stack stay open for a line at `level`. */
  function Kept(stack: seq<nat>, level: nat): (k: nat)
    ensures k <= |stack| && (k > 0 ==> stack[k - 1] <= level) && forall i :: k <= i < |stack| ==> level < stack[i]
  {
    if stack == [] || stack[|stack| - 1] <= level then |stack| else Kept(stack[..|stack| - 1], level)
  }

  /** The layout tokens of a line at `level`, and the stack after them. */
  function Reindent(stack: seq<nat>, level: nat): Option<(seq<Token>, seq<nat>)> {
    var k := Kept(stack, level);
    if k > 0 && stack[k - 1] == level then Some((Dedents(|stack| - k), stack[..k]))
    else if k == |stack| then Some(([Token(INDENT, "")], stack + [level]))
    else None
  }

  /** The prefix up to the level is what stays. */
  lemma ReindentIs(stack: seq<nat>, level: nat, k: nat)
    requires Increasing(stack) && 0 < k <= |stack| && stack[k - 1] <= level && (k < |stack| ==> level < stack[k])
    ensures stack[k - 1] == level ==> Reindent(stack, level) == Some((Dedents(|stack| - k), stack[..k]))
    ensures stack[k - 1] != level && k == |stack| ==>
            Reindent(stack, level) == Some(([Token(INDENT, "")], stack + [level]))
    ensures stack[k - 1] != level && k < |stack| ==> Reindent(stack, level) == None
  {
    assert forall i :: 0 <= i < k - 1 ==> stack[i] < stack[k - 1];
    assert forall i :: k < i < |stack| ==> stack[k] < stack[i];
    assert Kept(stack, level) == k;
  }

  /** Emits the INDENT or DEDENTs of a line that starts at `level`. */
  method HandleIndentation(tokens: seq<Token>, stack: seq<nat>, level: nat)
    returns (ok: bool, tokens': seq<Token>, stack': seq<nat>)
    requires |stack| > 0 && stack[0] == 0 && Increasing(stack)
    ensures ok <==> Reindent(stack, level).Some?
    ensures ok ==> var r := Reindent(stack, level).value; tokens' == tokens + r.0 && stack' == r.1
  {
    tokens', stack' := tokens, stack;
    if level > stack[|stack| - 1] {
      ReindentIs(stack, level, |stack|);
      return true, tokens + [Token(INDENT, "")], stack + [level];
    }
    while stack'[|stack'| - 1] > level
      invariant 0 < |stack'| <= |stack| && stack' == stack[..|stack'|]
      invariant |stack'| < |stack| ==> level < stack[|stack'|]
      invariant tokens' == tokens + Dedents(|stack| - |stack'|)
      decreases |stack'|
    {
      DedentsNext(tokens, |stack| - |stack'|);
      stack', tokens' := stack'[..|stack'| - 1], tokens' + [Token(DEDENT, "")];
    }
    ReindentIs(stack, level, |stack'|);
    ok := stack'[|stack'| - 1] == level;
  }

  lemma {:induction false} DedentsDepth(tokens: seq<Token>, n: nat)
    requires NeverNegative(tokens) && n <= Depth(tokens)
    ensures NeverNegative(tokens + Dedents(n)) && Depth(tokens + Dedents(n)) == Depth(tokens) - n
  {
    if n == 0 {
      assert tokens + Dedents(0) == tokens;
    } else {
      DedentsDepth(tokens, n - 1);
      DepthAppend(tokens + Dedents(n - 1), Token(DEDENT, ""));
      DedentsNext(tokens, n - 1);
    }
  }

  /**
   * A line at `level` is refused exactly when the level is below the current one and not open;
   * otherwise the stack is again exactly the open levels, this line's included, and stays in step
   * with the tokens.
   */
  lemma ReindentLevels(tokens: seq<Token>, stack: seq<nat>, lines: seq<nat>, level: nat)
    requires Nested(tokens, stack, lines)
    ensures var r := Reindent(stack, level);
      && (r.Some? <==> level in Levels(lines) || level > stack[|stack| - 1])
      && (r.Some? ==> Nested(tokens + r.value.0, r.value.1, lines + [level]))
  {
    var k := Kept(stack, level);
    assert k > 0 by {
      assert stack[0] <= level;
    }
    ReindentIs(stack, level, k);
    Popped(stack, k, lines, level);
    if stack[k - 1] == level {
      DedentsDepth(tokens, |stack| - k);
    } else if k == |stack| {
      Pushed(tokens, stack, lines, level);
    }
  }

  lemma Pushed(tokens: seq<Token>, stack: seq<nat>, lines: seq<nat>, level: nat)
    requires Nested(tokens, stack, lines) && level > stack[|stack| - 1]
    ensures Nested(tokens + [Token(INDENT, "")], stack + [level], lines + [level])
  {
    DepthAppend(tokens, Token(INDENT, ""));
    KeepAll(stack, level);
    LevelsStep(lines, level);
  }

  lemma Popped(stack: seq<nat>, k: nat, lines: seq<nat>, level: nat)
    requires Increasing(stack) && Elems(stack) == Levels(lines)
    requires 0 < k <= |stack| && stack[k - 1] <= level && (k < |stack| ==> level < stack[k])
    ensures stack[k - 1] == level <==> level in Levels(lines)
    ensures stack[k - 1] == level ==> Elems(stack[..k]) == Levels(lines + [level])
  {
    KeepPrefix(stack, k, level);
    LevelsStep(lines, level);
  }

  lemma KeepAll(stack: seq<nat>, level: nat)
    requires |stack| > 0 && Increasing(stack) && level > stack[|stack| - 1]
    ensures Elems(stack + [level]) == Keep(Elems(stack), level) && Increasing(stack + [level])
  {
    forall v | v in Elems(stack) ensures v <= level {
      var i := MemberAt(v, stack);
    }
    ElemsAppend(stack, level);
  }

  /** The levels up to the given one are a prefix of the stack, which ends in the level exactly when it is open. */
  lemma KeepPrefix(stack: seq<nat>, k: nat, level: nat)
    requires Increasing(stack) && 0 < k <= |stack| && stack[k - 1] <= level && (k < |stack| ==> level < stack[k])
    ensures stack[k - 1] == level <==> level in Elems(stack)
    ensures stack[k - 1] == level ==> Elems(stack[..k]) == Keep(Elems(stack), level)
  {
    assert forall i :: k < i < |stack| ==> stack[k] < stack[i];
    forall v | v in Elems(stack) && v <= level ensures v in Elems(stack[..k]) {
      var i := MemberAt(v, stack);
      assert stack[..k][i] == v;
    }
    forall v | v in Elems(stack[..k]) ensures v in Elems(stack) && v <= level {
      var i := MemberAt(v, stack[..k]);
      assert stack[i] == v;
    }
    if level in Elems(stack) {
      var i := MemberAt(level, stack[..k]);
    }
  }

  /** Emits a DEDENT for every level still open. */
  method EmitRemainingDedents(tokens: seq<Token>, stack: seq<nat>) returns (tokens': seq<Token>)
    requires |stack| > 0
    ensures tokens' == tokens + Dedents(|stack| - 1)
  {
    tokens' := tokens;
    var depth := |stack|;
    while depth > 1
      invariant 1 <= depth <= |stack| && tokens' == tokens + Dedents(|stack| - depth)
    {
      DedentsNext(tokens, |stack| - depth);
      tokens', depth := tokens' + [Token(DEDENT, "")], depth - 1;
    }
  }

  // ------------------------------------------------------------------ one token

  predicate IsAlpha(c: char) {
    'a' <= c <= 'z' || 'A' <= c <= 'Z'
  }

  predicate IsWordChar(c: char) {
    IsAlpha(c) || IsDigit(c) || c == '_'
  }

  /** The end of the longest run of characters from `i` on that satisfy `p`. */
  function RunEnd(p: char -> bool, text: string, i: nat): (k: nat)
    requires i <= |text|
    ensures i <= k <= |text| && (k < |text| ==> !p(text[k]))
    ensures forall j :: i <= j < k ==> p(text[j])
    decreases |text| - i
  {
    if i < |text| && p(text[i]) then RunEnd(p, text, i + 1) else i
  }

  predicate NotNewline(c: char) {
    c != '\n'
  }

  predicate IsSpace(c: char) {
    c == ' '
  }

  /** Digits, and a fraction if a dot and a digit follow. */
  function NumberEnd(text: string, i: nat): (k: nat)
    requires i <= |text|
    ensures i <= k <= |text|
  {
    var whole := RunEnd(IsDigit, text, i);
    if HasFraction(text, whole) then RunEnd(IsDigit, text, whole + 1) else whole
  }

  predicate HasFraction(text: string, k: nat) {
    k + 1 < |text| && text[k] == '.' && IsDigit(text[k + 1])
  }

  function NumberKind(text: string, i: nat): Kind
    requires i <= |text|
  {
    if HasFraction(text, RunEnd(IsDigit, text, i)) then FLOAT else INT
  }

  datatype Scan = Emit(token: Token, next: nat) | Skip(next: nat) | Bad

  function PairKind(a: char, b: char): Option<Kind> {
    if a == '.' && b == '.' then Some(DOTDOT) else if a == '=' && b == '=' then Some(EQ)
    else if a == '!' && b == '=' then Some(NEQ)
    else if a == '>' && b == '=' then Some(GTE) else if a == '<' && b == '=' then Some(LTE) else None
  }

  function SingleKind(c: char): Option<Kind> {
    if c == ':' then Some(COLON) else if c == ',' then Some(COMMA) else if c == '.' then Some(DOT)
    else if c == '(' then Some(LPAREN) else if c == ')' then Some(RPAREN) else if c == '[' then Some(LBRACKET)
    else if c == ']' then Some(RBRACKET) else if c == '@' then Some(AT) else if c == '-' then Some(DASH)
    else if c == '>' then Some(GT) else if c == '<' then Some(LT) else None
  }

  /** Operators and punctuation. */
  function Operator(text: string, i: nat): Scan
    requires i < |text|
  {
    if i + 1 < |text| && PairKind(text[i], text[i + 1]).Some?
    then Emit(Token(PairKind(text[i], text[i + 1]).value, [text[i], text[i + 1]]), i + 2)
    else if SingleKind(text[i]).Some? then Emit(Token(SingleKind(text[i]).value, [text[i]]), i + 1)
    else Bad
  }

  /** The operators and punctuation of the language and how they are spelled. */
  predicate Spelled(k: Kind, s: string) {
    || (k == DOTDOT && s == "..") || (k == EQ && s == "==") || (k == NEQ && s == "!=")
    || (k == GTE && s == ">=") || (k == LTE && s == "<=")
    || (k == COLON && s == ":") || (k == COMMA && s == ",") || (k == DOT && s == ".")
    || (k == LPAREN && s == "(") || (k == RPAREN && s == ")")
    || (k == LBRACKET && s == "[") || (k == RBRACKET && s == "]") || (k == AT && s == "@") || (k == DASH && s == "-")
    || (k == GT && s == ">") || (k == LT && s == "<")
  }

  lemma SpelledKinds(k: Kind, s: string)
    requires Spelled(k, s)
    ensures |s| == 1 ==> SingleKind(s[0]) == Some(k)
    ensures |s| == 2 ==> PairKind(s[0], s[1]) == Some(k)
    ensures |s| == 1 || |s| == 2
  {
  }

  /** Of all spellings that stand at a position the longest is taken, and none stands there when the scan fails. */
  lemma OperatorLongest(text: string, i: nat, k: Kind, s: string)
    requires i < |text| && Spelled(k, s) && ReadsAt(text, i, s)
    ensures var r := Operator(text, i);
      r.Emit? && |s| <= |r.token.text| && (|s| == |r.token.text| ==> r.token == Token(k, s))
  {
    SpelledKinds(k, s);
    assert s[0] == text[i..i + |s|][0] && text[i] == s[0];
    if |s| == 2 {
      assert s[1] == text[i..i + 2][1] && text[i + 1] == s[1];
      assert s == [text[i], text[i + 1]];
    } else {
      assert s == [text[i]];
    }
  }

  lemma PairSpelled(a: char, b: char, s: string)
    requires s == [a, b] && PairKind(a, b).Some?
    ensures Spelled(PairKind(a, b).value, s)
  {
  }

  lemma SingleSpelled(a: char, s: string)
    requires s == [a] && SingleKind(a).Some?
    ensures Spelled(SingleKind(a).value, s)
  {
  }

  lemma OperatorSpelled(text: string, i: nat)
    requires i < |text|
    ensures var r := Operator(text, i);
      r.Emit? ==> Spelled(r.token.kind, r.token.text) && ReadsAt(text, i, r.token.text) && r.next == i + |r.token.text|
  {
    if i + 1 < |text| && PairKind(text[i], text[i + 1]).Some? {
      PairSpelled(text[i], text[i + 1], text[i..i + 2]);
    } else if SingleKind(text[i]).Some? {
      SingleSpelled(text[i], text[i..i + 1]);
    }
  }

  function LiteralScan(r: StringResult): Scan {
    match r
    case StringToken(v, next) => Emit(Token(STRING, v), next)
    case DocToken(v, next) => Emit(Token(DOCSTRING, v), next)
    case Unterminated => Bad
  }

  /** What stands at position `i` of a line, once its indentation has been dealt with. */
  function TokenAt(text: string, i: nat): Scan
    requires i < |text|
  {
    var c := text[i];
    if c == '\n' then Emit(Token(NEWLINE, "\n"), i + 1)
    else if c == ' ' || c == '\t' || c == '\r' then Skip(i + 1)
    else if c == '#' then Skip(RunEnd(NotNewline, text, i))
    else if IsQuote(c) then LiteralScan(ReadLiteral(text, i))
    else if IsDigit(c) then Emit(Token(NumberKind(text, i), text[i..NumberEnd(text, i)]), NumberEnd(text, i))
    else if IsAlpha(c) || c == '_' then Emit(Word(text[i..RunEnd(IsWordChar, text, i)]), RunEnd(IsWordChar, text, i))
    else Operator(text, i)
  }

  /** Keywords are their own kinds, never literals, layout or the end. */
  lemma KeywordKinds(word: string)
    ensures var k := WordKind(word);
      k != INT && k != INDENT && k != DEDENT && k != EOF && k != NEWLINE
  {
  }

  /** What every emitted token satisfies: an integer is a numeral, and it is neither layout nor the end. */
  ghost predicate Genuine(t: Token) {
    (t.kind == INT ==> IsNumeral(t.text)) && t.kind != INDENT && t.kind != DEDENT && t.kind != EOF
  }

  lemma {:induction false} StringBodyMoves(text: string, i: nat, quote: char)
    ensures var r := StringBody(text, i, quote); r.Some? ==> i < r.value.1 <= |text|
    decreases |text| - i
  {
    if i < |text| && text[i] != quote {
      StringBodyMoves(text, if text[i] == '\\' then i + 2 else i + 1, quote);
    }
  }

  lemma {:induction false} DocBodyMoves(text: string, i: nat, quote: char)
    ensures var r := DocBody(text, i, quote); r.Some? ==> i < r.value.1 <= |text|
    decreases |text| - i
  {
    if i < |text| && !Triple(text, i, quote) {
      DocBodyMoves(text, i + 1, quote);
    }
  }

  /** The token is genuine and the position moves forward, inside the text. */
  ghost predicate Sound(r: Scan, i: nat, n: nat) {
    (r.Emit? ==> Genuine(r.token)) && (r.Emit? || r.Skip? ==> i < r.next <= n)
  }

  lemma LiteralSound(text: string, i: nat)
    requires i < |text|
    ensures Sound(LiteralScan(ReadLiteral(text, i)), i, |text|)
  {
    StringBodyMoves(text, i + 1, text[i]);
    DocBodyMoves(text, i + 3, text[i]);
  }

  lemma WordSound(text: string, i: nat, k: nat)
    requires i < k <= |text|
    ensures Sound(Emit(Word(text[i..k]), k), i, |text|)
  {
    KeywordKinds(text[i..k]);
  }

  lemma OperatorSound(text: string, i: nat)
    requires i < |text|
    ensures Sound(Operator(text, i), i, |text|)
  {
  }

  lemma NumberSound(text: string, i: nat)
    requires i < |text| && IsDigit(text[i])
    ensures Sound(Emit(Token(NumberKind(text, i), text[i..NumberEnd(text, i)]), NumberEnd(text, i)), i, |text|)
  {
  }

  /** Every token the scanner emits is genuine, and every step moves forward. */
  lemma TokenAtSound(text: string, i: nat)
    requires i < |text|
    ensures Sound(TokenAt(text, i), i, |text|)
  {
    var c := text[i];
    if IsQuote(c) {
      LiteralSound(text, i);
    } else if IsDigit(c) {
      NumberSound(text, i);
    } else if IsAlpha(c) || c == '_' {
      WordSound(text, i, RunEnd(IsWordChar, text, i));
    } else {
      OperatorSound(text, i);
    }
  }

  // ------------------------------------------------------------------ whole texts

  datatype Reason = TabIndent | Inconsistent | NotAToken

  /** The start of a line: nothing to read on it, a blank line, a token after some layout, or an error. */
  datatype LineScan =
    Nothing(next: nat) | Blank(next: nat)
    | Content(next: nat, layout: seq<Token>, stack: seq<nat>) | Broken(reason: Reason)

  /** The start of a line before its indentation is compared with the stack. */
  datatype LineHead = Skipped(next: nat, blank: bool) | Tabbed | Starts(next: nat)

  function HeadAt(text: string, i: nat): (r: LineHead)
    requires i < |text|
    ensures r.Skipped? ==> i < r.next <= |text|
    ensures r.Starts? ==> i <= r.next < |text| && text[r.next] !in {' ', '\t', '\n', '#'}
  {
    var k := RunEnd(IsSpace, text, i);
    if k == |text| then Skipped(k, false)
    else if text[k] == '\t' then Tabbed
    else if text[k] == '\n' then Skipped(k + 1, true)
    else if text[k] == '#' then Skipped(RunEnd(NotNewline, text, k), false)
    else Starts(k)
  }

  function Aligned(next: nat, r: Option<(seq<Token>, seq<nat>)>): LineScan {
    if r.None? then Broken(Inconsistent) else Content(next, r.value.0, r.value.1)
  }

  function LineAt(text: string, i: nat, stack: seq<nat>): (r: LineScan)
    requires i < |text|
    ensures r.Nothing? || r.Blank? ==> i < r.next <= |text|
    ensures r.Content? ==> i <= r.next < |text|
  {
    match HeadAt(text, i)
    case Skipped(next, blank) => if blank then Blank(next) else Nothing(next)
    case Tabbed => Broken(TabIndent)
    case Starts(next) => Aligned(next, Reindent(stack, next - i))
  }

  /** The tokens of the text from position `i` on, after those before it, and the stack they leave. */
  ghost function LexFrom(text: string, i: nat, lineStart: bool, tokens: seq<Token>, stack: seq<nat>):
      Option<(seq<Token>, seq<nat>)>
    decreases |text| - i, lineStart
  {
    if i >= |text| then Some((tokens, stack))
    else if lineStart then
      match LineAt(text, i, stack)
      case Nothing(next) => LexFrom(text, next, false, tokens, stack)
      case Blank(next) => LexFrom(text, next, true, tokens, stack)
      case Content(next, layout, stack') => LexFrom(text, next, false, tokens + layout, stack')
      case Broken(_) => None
    else
      TokenAtSound(text, i);
      match TokenAt(text, i)
      case Bad => None
      case Skip(next) => LexFrom(text, next, false, tokens, stack)
      case Emit(token, next) => LexFrom(text, next, text[i] == '\n', tokens + [token], stack)
  }

  /** One step at the start of a line. */
  lemma LexLine(text: string, i: nat, tokens: seq<Token>, stack: seq<nat>)
    requires i < |text|
    ensures var head := HeadAt(text, i);
      && (head.Tabbed? ==> LexFrom(text, i, true, tokens, stack) == None)
      && (head.Skipped? ==>
          LexFrom(text, i, true, tokens, stack) == LexFrom(text, head.next, head.blank, tokens, stack))
      && (head.Starts? ==> var r := Reindent(stack, head.next - i);
            LexFrom(text, i, true, tokens, stack) ==
            if r.None? then None else LexFrom(text, head.next, false, tokens + r.value.0, r.value.1))
  {
  }

  function LineEnded(tokens: seq<Token>): seq<Token> {
    if tokens != [] && tokens[|tokens| - 1].kind != NEWLINE then tokens + [Token(NEWLINE, "\n")] else tokens
  }

  /** A line end if the last line has none, the DEDENTs still due, and EOF. */
  function Finished(tokens: seq<Token>, stack: seq<nat>): seq<Token> {
    LineEnded(tokens) + Dedents(if stack == [] then 0 else |stack| - 1) + [Token(EOF, "")]
  }

  /** The tokens of a text, or none if it does not lex. */
  ghost function Lex(text: string): Option<seq<Token>> {
    var r :- LexFrom(text, 0, true, [], [0]);
    Some(Finished(r.0, r.1))
  }

  // ------------------------------------------------------------------ the lexer

  datatype LexResult = Lexed(tokens: seq<Token>) | LexError(reason: Reason, line: nat, column: nat)

  ghost predicate AllGenuine(tokens: seq<Token>) {
    forall i :: 0 <= i < |tokens| ==> tokens[i].kind == INDENT || tokens[i].kind == DEDENT || Genuine(tokens[i])
  }

  /** The last token is EOF, and no other is: all before it are genuine or layout. */
  ghost predicate Ended(tokens: seq<Token>) {
    |tokens| > 0 && tokens[|tokens| - 1] == Token(EOF, "") && AllGenuine(tokens[..|tokens| - 1])
  }

  lemma EndAppend(tokens: seq<Token>)
    requires Balanced(tokens) && AllGenuine(tokens)
    ensures Balanced(tokens + [Token(EOF, "")]) && Ended(tokens + [Token(EOF, "")])
  {
    DepthAppend(tokens, Token(EOF, ""));
    assert (tokens + [Token(EOF, "")])[..|tokens|] == tokens;
  }

  /** Closing what is open gives a balanced list that ends in its only EOF. */
  lemma FinishedSound(tokens: seq<Token>, stack: seq<nat>, lines: seq<nat>)
    requires Nested(tokens, stack, lines) && AllGenuine(tokens)
    ensures Balanced(Finished(tokens, stack)) && Ended(Finished(tokens, stack))
  {
    LineEndedSound(tokens);
    ClosedSound(LineEnded(tokens), |stack| - 1);
  }

  lemma LineEndedSound(tokens: seq<Token>)
    requires NeverNegative(tokens) && AllGenuine(tokens)
    ensures var ended := LineEnded(tokens); NeverNegative(ended) && AllGenuine(ended) && Depth(ended) == Depth(tokens)
  {
    DepthAppend(tokens, Token(NEWLINE, "\n"));
    GenuineAppend(tokens, Token(NEWLINE, "\n"));
  }

  lemma GenuineAppend(tokens: seq<Token>, t: Token)
    requires AllGenuine(tokens) && Genuine(t)
    ensures AllGenuine(tokens + [t])
  {
  }

  lemma ClosedSound(tokens: seq<Token>, n: nat)
    requires NeverNegative(tokens) && AllGenuine(tokens) && Depth(tokens) == n
    ensures var closed := tokens + Dedents(n) + [Token(EOF, "")]; Balanced(closed) && Ended(closed)
  {
    DedentsDepth(tokens, n);
    LayoutGenuine(tokens, Dedents(n));
    EndAppend(tokens + Dedents(n));
  }

  lemma IndentSound(tokens: seq<Token>, stack: seq<nat>, lines: seq<nat>, level: nat, emitted: seq<Token>,
                    open: seq<nat>)
    requires Nested(tokens, stack, lines) && AllGenuine(tokens)
    requires Reindent(stack, level).Some? && emitted == tokens + Reindent(stack, level).value.0
    requires open == Reindent(stack, level).value.1
    ensures Nested(emitted, open, lines + [level]) && AllGenuine(emitted)
  {
    ReindentLevels(tokens, stack, lines, level);
    LayoutIs(stack, level);
    LayoutGenuine(tokens, Reindent(stack, level).value.0);
  }

  lemma LayoutIs(stack: seq<nat>, level: nat)
    ensures var r := Reindent(stack, level); r.Some? ==>
              forall i :: 0 <= i < |r.value.0| ==> r.value.0[i] in {Token(INDENT, ""), Token(DEDENT, "")}
  {
  }

  /**
   * Where an error is found: at a tab before the first token of a line, at a token whose line is
   * indented to no open level, at something that starts no token, or at the end of a text within a
   * literal.
   */
  ghost predicate ErrorStands(text: string, p: nat, reason: Reason) {
    p <= |text| &&
    match reason
    case TabIndent => p < |text| && text[p] == '\t'
    case Inconsistent => p < |text| && text[p] !in {' ', '\t', '\n', '#'}
    case NotAToken => p < |text| ==> TokenAt(text, p).Bad? && !IsQuote(text[p])
  }

  /** The line and column of the position; an indentation error is reported at the start of its line. */
  ghost predicate ErrorPlaced(text: string, p: nat, r: LexResult)
    requires r.LexError? && p <= |text|
  {
    r.line == LineOf(text, p) && r.column == if r.reason == Inconsistent then 1 else ColumnOf(text, p)
  }

  class Lexer {
    const text: string
    var pos: nat
    var line: nat
    var column: nat
    var tokens: seq<Token>
    var stack: seq<nat>
    var atLineStart: bool
    /** The indentation of every line that holds a token, so far. */
    ghost var lines: seq<nat>

    /** The line and column are those of the position. */
    ghost predicate Placed()
      reads this
    {
      pos <= |text| && line == LineOf(text, pos) && column == ColumnOf(text, pos)
    }

    ghost predicate Valid()
      reads this
    {
      Placed() && Nested(tokens, stack, lines) && AllGenuine(tokens)
    }

    constructor (source: string)
      ensures Valid() && text == source && pos == 0 && tokens == [] && stack == [0] && atLineStart
    {
      text := source;
      pos, line, column := 0, 1, 1;
      tokens, stack, lines, atLineStart := [], [0], [], true;
    }

    method Advance()
      requires Placed()
      modifies this`pos, this`line, this`column
      ensures Placed() && pos == if old(pos) < |text| then old(pos) + 1 else old(pos)
    {
      if pos < |text| {
        if text[pos] == '\n' {
          line, column := line + 1, 1;
        } else {
          column := column + 1;
        }
        pos := pos + 1;
      }
    }

    method AdvanceBy(n: nat)
      requires Placed() && pos + n <= |text|
      modifies this`pos, this`line, this`column
      ensures Placed() && pos == old(pos) + n
    {
      for k := 0 to n
        invariant Placed() && pos == old(pos) + k
      {
        Advance();
      }
    }

    /** Advances over the run of characters that satisfy `p`. */
    method AdvanceWhile(p: char -> bool)
      requires Placed()
      modifies this`pos, this`line, this`column
      ensures Placed() && pos == RunEnd(p, text, old(pos))
    {
      while pos < |text| && p(text[pos])
        invariant Placed() && RunEnd(p, text, pos) == RunEnd(p, text, old(pos))
        decreases |text| - pos
      {
        Advance();
      }
    }

    method ReadNumber() returns (value: string, isFloat: bool)
      requires Placed() && pos < |text|
      modifies this`pos, this`line, this`column
      ensures Placed() && pos == NumberEnd(text, old(pos)) && value == text[old(pos)..pos]
      ensures isFloat <==> NumberKind(text, old(pos)) == FLOAT
    {
      var start := pos;
      AdvanceWhile(IsDigit);
      isFloat := pos + 1 < |text| && text[pos] == '.' && IsDigit(text[pos + 1]);
      if isFloat {
        Advance();
        AdvanceWhile(IsDigit);
      }
      value := text[start..pos];
    }

    /** Reads a literal after its opening quote. */
    method ReadBody(quote: char) returns (r: Option<string>)
      requires Placed()
      modifies this`pos, this`line, this`column
      ensures Placed()
      ensures var s := StringBody(text, old(pos), quote);
        if s.None? then r.None? && pos == |text| else r == Some(s.value.0) && pos == s.value.1
    {
      var value := "";
      BehindNothing(StringBody(text, pos, quote));
      while pos < |text| && text[pos] != quote
        invariant Placed() && StringBody(text, old(pos), quote) == Behind(value, StringBody(text, pos, quote))
        decreases |text| - pos
      {
        var c := text[pos];
        if c == '\\' {
          Advance();
          if pos == |text| {
            return None;
          }
          c := Unescape(text[pos]);
        }
        BehindStep(value, c, StringBody(text, pos + 1, quote));
        value := value + [c];
        Advance();
      }
      if pos == |text| {
        return None;
      }
      Advance();
      assert value + "" == value;
      return Some(value);
    }

    /** Reads a docstring after its three opening quotes. */
    method ReadTripleQuoted(quote: char) returns (r: Option<string>)
      requires Placed()
      modifies this`pos, this`line, this`column
      ensures Placed()
      ensures var s := DocBody(text, old(pos), quote);
        if s.None? then r.None? && pos == |text| else r == Some(s.value.0) && pos == s.value.1
    {
      var value := "";
      BehindNothing(DocBody(text, pos, quote));
      while pos < |text| && !Triple(text, pos, quote)
        invariant Placed() && DocBody(text, old(pos), quote) == Behind(value, DocBody(text, pos, quote))
        decreases |text| - pos
      {
        BehindStep(value, text[pos], DocBody(text, pos + 1, quote));
        value := value + [text[pos]];
        Advance();
      }
      if pos == |text| {
        return None;
      }
      AdvanceBy(3);
      assert value + "" == value;
      return Some(value);
    }

    method ReadString() returns (r: Scan)
      requires Placed() && pos < |text|
      modifies this`pos, this`line, this`column
      ensures Placed() && r == LiteralScan(ReadLiteral(text, old(pos))) && pos == if r.Emit? then r.next else |text|
    {
      var quote := text[pos];
      if Triple(text, pos, quote) {
        AdvanceBy(3);
        var value := ReadTripleQuoted(quote);
        return if value.Some? then Emit(Token(DOCSTRING, value.value), pos) else Bad;
      }
      Advance();
      var value := ReadBody(quote);
      return if value.Some? then Emit(Token(STRING, value.value), pos) else Bad;
    }

    /** Reads an operator or punctuation: two characters if they belong together, one otherwise. */
    method ReadOperator() returns (r: Scan)
      requires Placed() && pos < |text|
      modifies this`pos, this`line, this`column
      ensures Placed() && r == Operator(text, old(pos)) && pos == if r.Emit? then r.next else old(pos)
    {
      var c := text[pos];
      if pos + 1 < |text| {
        var two := PairKind(c, text[pos + 1]);
        if two.Some? {
          var spelling := [c, text[pos + 1]];
          AdvanceBy(2);
          return Emit(Token(two.value, spelling), pos);
        }
      }
      var one := SingleKind(c);
      if one.None? {
        return Bad;
      }
      Advance();
      return Emit(Token(one.value, [c]), pos);
    }

    /** Reads what stands at the current position. */
    method ScanToken() returns (r: Scan)
      requires Placed() && pos < |text|
      modifies this`pos, this`line, this`column
      ensures Placed() && r == TokenAt(text, old(pos)) && (r.Emit? || r.Skip? ==> pos == r.next)
      ensures r.Bad? ==> pos == if IsQuote(text[old(pos)]) then |text| else old(pos)
    {
      var start, c := pos, text[pos];
      TokenAtSound(text, pos);
      if c == '\n' {
        Advance();
        return Emit(Token(NEWLINE, "\n"), pos);
      } else if c == ' ' || c == '\t' || c == '\r' {
        Advance();
        return Skip(pos);
      } else if c == '#' {
        AdvanceWhile(NotNewline);
        return Skip(pos);
      } else if IsQuote(c) {
        r := ReadString();
      } else if IsDigit(c) {
        var value, isFloat := ReadNumber();
        return Emit(Token(if isFloat then FLOAT else INT, value), pos);
      } else if IsAlpha(c) || c == '_' {
        AdvanceWhile(IsWordChar);
        return Emit(Word(text[start..pos]), pos);
      } else {
        r := ReadOperator();
      }
    }

    /** Counts the spaces a line starts with; a tab among them is an error. */
    method MeasureIndent() returns (level: Option<nat>)
      requires Placed()
      modifies this`pos, this`line, this`column
      ensures Placed() && pos == RunEnd(IsSpace, text, old(pos))
      ensures level == if pos < |text| && text[pos] == '\t' then None else Some(pos - old(pos))
    {
      var spaces := 0;
      while pos < |text| && text[pos] == ' '
        invariant Placed() && old(pos) <= pos && spaces == pos - old(pos)
        invariant RunEnd(IsSpace, text, pos) == RunEnd(IsSpace, text, old(pos))
        decreases |text| - pos
      {
        spaces := spaces + 1;
        Advance();
      }
      return if pos < |text| && text[pos] == '\t' then None else Some(spaces);
    }

    /** Skips the spaces a line starts with, and the whole line if it is blank or a comment. */
    method StartLine() returns (r: LineHead)
      requires Placed() && pos < |text|
      modifies this`pos, this`line, this`column, this`atLineStart
      ensures Placed() && r == HeadAt(text, old(pos)) && (!r.Tabbed? ==> pos == r.next)
      ensures r.Tabbed? ==> pos < |text| && text[pos] == '\t'
      ensures atLineStart == (r.Skipped? && r.blank)
    {
      atLineStart := false;
      var level := MeasureIndent();
      if level.None? {
        return Tabbed;
      }
      if pos == |text| {
        return Skipped(pos, false);
      }
      if text[pos] == '\n' {
        Advance();
        atLineStart := true;
        return Skipped(pos, true);
      }
      if text[pos] == '#' {
        AdvanceWhile(NotNewline);
        return Skipped(pos, false);
      }
      return Starts(pos);
    }

    /** Emits the layout of a line that starts at `level`. */
    method Indent(level: nat) returns (ok: bool)
      requires Valid()
      modifies this`tokens, this`stack, this`lines
      ensures var r := Reindent(old(stack), level);
        if ok then r.Some? && Valid() && tokens == old(tokens) + r.value.0 && stack == r.value.1 else r.None?
    {
      var emitted, open;
      ok, emitted, open := HandleIndentation(tokens, stack, level);
      if ok {
        IndentSound(tokens, stack, lines, level, emitted, open);
        tokens, stack, lines := emitted, open, lines + [level];
      }
    }

    /** Handles the start of a line; `more` says whether a token follows on it. */
    method BeginLine() returns (more: bool, error: Option<Reason>)
      requires Valid() && pos < |text| && atLineStart
      modifies this
      ensures Placed() && (error.None? ==> Valid()) && (error.Some? ==> ErrorStands(text, pos, error.value))
      ensures error.None? ==> if more then old(pos) <= pos < |text| && !atLineStart else old(pos) < pos
      ensures LexFrom(text, old(pos), true, old(tokens), old(stack)) ==
              if error.Some? then None else LexFrom(text, pos, atLineStart, tokens, stack)
    {
      LexLine(text, pos, tokens, stack);
      var start := pos;
      var head := StartLine();
      if head.Tabbed? {
        return false, Some(TabIndent);
      }
      if head.Skipped? {
        return false, None;
      }
      var aligned := Indent(pos - start);
      return true, if aligned then None else Some(Inconsistent);
    }

    /** Reads one token or stretch of space into the token list. */
    method Step() returns (ok: bool)
      requires Valid() && pos < |text| && !atLineStart
      modifies this
      ensures Placed() && (ok ==> Valid() && old(pos) < pos) && (!ok ==> ErrorStands(text, pos, NotAToken))
      ensures LexFrom(text, old(pos), false, old(tokens), old(stack)) ==
              if ok then LexFrom(text, pos, atLineStart, tokens, stack) else None
    {
      TokenAtSound(text, pos);
      var newline := text[pos] == '\n';
      var r := ScanToken();
      if r.Emit? {
        PlainAppend(tokens, stack, lines, r.token);
        tokens := tokens + [r.token];
        atLineStart := newline;
      }
      ok := !r.Bad?;
    }

    /**
     * Tokenizes the whole text. A result is balanced, its integers are numerals, and it ends in
     * its only EOF; an error carries the line and column where it stands.
     */
    method Tokenize() returns (r: LexResult)
      requires Valid() && pos == 0 && tokens == [] && stack == [0] && atLineStart
      modifies this
      ensures Lex(text) == if r.Lexed? then Some(r.tokens) else None
      ensures r.Lexed? ==> Balanced(r.tokens) && Ended(r.tokens)
      ensures r.LexError? ==> exists p :: ErrorStands(text, p, r.reason) && ErrorPlaced(text, p, r)
    {
      while pos < |text|
        invariant Valid() && LexFrom(text, pos, atLineStart, tokens, stack) == LexFrom(text, 0, true, [], [0])
        decreases |text| - pos
      {
        if atLineStart {
          var more, error := BeginLine();
          if error.Some? {
            return LexError(error.value, line, if error.value == Inconsistent then 1 else column);
          }
          if !more {
            continue;
          }
        }
        var ok := Step();
        if !ok {
          return LexError(NotAToken, line, column);
        }
      }
      r := Finish();
    }

    /** Ends the last line, closes every open block and appends EOF. */
    method Finish() returns (r: LexResult)
      requires Valid()
      modifies this
      ensures r.Lexed? && Balanced(r.tokens) && Ended(r.tokens) && r.tokens == Finished(old(tokens), old(stack))
    {
      FinishedSound(tokens, stack, lines);
      if tokens != [] && tokens[|tokens| - 1].kind != NEWLINE {
        tokens := tokens + [Token(NEWLINE, "\n")];
      }
      var closed := EmitRemainingDedents(tokens, stack);
      tokens := closed + [Token(EOF, "")];
      return Lexed(tokens);
    }
  }

  function Behind(value: string, r: Option<(string, nat)>): Option<(string, nat)> {
    if r.Some? then Some((value + r.value.0, r.value.1)) else None
  }

  lemma BehindNothing(r: Option<(string, nat)>)
    ensures Behind("", r) == r
  {
    if r.Some? {
      assert "" + r.value.0 == r.value.0;
    }
  }

  lemma BehindStep(value: string, c: char, r: Option<(string, nat)>)
    ensures Behind(value, Prepend(c, r)) == Behind(value + [c], r)
  {
    if r.Some? {
      assert value + ([c] + r.value.0) == value + [c] + r.value.0;
    }
  }

  lemma LayoutGenuine(tokens: seq<Token>, layout: seq<Token>)
    requires AllGenuine(tokens)
    requires forall i :: 0 <= i < |layout| ==> layout[i] == Token(INDENT, "") || layout[i] == Token(DEDENT, "")
    ensures AllGenuine(tokens + layout)
  {
  }
}
