/**
 * Token lists as text: one line per line, two spaces per level, one space between tokens. Every list
 * that is laid out properly is exactly what the lexer makes of its rendering.
 */
module CharterLayout {
  import opened Options
  import opened Tokens
  import opened CharterLexer

  // ------------------------------------------------------------------ tokens that can be written

  predicate IsWordText(s: string) {
    s != [] && (IsAlpha(s[0]) || s[0] == '_') && forall i :: 0 <= i < |s| ==> IsWordChar(s[i])
  }

  /** Digits, a dot and digits. */
  predicate IsDecimal(s: string) {
    var parts := Split(s);
    |parts| == 2 && IsNumeral(parts[0]) && IsNumeral(parts[1])
  }

  predicate WordToken(t: Token) {
    IsWordText(t.text) && t.kind == WordKind(t.text)
  }

  /** A token the lexer can emit, other than a docstring or layout. */
  predicate Lexable(t: Token) {
    t.kind == STRING || WordToken(t) || NumberToken(t) || Spelled(t.kind, t.text)
  }

  function Spell(t: Token): string {
    if t.kind == STRING then Literal(t.text, '"') else t.text
  }

  predicate Gap(c: char) {
    c == ' ' || c == '\n'
  }

  /** The text stands at the position and a space or a line end follows it. */
  ghost predicate Alone(text: string, i: nat, s: string) {
    ReadsAt(text, i, s) && i + |s| < |text| && Gap(text[i + |s|])
  }

  /** The scanner reads the text at the position as the token. */
  ghost predicate Scans(text: string, i: nat, t: Token, s: string) {
    i < |text| && TokenAt(text, i) == Emit(t, i + |s|)
  }

  lemma {:induction false} RunEndIs(p: char -> bool, text: string, i: nat, k: nat)
    requires i <= k <= |text| && (forall j :: i <= j < k ==> p(text[j])) && (k < |text| ==> !p(text[k]))
    ensures RunEnd(p, text, i) == k
    decreases k - i
  {
    if i < k {
      RunEndIs(p, text, i + 1, k);
    }
  }

  lemma ReadsChar(text: string, i: nat, s: string, j: nat)
    requires ReadsAt(text, i, s) && j < |s|
    ensures i + j < |text| && text[i + j] == s[j]
  {
    assert text[i..i + |s|][j] == text[i + j];
  }

  lemma ReadsChars(text: string, i: nat, s: string)
    requires ReadsAt(text, i, s)
    ensures forall j :: i <= j < i + |s| ==> text[j] == s[j - i]
  {
    forall j | i <= j < i + |s| ensures text[j] == s[j - i] {
      ReadsChar(text, i, s, j - i);
    }
  }

  lemma WordReads(text: string, i: nat, t: Token)
    requires WordToken(t) && Alone(text, i, t.text)
    ensures Scans(text, i, t, t.text)
  {
    var k := i + |t.text|;
    ReadsChars(text, i, t.text);
    RunEndIs(IsWordChar, text, i, k);
    assert text[i] == t.text[0] && text[i..k] == t.text;
  }

  lemma NumberReads(text: string, i: nat, t: Token)
    requires t.kind == INT && IsNumeral(t.text) && Alone(text, i, t.text)
    ensures Scans(text, i, t, t.text)
  {
    var k := i + |t.text|;
    ReadsChars(text, i, t.text);
    RunEndIs(IsDigit, text, i, k);
    assert text[i] == t.text[0] && text[i..k] == t.text && !HasFraction(text, k);
  }

  /** Digits, a dot and digits stand at the position. */
  lemma DecimalRuns(text: string, i: nat, a: string, b: string)
    requires IsNumeral(a) && IsNumeral(b) && Alone(text, i, a + "." + b)
    ensures var n := i + |a|;
      RunEnd(IsDigit, text, i) == n && HasFraction(text, n) && RunEnd(IsDigit, text, n + 1) == n + 1 + |b|
  {
    var s, n, k := a + "." + b, i + |a|, i + |a| + 1 + |b|;
    ReadsChars(text, i, s);
    forall j | i <= j < n ensures IsDigit(text[j]) {
      assert s[j - i] == a[j - i];
    }
    forall j | n + 1 <= j < k ensures IsDigit(text[j]) {
      assert s[j - i] == b[j - n - 1];
    }
    assert s[|a|] == '.';
    RunEndIs(IsDigit, text, i, n);
    RunEndIs(IsDigit, text, n + 1, k);
  }

  lemma DecimalReads(text: string, i: nat, t: Token)
    requires t.kind == FLOAT && IsDecimal(t.text) && Alone(text, i, t.text)
    ensures Scans(text, i, t, t.text)
  {
    var parts := Split(t.text);
    JoinSplit(t.text);
    assert t.text == parts[0] + "." + parts[1];
    DecimalRuns(text, i, parts[0], parts[1]);
    ReadsChar(text, i, t.text, 0);
    assert IsDigit(text[i]) && text[i..i + |t.text|] == t.text;
  }

  lemma StringReads(text: string, i: nat, t: Token)
    requires t.kind == STRING && Alone(text, i, Spell(t))
    ensures Scans(text, i, t, Spell(t))
  {
    var k := i + |Spell(t)|;
    var pre, rest := text[..i], text[k..];
    assert text == pre + Literal(t.text, '"') + rest;
    LiteralRoundTrip(pre, t.text, '"', rest);
    ReadsChar(text, i, Spell(t), 0);
  }

  /** Followed by a space or a line end, a spelling is not the start of a longer one. */
  lemma OperatorAlone(text: string, i: nat, k: Kind, s: string)
    requires Spelled(k, s) && Alone(text, i, s)
    ensures Operator(text, i) == Emit(Token(k, s), i + |s|)
  {
    SpelledKinds(k, s);
    ReadsChars(text, i, s);
    if |s| == 2 {
      assert s == [text[i], text[i + 1]];
    } else {
      assert s == [text[i]] && PairKind(text[i], text[i + 1]).None?;
    }
  }

  lemma OperatorReads(text: string, i: nat, t: Token)
    requires Spelled(t.kind, t.text) && Alone(text, i, t.text)
    ensures Scans(text, i, t, t.text)
  {
    OperatorAlone(text, i, t.kind, t.text);
    SpelledKinds(t.kind, t.text);
    ReadsChar(text, i, t.text, 0);
    OperatorStart(t.text[0], t.kind, t.text);
  }

  /** An operator starts with nothing a word, number, string, comment or space starts with. */
  lemma OperatorStart(c: char, k: Kind, s: string)
    requires Spelled(k, s) && c == s[0]
    ensures !Gap(c) && c != '\t' && c != '\r' && c != '#' && !IsQuote(c) && !IsDigit(c) && !IsAlpha(c) && c != '_'
  {
  }

  predicate NumberToken(t: Token) {
    (t.kind == INT && IsNumeral(t.text)) || (t.kind == FLOAT && IsDecimal(t.text))
  }

  lemma NumberTokenReads(text: string, i: nat, t: Token)
    requires NumberToken(t) && Alone(text, i, t.text)
    ensures Scans(text, i, t, t.text)
  {
    if t.kind == INT {
      NumberReads(text, i, t);
    } else {
      DecimalReads(text, i, t);
    }
  }

  lemma PlainReads(text: string, i: nat, t: Token)
    requires (NumberToken(t) || Spelled(t.kind, t.text)) && Alone(text, i, t.text)
    ensures Scans(text, i, t, t.text)
  {
    if NumberToken(t) {
      NumberTokenReads(text, i, t);
    } else {
      OperatorReads(text, i, t);
    }
  }

  /** A written token followed by a space or a line end is read back as itself. */
  lemma LexableReads(text: string, i: nat, t: Token)
    requires Lexable(t) && Alone(text, i, Spell(t))
    ensures Scans(text, i, t, Spell(t))
  {
    if t.kind == STRING {
      StringReads(text, i, t);
    } else if WordToken(t) {
      WordReads(text, i, t);
    } else {
      PlainReads(text, i, t);
    }
  }

  /** The text can open a line: no space, tab, line end or comment sign comes first. */
  predicate Opens(s: string) {
    s != [] && !Gap(s[0]) && s[0] != '\t' && s[0] != '#'
  }

  /** A written token can open a line. */
  lemma FirstChar(t: Token)
    requires Lexable(t)
    ensures Opens(Spell(t))
  {
    if Spelled(t.kind, t.text) {
      SpelledKinds(t.kind, t.text);
      OperatorStart(t.text[0], t.kind, t.text);
    } else if t.kind == FLOAT && t.kind != STRING && !WordToken(t) {
      var parts := Split(t.text);
      JoinSplit(t.text);
      assert t.text == parts[0] + "." + parts[1];
      assert t.text[0] == parts[0][0];
    }
  }

  // ------------------------------------------------------------------ layout

  /** Where in its line a token stands: first, after an INDENT, after a DEDENT, or further on. */
  datatype Place = Fresh | Indented | Dedented | Within

  predicate IsLayout(k: Kind) {
    k == NEWLINE || k == INDENT || k == DEDENT || k == EOF
  }

  /**
   * A list that text can be laid out as: lines end in NEWLINE, INDENT opens one level before a token,
   * DEDENT closes one, and EOF comes last with all levels closed.
   */
  predicate Laid(ts: Toks, depth: nat, place: Place, ok: Token -> bool) {
    match ts
    case End => false
    case Tok(t, rest) =>
      if t.kind == EOF then t.text == "" && rest.End? && depth == 0 && (place.Fresh? || place.Dedented?)
      else if t.kind == NEWLINE then t.text == "\n" && place.Within? && Laid(rest, depth, Fresh, ok)
      else if t.kind == INDENT then t.text == "" && place.Fresh? && Laid(rest, depth + 1, Indented, ok)
      else if t.kind == DEDENT then
        t.text == "" && (place.Fresh? || place.Dedented?) && depth > 0 && Laid(rest, depth - 1, Dedented, ok)
      else ok(t) && Laid(rest, depth, Within, ok)
  }

  function Spaces(n: nat): (s: string)
    ensures |s| == n && forall i :: 0 <= i < n ==> s[i] == ' '
  {
    seq(n, _ => ' ')
  }

  /** The text of a list, from a line's start or from within a line. */
  function Render(ts: Toks, depth: nat, start: bool): string {
    match ts
    case End => ""
    case Tok(t, rest) =>
      if t.kind == EOF then ""
      else if t.kind == NEWLINE then "\n" + Render(rest, depth, true)
      else if t.kind == INDENT then Render(rest, depth + 1, start)
      else if t.kind == DEDENT then Render(rest, if depth > 0 then depth - 1 else 0, start)
      else (if start then Spaces(2 * depth) else " ") + (Spell(t) + Render(rest, depth, false))
  }

  function Listing(ts: Toks): seq<Token> {
    if ts.End? then [] else [ts.head] + Listing(ts.tail)
  }

  /** The indentation stack of a depth. */
  function Steps(depth: nat): (s: seq<nat>)
    ensures |s| == depth + 1 && forall i :: 0 <= i <= depth ==> s[i] == 2 * i
  {
    seq(depth + 1, i requires i >= 0 => 2 * i)
  }

  /** The text from a position on. */
  ghost predicate Tail(text: string, i: nat, s: string) {
    i <= |text| && text[i..] == s
  }

  lemma TailSplit(text: string, i: nat, a: string, b: string)
    requires Tail(text, i, a + b)
    ensures ReadsAt(text, i, a) && Tail(text, i + |a|, b)
  {
    assert text[i..i + |a|] == text[i..][..|a|] && text[i + |a|..] == text[i..][|a|..];
  }

  // ------------------------------------------------------------------ one step of the lexer

  /** Where the lexer stands: a position, whether a line starts there, and what it has so far. */
  datatype Stage = Stage(pos: nat, start: bool, tokens: seq<Token>, stack: seq<nat>)

  /** A token, a space, a line end, or the layout of a line that starts with `n` spaces. */
  datatype Piece = Written(token: Token) | Space | Break | Margin(n: nat, layout: seq<Token>)

  ghost predicate Stands(text: string, i: nat, c: char) {
    i < |text| && text[i] == c
  }

  /** The lexer passes over one piece. */
  ghost predicate Moves(text: string, ok: Token -> bool, s: Stage, piece: Piece, s': Stage) {
    match piece
    case Written(t) =>
      && !s.start && ok(t) && Alone(text, s.pos, Spell(t))
      && s' == Stage(s.pos + |Spell(t)|, false, s.tokens + [t], s.stack)
    case Space => !s.start && Stands(text, s.pos, ' ') && s' == s.(pos := s.pos + 1)
    case Break =>
      && !s.start && Stands(text, s.pos, '\n')
      && s' == Stage(s.pos + 1, true, s.tokens + [Token(NEWLINE, "\n")], s.stack)
    case Margin(n, layout) =>
      && s.start && s.pos < |text| && HeadAt(text, s.pos) == Starts(s.pos + n)
      && Reindent(s.stack, n) == Some((layout, s'.stack)) && s' == Stage(s.pos + n, false, s.tokens + layout, s'.stack)
  }

  /** What the lexer finally makes of the text from a stage on. */
  ghost function Result(text: string, s: Stage): Option<seq<Token>> {
    var r := LexFrom(text, s.pos, s.start, s.tokens, s.stack);
    if r.None? then None else Some(Finished(r.value.0, r.value.1))
  }

  lemma FromToken(text: string, i: nat, tokens: seq<Token>, stack: seq<nat>, r: Scan)
    requires i < |text| && TokenAt(text, i) == r
    ensures r.Skip? ==> LexFrom(text, i, false, tokens, stack) == LexFrom(text, r.next, false, tokens, stack)
    ensures r.Emit? ==> LexFrom(text, i, false, tokens, stack) ==
                        LexFrom(text, r.next, text[i] == '\n', tokens + [r.token], stack)
  {
    TokenAtSound(text, i);
  }

  lemma WrittenMoves(text: string, ok: Token -> bool, s: Stage, t: Token, s': Stage)
    requires Moves(text, Lexable, s, Written(t), s')
    ensures Result(text, s) == Result(text, s')
  {
    LexableReads(text, s.pos, t);
    FirstChar(t);
    ReadsChar(text, s.pos, Spell(t), 0);
    FromToken(text, s.pos, s.tokens, s.stack, Emit(t, s'.pos));
  }

  lemma MoveKeepsResult(text: string, s: Stage, piece: Piece, s': Stage)
    requires Moves(text, Lexable, s, piece, s')
    ensures Result(text, s) == Result(text, s')
  {
    match piece
    case Written(t) => WrittenMoves(text, Lexable, s, t, s');
    case Space => FromToken(text, s.pos, s.tokens, s.stack, Skip(s'.pos));
    case Break => FromToken(text, s.pos, s.tokens, s.stack, Emit(Token(NEWLINE, "\n"), s'.pos));
    case Margin(n, layout) => LexLine(text, s.pos, s.tokens, s.stack);
  }

  // ------------------------------------------------------------------ the pieces of a laid-out text

  /** Within a line, a space or the line end comes next. */
  lemma GapNext(ts: Toks, depth: nat, ok: Token -> bool)
    requires Laid(ts, depth, Within, ok)
    ensures Render(ts, depth, false) != [] && Gap(Render(ts, depth, false)[0])
  {
  }

  lemma AloneInLine(text: string, i: nat, word: string, s: string)
    requires Tail(text, i, word + s) && s != [] && Gap(s[0])
    ensures Alone(text, i, word) && Tail(text, i + |word|, s)
  {
    TailSplit(text, i, word, s);
    var k := i + |word|;
    assert text[k] == text[k..][0];
  }

  lemma StandsFirst(text: string, i: nat, c: char, s: string)
    requires Tail(text, i, [c] + s)
    ensures Stands(text, i, c) && Tail(text, i + 1, s)
  {
    TailSplit(text, i, [c], s);
    ReadsChar(text, i, [c], 0);
  }

  lemma HeadStarts(text: string, i: nat, n: nat, s: string)
    requires Opens(s) && Tail(text, i, Spaces(n) + s)
    ensures i < |text| && HeadAt(text, i) == Starts(i + n) && Tail(text, i + n, s)
  {
    TailSplit(text, i, Spaces(n), s);
    ReadsChars(text, i, Spaces(n));
    assert text[i + n] == text[i + n..][0];
    RunEndIs(IsSpace, text, i, i + n);
  }

  /** A token that starts a line. */
  lemma MarginHead(text: string, i: nat, n: nat, t: Token, s: string)
    requires Opens(Spell(t)) && Tail(text, i, Spaces(n) + (Spell(t) + s))
    ensures i < |text| && HeadAt(text, i) == Starts(i + n) && Tail(text, i + n, Spell(t) + s)
  {
    HeadStarts(text, i, n, Spell(t) + s);
  }

  lemma ReindentDown(before: nat, n: nat)
    requires n <= before
    ensures Reindent(Steps(before), 2 * (before - n)) == Some((Dedents(n), Steps(before - n)))
  {
    var stack, level := Steps(before), 2 * (before - n);
    assert stack[before - n] == level && stack[..before - n + 1] == Steps(before - n);
    ReindentIs(stack, level, before - n + 1);
  }

  lemma ReindentUp(before: nat)
    ensures Reindent(Steps(before), 2 * (before + 1)) == Some(([Token(INDENT, "")], Steps(before + 1)))
  {
    assert Steps(before) + [2 * (before + 1)] == Steps(before + 1);
    ReindentIs(Steps(before), 2 * (before + 1), before + 1);
  }

  // ------------------------------------------------------------------ reading a laid-out text

  type Reader = Stage -> Option<seq<Token>>

  /** A reader no piece makes a difference to, and that closes the open levels at the end. */
  ghost predicate Reads(text: string, ok: Token -> bool, read: Reader) {
    && (forall t: Token :: ok(t) ==> Opens(Spell(t)))
    && (forall s: Stage, piece: Piece, s': Stage :: Moves(text, ok, s, piece, s') ==> read(s) == read(s'))
    && (forall s: Stage :: s.pos == |text| ==> read(s) == Some(Finished(s.tokens, s.stack)))
  }

  /** A space, a token. */
  lemma ReadToken(text: string, ok: Token -> bool, read: Reader, s: Stage, t: Token, ts: Toks, depth: nat)
    requires Reads(text, ok, read) && !s.start && ok(t) && Laid(ts, depth, Within, ok)
    requires Tail(text, s.pos, Spell(t) + Render(ts, depth, false))
    ensures var k := s.pos + |Spell(t)|;
      Tail(text, k, Render(ts, depth, false)) && read(s) == read(Stage(k, false, s.tokens + [t], s.stack))
  {
    GapNext(ts, depth, ok);
    AloneInLine(text, s.pos, Spell(t), Render(ts, depth, false));
    assert Moves(text, ok, s, Written(t), Stage(s.pos + |Spell(t)|, false, s.tokens + [t], s.stack));
  }

  lemma ReadSpace(text: string, ok: Token -> bool, read: Reader, s: Stage, rest: string)
    requires Reads(text, ok, read) && !s.start && Tail(text, s.pos, " " + rest)
    ensures Tail(text, s.pos + 1, rest) && read(s) == read(s.(pos := s.pos + 1))
  {
    StandsFirst(text, s.pos, ' ', rest);
    assert Moves(text, ok, s, Space, s.(pos := s.pos + 1));
  }

  lemma ReadBreak(text: string, ok: Token -> bool, read: Reader, s: Stage, rest: string)
    requires Reads(text, ok, read) && !s.start && Tail(text, s.pos, "\n" + rest)
    ensures Tail(text, s.pos + 1, rest)
    ensures read(s) == read(Stage(s.pos + 1, true, s.tokens + [Token(NEWLINE, "\n")], s.stack))
  {
    StandsFirst(text, s.pos, '\n', rest);
    assert Moves(text, ok, s, Break, Stage(s.pos + 1, true, s.tokens + [Token(NEWLINE, "\n")], s.stack));
  }

  /** The stage after the layout of a line. */
  function AfterMargin(s: Stage, depth: nat, layout: seq<Token>): Stage {
    Stage(s.pos + 2 * depth, false, s.tokens + layout, Steps(depth))
  }

  lemma ReadMargin(text: string, ok: Token -> bool, read: Reader, s: Stage, t: Token, rest: string, depth: nat,
                   layout: seq<Token>)
    requires Reads(text, ok, read) && s.start && ok(t) && Tail(text, s.pos, Spaces(2 * depth) + (Spell(t) + rest))
    requires Reindent(s.stack, 2 * depth) == Some((layout, Steps(depth)))
    ensures Tail(text, s.pos + 2 * depth, Spell(t) + rest) && read(s) == read(AfterMargin(s, depth, layout))
  {
    MarginHead(text, s.pos, 2 * depth, t, rest);
    assert Moves(text, ok, s, Margin(2 * depth, layout), AfterMargin(s, depth, layout));
  }

  /** A deeper line. */
  lemma ReadUp(text: string, ok: Token -> bool, read: Reader, s: Stage, t: Token, rest: string, before: nat)
    requires Reads(text, ok, read) && s.start && s.stack == Steps(before)
    requires ok(t) && Tail(text, s.pos, Spaces(2 * (before + 1)) + (Spell(t) + rest))
    ensures Tail(text, s.pos + 2 * (before + 1), Spell(t) + rest)
    ensures read(s) == read(AfterMargin(s, before + 1, [Token(INDENT, "")]))
  {
    ReindentUp(before);
    ReadMargin(text, ok, read, s, t, rest, before + 1, [Token(INDENT, "")]);
  }

  /** A line at the same depth or further out. */
  lemma ReadDown(text: string, ok: Token -> bool, read: Reader, s: Stage, t: Token, rest: string, before: nat, n: nat)
    requires Reads(text, ok, read) && s.start && s.stack == Steps(before) && n <= before
    requires ok(t) && Tail(text, s.pos, Spaces(2 * (before - n)) + (Spell(t) + rest))
    ensures Tail(text, s.pos + 2 * (before - n), Spell(t) + rest)
    ensures read(s) == read(AfterMargin(s, before - n, Dedents(n)))
  {
    ReindentDown(before, n);
    ReadMargin(text, ok, read, s, t, rest, before - n, Dedents(n));
  }

  /** The tokens so far end in a line end, if there are any. */
  predicate EndsLine(acc: seq<Token>) {
    acc == [] || acc[|acc| - 1].kind == NEWLINE
  }

  lemma ReadEnd(text: string, ok: Token -> bool, read: Reader, s: Stage, before: nat)
    requires Reads(text, ok, read) && Tail(text, s.pos, "") && EndsLine(s.tokens) && s.stack == Steps(before)
    ensures read(s) == Some(s.tokens + Dedents(before) + [Token(EOF, "")])
  {
    assert s.pos == |text|;
  }

  lemma Regroup(a: seq<Token>, b: seq<Token>, c: seq<Token>)
    ensures a + b + c == a + (b + c)
  {
  }

  /** What the lexer makes of a stage is what it has and the list. */
  ghost predicate Yields(read: Reader, s: Stage, ts: Toks) {
    read(s) == Some(s.tokens + Listing(ts))
  }

  /** One more token in hand is one less in the list. */
  lemma YieldsTail(read: Reader, s: Stage, s': Stage, ts: Toks)
    requires ts.Tok? && s'.tokens == s.tokens + [ts.head] && read(s) == read(s') && Yields(read, s', ts.tail)
    ensures Yields(read, s, ts)
  {
    Regroup(s.tokens, [ts.head], Listing(ts.tail));
  }

  /** From within a line, the rest of a laid-out list is read as it stands. */
  lemma {:induction false} ReadWithin(text: string, ok: Token -> bool, read: Reader, s: Stage, ts: Toks, depth: nat)
    requires Reads(text, ok, read) && Laid(ts, depth, Within, ok) && !s.start && s.stack == Steps(depth)
    requires Tail(text, s.pos, Render(ts, depth, false))
    ensures Yields(read, s, ts)
    decreases ts, 0
  {
    var t, rest := ts.head, ts.tail;
    if t.kind == NEWLINE {
      var s' := Stage(s.pos + 1, true, s.tokens + [t], s.stack);
      ReadBreak(text, ok, read, s, Render(rest, depth, true));
      ReadFresh(text, ok, read, s', rest, depth);
      YieldsTail(read, s, s', ts);
    } else {
      var s0 := s.(pos := s.pos + 1);
      var s' := Stage(s0.pos + |Spell(t)|, false, s.tokens + [t], s.stack);
      ReadSpace(text, ok, read, s, Spell(t) + Render(rest, depth, false));
      ReadToken(text, ok, read, s0, t, rest, depth);
      ReadWithin(text, ok, read, s', rest, depth);
      YieldsTail(read, s, s', ts);
    }
  }

  /** A line from its first token on. */
  lemma {:induction false} ReadLine(text: string, ok: Token -> bool, read: Reader, s: Stage, ts: Toks, depth: nat)
    requires Reads(text, ok, read) && StartsLine(ts, depth, ok) && !s.start && s.stack == Steps(depth)
    requires Tail(text, s.pos, Spell(ts.head) + Render(ts.tail, depth, false))
    ensures Yields(read, s, ts)
    decreases ts, 1
  {
    var s' := Stage(s.pos + |Spell(ts.head)|, false, s.tokens + [ts.head], s.stack);
    ReadToken(text, ok, read, s, ts.head, ts.tail, depth);
    ReadWithin(text, ok, read, s', ts.tail, depth);
    YieldsTail(read, s, s', ts);
  }

  /** A list that starts with a written token, and goes on within its line. */
  ghost predicate StartsLine(ts: Toks, depth: nat, ok: Token -> bool) {
    ts.Tok? && !IsLayout(ts.head.kind) && ok(ts.head) && Laid(ts.tail, depth, Within, ok)
  }

  /** What can stand at a line's start. */
  ghost predicate LineShape(ts: Toks, depth: nat, ok: Token -> bool) {
    && ts.Tok? && ts.head.kind != NEWLINE
    && (ts.head.kind == EOF ==> ts == Tok(Token(EOF, ""), End) && depth == 0)
    && (ts.head.kind == INDENT ==> ts.head.text == "" && StartsLine(ts.tail, depth + 1, ok))
    && (ts.head.kind == DEDENT ==> ts.head.text == "" && depth > 0 && Laid(ts.tail, depth - 1, Dedented, ok))
    && (!IsLayout(ts.head.kind) ==> StartsLine(ts, depth, ok))
  }

  lemma LaidFresh(ts: Toks, depth: nat, ok: Token -> bool)
    requires Laid(ts, depth, Fresh, ok) || Laid(ts, depth, Dedented, ok)
    ensures LineShape(ts, depth, ok)
  {
    if ts.head.kind == INDENT {
      assert Laid(ts.tail, depth + 1, Indented, ok);
    }
  }

  lemma RenderLine(ts: Toks, depth: nat, ok: Token -> bool)
    requires StartsLine(ts, depth, ok)
    ensures Render(ts, depth, true) == Spaces(2 * depth) + (Spell(ts.head) + Render(ts.tail, depth, false))
  {
  }

  /** A line one level deeper. */
  lemma {:induction false} ReadIndented(text: string, ok: Token -> bool, read: Reader, s: Stage, ts: Toks, depth: nat)
    requires Reads(text, ok, read) && s.start && s.stack == Steps(depth)
    requires ts.Tok? && ts.head == Token(INDENT, "") && StartsLine(ts.tail, depth + 1, ok)
    requires Tail(text, s.pos, Render(ts.tail, depth + 1, true))
    ensures Yields(read, s, ts)
    decreases ts, 2
  {
    var s' := AfterMargin(s, depth + 1, [ts.head]);
    RenderLine(ts.tail, depth + 1, ok);
    ReadUp(text, ok, read, s, ts.tail.head, Render(ts.tail.tail, depth + 1, false), depth);
    ReadLine(text, ok, read, s', ts.tail, depth + 1);
    YieldsTail(read, s, s', ts);
  }

  /** A line `n` levels further out. */
  lemma {:induction false} ReadOutdented(text: string, ok: Token -> bool, read: Reader, s: Stage, ts: Toks,
                                         before: nat, n: nat)
    requires Reads(text, ok, read) && s.start && s.stack == Steps(before) && n <= before
    requires StartsLine(ts, before - n, ok) && Tail(text, s.pos, Render(ts, before - n, true))
    ensures read(s) == Some(s.tokens + Dedents(n) + Listing(ts))
    decreases ts, 2
  {
    var depth := before - n;
    RenderLine(ts, depth, ok);
    ReadDown(text, ok, read, s, ts.head, Render(ts.tail, depth, false), before, n);
    ReadLine(text, ok, read, AfterMargin(s, depth, Dedents(n)), ts, depth);
  }

  /** From a line's start, the rest of a laid-out list is read as it stands. */
  lemma {:induction false} ReadFresh(text: string, ok: Token -> bool, read: Reader, s: Stage, ts: Toks, depth: nat)
    requires Reads(text, ok, read) && (Laid(ts, depth, Fresh, ok) || Laid(ts, depth, Dedented, ok))
    requires s.start && s.stack == Steps(depth) && EndsLine(s.tokens) && Tail(text, s.pos, Render(ts, depth, true))
    ensures Yields(read, s, ts)
    decreases ts, 4
  {
    LaidFresh(ts, depth, ok);
    if ts.head.kind == INDENT {
      ReadIndented(text, ok, read, s, ts, depth);
    } else {
      ReadDedents(text, ok, read, s, ts, depth, depth, 0);
      assert s.tokens + Dedents(0) == s.tokens;
    }
  }

  lemma ListDedent(acc: seq<Token>, n: nat, ts: Toks)
    requires ts.Tok? && ts.head == Token(DEDENT, "")
    ensures acc + Dedents(n + 1) + Listing(ts.tail) == acc + Dedents(n) + Listing(ts)
  {
    DedentsNext(acc, n);
    Regroup(acc + Dedents(n), [ts.head], Listing(ts.tail));
  }

  lemma ReadLast(text: string, ok: Token -> bool, read: Reader, s: Stage, ts: Toks, before: nat)
    requires Reads(text, ok, read) && EndsLine(s.tokens) && s.stack == Steps(before)
    requires ts == Tok(Token(EOF, ""), End) && Tail(text, s.pos, Render(ts, 0, true))
    ensures read(s) == Some(s.tokens + Dedents(before) + Listing(ts))
  {
    ReadEnd(text, ok, read, s, before);
    assert Listing(ts) == [Token(EOF, "")];
  }

  /** A DEDENT shows in the text only as the margin of the next line. */
  lemma DedentShape(ts: Toks, depth: nat, ok: Token -> bool)
    requires ts.Tok? && ts.head.kind == DEDENT && depth > 0 && Laid(ts.tail, depth - 1, Dedented, ok)
    ensures LineShape(ts.tail, depth - 1, ok) && ts.tail.head.kind != INDENT
    ensures Render(ts, depth, true) == Render(ts.tail, depth - 1, true)
  {
    LaidFresh(ts.tail, depth - 1, ok);
  }

  /** A line's start after some DEDENTs have been taken. */
  lemma {:induction false} ReadDedents(text: string, ok: Token -> bool, read: Reader, s: Stage, ts: Toks,
                                       before: nat, depth: nat, n: nat)
    requires Reads(text, ok, read) && s.start && s.stack == Steps(before) && EndsLine(s.tokens)
    requires depth + n == before && ts.Tok? && ts.head.kind != INDENT
    requires LineShape(ts, depth, ok) && Tail(text, s.pos, Render(ts, depth, true))
    ensures read(s) == Some(s.tokens + Dedents(n) + Listing(ts))
    decreases ts, 3
  {
    if ts.head.kind == EOF {
      ReadLast(text, ok, read, s, ts, before);
    } else if ts.head.kind == DEDENT {
      DedentShape(ts, depth, ok);
      ReadDedents(text, ok, read, s, ts.tail, before, depth - 1, n + 1);
      ListDedent(s.tokens, n, ts);
    } else {
      ReadOutdented(text, ok, read, s, ts, before, n);
    }
  }

  lemma ResultReads(text: string)
    ensures Reads(text, Lexable, s => Result(text, s))
  {
    forall s: Stage, piece: Piece, s': Stage | Moves(text, Lexable, s, piece, s')
      ensures Result(text, s) == Result(text, s')
    {
      MoveKeepsResult(text, s, piece, s');
    }
    forall t: Token | Lexable(t) ensures Opens(Spell(t)) {
      FirstChar(t);
    }
  }

  /** Lexing the text of a properly laid-out list gives the list back. */
  lemma LexRender(ts: Toks)
    requires Laid(ts, 0, Dedented, Lexable)
    ensures Lex(Render(ts, 0, true)) == Some(Listing(ts))
  {
    var text := Render(ts, 0, true);
    ResultReads(text);
    assert text[0..] == text && Steps(0) == [0];
    ReadFresh(text, Lexable, s => Result(text, s), Stage(0, true, [], [0]), ts, 0);
    assert [] + Listing(ts) == Listing(ts);
  }

  // ------------------------------------------------------------------ the lexer emits nothing else

  /** A written token, a docstring or layout. */
  predicate Emittable(t: Token) {
    IsLayout(t.kind) || t.kind == DOCSTRING || Lexable(t)
  }

  ghost predicate AllEmittable(tokens: seq<Token>) {
    forall i :: 0 <= i < |tokens| ==> Emittable(tokens[i])
  }

  lemma {:induction false} SplitPlain(s: string)
    requires AllDigits(s)
    ensures Split(s) == [s]
  {
    if s != [] {
      SplitPlain(s[1..]);
      assert [s[0]] + s[1..] == s;
    }
  }

  lemma {:induction false} SplitDigits(a: string, b: string)
    requires AllDigits(a) && AllDigits(b)
    ensures Split(a + "." + b) == [a, b]
  {
    var s := a + "." + b;
    if a == [] {
      assert s[1..] == b;
      SplitPlain(b);
    } else {
      SplitDigits(a[1..], b);
      assert s[1..] == a[1..] + "." + b;
      assert [a[0]] + a[1..] == a;
    }
  }

  lemma FractionEmittable(text: string, i: nat, n: nat, k: nat)
    requires i < n < k - 1 < |text| && text[n] == '.'
    requires (forall j :: i <= j < n ==> IsDigit(text[j])) && forall j :: n < j < k ==> IsDigit(text[j])
    ensures IsDecimal(text[i..k])
  {
    var a, b := text[i..n], text[n + 1..k];
    assert text[i..k] == a + "." + b;
    SplitDigits(a, b);
  }

  lemma NumberEmittable(text: string, i: nat)
    requires i < |text| && IsDigit(text[i])
    ensures NumberToken(Token(NumberKind(text, i), text[i..NumberEnd(text, i)]))
  {
    var n := RunEnd(IsDigit, text, i);
    if HasFraction(text, n) {
      FractionEmittable(text, i, n, RunEnd(IsDigit, text, n + 1));
    }
  }

  lemma WordEmittable(text: string, i: nat)
    requires i < |text| && (IsAlpha(text[i]) || text[i] == '_')
    ensures WordToken(Word(text[i..RunEnd(IsWordChar, text, i)]))
  {
  }

  lemma TokenEmittable(text: string, i: nat)
    requires i < |text|
    ensures var r := TokenAt(text, i); r.Emit? ==> Emittable(r.token)
  {
    var c := text[i];
    if IsDigit(c) {
      NumberEmittable(text, i);
    } else if IsAlpha(c) || c == '_' {
      WordEmittable(text, i);
    } else {
      OperatorSpelled(text, i);
    }
  }

  ghost predicate Clean(r: Option<(seq<Token>, seq<nat>)>) {
    r.Some? ==> AllEmittable(r.value.0)
  }

  lemma LayoutEmittable(text: string, i: nat, tokens: seq<Token>, stack: seq<nat>)
    requires i < |text| && AllEmittable(tokens)
    ensures var r := LineAt(text, i, stack); r.Content? ==> AllEmittable(tokens + r.layout)
  {
  }

  lemma {:induction false} FromEmittable(text: string, i: nat, start: bool, tokens: seq<Token>, stack: seq<nat>)
    requires AllEmittable(tokens)
    ensures Clean(LexFrom(text, i, start, tokens, stack))
    decreases |text| - i, start
  {
    if i < |text| {
      if start {
        LineEmittable(text, i, tokens, stack);
      } else {
        StepEmittable(text, i, tokens, stack);
      }
    }
  }

  lemma {:induction false} LineEmittable(text: string, i: nat, tokens: seq<Token>, stack: seq<nat>)
    requires i < |text| && AllEmittable(tokens)
    ensures Clean(LexFrom(text, i, true, tokens, stack))
    decreases |text| - i, true, 0
  {
    match LineAt(text, i, stack)
    case Nothing(next) => FromEmittable(text, next, false, tokens, stack);
    case Blank(next) => FromEmittable(text, next, true, tokens, stack);
    case Content(next, layout, stack') =>
      LayoutEmittable(text, i, tokens, stack);
      FromEmittable(text, next, false, tokens + layout, stack');
    case Broken(_) =>
  }

  lemma {:induction false} StepEmittable(text: string, i: nat, tokens: seq<Token>, stack: seq<nat>)
    requires i < |text| && AllEmittable(tokens)
    ensures Clean(LexFrom(text, i, false, tokens, stack))
    decreases |text| - i, false, 0
  {
    TokenAtSound(text, i);
    TokenEmittable(text, i);
    match TokenAt(text, i)
    case Bad =>
    case Skip(next) => FromEmittable(text, next, false, tokens, stack);
    case Emit(token, next) => FromEmittable(text, next, text[i] == '\n', tokens + [token], stack);
  }

  /** Whatever the text, the lexer emits only written tokens, docstrings and layout. */
  lemma LexEmittable(text: string)
    ensures var r := Lex(text); r.Some? ==> AllEmittable(r.value)
  {
    FromEmittable(text, 0, true, [], [0]);
  }
}
