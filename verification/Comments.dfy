/**
 * What lexing does not depend on: the text before a position, the words of a comment, blank lines and
 * the spaces around tokens.
 */
module CharterComments {
  import opened Options
  import opened Tokens
  import opened CharterLexer
  import opened CharterLayout

  // ------------------------------------------------------------------ only the rest of the text matters

  lemma TailChar(text: string, n: nat, b: string, i: nat)
    requires Tail(text, n, b)
    ensures |text| == n + |b| && (i < |b| ==> text[n + i] == b[i])
  {
    assert i < |b| ==> text[n..][i] == text[n + i];
  }

  lemma {:induction false} RunEndLater(p: char -> bool, text: string, n: nat, b: string, i: nat)
    requires Tail(text, n, b) && i <= |b|
    ensures n + i <= |text| && RunEnd(p, text, n + i) == n + RunEnd(p, b, i)
    decreases |b| - i
  {
    TailChar(text, n, b, i);
    if i < |b| && p(b[i]) {
      RunEndLater(p, text, n, b, i + 1);
    }
  }

  function Later(n: nat, r: Option<(string, nat)>): Option<(string, nat)> {
    if r.Some? then Some((r.value.0, n + r.value.1)) else None
  }

  lemma PrependLater(n: nat, c: char, r: Option<(string, nat)>)
    ensures Prepend(c, Later(n, r)) == Later(n, Prepend(c, r))
  {
  }

  lemma {:induction false} StringBodyLater(text: string, n: nat, b: string, i: nat, quote: char)
    requires Tail(text, n, b)
    ensures StringBody(text, n + i, quote) == Later(n, StringBody(b, i, quote))
    decreases |b| - i
  {
    TailChar(text, n, b, i);
    TailChar(text, n, b, i + 1);
    if i < |b| && b[i] != quote {
      if b[i] != '\\' {
        StringBodyLater(text, n, b, i + 1, quote);
        PrependLater(n, b[i], StringBody(b, i + 1, quote));
      } else if i + 1 < |b| {
        StringBodyLater(text, n, b, i + 2, quote);
        PrependLater(n, Unescape(b[i + 1]), StringBody(b, i + 2, quote));
      }
    }
  }

  lemma TripleLater(text: string, n: nat, b: string, i: nat, quote: char)
    requires Tail(text, n, b)
    ensures Triple(text, n + i, quote) <==> Triple(b, i, quote)
  {
    TailChar(text, n, b, i);
    TailChar(text, n, b, i + 1);
    TailChar(text, n, b, i + 2);
  }

  lemma {:induction false} DocBodyLater(text: string, n: nat, b: string, i: nat, quote: char)
    requires Tail(text, n, b)
    ensures DocBody(text, n + i, quote) == Later(n, DocBody(b, i, quote))
    decreases |b| - i
  {
    TailChar(text, n, b, i);
    TripleLater(text, n, b, i, quote);
    if i < |b| && !Triple(b, i, quote) {
      DocBodyLater(text, n, b, i + 1, quote);
      PrependLater(n, b[i], DocBody(b, i + 1, quote));
    }
  }

  function ScanLater(n: nat, r: Scan): Scan {
    match r
    case Emit(token, next) => Emit(token, n + next)
    case Skip(next) => Skip(n + next)
    case Bad => Bad
  }

  lemma LiteralLater(text: string, n: nat, b: string, i: nat)
    requires Tail(text, n, b) && i < |b|
    ensures n + i < |text| && LiteralScan(ReadLiteral(text, n + i)) == ScanLater(n, LiteralScan(ReadLiteral(b, i)))
  {
    TailChar(text, n, b, i);
    TripleLater(text, n, b, i, b[i]);
    DocBodyLater(text, n, b, i + 3, b[i]);
    StringBodyLater(text, n, b, i + 1, b[i]);
  }

  lemma SliceLater(text: string, n: nat, b: string, i: nat, k: nat)
    requires Tail(text, n, b) && i <= k <= |b|
    ensures n + k <= |text| && text[n + i..n + k] == b[i..k]
  {
    TailChar(text, n, b, i);
    assert text[n..][i..k] == text[n + i..n + k];
  }

  lemma NumberLater(text: string, n: nat, b: string, i: nat)
    requires Tail(text, n, b) && i < |b|
    ensures n + i < |text| && NumberEnd(text, n + i) == n + NumberEnd(b, i)
    ensures NumberKind(text, n + i) == NumberKind(b, i)
  {
    TailChar(text, n, b, i);
    var k := RunEnd(IsDigit, b, i);
    RunEndLater(IsDigit, text, n, b, i);
    TailChar(text, n, b, k);
    TailChar(text, n, b, k + 1);
    if HasFraction(b, k) {
      RunEndLater(IsDigit, text, n, b, k + 1);
    }
  }

  lemma OperatorLater(text: string, n: nat, b: string, i: nat)
    requires Tail(text, n, b) && i < |b|
    ensures n + i < |text| && Operator(text, n + i) == ScanLater(n, Operator(b, i))
  {
    TailChar(text, n, b, i);
    TailChar(text, n, b, i + 1);
  }

  function NumberScan(text: string, i: nat): Scan
    requires i < |text|
  {
    Emit(Token(NumberKind(text, i), text[i..NumberEnd(text, i)]), NumberEnd(text, i))
  }

  lemma NumberScanLater(text: string, n: nat, b: string, i: nat)
    requires Tail(text, n, b) && i < |b|
    ensures n + i < |text| && NumberScan(text, n + i) == ScanLater(n, NumberScan(b, i))
  {
    NumberLater(text, n, b, i);
    SliceLater(text, n, b, i, NumberEnd(b, i));
  }

  function WordScan(text: string, i: nat): Scan
    requires i < |text|
  {
    Emit(Word(text[i..RunEnd(IsWordChar, text, i)]), RunEnd(IsWordChar, text, i))
  }

  lemma WordLater(text: string, n: nat, b: string, i: nat)
    requires Tail(text, n, b) && i < |b|
    ensures n + i < |text| && WordScan(text, n + i) == ScanLater(n, WordScan(b, i))
  {
    TailChar(text, n, b, i);
    RunEndLater(IsWordChar, text, n, b, i);
    SliceLater(text, n, b, i, RunEnd(IsWordChar, b, i));
  }

  lemma TokenLater(text: string, n: nat, b: string, i: nat)
    requires Tail(text, n, b) && i < |b|
    ensures n + i < |text| && text[n + i] == b[i] && TokenAt(text, n + i) == ScanLater(n, TokenAt(b, i))
  {
    TailChar(text, n, b, i);
    var c := b[i];
    if c == '#' {
      RunEndLater(NotNewline, text, n, b, i);
    } else if IsQuote(c) {
      LiteralLater(text, n, b, i);
    } else if IsDigit(c) {
      NumberScanLater(text, n, b, i);
    } else if IsAlpha(c) || c == '_' {
      WordLater(text, n, b, i);
    } else {
      OperatorLater(text, n, b, i);
    }
  }

  function HeadLater(n: nat, r: LineHead): LineHead {
    match r
    case Skipped(next, blank) => Skipped(n + next, blank)
    case Tabbed => Tabbed
    case Starts(next) => Starts(n + next)
  }

  lemma HeadAtLater(text: string, n: nat, b: string, i: nat)
    requires Tail(text, n, b) && i < |b|
    ensures n + i < |text| && HeadAt(text, n + i) == HeadLater(n, HeadAt(b, i))
  {
    var k := RunEnd(IsSpace, b, i);
    TailChar(text, n, b, i);
    RunEndLater(IsSpace, text, n, b, i);
    TailChar(text, n, b, k);
    if k < |b| {
      RunEndLater(NotNewline, text, n, b, k);
    }
  }

  function LineLater(n: nat, r: LineScan): LineScan {
    match r
    case Nothing(next) => Nothing(n + next)
    case Blank(next) => Blank(n + next)
    case Content(next, layout, st) => Content(n + next, layout, st)
    case Broken(reason) => Broken(reason)
  }

  lemma LineAtLater(text: string, n: nat, b: string, i: nat, st: seq<nat>)
    requires Tail(text, n, b) && i < |b|
    ensures n + i < |text| && LineAt(text, n + i, st) == LineLater(n, LineAt(b, i, st))
  {
    HeadAtLater(text, n, b, i);
  }

  type Lexing = Option<(seq<Token>, seq<nat>)>
  type Lexer = (nat, bool, seq<Token>, seq<nat>) -> Lexing

  /** What lexing gives after a scan. */
  function AfterScan(lex: Lexer, newline: bool, ts: seq<Token>, st: seq<nat>, s: Scan): Lexing {
    match s
    case Bad => None
    case Skip(next) => lex(next, false, ts, st)
    case Emit(token, next) => lex(next, newline, ts + [token], st)
  }

  function AfterLine(lex: Lexer, ts: seq<Token>, st: seq<nat>, s: LineScan): Lexing {
    match s
    case Nothing(next) => lex(next, false, ts, st)
    case Blank(next) => lex(next, true, ts, st)
    case Content(next, layout, st') => lex(next, false, ts + layout, st')
    case Broken(_) => None
  }

  /** One step of lexing `b` at position `i`, within a line and at a line's start. */
  ghost predicate StepsAt(b: string, lex: Lexer, i: nat, ts: seq<Token>, st: seq<nat>) {
    if i < |b| then
      && lex(i, false, ts, st) == AfterScan(lex, b[i] == '\n', ts, st, TokenAt(b, i))
      && lex(i, true, ts, st) == AfterLine(lex, ts, st, LineAt(b, i, st))
    else lex(i, false, ts, st) == Some((ts, st)) && lex(i, true, ts, st) == Some((ts, st))
  }

  /** A lexer of `b`, wherever it stands. */
  ghost predicate Lexes(b: string, lex: Lexer) {
    forall i: nat, ts: seq<Token>, st: seq<nat> :: StepsAt(b, lex, i, ts, st)
  }

  /** There is only one. */
  lemma {:induction false} LexerUnique(b: string, one: Lexer, two: Lexer, i: nat, start: bool, ts: seq<Token>,
                                       st: seq<nat>)
    requires Lexes(b, one) && Lexes(b, two)
    ensures one(i, start, ts, st) == two(i, start, ts, st)
    decreases |b| - i, start
  {
    assert StepsAt(b, one, i, ts, st) && StepsAt(b, two, i, ts, st);
    if i < |b| {
      if start {
        LineUnique(b, one, two, i, ts, st, LineAt(b, i, st));
      } else {
        TokenAtSound(b, i);
        ScanUnique(b, one, two, i, ts, st, TokenAt(b, i));
      }
    }
  }

  lemma {:induction false} LineUnique(b: string, one: Lexer, two: Lexer, i: nat, ts: seq<Token>, st: seq<nat>,
                                      s: LineScan)
    requires Lexes(b, one) && Lexes(b, two) && i < |b| && (s.Nothing? || s.Blank? ==> i < s.next)
    requires s.Content? ==> i <= s.next
    ensures AfterLine(one, ts, st, s) == AfterLine(two, ts, st, s)
    decreases |b| - i, true, 0
  {
    match s
    case Nothing(next) => LexerUnique(b, one, two, next, false, ts, st);
    case Blank(next) => LexerUnique(b, one, two, next, true, ts, st);
    case Content(next, layout, st') => LexerUnique(b, one, two, next, false, ts + layout, st');
    case Broken(_) =>
  }

  lemma {:induction false} ScanUnique(b: string, one: Lexer, two: Lexer, i: nat, ts: seq<Token>, st: seq<nat>, s: Scan)
    requires Lexes(b, one) && Lexes(b, two) && i < |b| && (s.Skip? || s.Emit? ==> i < s.next)
    ensures AfterScan(one, b[i] == '\n', ts, st, s) == AfterScan(two, b[i] == '\n', ts, st, s)
    decreases |b| - i, false, 0
  {
    match s
    case Bad =>
    case Skip(next) => LexerUnique(b, one, two, next, false, ts, st);
    case Emit(token, next) => LexerUnique(b, one, two, next, b[i] == '\n', ts + [token], st);
  }

  /** The lexer of a text, from a position on. */
  ghost function LexerAt(text: string, n: nat): Lexer {
    (i: nat, start: bool, ts: seq<Token>, st: seq<nat>) => LexFrom(text, n + i, start, ts, st)
  }

  lemma LexerSteps(text: string, n: nat, b: string, i: nat, ts: seq<Token>, st: seq<nat>)
    requires Tail(text, n, b)
    ensures StepsAt(b, LexerAt(text, n), i, ts, st)
  {
    var lex := LexerAt(text, n);
    TailChar(text, n, b, i);
    assert lex(i, false, ts, st) == LexFrom(text, n + i, false, ts, st);
    assert lex(i, true, ts, st) == LexFrom(text, n + i, true, ts, st);
    if i < |b| {
      LexerScans(text, n, b, i, ts, st, TokenAt(b, i));
      LexerLines(text, n, b, i, ts, st, LineAt(b, i, st));
    }
  }

  lemma LexerScans(text: string, n: nat, b: string, i: nat, ts: seq<Token>, st: seq<nat>, s: Scan)
    requires Tail(text, n, b) && i < |b| && TokenAt(b, i) == s
    ensures LexFrom(text, n + i, false, ts, st) == AfterScan(LexerAt(text, n), b[i] == '\n', ts, st, s)
  {
    TokenLater(text, n, b, i);
    FromToken(text, n + i, ts, st, ScanLater(n, s));
  }

  lemma LexerLines(text: string, n: nat, b: string, i: nat, ts: seq<Token>, st: seq<nat>, s: LineScan)
    requires Tail(text, n, b) && i < |b| && LineAt(b, i, st) == s
    ensures LexFrom(text, n + i, true, ts, st) == AfterLine(LexerAt(text, n), ts, st, s)
  {
    LineAtLater(text, n, b, i, st);
    FromLine(text, n + i, ts, st, LineLater(n, s));
  }

  lemma FromLine(text: string, i: nat, ts: seq<Token>, st: seq<nat>, s: LineScan)
    requires i < |text| && LineAt(text, i, st) == s
    ensures LexFrom(text, i, true, ts, st) == AfterLine(LexerAt(text, 0), ts, st, s)
  {
  }

  /** Lexing from a position on depends only on the text from there on. */
  lemma LexLater(text: string, n: nat, b: string, i: nat, start: bool, ts: seq<Token>, st: seq<nat>)
    requires Tail(text, n, b)
    ensures LexFrom(text, n + i, start, ts, st) == LexFrom(b, i, start, ts, st)
  {
    forall i: nat, ts: seq<Token>, st: seq<nat> ensures StepsAt(b, LexerAt(text, n), i, ts, st) {
      LexerSteps(text, n, b, i, ts, st);
    }
    assert b[0..] == b;
    forall i: nat, ts: seq<Token>, st: seq<nat> ensures StepsAt(b, LexerAt(b, 0), i, ts, st) {
      LexerSteps(b, 0, b, i, ts, st);
    }
    LexerUnique(b, LexerAt(text, n), LexerAt(b, 0), i, start, ts, st);
  }

  // ------------------------------------------------------------------ comments, blank lines and spaces

  ghost predicate OneLine(c: string) {
    '\n' !in c
  }

  /** The end of the text or of a line. */
  ghost predicate AtLineEnd(b: string) {
    b == [] || b[0] == '\n'
  }

  lemma TailOf(a: string, b: string)
    ensures Tail(a + b, |a|, b)
  {
  }

  lemma CommentEnd(text: string, i: nat, c: string, b: string)
    requires OneLine(c) && AtLineEnd(b) && Tail(text, i, "#" + c + b)
    ensures i < |text| && text[i] == '#' && RunEnd(NotNewline, text, i) == i + 1 + |c| && Tail(text, i + 1 + |c|, b)
  {
    var s, k := "#" + c + b, i + 1 + |c|;
    TailChar(text, i, s, 0);
    forall j | i <= j < k ensures text[j] != '\n' {
      TailChar(text, i, s, j - i);
    }
    TailChar(text, i, s, k - i);
    TailSplit(text, i, "#" + c, b);
    RunEndIs(NotNewline, text, i, k);
  }

  /** The scanner passes over something, so lexing goes on with what follows. */
  lemma SkipTo(text: string, i: nat, k: nat, b: string, ts: seq<Token>, st: seq<nat>)
    requires i < |text| && TokenAt(text, i) == Skip(k) && Tail(text, k, b)
    ensures LexFrom(text, i, false, ts, st) == LexFrom(b, 0, false, ts, st)
  {
    FromToken(text, i, ts, st, Skip(k));
    LexLater(text, k, b, 0, false, ts, st);
  }

  lemma LineTo(text: string, i: nat, k: nat, blank: bool, b: string, ts: seq<Token>, st: seq<nat>)
    requires i < |text| && HeadAt(text, i) == Skipped(k, blank) && Tail(text, k, b)
    ensures LexFrom(text, i, true, ts, st) == LexFrom(b, 0, blank, ts, st)
  {
    LexLine(text, i, ts, st);
    LexLater(text, k, b, 0, blank, ts, st);
  }

  /** A comment after a token is passed over up to its line's end, whatever it says. */
  lemma CommentSkipped(text: string, i: nat, c: string, b: string, ts: seq<Token>, st: seq<nat>)
    requires OneLine(c) && AtLineEnd(b) && Tail(text, i, "#" + c + b)
    ensures LexFrom(text, i, false, ts, st) == LexFrom(b, 0, false, ts, st)
  {
    CommentEnd(text, i, c, b);
    SkipTo(text, i, i + 1 + |c|, b, ts, st);
  }

  lemma SpacesEnd(text: string, i: nat, n: nat, s: string)
    requires Tail(text, i, Spaces(n) + s) && s != [] && s[0] != ' '
    ensures i < |text| && RunEnd(IsSpace, text, i) == i + n && i + n < |text| && text[i + n] == s[0]
    ensures Tail(text, i + n, s)
  {
    TailSplit(text, i, Spaces(n), s);
    ReadsChars(text, i, Spaces(n));
    TailChar(text, i + n, s, 0);
    RunEndIs(IsSpace, text, i, i + n);
  }

  /**
   * A line that holds only a comment gives no token before its line end, whatever it says and however
   * it is indented.
   */
  lemma CommentLineSkipped(text: string, i: nat, n: nat, c: string, b: string, ts: seq<Token>, st: seq<nat>)
    requires OneLine(c) && AtLineEnd(b) && Tail(text, i, Spaces(n) + ("#" + c + b))
    ensures LexFrom(text, i, true, ts, st) == LexFrom(b, 0, false, ts, st)
  {
    SpacesEnd(text, i, n, "#" + c + b);
    CommentEnd(text, i + n, c, b);
    LineTo(text, i, i + n + 1 + |c|, false, b, ts, st);
  }

  /** A blank line gives nothing at all. */
  lemma BlankLineSkipped(text: string, i: nat, n: nat, b: string, ts: seq<Token>, st: seq<nat>)
    requires Tail(text, i, Spaces(n) + ("\n" + b))
    ensures LexFrom(text, i, true, ts, st) == LexFrom(b, 0, true, ts, st)
  {
    SpacesEnd(text, i, n, "\n" + b);
    TailSplit(text, i + n, "\n", b);
    LineTo(text, i, i + n + 1, true, b, ts, st);
  }

  /** A space, tab or carriage return between tokens gives nothing. */
  lemma SpaceSkipped(text: string, i: nat, c: char, b: string, ts: seq<Token>, st: seq<nat>)
    requires c in {' ', '\t', '\r'} && Tail(text, i, [c] + b)
    ensures LexFrom(text, i, false, ts, st) == LexFrom(b, 0, false, ts, st)
  {
    StandsFirst(text, i, c, b);
    SkipTo(text, i, i + 1, b, ts, st);
  }

  // ------------------------------------------------------------------ texts with leading comments

  /** A blank line, or a line that holds only a comment. */
  datatype Filler = BlankLine(indent: nat) | CommentLine(indent: nat, words: string)

  ghost predicate Proper(fs: seq<Filler>) {
    forall i :: 0 <= i < |fs| && fs[i].CommentLine? ==> OneLine(fs[i].words)
  }

  function FillerText(f: Filler): string {
    match f
    case BlankLine(n) => Spaces(n) + "\n"
    case CommentLine(n, c) => Spaces(n) + ("#" + c + "\n")
  }

  function Leading(fs: seq<Filler>): string {
    if fs == [] then "" else FillerText(fs[0]) + Leading(fs[1..])
  }

  /** The line ends that comment lines leave; blank lines leave nothing. */
  function LineEnds(fs: seq<Filler>): seq<Token> {
    if fs == [] then []
    else (if fs[0].CommentLine? then [Token(NEWLINE, "\n")] else []) + LineEnds(fs[1..])
  }

  lemma {:induction false} OnlyLineEnds(fs: seq<Filler>, i: nat)
    requires i < |LineEnds(fs)|
    ensures LineEnds(fs)[i].kind == NEWLINE
  {
    var n := if fs[0].CommentLine? then 1 else 0;
    if i >= n {
      OnlyLineEnds(fs[1..], i - n);
    }
  }

  lemma NewlineRead(b: string, ts: seq<Token>, st: seq<nat>)
    ensures LexFrom("\n" + b, 0, false, ts, st) == LexFrom(b, 0, true, ts + [Token(NEWLINE, "\n")], st)
  {
    var text := "\n" + b;
    TailOf("\n", b);
    FromToken(text, 0, ts, st, Emit(Token(NEWLINE, "\n"), 1));
    LexLater(text, 1, b, 0, true, ts + [Token(NEWLINE, "\n")], st);
  }

  lemma FillerRead(f: Filler, b: string, ts: seq<Token>, st: seq<nat>)
    requires f.CommentLine? ==> OneLine(f.words)
    ensures LexFrom(FillerText(f) + b, 0, true, ts, st) == LexFrom(b, 0, true, ts + LineEnds([f]), st)
  {
    var text := FillerText(f) + b;
    assert text[0..] == text;
    match f
    case BlankLine(n) =>
      assert text == Spaces(n) + ("\n" + b) && ts + LineEnds([f]) == ts;
      BlankLineSkipped(text, 0, n, b, ts, st);
    case CommentLine(n, c) =>
      assert text == Spaces(n) + ("#" + c + ("\n" + b)) && LineEnds([f]) == [Token(NEWLINE, "\n")];
      CommentLineSkipped(text, 0, n, c, "\n" + b, ts, st);
      NewlineRead(b, ts, st);
  }

  lemma Chained(a: string, b: string, c: string)
    ensures a + b + c == a + (b + c)
  {
  }

  lemma LeadingSplit(fs: seq<Filler>, b: string, ts: seq<Token>)
    requires fs != []
    ensures Leading(fs) + b == FillerText(fs[0]) + (Leading(fs[1..]) + b)
    ensures ts + LineEnds(fs) == ts + LineEnds([fs[0]]) + LineEnds(fs[1..])
  {
    Chained(FillerText(fs[0]), Leading(fs[1..]), b);
    assert LineEnds([fs[0]][1..]) == [];
    var one := if fs[0].CommentLine? then [Token(NEWLINE, "\n")] else [];
    assert LineEnds([fs[0]]) == one + [] == one;
    Joined(ts, one, LineEnds(fs[1..]));
  }

  lemma {:induction false} LeadingRead(fs: seq<Filler>, text: string, b: string, ts: seq<Token>, all: seq<Token>,
                                       st: seq<nat>)
    requires Proper(fs) && text == Leading(fs) + b && all == ts + LineEnds(fs)
    ensures LexFrom(text, 0, true, ts, st) == LexFrom(b, 0, true, all, st)
    decreases |fs|
  {
    if fs == [] {
      assert text == b && all == ts;
    } else {
      var rest := Leading(fs[1..]) + b;
      LeadingSplit(fs, b, ts);
      FillerRead(fs[0], rest, ts, st);
      LeadingRead(fs[1..], rest, b, ts + LineEnds([fs[0]]), all, st);
    }
  }

  function After(before: seq<Token>, r: Option<(seq<Token>, seq<nat>)>): Option<(seq<Token>, seq<nat>)> {
    if r.Some? then Some((before + r.value.0, r.value.1)) else None
  }

  lemma Joined(a: seq<Token>, b: seq<Token>, c: seq<Token>)
    ensures a + b + c == a + (b + c)
  {
  }

  /** The tokens so far are never looked at, only added to. */
  lemma {:induction false} LexAfter(text: string, i: nat, start: bool, before: seq<Token>, ts: seq<Token>, st: seq<nat>)
    ensures LexFrom(text, i, start, before + ts, st) == After(before, LexFrom(text, i, start, ts, st))
    decreases |text| - i, start
  {
    if i < |text| {
      if start {
        LexLineAfter(text, i, before, ts, st);
      } else {
        LexTokenAfter(text, i, before, ts, st);
      }
    }
  }

  lemma {:induction false} LexLineAfter(text: string, i: nat, before: seq<Token>, ts: seq<Token>, st: seq<nat>)
    requires i < |text|
    ensures LexFrom(text, i, true, before + ts, st) == After(before, LexFrom(text, i, true, ts, st))
    decreases |text| - i, true, 0
  {
    LexLine(text, i, ts, st);
    LexLine(text, i, before + ts, st);
    match HeadAt(text, i)
    case Tabbed =>
    case Skipped(next, blank) => LexAfter(text, next, blank, before, ts, st);
    case Starts(next) =>
      var r := Reindent(st, next - i);
      if r.Some? {
        Joined(before, ts, r.value.0);
        LexAfter(text, next, false, before, ts + r.value.0, r.value.1);
      }
  }

  lemma {:induction false} LexTokenAfter(text: string, i: nat, before: seq<Token>, ts: seq<Token>, st: seq<nat>)
    requires i < |text|
    ensures LexFrom(text, i, false, before + ts, st) == After(before, LexFrom(text, i, false, ts, st))
    decreases |text| - i, false, 0
  {
    TokenAtSound(text, i);
    FromToken(text, i, ts, st, TokenAt(text, i));
    FromToken(text, i, before + ts, st, TokenAt(text, i));
    match TokenAt(text, i)
    case Bad =>
    case Skip(next) => LexAfter(text, next, false, before, ts, st);
    case Emit(token, next) =>
      Joined(before, ts, [token]);
      LexAfter(text, next, text[i] == '\n', before, ts + [token], st);
  }

  /** What lexing makes of a text, before its last line is ended and its blocks are closed. */
  lemma LexIs(text: string, r: Option<(seq<Token>, seq<nat>)>)
    requires LexFrom(text, 0, true, [], [0]) == r
    ensures Lex(text) == if r.Some? then Some(Finished(r.value.0, r.value.1)) else None
  {
  }

  lemma LeadingLexes(fs: seq<Filler>, b: string, r: Option<(seq<Token>, seq<nat>)>)
    requires Proper(fs) && LexFrom(b, 0, true, [], [0]) == r
    ensures LexFrom(Leading(fs) + b, 0, true, [], [0]) == After(LineEnds(fs), r)
  {
    LeadingRead(fs, Leading(fs) + b, b, [], [] + LineEnds(fs), [0]);
    LexAfter(b, 0, true, LineEnds(fs), [], [0]);
    assert [] + LineEnds(fs) == LineEnds(fs) + [];
  }

  /**
   * Leading comment and blank lines add nothing but the line ends of the comments to the tokens of a
   * text that has any.
   */
  lemma LexLeading(fs: seq<Filler>, b: string)
    requires Proper(fs) && Lex(b).Some? && Lex(b).value[0].kind != DEDENT && Lex(b).value[0].kind != EOF
    ensures Lex(Leading(fs) + b) == Some(LineEnds(fs) + Lex(b).value)
  {
    var r := LexFrom(b, 0, true, [], [0]);
    LexIs(b, r);
    LeadingLexes(fs, b, r);
    LexIs(Leading(fs) + b, After(LineEnds(fs), r));
    FinishedAfter(LineEnds(fs), r.value.0, r.value.1);
  }

  lemma FinishedAfter(before: seq<Token>, ts: seq<Token>, st: seq<nat>)
    requires ts != []
    ensures Finished(before + ts, st) == before + Finished(ts, st)
  {
    assert (before + ts)[|before + ts| - 1] == ts[|ts| - 1];
    Joined(before, ts, [Token(NEWLINE, "\n")]);
    assert LineEnded(before + ts) == before + LineEnded(ts);
    var closing := Dedents(if st == [] then 0 else |st| - 1);
    Joined(before, LineEnded(ts), closing);
    Joined(before, LineEnded(ts) + closing, [Token(EOF, "")]);
  }
}
