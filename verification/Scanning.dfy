/**
 * What the scanner makes of a position, said without the scanner: which token, which stretch of space,
 * or why nothing.
 */
module CharterScanning {
  import opened Options
  import opened Tokens
  import opened CharterLexer
  import opened CharterLayout

  // ------------------------------------------------------------------ string literals

  /** A part of a literal: a character that stands for itself, or a backslash and a character. */
  datatype Part = Plain(c: char) | Escaped(c: char)

  function PartText(p: Part): string {
    if p.Plain? then [p.c] else ['\\', p.c]
  }

  function PartValue(p: Part): char {
    match p
    case Plain(c) => c
    case Escaped(c) => if c == 'n' then '\n' else if c == 't' then '\t' else if c == 'r' then '\r' else c
  }

  function PartsText(ps: seq<Part>): string {
    if ps == [] then [] else PartText(ps[0]) + PartsText(ps[1..])
  }

  function PartsValue(ps: seq<Part>): string {
    if ps == [] then [] else [PartValue(ps[0])] + PartsValue(ps[1..])
  }

  /** Nothing but escapes hides a quote or a backslash. */
  ghost predicate PartsPlain(ps: seq<Part>, quote: char) {
    forall i :: 0 <= i < |ps| && ps[i].Plain? ==> ps[i].c != quote && ps[i].c != '\\'
  }

  /** From inside its quotes, a literal is read part by part up to the first quote that is not escaped. */
  lemma {:induction false} PartsRead(text: string, i: nat, ps: seq<Part>, quote: char)
    requires PartsPlain(ps, quote) && quote != '\\' && ReadsAt(text, i, PartsText(ps) + [quote])
    ensures StringBody(text, i, quote) == Some((PartsValue(ps), i + |PartsText(ps)| + 1))
    decreases |ps|
  {
    if ps == [] {
      ReadsChar(text, i, [quote], 0);
    } else {
      var head, rest := PartText(ps[0]), PartsText(ps[1..]) + [quote];
      assert PartsText(ps) + [quote] == head + rest;
      ReadsBoth(text, i, head, rest);
      PartsRead(text, i + |head|, ps[1..], quote);
      ReadsChar(text, i, head, 0);
      if ps[0].Escaped? {
        ReadsChar(text, i, head, 1);
      }
    }
  }

  /** Whatever literal is read consists of such parts. */
  lemma {:induction false} PartsOf(text: string, i: nat, quote: char) returns (ps: seq<Part>)
    requires quote != '\\' && StringBody(text, i, quote).Some?
    ensures PartsPlain(ps, quote) && ReadsAt(text, i, PartsText(ps) + [quote])
    ensures StringBody(text, i, quote).value == (PartsValue(ps), i + |PartsText(ps)| + 1)
    decreases |text| - i
  {
    if text[i] == quote {
      ps := [];
      assert text[i..i + 1] == [quote];
    } else {
      var n := if text[i] == '\\' then 2 else 1;
      var first := if text[i] == '\\' then Escaped(text[i + 1]) else Plain(text[i]);
      var rest := PartsOf(text, i + n, quote);
      ps := [first] + rest;
      assert ps[1..] == rest;
      assert text[i..i + n] == PartText(first);
      ReadsJoin(text, i, PartText(first), PartsText(rest) + [quote]);
      assert PartsText(ps) + [quote] == PartText(first) + (PartsText(rest) + [quote]);
    }
  }

  lemma ReadsJoin(text: string, i: nat, a: string, b: string)
    requires ReadsAt(text, i, a) && ReadsAt(text, i + |a|, b)
    ensures ReadsAt(text, i, a + b)
  {
    assert text[i..i + |a| + |b|] == text[i..i + |a|] + text[i + |a|..i + |a| + |b|];
  }

  // ------------------------------------------------------------------ tokens

  /** A word up to where no word character follows. */
  ghost predicate WordStands(text: string, i: nat, t: Token, k: nat) {
    WordToken(t) && ReadsAt(text, i, t.text) && k == i + |t.text| && (k < |text| ==> !IsWordChar(text[k]))
  }

  /** A number up to where no digit follows, and no fraction either if it has none. */
  ghost predicate NumberStands(text: string, i: nat, t: Token, k: nat) {
    && NumberToken(t) && ReadsAt(text, i, t.text) && k == i + |t.text| && (k < |text| ==> !IsDigit(text[k]))
    && (t.kind == INT ==> !(k + 1 < |text| && text[k] == '.' && IsDigit(text[k + 1])))
  }

  /** An operator none of whose longer companions stands there. */
  ghost predicate OperatorStands(text: string, i: nat, t: Token, k: nat) {
    && Spelled(t.kind, t.text) && ReadsAt(text, i, t.text) && k == i + |t.text|
    && forall kind, s :: Spelled(kind, s) && ReadsAt(text, i, s) ==> |s| <= |t.text|
  }

  /** A string between quotes, or a docstring between three of them. */
  ghost predicate LiteralStands(text: string, i: nat, t: Token, k: nat) {
    && i < |text| && IsQuote(text[i])
    && if Triple(text, i, text[i]) then
         t.kind == DOCSTRING && DocBody(text, i + 3, text[i]) == Some((t.text, k))
       else t.kind == STRING && StringBody(text, i + 1, text[i]) == Some((t.text, k))
  }

  ghost predicate TokenStands(text: string, i: nat, t: Token, k: nat) {
    || (i < |text| && text[i] == '\n' && t == Token(NEWLINE, "\n") && k == i + 1)
    || WordStands(text, i, t, k) || NumberStands(text, i, t, k) || OperatorStands(text, i, t, k)
    || LiteralStands(text, i, t, k)
  }

  /** One space, tab or carriage return, or a comment up to the end of its line. */
  ghost predicate SpaceStands(text: string, i: nat, k: nat) {
    && i < k <= |text|
    && (|| (k == i + 1 && text[i] in {' ', '\t', '\r'})
        || (text[i] == '#' && '\n' !in text[i..k] && (k < |text| ==> text[k] == '\n')))
  }

  lemma WordScans(text: string, i: nat)
    requires i < |text| && (IsAlpha(text[i]) || text[i] == '_')
    ensures var r := TokenAt(text, i); r.Emit? && WordStands(text, i, r.token, r.next)
  {
    WordEmittable(text, i);
  }

  lemma NumberScans(text: string, i: nat)
    requires i < |text| && IsDigit(text[i])
    ensures var r := TokenAt(text, i); r.Emit? && NumberStands(text, i, r.token, r.next)
  {
    NumberEmittable(text, i);
  }

  lemma CommentScans(text: string, i: nat)
    requires i < |text| && text[i] == '#'
    ensures var r := TokenAt(text, i); r.Skip? && SpaceStands(text, i, r.next)
  {
    var k := RunEnd(NotNewline, text, i);
    assert forall j :: 0 <= j < k - i ==> text[i..k][j] == text[i + j];
  }

  lemma OperatorScans(text: string, i: nat)
    requires i < |text|
    ensures var r := Operator(text, i);
      && (r.Emit? || r.Bad?) && (r.Emit? ==> OperatorStands(text, i, r.token, r.next))
      && (r.Bad? ==> forall kind, s :: Spelled(kind, s) ==> !ReadsAt(text, i, s))
  {
    OperatorSpelled(text, i);
    forall kind, s | Spelled(kind, s) && ReadsAt(text, i, s)
      ensures Operator(text, i).Emit? && |s| <= |Operator(text, i).token.text|
    {
      OperatorLongest(text, i, kind, s);
    }
  }

  /** The character starts no word, number, literal, space or comment. */
  predicate StartsNothing(c: char) {
    !IsAlpha(c) && c != '_' && !IsDigit(c) && !IsQuote(c) && c !in {' ', '\t', '\r', '\n', '#'}
  }

  /**
   * The scanner emits exactly a token that stands at the position, as long as it can be, passes over
   * exactly a space or a comment, and fails exactly at an unterminated literal or where nothing can start.
   */
  lemma ScanMeans(text: string, i: nat)
    requires i < |text|
    ensures match TokenAt(text, i)
      case Emit(t, k) => TokenStands(text, i, t, k)
      case Skip(k) => SpaceStands(text, i, k)
      case Bad =>
        || (IsQuote(text[i]) && ReadLiteral(text, i).Unterminated?)
        || (StartsNothing(text[i]) && forall kind, s :: Spelled(kind, s) ==> !ReadsAt(text, i, s))
  {
    var c := text[i];
    if c == '#' {
      CommentScans(text, i);
    } else if IsDigit(c) {
      NumberScans(text, i);
    } else if IsAlpha(c) || c == '_' {
      WordScans(text, i);
    } else if StartsNothing(c) {
      OperatorScans(text, i);
    }
  }

  // ------------------------------------------------------------------ the start of a line

  /** The text at a line's start: so many spaces and then something else, or nothing. */
  ghost predicate Margin(text: string, i: nat, n: nat) {
    i + n <= |text| && (forall j :: i <= j < i + n ==> text[j] == ' ') && (i + n < |text| ==> text[i + n] != ' ')
  }

  /**
   * A line is refused exactly when a tab follows its spaces; nothing is read of it when it is blank,
   * then its line end is passed over, or holds only a comment, which is passed over up to there; and
   * otherwise its first token stands after the spaces.
   */
  lemma HeadMeans(text: string, i: nat, n: nat)
    requires i < |text| && Margin(text, i, n)
    ensures var k := i + n;
      match HeadAt(text, i)
      case Tabbed => k < |text| && text[k] == '\t'
      case Skipped(next, blank) =>
        if blank then k < |text| && text[k] == '\n' && next == k + 1
        else if k == |text| then next == k
        else text[k] == '#' && SpaceStands(text, k, next)
      case Starts(next) => next == k < |text| && text[k] !in {' ', '\t', '\n', '#'}
  {
    RunEndIs(IsSpace, text, i, i + n);
    if i + n < |text| && text[i + n] == '#' {
      CommentScans(text, i + n);
    }
  }
}
