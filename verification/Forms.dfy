/** Ways of writing a charter that the canonical printer does not use, and what the parser makes of them. */
module OtherForms {
  import opened Options
  import opened CharterAst
  import opened Tokens
  import opened Grammar
  import opened Printer

  // ------------------------------------------------------------------ one schema on the line of its keyword

  function PrintReferenceOf(s: SchemaRef, rest: Toks): Toks {
    PrintDotted(s.namespace_, Put(AT, "@", Put(VersionKind(s.version), s.version, Line(rest))))
  }

  function PrintInline(s: SchemaRef, rest: Toks): Toks {
    Put(SCHEMAS, "schemas", Put(COLON, ":", PrintReferenceOf(s, rest)))
  }

  lemma ReferenceRoundTrip(s: SchemaRef, rest: Toks)
    ensures Schema(PrintReferenceOf(s, rest)) == Ok(s, Line(rest))
  {
    var v := Put(VersionKind(s.version), s.version, Line(rest));
    SchemaVersionOf(VersionKind(s.version), s.version, Line(rest));
    DottedRoundTrip(s.namespace_, Put(AT, "@", v));
    ReferenceOf(PrintReferenceOf(s, rest), s, Put(AT, "@", v), Line(rest));
  }

  lemma ReferenceOf(ts: Toks, s: SchemaRef, at: Toks, rest: Toks)
    requires DottedName(ts) == Ok(s.namespace_, at) && at.Kind() == AT
    requires SchemaVersion(at.Rest()) == Ok(s.version, rest)
    ensures Schema(ts) == Ok(s, rest)
  {
  }

  lemma InlineOf(ts: Toks, s: SchemaRef, at: Toks)
    requires ts.Kind() == COLON && ts.Rest().Kind() != NEWLINE && Schema(ts.Rest()) == Ok(s, at)
    ensures Schemas(ts) == Ok([s], SkipNewlines(at))
  {
  }

  /** Any reference after the colon is the one schema of the charter. */
  lemma InlineRoundTrip(s: SchemaRef, rest: Toks)
    ensures Schemas(Put(COLON, ":", PrintReferenceOf(s, rest))) == Ok([s], SkipNewlines(rest))
  {
    ReferenceRoundTrip(s, rest);
    InlineOf(Put(COLON, ":", PrintReferenceOf(s, rest)), s, Line(rest));
  }

  lemma InlineList(at: Toks, c: Charter, xs: seq<SchemaRef>, rest: Toks)
    requires at.Kind() == SCHEMAS && Schemas(at.Rest()) == Ok(xs, rest)
    ensures ListSection(at, c) == Ok(c.(schemas := xs), rest)
  {
  }

  lemma SectionsSkip(rest: Toks, seen: set<Kind>, c: Charter)
    ensures Sections(SkipNewlines(rest), seen, c) == Sections(rest, seen, c)
  {
    assert SkipNewlines(SkipNewlines(rest)) == SkipNewlines(rest);
  }

  /** A schemas section that has been read, in whichever form. */
  lemma SchemasRead(at: Toks, c: Charter, xs: seq<SchemaRef>, rest: Toks)
    requires at.Kind() == SCHEMAS && Schemas(at.Rest()) == Ok(xs, rest)
    ensures Sections(at, {}, c) == Sections(rest, {SCHEMAS}, c.(schemas := xs))
  {
    InlineList(at, c, xs, rest);
    ListSectionAt(at, {}, c, Ok(c.(schemas := xs), rest));
    SectionStep(at, {}, c, c.(schemas := xs), rest);
    assert Seen(SCHEMAS, {}) == {SCHEMAS};
  }

  lemma InlineSection(c: Charter, s: SchemaRef, rest: Toks)
    ensures Sections(PrintInline(s, rest), {}, c) == Sections(rest, {SCHEMAS}, c.(schemas := [s]))
  {
    InlineRoundTrip(s, rest);
    SchemasRead(PrintInline(s, rest), c, [s], SkipNewlines(rest));
    SectionsSkip(rest, {SCHEMAS}, c.(schemas := [s]));
  }

  /** Either form leaves the parser in the same place. */
  lemma SameSections(c: Charter, s: SchemaRef, rest: Toks, r: Parse<Charter>)
    requires c.schemas == []
    requires Sections(PrintSection(Token(SCHEMAS, "schemas"), PrintSchema, [s], rest), {}, c) == r
    ensures Sections(PrintInline(s, rest), {}, c) == r
  {
    SchemasSection(c, [s], {}, rest);
    InlineSection(c, s, rest);
    assert SeenIf(SCHEMAS, true, {}) == {SCHEMAS};
  }

  lemma SchemasFirst(c: Charter, s: SchemaRef, blocks: Toks)
    requires c.schemas == [s]
    ensures PrintLists(c, blocks) ==
            PrintSection(Token(SCHEMAS, "schemas"), PrintSchema, [s], PrintLists(c.(schemas := []), blocks))
  {
  }

  /** A charter with one schema, written on the line of its keyword, parses to the charter like the block form. */
  lemma InlineCharter(c: Charter, s: SchemaRef)
    requires WfCharter(c) && c.schemas == [s]
    ensures CharterText(
              PrintHeader(c.name, c.version, PrintInline(s, PrintLists(c.(schemas := []), PrintBlocks(c))))) ==
            Ok(c, Put(EOF, "", End))
  {
    var rest, c0 := PrintLists(c.(schemas := []), PrintBlocks(c)), NewCharter(c.name, c.version);
    SectionsRoundTrip(c);
    SchemasFirst(c, s, PrintBlocks(c));
    SameSections(c0, s, rest, Ok(c, Put(EOF, "", End)));
    HeaderRoundTrip(c.name, c.version, PrintInline(s, rest));
  }

  // ------------------------------------------------------------------ docstrings

  /** A docstring before a statement of a phase or before a phase is skipped with its line end. */
  lemma DocstringSkipped<S(!new)>(stmt: (Toks, S) -> Parse<S>, doc: string, at: Toks, s: S)
    requires Consumes(stmt)
    ensures Body(stmt, true, Put(DOCSTRING, doc, Line(at)), s) == Body(stmt, true, at, s)
  {
    assert SkipDocstrings(SkipNewlines(Line(at))) == Lead(true, at);
  }

  /** A phase parses to the same with a docstring at the start of its block, and to an empty one with nothing else. */
  lemma DocumentedPhase(p: Phase, doc: string, rest: Toks)
    requires WfPhase(p)
    ensures var body := PrintPhaseBody(p, Put(DEDENT, "", rest));
      PhaseDecl(Put(PHASE, "phase", Name(p.name, Begin(Put(DOCSTRING, doc, Line(body)))))) == Ok(p, rest)
  {
    var body := PrintPhaseBody(p, Put(DEDENT, "", rest));
    PhaseBodyStart(p, Put(DEDENT, "", rest));
    PhaseBodyEnd(p, rest);
    DocstringSkipped(PhaseStmt, doc, body, NewPhase(p.name));
    BlockOpens(PhaseStmt, true, Put(DOCSTRING, doc, Line(body)), NewPhase(p.name));
    PhaseOf(p.name, Begin(Put(DOCSTRING, doc, Line(body))), p, rest);
  }

  // ------------------------------------------------------------------ repeated sections

  lemma SeenRefused(at: Toks, seen: set<Kind>, c: Charter)
    requires at.Kind() in seen && at.Kind() != NEWLINE && at.Kind() != EOF
    ensures Sections(at, seen, c).Err?
  {
  }

  /** A section of any kind but workflows that comes twice, with something in it, is an error. */
  lemma RepeatedLists(c: Charter, schemas: seq<SchemaRef>, names: seq<string>, again: Toks)
    requires c.schemas == [] && c.packages == [] && c.policies == [] && c.triggers == []
    requires schemas != [] && names != []
    ensures again.Kind() == SCHEMAS ==>
            Sections(PrintSection(Token(SCHEMAS, "schemas"), PrintSchema, schemas, again), {}, c).Err?
    ensures again.Kind() == PACKAGES ==>
            Sections(PrintSection(Token(PACKAGES, "packages"), PrintPackage, names, again), {}, c).Err?
    ensures again.Kind() == POLICIES ==>
            Sections(PrintSection(Token(POLICIES, "policies"), PrintPolicy, names, again), {}, c).Err?
    ensures again.Kind() == TRIGGERS ==>
            Sections(PrintSection(Token(TRIGGERS, "triggers"), PrintTrigger, names, again), {}, c).Err?
  {
    if again.Kind() == SCHEMAS {
      SchemasSection(c, schemas, {}, again);
      SeenRefused(again, {SCHEMAS}, c.(schemas := schemas));
    } else if again.Kind() == PACKAGES {
      PackagesSection(c, names, {}, again);
      SeenRefused(again, {PACKAGES}, c.(packages := names));
    } else if again.Kind() == POLICIES {
      PoliciesSection(c, names, {}, again);
      SeenRefused(again, {POLICIES}, c.(policies := names));
    } else if again.Kind() == TRIGGERS {
      TriggersSection(c, names, {}, again);
      SeenRefused(again, {TRIGGERS}, c.(triggers := names));
    }
  }

  lemma RepeatedBlocks(c: Charter, situations: seq<Situation>, roles: seq<Role>, again: Toks)
    requires c.situations == [] && c.roles == [] && situations != [] && roles != [] && WfSituations(situations)
    ensures again.Kind() == SITUATIONS ==>
            Sections(PrintSection(Token(SITUATIONS, "situations"), PrintSituation, situations, again), {}, c).Err?
    ensures again.Kind() == ROLES ==>
            Sections(PrintSection(Token(ROLES, "roles"), PrintRole, roles, again), {}, c).Err?
  {
    if again.Kind() == SITUATIONS {
      SituationsSection(c, situations, {}, again);
      SeenRefused(again, {SITUATIONS}, c.(situations := situations));
    } else if again.Kind() == ROLES {
      RolesSection(c, roles, {}, again);
      SeenRefused(again, {ROLES}, c.(roles := roles));
    }
  }
}
