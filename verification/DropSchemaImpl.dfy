/**
 * The `DROP SCHEMA [IF EXISTS] <schema> [CASCADE | RESTRICT]` statement: its
 * builder state, the dialect capability sets it consults, and the way it
 * renders itself into a `Context`, emulating IF EXISTS with a try/catch guard
 * where the dialect family cannot express it.
 */
module DropSchemas {
  import opened Wrappers
  import opened Dialects
  import opened Rendering

  /** Families that cannot write `DROP SCHEMA IF EXISTS`. */
  const NoSupportIfExists: set<Family> := {Derby, Firebird}

  /** Families that need an explicit drop behaviour when none was given. */
  const RequiresRestrict: set<Family> := {Derby}

  /** Whether `family` understands the IF EXISTS keyword natively. */
  function SupportsIfExists(family: Family): (b: bool)
    ensures b <==> family.Other?
  {
    family !in NoSupportIfExists
  }

  /** Whether rendering wraps the statement in a try/catch guard instead of writing IF EXISTS. */
  predicate EmulatesIfExists(ifExists: bool, family: Family) {
    ifExists && !SupportsIfExists(family)
  }

  /** IF EXISTS, when it is asked for and the family writes it natively. */
  function IfExistsTokens(ifExists: bool, family: Family): seq<Token> {
    if ifExists && SupportsIfExists(family) then [Sql(" "), Kw(IfExists)] else []
  }

  /**
   * The drop behaviour: an explicit CASCADE wins; RESTRICT when asked for or
   * when the family requires it; otherwise nothing, leaving the dialect default.
   */
  function BehaviourKeywords(cascade: Option<bool>, family: Family): seq<Token> {
    if cascade.Some? && cascade.value then [Kw(Keyword.Cascade)]
    else if (cascade.Some? && !cascade.value) || family in RequiresRestrict then [Kw(Keyword.Restrict)]
    else []
  }

  /** `BehaviourKeywords`, preceded by a blank when there is one. */
  function BehaviourTokens(cascade: Option<bool>, family: Family): seq<Token> {
    var k := BehaviourKeywords(cascade, family);
    if k == [] then [] else [Sql(" ")] + k
  }

  /** The tokens the statement proper appends (one call of `Accept1`). */
  function StatementTokens(schema: string, ifExists: bool, cascade: Option<bool>, family: Family): seq<Token> {
    [Start(DropSchemaSchema), Kw(Drop), Sql(" "), Kw(Schema)]
    + IfExistsTokens(ifExists, family)
    + [Sql(" "), Ident(schema)]
    + BehaviourTokens(cascade, family)
    + [End(DropSchemaSchema)]
  }

  /** The tokens a whole render appends (one call of `Accept`). */
  function RenderedTokens(schema: string, ifExists: bool, cascade: Option<bool>, family: Family): seq<Token> {
    var body := StatementTokens(schema, ifExists, cascade, family);
    if EmulatesIfExists(ifExists, family) then [BeginTry(DropSchemaStatement)] + body + [EndTry(DropSchemaStatement)]
    else body
  }

  /**
   * The grammar of the statement without blanks:
   * start, DROP, SCHEMA, an optional IF EXISTS, the name `schema`, at most one of
   * CASCADE and RESTRICT, end.
   */
  predicate DropSchemaSyntax(schema: string, s: seq<Token>) {
    && |s| >= 5
    && s[..3] == [Start(DropSchemaSchema), Kw(Drop), Kw(Schema)]
    && s[|s| - 1] == End(DropSchemaSchema)
    && var rest := if s[3] == Kw(IfExists) then s[4..|s| - 1] else s[3..|s| - 1];
       && (|rest| == 1 || |rest| == 2)
       && rest[0] == Ident(schema)
       && (|rest| == 2 ==> rest[1] == Kw(Keyword.Cascade) || rest[1] == Kw(Keyword.Restrict))
  }

  lemma AppendAssoc(a: seq<Token>, b: seq<Token>, c: seq<Token>)
    ensures a + b + c == a + (b + c)
  {
  }

  /** Dropping the blank in front of a keyword or name. */
  lemma SignificantSpaced(t: Token)
    requires !t.Sql?
    ensures Significant([Sql(" "), t]) == [t]
  {
    assert [Sql(" "), t][1..] == [t];
    assert [t][1..] == [];
  }

  /** The optional pieces with their blanks dropped. */
  lemma OptionalPiecesSignificant(ifExists: bool, cascade: Option<bool>, family: Family)
    ensures Significant(IfExistsTokens(ifExists, family))
         == if ifExists && SupportsIfExists(family) then [Kw(IfExists)] else []
    ensures Significant(BehaviourTokens(cascade, family)) == BehaviourKeywords(cascade, family)
  {
    SignificantSpaced(Kw(IfExists));
    SignificantSpaced(Kw(Keyword.Cascade));
    SignificantSpaced(Kw(Keyword.Restrict));
  }

  /** The statement's tokens with the blanks dropped. */
  lemma StatementSignificant(schema: string, ifExists: bool, cascade: Option<bool>, family: Family)
    ensures Significant(StatementTokens(schema, ifExists, cascade, family))
         == [Start(DropSchemaSchema), Kw(Drop), Kw(Schema)]
            + Significant(IfExistsTokens(ifExists, family))
            + [Ident(schema)]
            + Significant(BehaviourTokens(cascade, family))
            + [End(DropSchemaSchema)]
  {
    var a1: seq<Token> := [Start(DropSchemaSchema)];
    var a2: seq<Token> := [Kw(Drop)];
    var a3: seq<Token> := [Sql(" "), Kw(Schema)];
    var b := IfExistsTokens(ifExists, family);
    var c: seq<Token> := [Sql(" "), Ident(schema)];
    var d := BehaviourTokens(cascade, family);
    var e: seq<Token> := [End(DropSchemaSchema)];
    assert [Start(DropSchemaSchema), Kw(Drop), Sql(" "), Kw(Schema)] == a1 + a2 + a3;
    assert Significant(a1) == a1 by { assert a1[1..] == []; }
    assert Significant(a2) == a2 by { assert a2[1..] == []; }
    assert Significant(e) == e by { assert e[1..] == []; }
    SignificantSpaced(Kw(Schema));
    SignificantSpaced(Ident(schema));
    SignificantAppend(a1, a2);
    SignificantAppend(a1 + a2, a3);
    var head := a1 + a2 + a3;
    assert Significant(head) == [Start(DropSchemaSchema), Kw(Drop), Kw(Schema)];
    SignificantAppend(head, b);
    SignificantAppend(head + b, c);
    SignificantAppend(head + b + c, d);
    SignificantAppend(head + b + c + d, e);
  }

  /**
   * Token order is fixed: the statement follows `DropSchemaSyntax`, with IF
   * EXISTS exactly when it is requested and natively supported.
   */
  lemma StatementOrder(schema: string, ifExists: bool, cascade: Option<bool>, family: Family)
    ensures var sig := Significant(StatementTokens(schema, ifExists, cascade, family));
      && DropSchemaSyntax(schema, sig)
      && (sig[3] == Kw(IfExists) <==> ifExists && SupportsIfExists(family))
  {
    StatementSignificant(schema, ifExists, cascade, family);
    OptionalPiecesSignificant(ifExists, cascade, family);
  }

  /**
   * IF EXISTS on DERBY or FIREBIRD: the whole output is the statement inside a
   * try/catch guard for DROP SCHEMA, and the IF EXISTS keyword never appears.
   */
  lemma EmulatedIfExists(schema: string, cascade: Option<bool>, family: Family)
    requires family == Derby || family == Firebird
    ensures var r := RenderedTokens(schema, true, cascade, family);
      && r == [BeginTry(DropSchemaStatement)] + StatementTokens(schema, true, cascade, family) + [EndTry(DropSchemaStatement)]
      && Kw(IfExists) !in r
  {
  }

  /**
   * IF EXISTS on any other family: IF EXISTS comes right after DROP SCHEMA and
   * there is no guard.
   */
  lemma NativeIfExists(schema: string, cascade: Option<bool>, family: Family)
    requires family.Other?
    ensures var r := RenderedTokens(schema, true, cascade, family);
      && |Significant(r)| >= 4
      && Significant(r)[..4] == [Start(DropSchemaSchema), Kw(Drop), Kw(Schema), Kw(IfExists)]
      && forall i :: 0 <= i < |r| ==> !r[i].BeginTry? && !r[i].EndTry?
  {
    StatementSignificant(schema, true, cascade, family);
    OptionalPiecesSignificant(true, cascade, family);
  }

  /** Without IF EXISTS there is neither the keyword nor a guard, on every family. */
  lemma NoIfExists(schema: string, cascade: Option<bool>, family: Family)
    ensures var r := RenderedTokens(schema, false, cascade, family);
      && Kw(IfExists) !in r
      && forall i :: 0 <= i < |r| ==> !r[i].BeginTry? && !r[i].EndTry?
  {
  }

  /**
   * An explicit CASCADE is what the statement ends with, and RESTRICT never
   * appears, even on a family that requires RESTRICT.
   */
  lemma ExplicitCascade(schema: string, ifExists: bool, family: Family)
    ensures var sig := Significant(StatementTokens(schema, ifExists, Some(true), family));
      && |sig| >= 2
      && sig[|sig| - 2] == Kw(Keyword.Cascade)
      && Kw(Keyword.Restrict) !in RenderedTokens(schema, ifExists, Some(true), family)
  {
    StatementSignificant(schema, ifExists, Some(true), family);
    OptionalPiecesSignificant(ifExists, Some(true), family);
  }

  /** An explicit RESTRICT is what the statement ends with, on every family. */
  lemma ExplicitRestrict(schema: string, ifExists: bool, family: Family)
    ensures var sig := Significant(StatementTokens(schema, ifExists, Some(false), family));
      && |sig| >= 2
      && sig[|sig| - 2] == Kw(Keyword.Restrict)
      && Kw(Keyword.Cascade) !in RenderedTokens(schema, ifExists, Some(false), family)
  {
    StatementSignificant(schema, ifExists, Some(false), family);
    OptionalPiecesSignificant(ifExists, Some(false), family);
  }

  /**
   * With the drop behaviour unset, RESTRICT appears if and only if the family
   * is DERBY, and CASCADE never appears.
   */
  lemma UnsetBehaviour(schema: string, ifExists: bool, family: Family)
    ensures var r := RenderedTokens(schema, ifExists, None, family);
      && (Kw(Keyword.Restrict) in r <==> family == Derby)
      && Kw(Keyword.Cascade) !in r
  {
  }

  /** The statement's clause events close what they open, whatever is already open. */
  lemma StatementScan(schema: string, ifExists: bool, cascade: Option<bool>, family: Family, open: seq<Frame>)
    ensures Scan(StatementTokens(schema, ifExists, cascade, family), open) == Some(open)
  {
    var i := IfExistsTokens(ifExists, family);
    var c := BehaviourTokens(cascade, family);
    var mid := [Kw(Drop), Sql(" "), Kw(Schema)] + i + [Sql(" "), Ident(schema)] + c;
    assert StatementTokens(schema, ifExists, cascade, family) == [Start(DropSchemaSchema)] + mid + [End(DropSchemaSchema)];
    assert forall k :: 0 <= k < |i| ==> !IsEvent(i[k]);
    assert forall k :: 0 <= k < |c| ==> !IsEvent(c[k]);
    assert forall k :: 0 <= k < |mid| ==> !IsEvent(mid[k]);
    ScanBracketed(Start(DropSchemaSchema), mid, End(DropSchemaSchema), open);
  }

  /** Clause events and the guard pair are balanced and properly nested. */
  lemma RenderedBalanced(schema: string, ifExists: bool, cascade: Option<bool>, family: Family)
    ensures Balanced(RenderedTokens(schema, ifExists, cascade, family))
  {
    if EmulatesIfExists(ifExists, family) {
      StatementScan(schema, ifExists, cascade, family, [InTry(DropSchemaStatement)]);
      assert [] + [InTry(DropSchemaStatement)] == [InTry(DropSchemaStatement)];
      ScanGuarded(DropSchemaStatement, StatementTokens(schema, ifExists, cascade, family), []);
    } else {
      StatementScan(schema, ifExists, cascade, family, []);
    }
  }

  /** The whole output with the blanks dropped: the statement, inside the guard when emulating. */
  lemma RenderedSignificant(schema: string, ifExists: bool, cascade: Option<bool>, family: Family)
    ensures Significant(RenderedTokens(schema, ifExists, cascade, family))
         == if EmulatesIfExists(ifExists, family)
            then [BeginTry(DropSchemaStatement)] + Significant(StatementTokens(schema, ifExists, cascade, family)) + [EndTry(DropSchemaStatement)]
            else Significant(StatementTokens(schema, ifExists, cascade, family))
  {
    if EmulatesIfExists(ifExists, family) {
      var body := StatementTokens(schema, ifExists, cascade, family);
      var open: seq<Token> := [BeginTry(DropSchemaStatement)];
      var close: seq<Token> := [EndTry(DropSchemaStatement)];
      SignificantAppend(open, body);
      SignificantAppend(open + body, close);
      assert Significant(open) == open by { assert open[1..] == []; }
      assert Significant(close) == close by { assert close[1..] == []; }
    }
  }

  /**
   * IF EXISTS with the drop behaviour unset on DERBY: the statement is guarded
   * rather than written with IF EXISTS, and RESTRICT is added.
   */
  lemma DerbyDropIfExists(schema: string)
    ensures Significant(RenderedTokens(schema, true, None, Derby))
         == [BeginTry(DropSchemaStatement), Start(DropSchemaSchema), Kw(Drop), Kw(Schema), Ident(schema),
             Kw(Keyword.Restrict), End(DropSchemaSchema), EndTry(DropSchemaStatement)]
  {
    RenderedSignificant(schema, true, None, Derby);
    StatementSignificant(schema, true, None, Derby);
    OptionalPiecesSignificant(true, None, Derby);
  }

  /** Without IF EXISTS and with CASCADE, every family gets `DROP SCHEMA s CASCADE`, unguarded. */
  lemma DropCascadeAnywhere(schema: string, family: Family)
    ensures Significant(RenderedTokens(schema, false, Some(true), family))
         == [Start(DropSchemaSchema), Kw(Drop), Kw(Schema), Ident(schema), Kw(Keyword.Cascade), End(DropSchemaSchema)]
  {
    RenderedSignificant(schema, false, Some(true), family);
    StatementSignificant(schema, false, Some(true), family);
    OptionalPiecesSignificant(false, Some(true), family);
  }

  /**
   * The DROP SCHEMA statement node. The schema and the IF EXISTS flag are
   * fixed at construction; the drop behaviour is a tri-state flag (`None` for
   * unset, `Some(true)` for CASCADE, `Some(false)` for RESTRICT) that the
   * fluent `Cascade` and `Restrict` set.
   */
  class DropSchemaImpl {
    const schema: string
    const ifExists: bool
    var cascade: Option<bool>

    /** A statement whose drop behaviour is left to the dialect. */
    constructor (schema: string, ifExists: bool)
      ensures this.schema == schema && this.ifExists == ifExists && cascade == None
    {
      this.schema := schema;
      this.ifExists := ifExists;
      cascade := None;
    }

    /** A statement with every field given. */
    constructor WithCascade(schema: string, ifExists: bool, cascade: Option<bool>)
      ensures this.schema == schema && this.ifExists == ifExists && this.cascade == cascade
    {
      this.schema := schema;
      this.ifExists := ifExists;
      this.cascade := cascade;
    }

    /** Asks for CASCADE; returns the same statement for chaining. */
    method Cascade() returns (r: DropSchemaImpl)
      modifies this
      ensures r == this && cascade == Some(true)
    {
      cascade := Some(true);
      r := this;
    }

    /** Asks for RESTRICT; returns the same statement for chaining. */
    method Restrict() returns (r: DropSchemaImpl)
      modifies this
      ensures r == this && cascade == Some(false)
    {
      cascade := Some(false);
      r := this;
    }

    /** The clauses this node represents, whatever the context. */
    function Clauses(ctx: Context): (r: seq<Clause>)
      ensures r == [DropSchema]
    {
      [DropSchema]
    }

    /** Renders the statement into `ctx`. */
    method Accept(ctx: Context)
      modifies ctx
      ensures ctx.out == old(ctx.out) + RenderedTokens(schema, ifExists, cascade, ctx.family)
      ensures ctx.stack == old(ctx.stack)
    {
      Accept0(ctx);
    }

    /** Chooses between the native statement and the guard-wrapped emulation. */
    method Accept0(ctx: Context)
      modifies ctx
      ensures ctx.out == old(ctx.out) + RenderedTokens(schema, ifExists, cascade, ctx.family)
      ensures ctx.stack == old(ctx.stack)
    {
      if ifExists && !SupportsIfExists(ctx.family) {
        BeginTryCatch(ctx, DropSchemaStatement);
        Accept1(ctx);
        EndTryCatch(ctx, DropSchemaStatement);
      } else {
        Accept1(ctx);
      }
    }

    /** Emits the statement itself, bracketed by the DROP_SCHEMA_SCHEMA clause. */
    method Accept1(ctx: Context)
      modifies ctx
      ensures ctx.out == old(ctx.out) + StatementTokens(schema, ifExists, cascade, ctx.family)
      ensures ctx.stack == old(ctx.stack)
    {
      ghost var before := ctx.out;
      ghost var done: seq<Token> := [];
      ctx.Start(DropSchemaSchema);
      ctx.VisitKeyword(Drop);
      ctx.Sql(" ");
      ctx.VisitKeyword(Schema);
      done := [Start(DropSchemaSchema), Kw(Drop), Sql(" "), Kw(Schema)];
      assert ctx.out == before + done;
      if ifExists && SupportsIfExists(ctx.family) {
        ctx.Sql(" ");
        ctx.VisitKeyword(IfExists);
      }
      AppendAssoc(before, done, IfExistsTokens(ifExists, ctx.family));
      done := done + IfExistsTokens(ifExists, ctx.family);
      assert ctx.out == before + done;
      ctx.Sql(" ");
      ctx.VisitName(schema);
      AppendAssoc(before, done, [Sql(" "), Ident(schema)]);
      done := done + [Sql(" "), Ident(schema)];
      assert ctx.out == before + done;
      if cascade.Some? && cascade.value {
        ctx.Sql(" ");
        ctx.VisitKeyword(Keyword.Cascade);
      } else if (cascade.Some? && !cascade.value) || ctx.family in RequiresRestrict {
        ctx.Sql(" ");
        ctx.VisitKeyword(Keyword.Restrict);
      }
      AppendAssoc(before, done, BehaviourTokens(cascade, ctx.family));
      done := done + BehaviourTokens(cascade, ctx.family);
      assert ctx.out == before + done;
      AppendAssoc(before, done, [End(DropSchemaSchema)]);
      assert ctx.stack == old(ctx.stack) + [DropSchemaSchema];
      ctx.End(DropSchemaSchema);
      assert ctx.out == before + done + [End(DropSchemaSchema)];
      assert done + [End(DropSchemaSchema)] == StatementTokens(schema, ifExists, cascade, ctx.family);
    }
  }
}
