/**
 * The rendering context a statement writes itself into: an append-only stream
 * of output tokens and a stack of open clauses. Keywords, identifiers and the
 * try/catch guard of the emulation layer are kept as opaque tokens; how they
 * become SQL text is not part of this model.
 */
module Rendering {
  import opened Wrappers
  import opened Dialects

  /** The clause tags used by the DROP SCHEMA statement. */
  datatype Clause = DropSchema | DropSchemaSchema

  /** The DDL statement types the try/catch emulation is parameterised by. */
  datatype DdlStatementType = DropSchemaStatement

  datatype Keyword = Drop | Schema | IfExists | Cascade | Restrict

  datatype Token =
    | Kw(keyword: Keyword)          // ctx.visit(K_...)
    | Sql(text: string)             // ctx.sql(...)
    | Ident(name: string)           // ctx.visit(schema)
    | Start(clause: Clause)         // ctx.start(clause)
    | End(clause: Clause)           // ctx.end(clause)
    | BeginTry(stmt: DdlStatementType)
    | EndTry(stmt: DdlStatementType)

  /** Something that is open while tokens are emitted: a clause or a guard. */
  datatype Frame = InClause(clause: Clause) | InTry(stmt: DdlStatementType)

  /**
   * Reads `s` from left to right with `open` as the frames already open.
   * Every start or begin opens a frame, every end must close the innermost one.
   * The frames still open at the end, or None when an end does not match.
   */
  function Scan(s: seq<Token>, open: seq<Frame>): Option<seq<Frame>>
    decreases |s|
  {
    if s == [] then Some(open)
    else match s[0]
      case Start(c) => Scan(s[1..], open + [InClause(c)])
      case BeginTry(t) => Scan(s[1..], open + [InTry(t)])
      case End(c) =>
        if open != [] && open[|open| - 1] == InClause(c) then Scan(s[1..], open[..|open| - 1]) else None
      case EndTry(t) =>
        if open != [] && open[|open| - 1] == InTry(t) then Scan(s[1..], open[..|open| - 1]) else None
      case _ => Scan(s[1..], open)
  }

  /** Every start/begin event is closed by a matching end, in LIFO order. */
  predicate Balanced(s: seq<Token>) {
    Scan(s, []) == Some([])
  }

  predicate IsEvent(t: Token) {
    t.Start? || t.End? || t.BeginTry? || t.EndTry?
  }

  /** Scanning a concatenation is scanning its parts one after the other. */
  lemma {:induction false} ScanAppend(a: seq<Token>, b: seq<Token>, open: seq<Frame>)
    ensures Scan(a + b, open) == match Scan(a, open) case None => None case Some(o) => Scan(b, o)
    decreases |a|
  {
    if a == [] {
      assert a + b == b;
    } else {
      assert (a + b)[0] == a[0];
      assert (a + b)[1..] == a[1..] + b;
      match a[0]
      case Start(c) => ScanAppend(a[1..], b, open + [InClause(c)]);
      case BeginTry(t) => ScanAppend(a[1..], b, open + [InTry(t)]);
      case End(c) =>
        if open != [] && open[|open| - 1] == InClause(c) { ScanAppend(a[1..], b, open[..|open| - 1]); }
      case EndTry(t) =>
        if open != [] && open[|open| - 1] == InTry(t) { ScanAppend(a[1..], b, open[..|open| - 1]); }
      case Kw(_) => ScanAppend(a[1..], b, open);
      case Sql(_) => ScanAppend(a[1..], b, open);
      case Ident(_) => ScanAppend(a[1..], b, open);
    }
  }

  /** Tokens that are not events leave the open frames as they are. */
  lemma {:induction false} ScanEventFree(s: seq<Token>, open: seq<Frame>)
    requires forall i :: 0 <= i < |s| ==> !IsEvent(s[i])
    ensures Scan(s, open) == Some(open)
    decreases |s|
  {
    if s != [] {
      assert !IsEvent(s[0]);
      ScanEventFree(s[1..], open);
    }
  }

  /**
   * A stream opened by `first` and closed by `last` around event-free tokens
   * leaves any enclosing frames as they were.
   */
  lemma {:induction false} ScanBracketed(first: Token, mid: seq<Token>, last: Token, open: seq<Frame>)
    requires (first.Start? && last == End(first.clause)) || (first.BeginTry? && last == EndTry(first.stmt))
    requires forall i :: 0 <= i < |mid| ==> !IsEvent(mid[i])
    ensures Scan([first] + mid + [last], open) == Some(open)
  {
    var f := if first.Start? then InClause(first.clause) else InTry(first.stmt);
    ScanAppend([first] + mid, [last], open);
    ScanAppend([first], mid, open);
    assert Scan([first], open) == Some(open + [f]) by {
      assert [first][1..] == [];
    }
    ScanEventFree(mid, open + [f]);
    assert (open + [f])[..|open|] == open;
    assert [last][1..] == [];
  }

  /**
   * A guard opened before `body` and closed after it is balanced when `body`
   * leaves the guard's frame open as it found it.
   */
  lemma ScanGuarded(t: DdlStatementType, body: seq<Token>, open: seq<Frame>)
    requires Scan(body, open + [InTry(t)]) == Some(open + [InTry(t)])
    ensures Scan([BeginTry(t)] + body + [EndTry(t)], open) == Some(open)
  {
    var inner := open + [InTry(t)];
    assert [BeginTry(t)] + body + [EndTry(t)] == [BeginTry(t)] + (body + [EndTry(t)]);
    ScanAppend([BeginTry(t)], body + [EndTry(t)], open);
    assert Scan([BeginTry(t)], open) == Some(inner) by {
      assert [BeginTry(t)][1..] == [];
    }
    ScanAppend(body, [EndTry(t)], inner);
    assert Scan([EndTry(t)], inner) == Some(open) by {
      assert [EndTry(t)][1..] == [];
      assert inner[..|inner| - 1] == open;
    }
  }

  /** The output with the `Sql` fragments (the separating blanks) removed. */
  function Significant(s: seq<Token>): (r: seq<Token>)
    ensures |r| <= |s|
    decreases |s|
  {
    if s == [] then []
    else if s[0].Sql? then Significant(s[1..])
    else [s[0]] + Significant(s[1..])
  }

  /** Dropping blanks distributes over concatenation. */
  lemma {:induction false} SignificantAppend(a: seq<Token>, b: seq<Token>)
    ensures Significant(a + b) == Significant(a) + Significant(b)
    decreases |a|
  {
    if a == [] {
      assert a + b == b;
    } else {
      assert (a + b)[0] == a[0];
      assert (a + b)[1..] == a[1..] + b;
      SignificantAppend(a[1..], b);
    }
  }

  /**
   * The rendering context: the dialect family is fixed for one render, the
   * output only grows, and the clause stack records the clauses started and
   * not yet ended.
   */
  class Context {
    const family: Family
    var out: seq<Token>
    var stack: seq<Clause>

    constructor (family: Family)
      ensures this.family == family && out == [] && stack == []
    {
      this.family := family;
      out := [];
      stack := [];
    }

    /** Announces the start of `c` and opens it. */
    method Start(c: Clause)
      modifies this
      ensures out == old(out) + [Token.Start(c)]
      ensures stack == old(stack) + [c]
    {
      out := out + [Token.Start(c)];
      stack := stack + [c];
    }

    /** Announces the end of `c`, which must be the innermost open clause. */
    method End(c: Clause)
      requires stack != [] && stack[|stack| - 1] == c
      modifies this
      ensures out == old(out) + [Token.End(c)]
      ensures stack == old(stack)[..|old(stack)| - 1]
    {
      out := out + [Token.End(c)];
      stack := stack[..|stack| - 1];
    }

    /** Appends a plain SQL fragment. */
    method Sql(text: string)
      modifies this
      ensures out == old(out) + [Token.Sql(text)] && stack == old(stack)
    {
      out := out + [Token.Sql(text)];
    }

    /** Renders a keyword. */
    method VisitKeyword(k: Keyword)
      modifies this
      ensures out == old(out) + [Kw(k)] && stack == old(stack)
    {
      out := out + [Kw(k)];
    }

    /** Renders a reference to a named object such as a schema. */
    method VisitName(name: string)
      modifies this
      ensures out == old(out) + [Ident(name)] && stack == old(stack)
    {
      out := out + [Ident(name)];
    }
  }

  /** Opens the guard that suppresses the "object does not exist" error of `t`. */
  method BeginTryCatch(ctx: Context, t: DdlStatementType)
    modifies ctx
    ensures ctx.out == old(ctx.out) + [BeginTry(t)] && ctx.stack == old(ctx.stack)
  {
    ctx.out := ctx.out + [BeginTry(t)];
  }

  /** Closes the guard opened by `BeginTryCatch`. */
  method EndTryCatch(ctx: Context, t: DdlStatementType)
    modifies ctx
    ensures ctx.out == old(ctx.out) + [EndTry(t)] && ctx.stack == old(ctx.stack)
  {
    ctx.out := ctx.out + [EndTry(t)];
  }
}
