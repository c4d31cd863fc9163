# DROP SCHEMA rendering and the JSONB wrapper of jOOQ, in Dafny

This project models two small pieces of jOOQ's statement layer.

**The `DROP SCHEMA` statement node (`DropSchemaImpl`).** It is a builder. It
holds a schema reference and an `ifExists` flag, both fixed at construction. It
also holds a tri-state `cascade` flag: `None` means unset, `Some(true)` means
CASCADE and `Some(false)` means RESTRICT. The fluent `Cascade()` and
`Restrict()` calls change only that flag.

Rendering writes the statement into a rendering `Context`. The context has an
append-only token stream and a clause stack. The statement emits
`DROP SCHEMA [IF EXISTS] <schema> [CASCADE | RESTRICT]` between a start event
and an end event for the `DROP_SCHEMA_SCHEMA` clause.

Two dialect capability sets drive the rendering:
- DERBY and FIREBIRD cannot write IF EXISTS. On them the statement is wrapped
  in a try/catch guard instead.
- DERBY requires an explicit drop behaviour. On DERBY, RESTRICT is added when
  the user gave none.

An explicit CASCADE or RESTRICT always wins over that default.

**The JSONB value wrapper.** It is an immutable holder of a possibly-null
string. It has null-safe value equality, a hash code consistent with that
equality, and a `toString` that prints a null payload as `null`.

Files:
- `Wrappers.dfy`: `Option`, which stands for a nullable Java reference.
- `Dialects.dfy`: the dialect families. They are `Derby`, `Firebird` and `Other(name)`.
- `Rendering.dfy`: the output tokens and the `Context` class.
  - Its methods are `Start`, `End`, `Sql`, `VisitKeyword` and `VisitName`.
  - The guard calls are `BeginTryCatch` and `EndTryCatch`.
  - `Scan` and `Balanced` define the nesting discipline of clause and guard events.
  - `Significant` drops the blank SQL fragments from a stream.
- `DropSchemaImpl.dfy` (module `DropSchemas`) holds the statement.
  - The class `DropSchemaImpl` has the constructors, `Cascade`, `Restrict`,
    `Clauses`, `Accept`, `Accept0` and `Accept1`.
  - The functions `StatementTokens` and `RenderedTokens` specify what
    `Accept1` and `Accept` append.
  - The lemmas prove the rendering properties.
- `Jsonb.dfy` (module `JsonbWrapper`) holds the JSONB wrapper.

Each `Accept*` method is proved to append exactly `StatementTokens` or
`RenderedTokens` to the context and to leave the clause stack as it found it.
The lemmas then state what those token streams contain.

On DERBY, IF EXISTS with an unset behaviour renders as a guarded
`DROP SCHEMA s RESTRICT`. DERBY is in both capability sets, so the guard
replaces the keyword and RESTRICT is still added (`DerbyDropIfExists`).

## Model

| member | source | states |
|---|---|---|
| `DropSchemas.SupportsIfExists` | jOOQ/src/main/java/org/jooq/impl/DropSchemaImpl.java:131-133 | IF EXISTS is native exactly on the families outside {DERBY, FIREBIRD} |
| `DropSchemas.DropSchemaImpl.constructor` | jOOQ/src/main/java/org/jooq/impl/DropSchemaImpl.java:70-81 | stores the schema and the IF EXISTS flag and leaves `cascade` unset |
| `DropSchemas.DropSchemaImpl.WithCascade` | jOOQ/src/main/java/org/jooq/impl/DropSchemaImpl.java:83-94 | stores exactly the given schema, IF EXISTS flag and tri-state cascade flag |
| `DropSchemas.DropSchemaImpl.Cascade` | jOOQ/src/main/java/org/jooq/impl/DropSchemaImpl.java:104-108 | sets the flag to CASCADE, returns the same object, and only `cascade` can change (schema and IF EXISTS are constants) |
| `DropSchemas.DropSchemaImpl.Restrict` | jOOQ/src/main/java/org/jooq/impl/DropSchemaImpl.java:110-114 | sets the flag to RESTRICT, returns the same object, and only `cascade` can change |
| `DropSchemas.DropSchemaImpl.Clauses` | jOOQ/src/main/java/org/jooq/impl/DropSchemaImpl.java:190-193 | the node always reports the single clause DROP_SCHEMA, whatever the context |
| `DropSchemas.DropSchemaImpl.Accept` | jOOQ/src/main/java/org/jooq/impl/DropSchemaImpl.java:135-152 | appends exactly `RenderedTokens` for the context's family and leaves the clause stack as it was |
| `DropSchemas.DropSchemaImpl.Accept0` | jOOQ/src/main/java/org/jooq/impl/DropSchemaImpl.java:154-163 | appends the statement, inside a DROP_SCHEMA try/catch guard exactly when IF EXISTS is asked for and the family lacks it |
| `DropSchemas.DropSchemaImpl.Accept1` | jOOQ/src/main/java/org/jooq/impl/DropSchemaImpl.java:165-187 | appends exactly `StatementTokens`; its start/end calls meet the context's LIFO clause protocol and leave the stack unchanged |
| `DropSchemas.StatementOrder` | jOOQ/src/main/java/org/jooq/impl/DropSchemaImpl.java:165-187 | ignoring blanks, the statement is start, DROP, SCHEMA, optional IF EXISTS, the statement's own schema name, at most one of CASCADE/RESTRICT, end; IF EXISTS is present iff requested and native |
| `DropSchemas.EmulatedIfExists` | jOOQ/src/main/java/org/jooq/impl/DropSchemaImpl.java:155-159 | IF EXISTS on DERBY or FIREBIRD: the output is the statement between BeginTry and EndTry for DROP_SCHEMA and holds no IF EXISTS keyword |
| `DropSchemas.NativeIfExists` | jOOQ/src/main/java/org/jooq/impl/DropSchemaImpl.java:155-177 | IF EXISTS on any other family: IF EXISTS follows DROP SCHEMA directly and no guard token appears |
| `DropSchemas.NoIfExists` | jOOQ/src/main/java/org/jooq/impl/DropSchemaImpl.java:155-177 | without IF EXISTS, neither the keyword nor a guard token appears, on every family |
| `DropSchemas.ExplicitCascade` | jOOQ/src/main/java/org/jooq/impl/DropSchemaImpl.java:181-182 | explicit CASCADE: the statement ends with CASCADE and RESTRICT never appears, DERBY included |
| `DropSchemas.ExplicitRestrict` | jOOQ/src/main/java/org/jooq/impl/DropSchemaImpl.java:181-184 | explicit RESTRICT: the statement ends with RESTRICT and CASCADE never appears, on every family |
| `DropSchemas.UnsetBehaviour` | jOOQ/src/main/java/org/jooq/impl/DropSchemaImpl.java:183-184 | unset flag: RESTRICT appears iff the family is DERBY, CASCADE never appears |
| `DropSchemas.StatementScan` | jOOQ/src/main/java/org/jooq/impl/DropSchemaImpl.java:165-187 | the statement's start and end events leave any already-open clauses and guards exactly as they were |
| `DropSchemas.RenderedBalanced` | jOOQ/src/main/java/org/jooq/impl/DropSchemaImpl.java:154-187 | every clause event and the guard pair are matched in LIFO order and the stack returns to empty |
| `DropSchemas.RenderedSignificant` | jOOQ/src/main/java/org/jooq/impl/DropSchemaImpl.java:154-163 | ignoring blanks, the whole output is the statement, wrapped in the guard exactly when IF EXISTS is emulated |
| `DropSchemas.DerbyDropIfExists` | jOOQ/src/main/java/org/jooq/impl/DropSchemaImpl.java:123-124 | DERBY, IF EXISTS, unset flag: guard, DROP SCHEMA s RESTRICT, end of guard |
| `DropSchemas.DropCascadeAnywhere` | jOOQ/src/main/java/org/jooq/impl/DropSchemaImpl.java:176-182 | no IF EXISTS, CASCADE: `DROP SCHEMA s CASCADE` with no guard, on every family |
| `JsonbWrapper.ValueOf` | jOOQ/src/main/java/org/jooq/JSONB.java:67-69 | the wrapper's `data()` is exactly the payload given, null included |
| `JsonbWrapper.MakeJsonb` | jOOQ/src/main/java/org/jooq/JSONB.java:77-79 | `jsonb(String)`: the wrapper's `data()` is exactly the payload given, null included |
| `JsonbWrapper.FactoriesAgree` | jOOQ/src/main/java/org/jooq/JSONB.java:56-79 | `valueOf` and `jsonb` give the same `data()` and wrappers equal to each other |
| `JsonbWrapper.WrapInt32` | jOOQ/src/main/java/org/jooq/JSONB.java:85 | `int` arithmetic: the result is congruent to the exact sum modulo 2^32, and equal to it when the sum fits |
| `JsonbWrapper.HashCode` | jOOQ/src/main/java/org/jooq/JSONB.java:81-87 | a null payload hashes to 31; otherwise the hash is 31 plus the string's hash modulo 2^32 |
| `JsonbWrapper.Equals` | jOOQ/src/main/java/org/jooq/JSONB.java:89-105 | true iff the argument is a JSONB whose payload is null exactly when this one is, and otherwise is the same string |
| `JsonbWrapper.EqualsReflexive` | jOOQ/src/main/java/org/jooq/JSONB.java:91-92 | every wrapper equals itself, null payload included |
| `JsonbWrapper.EqualsRejectsOthers` | jOOQ/src/main/java/org/jooq/JSONB.java:93-96 | never equal to null or to an object of another class |
| `JsonbWrapper.EqualsSymmetric` | jOOQ/src/main/java/org/jooq/JSONB.java:97-104 | `a.equals(b)` iff `b.equals(a)` |
| `JsonbWrapper.EqualsTransitive` | jOOQ/src/main/java/org/jooq/JSONB.java:97-104 | equality between wrappers is transitive |
| `JsonbWrapper.EqualsImpliesSameHash` | jOOQ/src/main/java/org/jooq/JSONB.java:82-104 | equal wrappers have equal hash codes, whatever `String.hashCode` computes |
| `JsonbWrapper.ToString` | jOOQ/src/main/java/org/jooq/JSONB.java:107-110 | the payload itself, or the text `null` for a null payload |
| `JsonbWrapper.ToStringFaithfulOnText` | jOOQ/src/main/java/org/jooq/JSONB.java:107-110 | on non-null payloads, equal strings iff equal wrappers |
| `JsonbWrapper.ToStringConflatesNull` | jOOQ/src/main/java/org/jooq/JSONB.java:107-110 | a null payload and the payload `"null"` print alike but are not equal, so a printed wrapper cannot be read back (the class comment at lines 45-49 keeps a null payload apart from SQL NULL) |

## Left out

- Keyword text, casing and spacing are not modelled. Nor is the quoting of the schema name. Keywords are `Kw` tokens, the schema is an `Ident` token, and each `ctx.sql(' ')` is an `Sql(" ")` token. `Significant` drops those blanks when properties are stated.
- `Tools.beginTryCatch` and `Tools.endTryCatch` are not part of this model. Each is one opaque `BeginTry` or `EndTry` token for DROP_SCHEMA. The SQL text they produce per dialect is not modelled.
- `SQLDialect.supportedBy` and the mapping from dialects to families are not part of this model. The two capability sets are the fixed sets {DERBY, FIREBIRD} and {DERBY}. Every other family is `Other(name)`.
- The rendering `Context` library is not part of this model. Only the five operations the statement uses are modelled. `End` requires the clause it closes to be the innermost open one. This is the LIFO protocol of clause events. It is the context's contract, not code shown here.
- The stripped, empty regions of `DropSchemaImpl.java` (lines 119-121, 125-129, 137-150 and 167-173) add no behaviour here. `Accept` simply delegates to `Accept0`.
- The `Configuration` constructor parameter is not modelled. Nor are `AbstractRowCountQuery`, query execution, `Serializable` and `serialVersionUID`, which are plumbing for execution and serialisation.
- The `$schema()`, `$dropSchemaIfExists()` and `$cascade()` accessors are not separate members. They are the class's public fields `schema`, `ifExists` and `cascade`.
- A `Schema` object is represented by its name only.
- JsonbWrapper.Equals: does not model the `this == obj` identity shortcut, because values have no identity. That shortcut returns true, and `EqualsReflexive` proves the payload comparison gives the same answer.
- JsonbWrapper.HashCode: does not pin down `String.hashCode`. That function is library code, so it is the parameter `stringHash`. Only its 32-bit range and the wrap-around of `31 + hash` are modelled.
- `JSONB` serialisation is left out.
