/**
 * Dialect families, as far as the DROP SCHEMA statement distinguishes them.
 * DERBY and FIREBIRD are named because the statement's capability sets mention
 * them; every other family is `Other`. Its `name` is only a label: `Other("DERBY")`
 * is an other family, distinct from `Derby`.
 */
module Dialects {

  datatype Family = Derby | Firebird | Other(name: string)
}
