/**
 * The JSONB value wrapper: an immutable holder of a serialised JSON string.
 * A SQL NULL is a missing wrapper, not a wrapper whose payload is null, but the
 * payload itself may still be null (`None`) and every operation handles that.
 */
module JsonbWrapper {
  import opened Wrappers

  /** Java's `int`. */
  type Int32 = x: int | -0x8000_0000 <= x < 0x8000_0000

  /** Java `int` arithmetic: `x` taken modulo 2^32 into the signed range. */
  function WrapInt32(x: int): (r: Int32)
    ensures (r - x) % 0x1_0000_0000 == 0
    ensures -0x8000_0000 <= x < 0x8000_0000 ==> r == x
  {
    (x + 0x8000_0000) % 0x1_0000_0000 - 0x8000_0000
  }

  /** The wrapper; `Wrap` is the private constructor. */
  datatype Jsonb = Wrap(data: Option<string>)

  /** What `equals` can be handed: null, a JSONB, or an object of some other class. */
  datatype Object = Null | OfJsonb(value: Jsonb) | OfOtherClass

  /** `valueOf(String)`: wraps the payload as given, null included. */
  function ValueOf(data: Option<string>): (j: Jsonb)
    ensures j.data == data
  {
    Wrap(data)
  }

  /** `jsonb(String)`: the statically importable twin of `ValueOf`. */
  function MakeJsonb(data: Option<string>): (j: Jsonb)
    ensures j.data == data
  {
    Wrap(data)
  }

  /**
   * `hashCode()`: 31 * 1 plus the payload's hash (0 for a null payload), in
   * `int` arithmetic. `stringHash` stands for `String.hashCode`.
   */
  function HashCode(j: Jsonb, stringHash: string -> Int32): (h: Int32)
    ensures j.data.None? ==> h == 31
    ensures j.data.Some? ==> (h - 31 - stringHash(j.data.value)) % 0x1_0000_0000 == 0
  {
    var prime := 31;
    var result := 1;
    WrapInt32(prime * result + (if j.data.None? then 0 else stringHash(j.data.value)))
  }

  /**
   * `equals(Object)`: false for null and for other classes; otherwise the
   * payloads are both null or equal strings.
   */
  function Equals(j: Jsonb, obj: Object): (b: bool)
    ensures b <==> obj.OfJsonb? && obj.value.data == j.data
  {
    match obj
    case Null => false
    case OfOtherClass => false
    case OfJsonb(other) =>
      if j.data.None? then other.data.None?
      else other.data.Some? && j.data.value == other.data.value
  }

  /** `toString()`: the payload, or the text "null" for a null payload. */
  function ToString(j: Jsonb): (s: string)
    ensures j.data.Some? ==> s == j.data.value
    ensures j.data.None? ==> s == "null"
  {
    match j.data
    case None => "null"
    case Some(text) => text
  }

  /** Both factories give back exactly the payload they were given, and agree. */
  lemma FactoriesAgree(data: Option<string>)
    ensures ValueOf(data).data == data && MakeJsonb(data).data == data
    ensures Equals(ValueOf(data), OfJsonb(MakeJsonb(data)))
    ensures Equals(MakeJsonb(data), OfJsonb(ValueOf(data)))
  {
  }

  /** Every wrapper equals itself, null payload included. */
  lemma EqualsReflexive(j: Jsonb)
    ensures Equals(j, OfJsonb(j))
  {
  }

  /** A wrapper never equals null or an object of another class. */
  lemma EqualsRejectsOthers(j: Jsonb)
    ensures !Equals(j, Null) && !Equals(j, OfOtherClass)
  {
  }

  lemma EqualsSymmetric(a: Jsonb, b: Jsonb)
    ensures Equals(a, OfJsonb(b)) <==> Equals(b, OfJsonb(a))
  {
  }

  lemma EqualsTransitive(a: Jsonb, b: Jsonb, c: Jsonb)
    requires Equals(a, OfJsonb(b)) && Equals(b, OfJsonb(c))
    ensures Equals(a, OfJsonb(c))
  {
  }

  /** Equal wrappers have equal hash codes, whatever `String.hashCode` is. */
  lemma EqualsImpliesSameHash(a: Jsonb, b: Jsonb, stringHash: string -> Int32)
    requires Equals(a, OfJsonb(b))
    ensures HashCode(a, stringHash) == HashCode(b, stringHash)
  {
  }

  /** On non-null payloads `toString` tells wrappers apart exactly as `equals` does. */
  lemma ToStringFaithfulOnText(a: Jsonb, b: Jsonb)
    requires a.data.Some? && b.data.Some?
    ensures ToString(a) == ToString(b) <==> Equals(a, OfJsonb(b))
  {
  }

  /**
   * A null payload and the payload "null" print alike but are not equal:
   * `toString` cannot be inverted.
   */
  lemma ToStringConflatesNull()
    ensures ToString(ValueOf(None)) == ToString(ValueOf(Some("null")))
    ensures !Equals(ValueOf(None), OfJsonb(ValueOf(Some("null"))))
  {
  }
}
