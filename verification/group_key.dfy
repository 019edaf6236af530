/**
 * The grouping key of a message (RecordSchemaAttributesKey): the message's
 * schema and its mapped attributes, compared by schema text and attribute
 * map, with a Java-compatible hash code.
 */
module GroupKeys {
  import opened Types

  /** A key keeps the schema object it was built from; None stands for the
      null schema that getSchema returns when inference fails. */
  datatype GroupKey = GroupKey(schema: Option<Schema>, attributes: map<string, string>)

  /** The schema component equals compares: null for a null schema,
      otherwise the schema's (optional) text. */
  function SchemaTextOf(schema: Option<Schema>): Option<Option<string>>
  {
    match schema
    case None => None
    case Some(s) => Some(s.text)
  }

  /** The part of a key that equality looks at. */
  datatype Identity = Identity(schemaText: Option<Option<string>>, attributes: map<string, string>)

  function IdentityOf(k: GroupKey): Identity
  {
    Identity(SchemaTextOf(k.schema), k.attributes)
  }

  /** RecordSchemaAttributesKey.equals. */
  predicate KeyEquals(a: GroupKey, b: GroupKey)
  {
    IdentityOf(a) == IdentityOf(b)
  }

  /** Two keys are equal exactly when both schemas are null or both have the
      same text, and the attribute maps are equal. */
  lemma KeyEqualsIff(a: GroupKey, b: GroupKey)
    ensures KeyEquals(a, b) <==>
      && (a.schema.None? <==> b.schema.None?)
      && (a.schema.Some? && b.schema.Some? ==> a.schema.value.text == b.schema.value.text)
      && a.attributes == b.attributes
  {
  }

  /** equals is an equivalence relation. */
  lemma KeyEqualsIsEquivalence(a: GroupKey, b: GroupKey, c: GroupKey)
    ensures KeyEquals(a, a)
    ensures KeyEquals(a, b) ==> KeyEquals(b, a)
    ensures KeyEquals(a, b) && KeyEquals(b, c) ==> KeyEquals(a, c)
  {
  }

  /** String.hashCode: h = 31 * h + c over the characters, in 32-bit
      arithmetic. */
  function StringHash(s: string): bv32
  {
    if s == [] then 0 else 31 * StringHash(s[..|s| - 1]) + (s[|s| - 1] as int as bv32)
  }

  /** The hash of the schema component: 0 for null and for an absent text
      (Optional.empty()), the string hash of the text otherwise. */
  function SchemaTextHash(t: Option<Option<string>>): bv32
  {
    match t
    case None => 0
    case Some(None) => 0
    case Some(Some(text)) => StringHash(text)
  }

  /** AbstractMap.hashCode: the sum of key-hash XOR value-hash over all
      entries, in 32-bit arithmetic. */
  ghost function MapHash(m: map<string, string>): bv32
    decreases |m|
  {
    if |m| == 0 then 0
    else
      var k :| k in m;
      (StringHash(k) ^ StringHash(m[k])) + MapHash(m - {k})
  }

  /** Objects.hash of two values with the given hash codes. */
  function ObjectsHash(h1: bv32, h2: bv32): bv32
  {
    31 * (31 * 1 + h1) + h2
  }

  /** RecordSchemaAttributesKey.hashCode, i.e. Objects.hash(schemaText, attributes). */
  ghost function KeyHash(k: GroupKey): bv32
  {
    ObjectsHash(SchemaTextHash(SchemaTextOf(k.schema)), MapHash(k.attributes))
  }

  /** hashCode is consistent with equals. */
  lemma HashConsistentWithEquals(a: GroupKey, b: GroupKey)
    requires KeyEquals(a, b)
    ensures KeyHash(a) == KeyHash(b)
  {
  }
}
