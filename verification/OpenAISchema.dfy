/** FormatOpenAISchema (pkgs/genx/openai.go): every object is closed, all its properties become
    required and the optional ones nullable. The meaning of schemas is that of `type`
    (section 6.1.1) and `required` (section 6.5.3) of JSON Schema Validation 2020-12 and of
    `properties`, `additionalProperties` and `items` (section 10.3) of JSON Schema Core 2020-12. */
module OpenAISchemas {
  import opened Options

  datatype Json =
    | Null | Bool(b: bool) | Number(r: real) | String(s: string)
    | Array(elements: seq<Json>) | Object(members: map<string, Json>)

  /** `closed` stands for additionalProperties that nothing satisfies. The order of required
      names has no meaning. */
  datatype Schema = Schema(
    typ: string, types: seq<string>, properties: map<string, Schema>, required: set<string>,
    items: Option<Schema>, closed: bool)

  // ---------------------------------------------------------------------------- formatting

  /** The first type that is neither "null" nor empty. */
  function FirstType(types: seq<string>): (t: string) {
    if types == [] then "" else if types[0] != "null" && types[0] != "" then types[0] else FirstType(types[1..])
  }

  /** Both forms of the type keyword become one list. */
  function Merged(s: Schema): (r: Schema) {
    if s.typ != "" && s.types != [] then s.(types := s.types + [s.typ], typ := "") else s
  }

  function Nullable(s: Schema): (r: Schema) {
    if "null" in s.types then s else s.(types := s.types + ["null"])
  }

  function MainType(s: Schema): (t: string) { if s.typ == "" then FirstType(s.types) else s.typ }

  /** FormatOpenAISchema, after making the schema of an optional property nullable. */
  function FormatAs(s: Schema, optional: bool): (r: Schema)
    decreases s
  {
    var m := Merged(if optional then Nullable(s) else s);
    match MainType(m)
    case "array" => m.(items := if s.items.Some? then Some(FormatAs(s.items.value, false)) else None)
    case "object" =>
      m.(closed := true, required := s.required + s.properties.Keys,
         properties := map k | k in s.properties :: FormatAs(s.properties[k], k !in s.required))
    case _ => m
  }

  function Format(s: Schema): (r: Schema) { FormatAs(s, false) }

  // ------------------------------------------------------------------------------- meaning

  predicate HasType(t: string, x: Json) {
    match x
    case Null => t == "null"
    case Bool(_) => t == "boolean"
    case Number(r) => t == "number" || (t == "integer" && r == r.Floor as real)
    case String(_) => t == "string"
    case Array(_) => t == "array"
    case Object(_) => t == "object"
  }

  predicate Allows(s: Schema, t: string) { t != "" && (t == s.typ || t in s.types) }

  /** No type given, or one of them fits. */
  ghost predicate TypeFits(s: Schema, x: Json) {
    (s.typ == "" && s.types == []) || exists t :: Allows(s, t) && HasType(t, x)
  }

  ghost predicate Satisfies(s: Schema, x: Json)
    decreases s
  {
    && TypeFits(s, x)
    && (x.Array? && s.items.Some? ==> forall i :: 0 <= i < |x.elements| ==> Satisfies(s.items.value, x.elements[i]))
    && (x.Object? ==>
          && s.required <= x.members.Keys
          && (s.closed ==> x.members.Keys <= s.properties.Keys)
          && forall k :: k in s.properties && k in x.members ==> Satisfies(s.properties[k], x.members[k]))
  }

  /** Every object lists exactly the properties that its schema declares. */
  ghost predicate Exact(s: Schema, x: Json)
    decreases s
  {
    && (x.Array? && s.items.Some? ==> forall i :: 0 <= i < |x.elements| ==> Exact(s.items.value, x.elements[i]))
    && (x.Object? ==>
          && x.members.Keys == s.properties.Keys
          && forall k :: k in s.properties && k in x.members ==> Exact(s.properties[k], x.members[k]))
  }

  /** Member `k` is null where the schema declares an optional property. */
  predicate Absent(s: Schema, m: map<string, Json>, k: string) {
    k in m && m[k].Null? && k in s.properties && k !in s.required
  }

  /** The instance without the nulls at optional properties. */
  function Strip(s: Schema, x: Json): (r: Json)
    decreases s
  {
    match x
    case Array(es) =>
      if s.items.Some? then Array(seq(|es|, i requires 0 <= i < |es| => Strip(s.items.value, es[i]))) else x
    case Object(m) =>
      Object(map k | k in m && !Absent(s, m, k) :: if k in s.properties then Strip(s.properties[k], m[k]) else m[k])
    case _ => x
  }

  // ------------------------------------------------------------------------- idempotence

  /** Formatting twice is formatting once, for every schema. */
  lemma {:induction false} FormatTwice(s: Schema, optional: bool)
    ensures FormatAs(FormatAs(s, optional), false) == FormatAs(s, optional)
    decreases s
  {
    var m, r := Merged(if optional then Nullable(s) else s), FormatAs(s, optional);
    FormatTypesTwice(s, optional);
    if MainType(m) == "array" && s.items.Some? {
      FormatTwice(s.items.value, false);
    } else if MainType(m) == "object" {
      forall k | k in s.properties ensures FormatAs(r.properties[k], false) == r.properties[k] {
        FormatTwice(s.properties[k], k !in s.required);
      }
      ObjectTwice(r);
    }
  }

  lemma FormatTypesTwice(s: Schema, optional: bool)
    ensures var m, r := Merged(if optional then Nullable(s) else s), FormatAs(s, optional);
      Merged(r) == r && MainType(r) == MainType(m)
  {
  }

  /** An object schema whose parts are formatted is formatted. */
  lemma ObjectTwice(r: Schema)
    requires Merged(r) == r && MainType(r) == "object" && r.closed && r.properties.Keys <= r.required
    requires forall k :: k in r.properties ==> FormatAs(r.properties[k], false) == r.properties[k]
    ensures FormatAs(r, false) == r
  {
    assert r.required + r.properties.Keys == r.required;
    assert (map k | k in r.properties :: FormatAs(r.properties[k], k !in r.required)) == r.properties;
  }
}
