/** What FormatOpenAISchema (pkgs/genx/openai.go) does to the meaning of a schema, and exactly
    which schemas keep it. */
module OpenAISchemaMeaning {
  import opened Options
  import opened OpenAISchemas

  /** How a node of the tree is treated: formatting goes down only through nodes whose main
      type is "object" or "array", and leaves the others, and all below them, as they are. */
  datatype Mode = AsIs | Formatted(optional: bool)

  function Shown(s: Schema, mode: Mode): (r: Schema) {
    if mode.AsIs? then s else FormatAs(s, mode.optional)
  }

  /** An instance that the treated node accepts. */
  ghost predicate Left(s: Schema, mode: Mode, x: Json) { Satisfies(Shown(s, mode), x) }

  /** An instance that it ought to accept: every object lists exactly its declared properties
      and, without the nulls at optional properties, it satisfies the original. An optional
      property may also be null. */
  ghost predicate Right(s: Schema, mode: Mode, x: Json) {
    (mode == Formatted(true) && x.Null?) || (Exact(s, x) && Satisfies(s, Strip(s, x)))
  }

  // --------------------------------------------------------------------- the exact condition

  predicate Untyped(s: Schema) { s.typ == "" && s.types == [] }

  predicate Takes(s: Schema, t: string) { Untyped(s) || Allows(s, t) }

  /** The type that formatting goes by. */
  function Main(s: Schema): (t: string) { FirstType(s.types + [s.typ]) }

  predicate Reshaped(s: Schema, mode: Mode, t: string) { mode.Formatted? && Main(s) == t }

  function ItemMode(s: Schema, mode: Mode): Mode {
    if Reshaped(s, mode, "array") then Formatted(false) else AsIs
  }

  function MemberMode(s: Schema, mode: Mode, k: string): Mode {
    if Reshaped(s, mode, "object") then Formatted(k !in s.required) else AsIs
  }

  /** Types whose instances need nothing else. */
  const SIMPLE: set<string> := {"null", "boolean", "number", "integer", "string", "array"}

  /** Some object is accepted: the required properties can all be there. */
  predicate FillsObject(s: Schema, mode: Mode)
    decreases s, 0
  {
    && (Reshaped(s, mode, "object") || s.closed ==> s.required <= s.properties.Keys)
    && forall k :: k in s.properties && k in s.required ==> Fills(s.properties[k], MemberMode(s, mode, k))
  }

  /** Some instance is accepted. */
  predicate Fills(s: Schema, mode: Mode)
    decreases s, 1
  {
    Untyped(s) || mode == Formatted(true) || (exists t :: t in SIMPLE && Allows(s, t))
    || (Allows(s, "object") && FillsObject(s, mode))
  }

  /** The guard under which formatting keeps the meaning. No optional property is untyped; and
      wherever an array with items or some object is accepted, its parts are safe too, and an
      object node is either formatted or already closed with every property required. */
  predicate Safe(s: Schema, mode: Mode)
    decreases s
  {
    && !(Untyped(s) && mode == Formatted(true))
    && (Takes(s, "array") && s.items.Some? ==> Safe(s.items.value, ItemMode(s, mode)))
    && (Takes(s, "object") && FillsObject(s, mode) ==>
          && (Reshaped(s, mode, "object") || (s.closed && s.required == s.properties.Keys))
          && forall k :: k in s.properties ==> Safe(s.properties[k], MemberMode(s, mode, k)))
  }

  // ------------------------------------------------------------------------------ type keywords

  lemma {:induction false} FirstTypeAppend(a: seq<string>, b: seq<string>)
    ensures FirstType(a + b) == if FirstType(a) != "" then FirstType(a) else FirstType(b)
  {
    if a == [] {
      assert a + b == b;
    } else {
      FirstTypeAppend(a[1..], b);
      assert (a + b)[1..] == a[1..] + b;
    }
  }

  /** Formatting goes by the same type whether or not the schema was made nullable. */
  lemma MainKept(s: Schema, optional: bool)
    ensures var t := MainType(Merged(if optional then Nullable(s) else s));
      (t == "object" <==> Main(s) == "object") && (t == "array" <==> Main(s) == "array")
  {
    FirstTypeAppend(s.types, [s.typ]);
    FirstTypeAppend(s.types, ["null"]);
    FirstTypeAppend(s.types + ["null"], [s.typ]);
    assert FirstType(["null"]) == "" && FirstType([""]) == "";
  }

  /** What becomes of the keywords below a node. */
  lemma ShownItems(s: Schema, mode: Mode)
    ensures Shown(s, mode).items ==
      if s.items.Some? then Some(Shown(s.items.value, ItemMode(s, mode))) else None
  {
    if mode.Formatted? {
      MainKept(s, mode.optional);
    }
  }

  lemma ShownObject(s: Schema, mode: Mode)
    ensures var r := Shown(s, mode);
      && r.properties.Keys == s.properties.Keys
      && (forall k :: k in s.properties ==> r.properties[k] == Shown(s.properties[k], MemberMode(s, mode, k)))
      && (Reshaped(s, mode, "object") ==> r.closed && r.required == s.required + s.properties.Keys)
      && (!Reshaped(s, mode, "object") ==> r.closed == s.closed && r.required == s.required)
  {
    if mode.Formatted? {
      MainKept(s, mode.optional);
    }
  }

  lemma MergedAllows(s: Schema, u: string)
    ensures Allows(Merged(s), u) <==> Allows(s, u)
    ensures Untyped(Merged(s)) <==> Untyped(s)
  {
  }

  lemma NullableAllows(s: Schema, u: string)
    ensures Allows(Nullable(s), u) <==> Allows(s, u) || u == "null"
    ensures !Untyped(Nullable(s))
  {
    assert "null" != "";
  }

  lemma ShownAllows(s: Schema, mode: Mode, u: string)
    ensures Allows(Shown(s, mode), u) <==> Allows(s, u) || (mode == Formatted(true) && u == "null")
    ensures Untyped(Shown(s, mode)) <==> Untyped(s) && mode != Formatted(true)
  {
    if mode.Formatted? {
      var n := if mode.optional then Nullable(s) else s;
      NullableAllows(s, u);
      MergedAllows(n, u);
    }
  }

  lemma ShownFits(s: Schema, mode: Mode, x: Json)
    ensures TypeFits(Shown(s, mode), x) <==>
      (mode == Formatted(true) && x.Null?) || (TypeFits(s, x) && !(Untyped(s) && mode == Formatted(true)))
  {
    var r := Shown(s, mode);
    forall u ensures Allows(r, u) <==> Allows(s, u) || (mode == Formatted(true) && u == "null") {
      ShownAllows(s, mode, u);
    }
    ShownAllows(s, mode, "");
    if TypeFits(s, x) && !Untyped(s) {
      var u :| Allows(s, u) && HasType(u, x);
      assert Allows(r, u);
    }
    if mode == Formatted(true) && x.Null? {
      assert Allows(r, "null") && HasType("null", x);
    }
  }

  lemma StripFits(s: Schema, x: Json)
    ensures TypeFits(s, Strip(s, x)) <==> TypeFits(s, x)
  {
    assert forall u :: HasType(u, Strip(s, x)) <==> HasType(u, x);
  }

  lemma TakesObject(s: Schema, m: map<string, Json>)
    ensures TypeFits(s, Object(m)) <==> Takes(s, "object")
  {
    if Takes(s, "object") && !Untyped(s) {
      assert Allows(s, "object") && HasType("object", Object(m));
    }
  }

  lemma TakesArray(s: Schema, es: seq<Json>)
    ensures TypeFits(s, Array(es)) <==> Takes(s, "array")
  {
    if Takes(s, "array") && !Untyped(s) {
      assert Allows(s, "array") && HasType("array", Array(es));
    }
  }

  // ------------------------------------------------------------ both sides, one level at a time

  /** The node is not an optional property without a type. */
  predicate Typed(s: Schema, mode: Mode) { !(Untyped(s) && mode == Formatted(true)) }

  lemma LeftArray(s: Schema, mode: Mode, es: seq<Json>)
    requires Typed(s, mode) && Takes(s, "array")
    ensures Left(s, mode, Array(es)) <==>
      (s.items.Some? ==> forall i :: 0 <= i < |es| ==> Left(s.items.value, ItemMode(s, mode), es[i]))
  {
    ShownFits(s, mode, Array(es));
    TakesArray(s, es);
    ShownItems(s, mode);
  }

  lemma RightArray(s: Schema, mode: Mode, es: seq<Json>)
    requires Takes(s, "array")
    ensures Right(s, mode, Array(es)) <==>
      (s.items.Some? ==> forall i :: 0 <= i < |es| ==> Right(s.items.value, ItemMode(s, mode), es[i]))
  {
    StripFits(s, Array(es));
    TakesArray(s, es);
    if s.items.Some? {
      var ys := Strip(s, Array(es)).elements;
      assert |ys| == |es| && forall i :: 0 <= i < |es| ==> ys[i] == Strip(s.items.value, es[i]);
    }
  }

  lemma LeftObject(s: Schema, mode: Mode, m: map<string, Json>)
    requires Typed(s, mode) && Takes(s, "object")
    ensures Left(s, mode, Object(m)) <==>
      (&& s.required <= m.Keys
       && (Reshaped(s, mode, "object") ==> s.properties.Keys <= m.Keys)
       && (Reshaped(s, mode, "object") || s.closed ==> m.Keys <= s.properties.Keys)
       && forall k :: k in s.properties && k in m ==> Left(s.properties[k], MemberMode(s, mode, k), m[k]))
  {
    ShownFits(s, mode, Object(m));
    TakesObject(s, m);
    ShownObject(s, mode);
  }

  /** Member `k` as the right side wants it: null where it is optional, or else exact and right. */
  ghost predicate RightMember(s: Schema, m: map<string, Json>, k: string)
    requires k in s.properties && k in m
  {
    Right(s.properties[k], Formatted(k !in s.required), m[k])
  }

  lemma RightObject(s: Schema, mode: Mode, m: map<string, Json>)
    requires Takes(s, "object")
    ensures Right(s, mode, Object(m)) <==>
      m.Keys == s.properties.Keys && s.required <= s.properties.Keys && forall k :: k in m.Keys ==> k in s.properties && RightMember(s, m, k)
  {
    StripFits(s, Object(m));
    TakesObject(s, m);
    if m.Keys == s.properties.Keys {
      RightMembers(s, m);
    }
  }

  lemma MemberStripped(s: Schema, m: map<string, Json>, n: map<string, Json>, k: string)
    requires k in s.properties && k in m && n == Strip(s, Object(m)).members
    ensures RightMember(s, m, k) <==>
      (&& Exact(s.properties[k], m[k]) && (k in s.required ==> k in n)
       && (k in n ==> Satisfies(s.properties[k], n[k])))
  {
    assert k in n <==> !Absent(s, m, k);
  }

  lemma RightMembers(s: Schema, m: map<string, Json>)
    requires m.Keys == s.properties.Keys && TypeFits(s, Strip(s, Object(m)))
    ensures (Exact(s, Object(m)) && Satisfies(s, Strip(s, Object(m)))) <==>
      s.required <= s.properties.Keys && forall k :: k in m.Keys ==> RightMember(s, m, k)
  {
    var y := Strip(s, Object(m));
    var n := y.members;
    assert n.Keys <= m.Keys;
    if Exact(s, Object(m)) && Satisfies(s, y) {
      forall k | k in m.Keys ensures RightMember(s, m, k) {
        MemberStripped(s, m, n, k);
      }
    }
    if s.required <= s.properties.Keys && forall k :: k in m.Keys ==> RightMember(s, m, k) {
      forall k | k in s.properties
        ensures Exact(s.properties[k], m[k]) && (k in s.required ==> k in n) && (k in n ==> Satisfies(s.properties[k], n[k]))
      {
        assert k in m.Keys && RightMember(s, m, k);
        MemberStripped(s, m, n, k);
      }
    }
  }

  // ---------------------------------------------------------------------------- inhabitants

  lemma FitsFills(s: Schema, mode: Mode, x: Json)
    requires TypeFits(s, x) && !x.Object?
    ensures Fills(s, mode)
  {
    if !Untyped(s) {
      var t :| Allows(s, t) && HasType(t, x);
      assert t in SIMPLE;
    }
  }

  /** What the left side accepts shows that it can be filled. */
  lemma {:induction false} LeftFills(s: Schema, mode: Mode, x: Json)
    requires Left(s, mode, x)
    ensures Fills(s, mode)
    ensures x.Object? ==> Takes(s, "object") && FillsObject(s, mode)
    decreases s
  {
    ShownFits(s, mode, x);
    if x.Object? {
      TakesObject(s, x.members);
      LeftObject(s, mode, x.members);
      forall k | k in s.properties && k in s.required ensures Fills(s.properties[k], MemberMode(s, mode, k)) {
        LeftFills(s.properties[k], MemberMode(s, mode, k), x.members[k]);
      }
    } else if mode != Formatted(true) {
      FitsFills(s, mode, x);
    }
  }

  /** So does what the right side accepts. */
  lemma {:induction false} RightFills(s: Schema, mode: Mode, x: Json)
    requires Right(s, mode, x)
    ensures Fills(s, mode)
    ensures x.Object? ==> Takes(s, "object") && FillsObject(s, mode)
    decreases s
  {
    if !(mode == Formatted(true) && x.Null?) {
      StripFits(s, x);
      if x.Object? {
        TakesObject(s, x.members);
        RightObject(s, mode, x.members);
        forall k | k in s.properties && k in s.required ensures Fills(s.properties[k], MemberMode(s, mode, k)) {
          assert RightMember(s, x.members, k);
          RightFills(s.properties[k], MemberMode(s, mode, k), x.members[k]);
        }
      } else {
        FitsFills(s, mode, x);
      }
    }
  }

  /** An instance that the left side accepts, without optional members where it can. */
  function Sample(s: Schema, mode: Mode): (x: Json)
    requires Fills(s, mode)
    decreases s, 1
  {
    if Untyped(s) || mode == Formatted(true) || Allows(s, "null") then Null
    else if Allows(s, "boolean") then Bool(true)
    else if Allows(s, "number") || Allows(s, "integer") then Number(0.0)
    else if Allows(s, "string") then String("")
    else if Allows(s, "array") then Array([])
    else Object(SampleObject(s, mode))
  }

  function SampleObject(s: Schema, mode: Mode): (m: map<string, Json>)
    requires FillsObject(s, mode)
    ensures m.Keys == if Reshaped(s, mode, "object") then s.properties.Keys else s.required
    decreases s, 0
  {
    map k | k in (if Reshaped(s, mode, "object") then s.properties.Keys else s.required) ::
      if k in s.properties then Sample(s.properties[k], MemberMode(s, mode, k)) else Null
  }

  lemma {:induction false} SampleFits(s: Schema, mode: Mode)
    requires Fills(s, mode)
    ensures Left(s, mode, Sample(s, mode))
    decreases s, 1
  {
    var x := Sample(s, mode);
    ShownFits(s, mode, x);
    if x.Object? {
      SampleObjectFits(s, mode);
    } else if x.Array? {
      LeftArray(s, mode, []);
    } else if !Untyped(s) && mode != Formatted(true) {
      SimpleFits(s, mode);
    }
  }

  lemma SimpleFits(s: Schema, mode: Mode)
    requires Fills(s, mode) && !Untyped(s) && mode != Formatted(true)
    requires !Sample(s, mode).Object? && !Sample(s, mode).Array?
    ensures TypeFits(s, Sample(s, mode))
  {
    var x := Sample(s, mode);
    assert 0.0 == (0.0).Floor as real;
    assert exists t :: t in SIMPLE && Allows(s, t) && HasType(t, x);
  }

  lemma {:induction false} SampleObjectFits(s: Schema, mode: Mode)
    requires FillsObject(s, mode) && Takes(s, "object") && Typed(s, mode)
    ensures Left(s, mode, Object(SampleObject(s, mode)))
    decreases s, 0
  {
    var m := SampleObject(s, mode);
    forall k | k in s.properties && k in m ensures Left(s.properties[k], MemberMode(s, mode, k), m[k]) {
      SampleFits(s.properties[k], MemberMode(s, mode, k));
    }
    LeftObject(s, mode, m);
  }

  // ----------------------------------------------------------------------------- sufficiency

  ghost predicate Agree(s: Schema, mode: Mode, x: Json) { Left(s, mode, x) <==> Right(s, mode, x) }

  lemma ScalarsAgree(s: Schema, mode: Mode, x: Json)
    requires Typed(s, mode) && !x.Object? && (x.Array? ==> !Takes(s, "array"))
    ensures Agree(s, mode, x)
  {
    ShownFits(s, mode, x);
    StripFits(s, x);
    if x.Array? {
      TakesArray(s, x.elements);
    }
  }

  lemma ObjectsAgree(s: Schema, mode: Mode, m: map<string, Json>)
    requires Typed(s, mode) && Takes(s, "object")
    requires Reshaped(s, mode, "object") || (s.closed && s.required == s.properties.Keys)
    requires forall k :: k in s.properties && k in m ==> Agree(s.properties[k], MemberMode(s, mode, k), m[k])
    ensures Agree(s, mode, Object(m))
  {
    LeftObject(s, mode, m);
    RightObject(s, mode, m);
    forall k | k in s.properties && k in m
      ensures Left(s.properties[k], MemberMode(s, mode, k), m[k]) <==>
              (k in s.required || Reshaped(s, mode, "object") ==> RightMember(s, m, k))
    {
      assert Agree(s.properties[k], MemberMode(s, mode, k), m[k]);
    }
  }

  lemma {:induction false} SafeAgrees(s: Schema, mode: Mode, x: Json)
    requires Safe(s, mode)
    ensures Agree(s, mode, x)
    decreases s
  {
    if x.Array? && Takes(s, "array") {
      LeftArray(s, mode, x.elements);
      RightArray(s, mode, x.elements);
      if s.items.Some? {
        forall i | 0 <= i < |x.elements| ensures Agree(s.items.value, ItemMode(s, mode), x.elements[i]) {
          SafeAgrees(s.items.value, ItemMode(s, mode), x.elements[i]);
        }
      }
    } else if !x.Object? {
      ScalarsAgree(s, mode, x);
    } else if !(Takes(s, "object") && FillsObject(s, mode)) {
      NoObjectsAgree(s, mode, x);
    } else {
      forall k | k in s.properties && k in x.members
        ensures Agree(s.properties[k], MemberMode(s, mode, k), x.members[k])
      {
        SafeAgrees(s.properties[k], MemberMode(s, mode, k), x.members[k]);
      }
      ObjectsAgree(s, mode, x.members);
    }
  }

  /** Where no object can be filled in, neither side accepts one. */
  lemma NoObjectsAgree(s: Schema, mode: Mode, x: Json)
    requires x.Object? && !(Takes(s, "object") && FillsObject(s, mode))
    ensures Agree(s, mode, x)
  {
    if Left(s, mode, x) {
      LeftFills(s, mode, x);
    }
    if Right(s, mode, x) {
      RightFills(s, mode, x);
    }
  }

  // ------------------------------------------------------------------------------- necessity

  /** A name that is not in the set. */
  lemma {:induction false} FreshName(names: set<string>) returns (k: string)
    ensures k !in names && forall n :: n in names ==> |n| < |k|
  {
    if names == {} {
      k := "";
    } else {
      var n :| n in names;
      var rest := FreshName(names - {n});
      k := if |rest| > |n| then rest else seq(|n| + 1, _ => 'a');
    }
  }

  /** An item on which the sides differ makes an array on which they differ. */
  lemma ItemDiffers(s: Schema, mode: Mode, e: Json)
    requires Typed(s, mode) && Takes(s, "array") && s.items.Some? && !Agree(s.items.value, ItemMode(s, mode), e)
    ensures !Agree(s, mode, Array([e]))
  {
    LeftArray(s, mode, [e]);
    RightArray(s, mode, [e]);
    assert [e][0] == e;
  }

  lemma LeftReplaced(s: Schema, mode: Mode, m: map<string, Json>, k: string, v: Json)
    requires Typed(s, mode) && Takes(s, "object") && k in s.properties && k in m && Left(s, mode, Object(m))
    ensures Left(s, mode, Object(m[k := v])) <==> Left(s.properties[k], MemberMode(s, mode, k), v)
  {
    LeftObject(s, mode, m);
    LeftObject(s, mode, m[k := v]);
    assert m[k := v].Keys == m.Keys;
  }

  lemma RightReplaced(s: Schema, mode: Mode, m: map<string, Json>, k: string, v: Json)
    requires Takes(s, "object") && k in s.properties && k in m && Right(s, mode, Object(m))
    ensures Right(s, mode, Object(m[k := v])) <==> Right(s.properties[k], Formatted(k !in s.required), v)
  {
    var m' := m[k := v];
    RightObject(s, mode, m);
    RightObject(s, mode, m');
    assert m'.Keys == m.Keys && k in m'.Keys;
    assert forall j :: j in m'.Keys && j != k ==> RightMember(s, m, j) && RightMember(s, m', j);
  }

  /** A member on which the sides differ makes a difference in an object that both accept. */
  lemma MemberDiffers(s: Schema, mode: Mode, m: map<string, Json>, k: string, v: Json)
    requires Typed(s, mode) && Takes(s, "object") && k in s.properties && k in m
    requires Reshaped(s, mode, "object") || s.required == s.properties.Keys
    requires Left(s, mode, Object(m)) && Right(s, mode, Object(m)) && !Agree(s.properties[k], MemberMode(s, mode, k), v)
    ensures !Agree(s, mode, Object(m[k := v]))
  {
    LeftReplaced(s, mode, m, k, v);
    RightReplaced(s, mode, m, k, v);
  }

  /** An object that lists other properties than the declared ones is not exact. */
  lemma InexactDiffers(s: Schema, mode: Mode, m: map<string, Json>)
    requires Left(s, mode, Object(m)) && m.Keys != s.properties.Keys
    ensures !Agree(s, mode, Object(m))
  {
  }

  /** A node that accepts objects and is left open, or has optional properties, and is not
      formatted as an object, accepts an object that is not exact. */
  lemma OpenDiffers(s: Schema, mode: Mode) returns (x: Json)
    requires Typed(s, mode) && Takes(s, "object") && FillsObject(s, mode) && !Reshaped(s, mode, "object")
    requires !(s.closed && s.required == s.properties.Keys)
    ensures !Agree(s, mode, x)
  {
    var m := SampleObject(s, mode);
    SampleObjectFits(s, mode);
    if m.Keys != s.properties.Keys {
      InexactDiffers(s, mode, m);
      x := Object(m);
    } else {
      var f := FreshName(m.Keys);
      var m' := m[f := Null];
      LeftObject(s, mode, m);
      LeftObject(s, mode, m');
      assert f in m'.Keys;
      InexactDiffers(s, mode, m');
      x := Object(m');
    }
  }

  /** A part that is not safe, in an object node that is. */
  lemma PartDiffers(s: Schema, mode: Mode, k: string, v: Json) returns (x: Json)
    requires Typed(s, mode) && Takes(s, "object") && FillsObject(s, mode)
    requires Reshaped(s, mode, "object") || (s.closed && s.required == s.properties.Keys)
    requires k in s.properties && !Agree(s.properties[k], MemberMode(s, mode, k), v)
    ensures !Agree(s, mode, x)
  {
    var m := SampleObject(s, mode);
    SampleObjectFits(s, mode);
    if Right(s, mode, Object(m)) {
      assert k in m.Keys;
      MemberDiffers(s, mode, m, k, v);
      x := Object(m[k := v]);
    } else {
      x := Object(m);
    }
  }

  /** Every schema outside the guard has an instance whose meaning changes. */
  lemma {:induction false} UnsafeDiffers(s: Schema, mode: Mode) returns (x: Json)
    requires !Safe(s, mode)
    ensures !Agree(s, mode, x)
    decreases s
  {
    if !Typed(s, mode) {
      x := String("");
      ShownFits(s, mode, x);
    } else if Takes(s, "array") && s.items.Some? && !Safe(s.items.value, ItemMode(s, mode)) {
      var e := UnsafeDiffers(s.items.value, ItemMode(s, mode));
      ItemDiffers(s, mode, e);
      x := Array([e]);
    } else if !(Reshaped(s, mode, "object") || (s.closed && s.required == s.properties.Keys)) {
      x := OpenDiffers(s, mode);
    } else {
      var k :| k in s.properties && !Safe(s.properties[k], MemberMode(s, mode, k));
      var v := UnsafeDiffers(s.properties[k], MemberMode(s, mode, k));
      x := PartDiffers(s, mode, k, v);
    }
  }

  // ------------------------------------------------------------------------------ the theorem

  /** Formatting keeps the meaning of a schema if and only if the guard holds: an instance
      satisfies the formatted schema exactly when every object lists exactly its declared
      properties and, without the nulls at optional properties, it satisfies the original. */
  lemma FormatKeepsMeaningIff(s: Schema)
    ensures (forall x :: Satisfies(Format(s), x) <==> Exact(s, x) && Satisfies(s, Strip(s, x))) <==> Safe(s, Formatted(false))
  {
    if Safe(s, Formatted(false)) {
      forall x ensures Satisfies(Format(s), x) <==> Exact(s, x) && Satisfies(s, Strip(s, x)) {
        SafeAgrees(s, Formatted(false), x);
        assert Agree(s, Formatted(false), x);
      }
    } else {
      var x := UnsafeDiffers(s, Formatted(false));
      assert !(Satisfies(Format(s), x) <==> Exact(s, x) && Satisfies(s, Strip(s, x)));
    }
  }

  /** One type besides "null" at every node. */
  ghost predicate Plain(s: Schema)
    decreases s
  {
    && (exists t :: IsMain(s, t))
    && (s.items.Some? ==> Plain(s.items.value))
    && (forall k :: k in s.properties ==> Plain(s.properties[k]))
  }

  ghost predicate IsMain(s: Schema, t: string) {
    t != "null" && Allows(s, t) && forall u :: Allows(s, u) ==> u == "null" || u == t
  }

  lemma {:induction false} FirstTypeIsMain(types: seq<string>, t: string)
    requires t in types && t != "null" && t != "" && forall u :: u in types ==> u == "null" || u == t || u == ""
    ensures FirstType(types) == t
  {
    assert types[0] in types && forall u :: u in types[1..] ==> u in types;
    if types[0] != t {
      assert types == [types[0]] + types[1..];
      FirstTypeIsMain(types[1..], t);
    }
  }

  lemma MainIsMain(s: Schema, t: string)
    requires IsMain(s, t)
    ensures Main(s) == t
  {
    forall u | u in s.types + [s.typ] ensures u == "null" || u == t || u == "" {
      assert u != "" ==> Allows(s, u);
    }
    FirstTypeIsMain(s.types + [s.typ], t);
  }

  /** Schemas with one type besides "null" at every node keep their meaning. */
  lemma {:induction false} PlainIsSafe(s: Schema, optional: bool)
    requires Plain(s)
    ensures Safe(s, Formatted(optional))
    decreases s
  {
    var t :| IsMain(s, t);
    MainIsMain(s, t);
    assert Takes(s, "array") ==> t == "array";
    assert Takes(s, "object") ==> t == "object";
    if t == "array" && s.items.Some? {
      PlainIsSafe(s.items.value, false);
    }
    if t == "object" {
      forall k | k in s.properties ensures Safe(s.properties[k], MemberMode(s, Formatted(optional), k)) {
        PlainIsSafe(s.properties[k], k !in s.required);
      }
    }
  }

  // -------------------------------------------------------------------------- families

  /** An optional property without a type loses its meaning, unless no object is accepted. */
  lemma UntypedOptionalIsUnsafe(s: Schema, optional: bool, k: string)
    requires Main(s) == "object" && FillsObject(s, Formatted(optional))
    requires k in s.properties && k !in s.required && Untyped(s.properties[k])
    ensures !Safe(s, Formatted(optional))
  {
    FirstTypeIn(s.types + [s.typ]);
    assert Allows(s, "object");
  }

  lemma {:induction false} FirstTypeIn(types: seq<string>)
    ensures FirstType(types) != "" ==> FirstType(types) in types
  {
    if types != [] {
      FirstTypeIn(types[1..]);
    }
  }

  /** So does a node that accepts objects under another main type and is not closed, for
      example one without a type. */
  lemma OpenUnderAnotherTypeIsUnsafe(s: Schema, mode: Mode)
    requires Takes(s, "object") && FillsObject(s, mode) && Main(s) != "object" && !s.closed
    ensures !Safe(s, mode)
  {
  }

  /** Several types without "object" and "array" among them do no harm. */
  lemma ScalarsAreSafe(s: Schema, optional: bool)
    requires !Untyped(s) && !Allows(s, "object") && !Allows(s, "array")
    ensures Safe(s, Formatted(optional))
  {
  }

  /** Nor does a required property that is not declared: no object satisfies either side. */
  lemma UndeclaredRequired(s: Schema, k: string, m: map<string, Json>)
    requires Main(s) == "object" && k in s.required && k !in s.properties
    ensures !Satisfies(Format(s), Object(m)) && !(Exact(s, Object(m)) && Satisfies(s, Strip(s, Object(m))))
  {
    if Left(s, Formatted(false), Object(m)) {
      LeftFills(s, Formatted(false), Object(m));
    }
    if Right(s, Formatted(false), Object(m)) {
      RightFills(s, Formatted(false), Object(m));
    }
  }
}
