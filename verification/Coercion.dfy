/** What schema-directed coercion makes of tool arguments.  Every number is a finite float;
    how numbers read and print is left to the environment. */
module Coercion {
  import opened Messages

  /** `Opaque` is a value of the host language that JSON cannot say, such as a channel. */
  datatype Json =
    | Null
    | Bool(b: bool)
    | Num(n: real)
    | Str(s: string)
    | Arr(elements: seq<Json>)
    | Obj(fields: map<string, Json>)
    | Opaque(tag: int)

  predicate Encodable(v: Json) {
    match v
    case Opaque(_) => false
    case Arr(elements) => forall k | 0 <= k < |elements| :: Encodable(elements[k])
    case Obj(fields) => forall k | k in fields :: Encodable(fields[k])
    case _ => true
  }

  /** A member of an object or tuple schema; a boolean schema has no `sub`. */
  datatype Member = Member(name: string, sub: Option<Schema>)

  datatype Items = NoItems | Tuple(members: seq<Member>) | Uniform(schema: Schema)

  datatype Schema = Schema(
    types: seq<string>,
    allOf: seq<Schema>,
    anyOf: seq<Schema>,
    oneOf: seq<Schema>,
    properties: seq<Member>,
    additional: Option<Schema>,
    items: Items)

  /** How numbers are read and printed, and the schema validator. */
  datatype Env = Env(read: string -> Option<real>, show: real -> string, validates: (Schema, Json) -> bool)

  // ---- primitive values ----------------------------------------------------------------

  predicate Whole(n: real) {
    n == n.Floor as real
  }

  function ToString(v: Json, env: Env): Json {
    match v
    case Num(n) => Str(env.show(n))
    case Bool(b) => Str(if b then "true" else "false")
    case Null => Str("")
    case _ => v
  }

  function ToNumber(v: Json, env: Env): Json {
    match v
    case Str(s) => if s != "" && env.read(s).Some? then Num(env.read(s).value) else v
    case Bool(b) => Num(if b then 1.0 else 0.0)
    case Null => Num(0.0)
    case _ => v
  }

  function ToInteger(v: Json, env: Env): Json {
    match v
    case Str(s) => if s != "" && env.read(s).Some? && Whole(env.read(s).value) then Num(env.read(s).value) else v
    case Bool(b) => Num(if b then 1.0 else 0.0)
    case Null => Num(0.0)
    case _ => v
  }

  function ToBoolean(v: Json): Json {
    match v
    case Str(s) => if s == "true" then Bool(true) else if s == "false" then Bool(false) else v
    case Num(n) => if n == 1.0 then Bool(true) else if n == 0.0 then Bool(false) else v
    case Null => Bool(false)
    case _ => v
  }

  function ToNull(v: Json): Json {
    if v == Str("") || v == Num(0.0) || v == Bool(false) then Null else v
  }

  function CoercePrimitive(v: Json, typeName: string, env: Env): Json {
    if typeName == "string" then ToString(v, env)
    else if typeName == "number" then ToNumber(v, env)
    else if typeName == "integer" then ToInteger(v, env)
    else if typeName == "boolean" then ToBoolean(v)
    else if typeName == "null" then ToNull(v)
    else v
  }

  predicate MatchesType(v: Json, typeName: string) {
    match v
    case Null => typeName == "null"
    case Bool(_) => typeName == "boolean"
    case Num(n) => typeName == "number" || (typeName == "integer" && Whole(n))
    case Str(_) => typeName == "string"
    case Arr(_) => typeName == "array"
    case Obj(_) => typeName == "object"
    case Opaque(_) => false
  }

  predicate MatchesAny(v: Json, types: seq<string>) {
    exists k :: 0 <= k < |types| && MatchesType(v, types[k])
  }

  /** Null becomes the first type's default that is not null. */
  function FromNull(types: seq<string>, env: Env): Json {
    if types == [] then Null
    else if CoercePrimitive(Null, types[0], env) != Null then CoercePrimitive(Null, types[0], env)
    else FromNull(types[1..], env)
  }

  /** The first declared type that the value can be turned into. */
  function FirstMatch(v: Json, types: seq<string>, env: Env): Json {
    if types == [] then v
    else
      var candidate := CoercePrimitive(v, types[0], env);
      if MatchesType(candidate, types[0]) then candidate else FirstMatch(v, types[1..], env)
  }

  function ToDeclared(v: Json, types: seq<string>, env: Env): Json {
    if MatchesAny(v, types) then v else FirstMatch(v, types, env)
  }

  // ---- the coercion ------------------------------------------------------------------------

  function Find(members: seq<Member>, name: string): (m: Option<Member>)
    ensures m.Some? ==> m.value in members && m.value.name == name
    ensures m.None? ==> forall k | 0 <= k < |members| :: members[k].name != name
  {
    if members == [] then None else if members[0].name == name then Some(members[0]) else Find(members[1..], name)
  }

  function Coerce(v: Json, s: Schema, env: Env): Json
    decreases s, 3
  {
    if v.Null? then FromNull(s.types, env)
    else
      var a := CoerceAll(v, s.allOf, env);
      var b := CoerceUnion(a, s.anyOf, env);
      var c := CoerceUnion(b, s.oneOf, env);
      CoerceInside(ToDeclared(c, s.types, env), s, env)
  }

  function CoerceAll(v: Json, subs: seq<Schema>, env: Env): Json
    decreases subs, 4
  {
    if subs == [] then v else CoerceAll(Coerce(v, subs[0], env), subs[1..], env)
  }

  /** Each branch gets a copy of the value; one that cannot be copied is handed on as the
      branch before left it. */
  function CoerceUnion(v: Json, subs: seq<Schema>, env: Env): Json
    decreases subs, 4
  {
    if subs == [] then v
    else
      var coerced := Coerce(v, subs[0], env);
      if env.validates(subs[0], coerced) then coerced
      else CoerceUnion(if Encodable(v) then v else coerced, subs[1..], env)
  }

  /** The members of an object or array that the schema declares to be one. */
  function CoerceInside(v: Json, s: Schema, env: Env): Json
    decreases s, 2
  {
    if v.Obj? && "object" in s.types then Obj(map k | k in v.fields :: CoerceField(v.fields[k], k, s, env))
    else if v.Arr? && "array" in s.types then
      Arr(seq(|v.elements|, k requires 0 <= k < |v.elements| => CoerceElement(v.elements[k], k, s, env)))
    else v
  }

  function FieldSchema(s: Schema, name: string): Option<Schema> {
    var m := Find(s.properties, name);
    if m.Some? then m.value.sub else s.additional
  }

  function CoerceField(v: Json, name: string, s: Schema, env: Env): Json
    decreases s, 1
  {
    var sub := FieldSchema(s, name);
    if sub.Some? then Coerce(v, sub.value, env) else v
  }

  function ElementSchema(s: Schema, k: nat): Option<Schema> {
    match s.items
    case NoItems => None
    case Tuple(members) => if k < |members| then members[k].sub else None
    case Uniform(schema) => Some(schema)
  }

  function CoerceElement(v: Json, k: nat, s: Schema, env: Env): Json
    decreases s, 1
  {
    var sub := ElementSchema(s, k);
    if sub.Some? then Coerce(v, sub.value, env) else v
  }

  // ---- one value and its declared types ---------------------------------------------------

  method CoerceToDeclared(v: Json, types: seq<string>, env: Env) returns (next: Json)
    ensures next == ToDeclared(v, types, env)
  {
    if exists k :: 0 <= k < |types| && MatchesType(v, types[k]) { return v; }
    for i := 0 to |types|
      invariant FirstMatch(v, types, env) == FirstMatch(v, types[i..], env)
    {
      var candidate := CoercePrimitive(v, types[i], env);
      if MatchesType(candidate, types[i]) { return candidate; }
    }
    return v;
  }

  method CoerceNull(types: seq<string>, env: Env) returns (next: Json)
    ensures next == FromNull(types, env)
  {
    for i := 0 to |types|
      invariant FromNull(types, env) == FromNull(types[i..], env)
    {
      var coerced := CoercePrimitive(Null, types[i], env);
      if coerced != Null { return coerced; }
    }
    return Null;
  }

  /** The properties of a decoded schema are the fields of an object. */
  ghost predicate DistinctNames(s: Schema)
    decreases s
  {
    && (forall i, j | 0 <= i < j < |s.properties| :: s.properties[i].name != s.properties[j].name)
    && (forall k | 0 <= k < |s.properties| && s.properties[k].sub.Some? :: DistinctNames(s.properties[k].sub.value))
    && (s.additional.Some? ==> DistinctNames(s.additional.value))
    && (s.items.Uniform? ==> DistinctNames(s.items.schema))
    && (s.items.Tuple? ==>
          forall k | 0 <= k < |s.items.members| && s.items.members[k].sub.Some? ::
              DistinctNames(s.items.members[k].sub.value))
    && (forall k | 0 <= k < |s.allOf| :: DistinctNames(s.allOf[k]))
    && (forall k | 0 <= k < |s.anyOf| :: DistinctNames(s.anyOf[k]))
    && (forall k | 0 <= k < |s.oneOf| :: DistinctNames(s.oneOf[k]))
  }

  lemma {:induction false} FindIs(members: seq<Member>, i: nat)
    requires i < |members| && forall j, k | 0 <= j < k < |members| :: members[j].name != members[k].name
    ensures Find(members, members[i].name) == Some(members[i])
  {
    if i > 0 { FindIs(members[1..], i - 1); }
  }

  lemma FindNone(members: seq<Member>, name: string)
    requires forall k | 0 <= k < |members| :: members[k].name != name
    ensures Find(members, name).None?
  {
  }

  /** Coercion leaves a value of its kind that cannot be encoded so. */
  lemma {:induction false} CoercionKeepsOpaque(v: Json, s: Schema, env: Env)
    requires !Encodable(v)
    ensures var r := Coerce(v, s, env);
            !Encodable(r) && (v.Obj? <==> r.Obj?) && (v.Arr? <==> r.Arr?) && (v.Opaque? ==> r == v)
    decreases s, 3
  {
    AllKeepsOpaque(v, s.allOf, env);
    var a := CoerceAll(v, s.allOf, env);
    UnionKeepsOpaque(a, s.anyOf, env);
    var b := CoerceUnion(a, s.anyOf, env);
    UnionKeepsOpaque(b, s.oneOf, env);
    var c := CoerceUnion(b, s.oneOf, env);
    FirstMatchSettles(c, s.types, env);
    InsideKeepsOpaque(c, s, env);
  }

  lemma {:induction false} AllKeepsOpaque(v: Json, subs: seq<Schema>, env: Env)
    requires !Encodable(v)
    ensures var r := CoerceAll(v, subs, env);
            !Encodable(r) && (v.Obj? <==> r.Obj?) && (v.Arr? <==> r.Arr?) && (v.Opaque? ==> r == v)
    decreases subs, 4
  {
    if subs != [] {
      CoercionKeepsOpaque(v, subs[0], env);
      AllKeepsOpaque(Coerce(v, subs[0], env), subs[1..], env);
    }
  }

  lemma {:induction false} UnionKeepsOpaque(v: Json, subs: seq<Schema>, env: Env)
    requires !Encodable(v)
    ensures var r := CoerceUnion(v, subs, env);
            !Encodable(r) && (v.Obj? <==> r.Obj?) && (v.Arr? <==> r.Arr?) && (v.Opaque? ==> r == v)
    decreases subs, 4
  {
    if subs != [] {
      CoercionKeepsOpaque(v, subs[0], env);
      UnionKeepsOpaque(Coerce(v, subs[0], env), subs[1..], env);
    }
  }

  lemma {:induction false} InsideKeepsOpaque(v: Json, s: Schema, env: Env)
    requires !Encodable(v)
    ensures var r := CoerceInside(v, s, env);
            !Encodable(r) && (v.Obj? <==> r.Obj?) && (v.Arr? <==> r.Arr?) && (v.Opaque? ==> r == v)
    decreases s, 2
  {
    if v.Obj? && "object" in s.types {
      var k :| k in v.fields && !Encodable(v.fields[k]);
      SubSchemasAreSmaller(s, k, 0);
      if FieldSchema(s, k).Some? { CoercionKeepsOpaque(v.fields[k], FieldSchema(s, k).value, env); }
      assert !Encodable(CoerceInside(v, s, env).fields[k]);
    } else if v.Arr? && "array" in s.types {
      var k :| 0 <= k < |v.elements| && !Encodable(v.elements[k]);
      SubSchemasAreSmaller(s, "", k);
      if ElementSchema(s, k).Some? { CoercionKeepsOpaque(v.elements[k], ElementSchema(s, k).value, env); }
      assert !Encodable(CoerceInside(v, s, env).elements[k]);
    }
  }

  lemma SubSchemasAreSmaller(s: Schema, name: string, k: nat)
    ensures FieldSchema(s, name).Some? ==> FieldSchema(s, name).value < s
    ensures ElementSchema(s, k).Some? ==> ElementSchema(s, k).value < s
  {
  }

  datatype Verdict = Accepted(arguments: Json) | NotAnObject | Invalid

  /** What becomes of some arguments: without a schema they are taken as they are; otherwise
      they are coerced, and have to come out as an object that validates.  A schema that does
      not compile validates nothing. */
  function Judge(params: Option<Schema>, arguments: Json, env: Env): Verdict {
    if params.None? then Accepted(arguments)
    else
      var coerced := Coerce(arguments, params.value, env);
      if !coerced.Obj? then NotAnObject
      else if !env.validates(params.value, coerced) then Invalid
      else Accepted(coerced)
  }

  // ---- what coercion keeps -----------------------------------------------------------------------

  /** The types that null has a default for. */
  predicate HasDefault(typeName: string) {
    typeName == "string" || typeName == "number" || typeName == "integer" || typeName == "boolean"
  }

  predicate AnyDefault(types: seq<string>) {
    exists k :: 0 <= k < |types| && HasDefault(types[k])
  }

  /** No compositions and no unions, at any depth. */
  ghost predicate Simple(s: Schema)
    decreases s
  {
    && s.allOf == s.anyOf == s.oneOf == []
    && (forall k | 0 <= k < |s.properties| && s.properties[k].sub.Some? :: Simple(s.properties[k].sub.value))
    && (s.additional.Some? ==> Simple(s.additional.value))
    && (s.items.Uniform? ==> Simple(s.items.schema))
    && (s.items.Tuple? ==>
          forall k | 0 <= k < |s.items.members| && s.items.members[k].sub.Some? :: Simple(s.items.members[k].sub.value))
  }

  lemma SubSchemasAreSimple(s: Schema, name: string, k: nat)
    requires Simple(s)
    ensures FieldSchema(s, name).Some? ==> Simple(FieldSchema(s, name).value)
    ensures ElementSchema(s, k).Some? ==> Simple(ElementSchema(s, k).value)
  {
    var m := Find(s.properties, name);
    if m.Some? {
      var i :| 0 <= i < |s.properties| && s.properties[i] == m.value;
    }
  }

  /** A simple schema coerces by types and then inside. */
  lemma SimpleCoerce(v: Json, s: Schema, env: Env)
    requires Simple(s)
    ensures Coerce(v, s, env)
         == if v.Null? then FromNull(s.types, env) else CoerceInside(ToDeclared(v, s.types, env), s, env)
  {
  }

  lemma {:induction false} FirstMatchSettles(v: Json, types: seq<string>, env: Env)
    ensures FirstMatch(v, types, env) == v || MatchesAny(FirstMatch(v, types, env), types)
    ensures v.Obj? || v.Arr? || v.Opaque? ==> FirstMatch(v, types, env) == v
    ensures FirstMatch(v, types, env).Obj? || FirstMatch(v, types, env).Arr? ==> FirstMatch(v, types, env) == v
    ensures !MatchesAny(v, types) ==> (FirstMatch(v, types, env) == v <==> !Converts(v, types, env))
  {
    if types != [] {
      FirstMatchSettles(v, types[1..], env);
      var candidate := CoercePrimitive(v, types[0], env);
      if MatchesType(candidate, types[0]) {
        assert MatchesAny(candidate, types);
      } else {
        if k :| 0 <= k < |types[1..]| && MatchesType(FirstMatch(v, types[1..], env), types[1..][k]) {
          assert MatchesType(FirstMatch(v, types, env), types[k + 1]);
        }
        if k :| 0 <= k < |types[1..]| && MatchesType(v, types[1..][k]) { assert MatchesType(v, types[k + 1]); }
        assert Converts(v, types, env) <==> Converts(v, types[1..], env) by {
          forall k | 0 < k < |types| ensures types[1..][k - 1] == types[k] {}
        }
      }
    }
  }

  /** Some listed type can be made of the value. */
  predicate Converts(v: Json, types: seq<string>, env: Env) {
    exists k :: 0 <= k < |types| && MatchesType(CoercePrimitive(v, types[k], env), types[k])
  }

  lemma {:induction false} FromNullSettles(types: seq<string>, env: Env)
    ensures FromNull(types, env) != Null ==> MatchesAny(FromNull(types, env), types)
    ensures !FromNull(types, env).Obj? && !FromNull(types, env).Arr?
    ensures FromNull(types, env) == Null <==> !AnyDefault(types)
  {
    if types != [] {
      FromNullSettles(types[1..], env);
      var first := CoercePrimitive(Null, types[0], env);
      if first != Null {
        assert MatchesType(first, types[0]);
      } else {
        if k :| 0 <= k < |types[1..]| && MatchesType(FromNull(types[1..], env), types[1..][k]) {
          assert MatchesType(FromNull(types, env), types[k + 1]);
        }
        assert forall k | 0 < k < |types| :: types[1..][k - 1] == types[k];
      }
    }
  }

  // ---- which values stay as they are ---------------------------------------------------------------

  /** The value has a declared type, and so have the members the schema speaks of. */
  ghost predicate Conforms(v: Json, s: Schema)
    decreases s
  {
    && (s.types == [] || MatchesAny(v, s.types))
    && (v.Obj? && "object" in s.types ==>
          forall k | k in v.fields && FieldSchema(s, k).Some? :: Conforms(v.fields[k], FieldSchema(s, k).value))
    && (v.Arr? && "array" in s.types ==>
          forall k | 0 <= k < |v.elements| && ElementSchema(s, k).Some? ::
            Conforms(v.elements[k], ElementSchema(s, k).value))
  }

  /** No null where a listed type has a default, and nothing that has no declared type but can
      be made into one. */
  ghost predicate Stable(v: Json, s: Schema, env: Env)
    decreases s
  {
    && (if v.Null? then !AnyDefault(s.types) else MatchesAny(v, s.types) || !Converts(v, s.types, env))
    && (v.Obj? && "object" in s.types ==>
          forall k | k in v.fields && FieldSchema(s, k).Some? :: Stable(v.fields[k], FieldSchema(s, k).value, env))
    && (v.Arr? && "array" in s.types ==>
          forall k | 0 <= k < |v.elements| && ElementSchema(s, k).Some? ::
            Stable(v.elements[k], ElementSchema(s, k).value, env))
  }

  /** No null sits where a listed type has a default. */
  ghost predicate NullsStay(v: Json, s: Schema)
    decreases s
  {
    && (v.Null? ==> !AnyDefault(s.types))
    && (v.Obj? && "object" in s.types ==>
          forall k | k in v.fields && FieldSchema(s, k).Some? :: NullsStay(v.fields[k], FieldSchema(s, k).value))
    && (v.Arr? && "array" in s.types ==>
          forall k | 0 <= k < |v.elements| && ElementSchema(s, k).Some? ::
            NullsStay(v.elements[k], ElementSchema(s, k).value))
  }

  /** Coercion by a simple schema leaves exactly the stable values alone. */
  lemma {:induction false} UnchangedExactlyWhen(v: Json, s: Schema, env: Env)
    requires Simple(s)
    ensures Coerce(v, s, env) == v <==> Stable(v, s, env)
    decreases s
  {
    SimpleCoerce(v, s, env);
    FromNullSettles(s.types, env);
    FirstMatchSettles(v, s.types, env);
    if v.Obj? && "object" in s.types {
      ObjectMatches(v, s.types);
      var fields := CoerceInside(v, s, env).fields;
      forall k | k in v.fields
        ensures fields[k] == v.fields[k]
            <==> (FieldSchema(s, k).Some? ==> Stable(v.fields[k], FieldSchema(s, k).value, env))
      {
        SubSchemasAreSimple(s, k, 0);
        if FieldSchema(s, k).Some? { UnchangedExactlyWhen(v.fields[k], FieldSchema(s, k).value, env); }
      }
      assert fields == v.fields <==> forall k | k in v.fields :: fields[k] == v.fields[k];
    } else if v.Arr? && "array" in s.types {
      ArrayMatches(v, s.types);
      var elements := CoerceInside(v, s, env).elements;
      forall k | 0 <= k < |v.elements|
        ensures elements[k] == v.elements[k]
            <==> (ElementSchema(s, k).Some? ==> Stable(v.elements[k], ElementSchema(s, k).value, env))
      {
        SubSchemasAreSimple(s, "", k);
        if ElementSchema(s, k).Some? { UnchangedExactlyWhen(v.elements[k], ElementSchema(s, k).value, env); }
      }
      assert elements == v.elements <==> forall k | 0 <= k < |v.elements| :: elements[k] == v.elements[k];
    }
  }

  lemma ObjectMatches(v: Json, types: seq<string>)
    requires v.Obj? && "object" in types
    ensures MatchesAny(v, types)
  {
    var k :| 0 <= k < |types| && types[k] == "object";
    assert MatchesType(v, types[k]);
  }

  lemma ArrayMatches(v: Json, types: seq<string>)
    requires v.Arr? && "array" in types
    ensures MatchesAny(v, types)
  {
    var k :| 0 <= k < |types| && types[k] == "array";
    assert MatchesType(v, types[k]);
  }

  /** A value that conforms already is left alone exactly when no null in it sits where a
      listed type has a default. */
  lemma {:induction false} ConformingIsUnchangedExactlyWhen(v: Json, s: Schema, env: Env)
    requires Simple(s) && Conforms(v, s)
    ensures Coerce(v, s, env) == v <==> NullsStay(v, s)
  {
    UnchangedExactlyWhen(v, s, env);
    ConformingIsStable(v, s, env);
  }

  lemma {:induction false} ConformingIsStable(v: Json, s: Schema, env: Env)
    requires Simple(s) && Conforms(v, s)
    ensures Stable(v, s, env) <==> NullsStay(v, s)
    decreases s
  {
    if v.Obj? && "object" in s.types {
      forall k | k in v.fields && FieldSchema(s, k).Some?
        ensures Stable(v.fields[k], FieldSchema(s, k).value, env) <==> NullsStay(v.fields[k], FieldSchema(s, k).value)
      {
        SubSchemasAreSimple(s, k, 0);
        ConformingIsStable(v.fields[k], FieldSchema(s, k).value, env);
      }
    } else if v.Arr? && "array" in s.types {
      forall k | 0 <= k < |v.elements| && ElementSchema(s, k).Some?
        ensures Stable(v.elements[k], ElementSchema(s, k).value, env)
            <==> NullsStay(v.elements[k], ElementSchema(s, k).value)
      {
        SubSchemasAreSimple(s, "", k);
        ConformingIsStable(v.elements[k], ElementSchema(s, k).value, env);
      }
    }
  }

  // ---- when coercing twice is coercing once --------------------------------------------------------

  /** The type is listed in front of every null. */
  predicate BeforeNull(types: seq<string>, typeName: string) {
    types != [] && types[0] != "null" && (types[0] == typeName || BeforeNull(types[1..], typeName))
  }

  /** The empty string, zero or false becomes null, and null then another type's default. */
  predicate TurnsNullBack(types: seq<string>) {
    && "null" in types && AnyDefault(types)
    && (|| "string" !in types
        || ("number" !in types && "integer" !in types
            && !BeforeNull(types, "string") && !BeforeNull(types, "boolean"))
        || ("boolean" !in types && !BeforeNull(types, "string")
            && !BeforeNull(types, "number") && !BeforeNull(types, "integer")))
  }

  lemma {:induction false} MatchesMeans(v: Json, types: seq<string>)
    ensures v.Str? ==> (MatchesAny(v, types) <==> "string" in types)
    ensures v.Bool? ==> (MatchesAny(v, types) <==> "boolean" in types)
    ensures v == Num(0.0) ==> (MatchesAny(v, types) <==> "number" in types || "integer" in types)
  {
    forall k | 0 <= k < |types|
      ensures (v.Str? ==> (MatchesType(v, types[k]) <==> types[k] == "string"))
           && (v.Bool? ==> (MatchesType(v, types[k]) <==> types[k] == "boolean"))
           && (v == Num(0.0) ==> (MatchesType(v, types[k]) <==> types[k] == "number" || types[k] == "integer"))
    {
    }
  }

  /** Which values without a declared type become null. */
  lemma {:induction false} BecomesNullExactlyWhen(v: Json, types: seq<string>, env: Env)
    requires !v.Null? && !MatchesAny(v, types)
    ensures FirstMatch(v, types, env) == Null <==>
            "null" in types
            && (|| v == Str("")
                || (v == Num(0.0) && !BeforeNull(types, "string") && !BeforeNull(types, "boolean"))
                || (v == Bool(false) && !BeforeNull(types, "string")
                    && !BeforeNull(types, "number") && !BeforeNull(types, "integer")))
  {
    if types != [] {
      assert !MatchesType(v, types[0]);
      assert forall k | 0 <= k < |types[1..]| :: types[1..][k] == types[k + 1];
      assert !MatchesAny(v, types[1..]);
      assert types == [types[0]] + types[1..];
      BecomesNullExactlyWhen(v, types[1..], env);
    }
  }

  /** Over one type list, some value is coerced differently the second time exactly when the
      list turns null back. */
  lemma TwiceDiffersExactlyWhen(types: seq<string>, env: Env) returns (v: Json)
    ensures TurnsNullBack(types) ==>
              !v.Null? && !v.Obj? && !v.Arr? && ToDeclared(v, types, env) == Null && FromNull(types, env) != Null
    ensures !TurnsNullBack(types) ==>
              forall w: Json | !w.Null? && ToDeclared(w, types, env) == Null :: FromNull(types, env) == Null
  {
    FromNullSettles(types, env);
    MatchesMeans(Str(""), types);
    MatchesMeans(Num(0.0), types);
    MatchesMeans(Bool(false), types);
    v := if "string" !in types then Str("")
         else if "number" !in types && "integer" !in types
                 && !BeforeNull(types, "string") && !BeforeNull(types, "boolean") then Num(0.0)
         else Bool(false);
    if TurnsNullBack(types) {
      BecomesNullExactlyWhen(v, types, env);
    } else {
      forall w: Json | !w.Null? && ToDeclared(w, types, env) == Null ensures FromNull(types, env) == Null {
        BecomesNullExactlyWhen(w, types, env);
      }
    }
  }

  /** No type list that coercion can reach turns null back. */
  ghost predicate Settles(s: Schema)
    decreases s
  {
    && !TurnsNullBack(s.types)
    && ("object" in s.types ==>
          && (forall k | 0 <= k < |s.properties| && s.properties[k].sub.Some? :: Settles(s.properties[k].sub.value))
          && (s.additional.Some? ==> Settles(s.additional.value)))
    && ("array" in s.types ==>
          && (s.items.Uniform? ==> Settles(s.items.schema))
          && (s.items.Tuple? ==>
                forall k | 0 <= k < |s.items.members| && s.items.members[k].sub.Some? ::
                  Settles(s.items.members[k].sub.value)))
  }

  lemma SubSchemasSettle(s: Schema, name: string, k: nat)
    requires Settles(s)
    ensures "object" in s.types && FieldSchema(s, name).Some? ==> Settles(FieldSchema(s, name).value)
    ensures "array" in s.types && ElementSchema(s, k).Some? ==> Settles(ElementSchema(s, k).value)
  {
    var m := Find(s.properties, name);
    if m.Some? {
      var i :| 0 <= i < |s.properties| && s.properties[i] == m.value;
    }
  }

  lemma SameKindSameTypes(v: Json, w: Json, types: seq<string>)
    requires (v.Obj? && w.Obj?) || (v.Arr? && w.Arr?)
    ensures MatchesAny(v, types) == MatchesAny(w, types)
  {
    forall k | 0 <= k < |types| ensures MatchesType(v, types[k]) == MatchesType(w, types[k]) {}
  }

  lemma {:induction false} InsideIsIdempotent(v: Json, s: Schema, env: Env)
    requires Simple(s) && Settles(s)
    ensures CoerceInside(CoerceInside(v, s, env), s, env) == CoerceInside(v, s, env)
    decreases s, 0
  {
    var once := CoerceInside(v, s, env);
    if v.Obj? && "object" in s.types {
      forall k | k in v.fields
        ensures CoerceField(once.fields[k], k, s, env) == once.fields[k]
      {
        SubSchemasAreSimple(s, k, 0);
        SubSchemasSettle(s, k, 0);
        assert once.fields[k] == CoerceField(v.fields[k], k, s, env);
        if FieldSchema(s, k).Some? { CoercionIsIdempotent(v.fields[k], FieldSchema(s, k).value, env); }
      }
      assert CoerceInside(once, s, env).fields == once.fields;
    } else if v.Arr? && "array" in s.types {
      forall k | 0 <= k < |v.elements|
        ensures CoerceElement(once.elements[k], k, s, env) == once.elements[k]
      {
        SubSchemasAreSimple(s, "", k);
        SubSchemasSettle(s, "", k);
        assert once.elements[k] == CoerceElement(v.elements[k], k, s, env);
        if ElementSchema(s, k).Some? { CoercionIsIdempotent(v.elements[k], ElementSchema(s, k).value, env); }
      }
      assert CoerceInside(once, s, env).elements == once.elements;
    }
  }

  /** Under a simple schema that settles, coercing twice is coercing once. */
  lemma {:induction false} CoercionIsIdempotent(v: Json, s: Schema, env: Env)
    requires Simple(s) && Settles(s)
    ensures Coerce(Coerce(v, s, env), s, env) == Coerce(v, s, env)
    decreases s, 1
  {
    var once := Coerce(v, s, env);
    SimpleCoerce(v, s, env);
    SimpleCoerce(once, s, env);
    FromNullSettles(s.types, env);
    var _ := TwiceDiffersExactlyWhen(s.types, env);
    if !v.Null? {
      var declared := ToDeclared(v, s.types, env);
      FirstMatchSettles(v, s.types, env);
      InsideIsIdempotent(declared, s, env);
      if declared.Obj? || declared.Arr? {
        SameKindSameTypes(declared, once, s.types);
        FirstMatchSettles(once, s.types, env);
      }
    }
  }

  /** Under a simple schema, coercing twice is coercing once for every value exactly when the
      schema settles. */
  lemma IdempotentExactlyWhen(s: Schema, env: Env)
    requires Simple(s) && DistinctNames(s)
    ensures (forall v: Json :: Coerce(Coerce(v, s, env), s, env) == Coerce(v, s, env)) <==> Settles(s)
  {
    if Settles(s) {
      forall v: Json ensures Coerce(Coerce(v, s, env), s, env) == Coerce(v, s, env) {
        CoercionIsIdempotent(v, s, env);
      }
    } else {
      var v := UnsettledWitness(s, env);
    }
  }

  /** A schema that does not settle coerces some value differently the second time. */
  lemma {:induction false} UnsettledWitness(s: Schema, env: Env) returns (v: Json)
    requires Simple(s) && DistinctNames(s) && !Settles(s)
    ensures Coerce(Coerce(v, s, env), s, env) != Coerce(v, s, env)
    decreases s
  {
    hide Coerce;
    hide FromNull;
    hide ToDeclared;
    hide TurnsNullBack;
    v := TwiceDiffersExactlyWhen(s.types, env);
    if TurnsNullBack(s.types) {
      NullTurnsBack(v, s, env);
    } else if "object" in s.types
              && exists k :: 0 <= k < |s.properties| && s.properties[k].sub.Some?
                             && !Settles(s.properties[k].sub.value) {
      var k :| 0 <= k < |s.properties| && s.properties[k].sub.Some? && !Settles(s.properties[k].sub.value);
      var w := UnsettledWitness(s.properties[k].sub.value, env);
      FindIs(s.properties, k);
      v := InField(s, s.properties[k].name, w, env);
    } else if "object" in s.types && s.additional.Some? && !Settles(s.additional.value) {
      var w := UnsettledWitness(s.additional.value, env);
      v := InField(s, NewName(s.properties), w, env);
    } else if s.items.Uniform? {
      var w := UnsettledWitness(s.items.schema, env);
      v := InElement(s, 0, w, env);
    } else {
      var k :| 0 <= k < |s.items.members| && s.items.members[k].sub.Some? && !Settles(s.items.members[k].sub.value);
      var w := UnsettledWitness(s.items.members[k].sub.value, env);
      v := InElement(s, k, w, env);
    }
  }

  lemma NullTurnsBack(v: Json, s: Schema, env: Env)
    requires Simple(s) && !v.Null? && ToDeclared(v, s.types, env) == Null && FromNull(s.types, env) != Null
    ensures Coerce(Coerce(v, s, env), s, env) != Coerce(v, s, env)
  {
    SimpleCoerce(v, s, env);
  }

  lemma InField(s: Schema, name: string, w: Json, env: Env) returns (v: Json)
    requires Simple(s) && "object" in s.types && FieldSchema(s, name).Some?
    requires var sub := FieldSchema(s, name).value; Coerce(Coerce(w, sub, env), sub, env) != Coerce(w, sub, env)
    ensures Coerce(Coerce(v, s, env), s, env) != Coerce(v, s, env)
  {
    v := Obj(map[name := w]);
    var once := Coerce(v, s, env);
    ObjectMatches(v, s.types);
    SimpleCoerce(v, s, env);
    assert once.Obj? && name in once.fields && once.fields[name] == CoerceField(w, name, s, env);
    ObjectMatches(once, s.types);
    SimpleCoerce(once, s, env);
    assert Coerce(once, s, env).fields[name] == CoerceField(once.fields[name], name, s, env);
  }

  lemma InElement(s: Schema, k: nat, w: Json, env: Env) returns (v: Json)
    requires Simple(s) && "array" in s.types && ElementSchema(s, k).Some?
    requires var sub := ElementSchema(s, k).value; Coerce(Coerce(w, sub, env), sub, env) != Coerce(w, sub, env)
    ensures Coerce(Coerce(v, s, env), s, env) != Coerce(v, s, env)
  {
    v := Arr(seq(k + 1, _ => w));
    var once := Coerce(v, s, env);
    ArrayMatches(v, s.types);
    SimpleCoerce(v, s, env);
    assert once.Arr? && |once.elements| == k + 1 && once.elements[k] == CoerceElement(w, k, s, env);
    ArrayMatches(once, s.types);
    SimpleCoerce(once, s, env);
    assert Coerce(once, s, env).elements[k] == CoerceElement(once.elements[k], k, s, env);
  }

  /** A name that no member has. */
  function NewName(members: seq<Member>): (name: string)
    ensures Find(members, name).None? && forall k | 0 <= k < |members| :: |members[k].name| < |name|
  {
    if members == [] then "x"
    else
      var rest := NewName(members[1..]);
      assert forall k | 0 < k < |members| :: members[k] == members[1..][k - 1];
      LongerIsNew(members[1..], rest + members[0].name);
      rest + members[0].name
  }

  lemma LongerIsNew(members: seq<Member>, name: string)
    requires forall k | 0 <= k < |members| :: |members[k].name| < |name|
    ensures Find(members, name).None?
  {
  }

  /** Null is kept exactly when no listed type has a default for it, even where null is
      listed itself. */
  lemma NullIsKeptExactlyWhen(s: Schema, env: Env)
    ensures Coerce(Null, s, env) == Null <==> !AnyDefault(s.types)
  {
    FromNullSettles(s.types, env);
  }

  /** With null in front of the one other type that has a default, coercing twice differs from
      once; behind "string" it is harmless. */
  lemma NullBesideDefault(s: Schema, env: Env)
    requires s.types == ["null", "number"] && s.allOf == s.anyOf == s.oneOf == []
    ensures Coerce(Str(""), s, env) == Null && Coerce(Null, s, env) == Num(0.0)
    ensures TurnsNullBack(["null", "number"]) && TurnsNullBack(["null", "string"]) && !TurnsNullBack(["string", "null"])
  {
    assert HasDefault(["null", "number"][1]) && HasDefault(["null", "string"][1]) && "null" in ["null", "number"];
    assert ["null", "string"][0] == "null" && ["null", "number"][0] == "null" && ["string", "null"][0] == "string";
    assert BeforeNull(["string", "null"], "string");
    assert !MatchesType(Str(""), "null") && !MatchesType(Str(""), "number");
    assert s.types[0] == "null" && s.types[1..] == ["number"];
    assert CoercePrimitive(Str(""), "null", env) == Null;
    assert s.types[1..][0] == "number" && FromNull(s.types[1..], env) == Num(0.0);
  }

  // ---- unions --------------------------------------------------------------------------------------

  /** The branch takes the value as it is. */
  predicate Keeps(v: Json, branch: Schema, env: Env) {
    Coerce(v, branch, env) == v && env.validates(branch, v)
  }

  /** The branch takes the value, but changed. */
  predicate Rewrites(v: Json, branch: Schema, env: Env) {
    Coerce(v, branch, env) != v && env.validates(branch, Coerce(v, branch, env))
  }

  /** A value that some branch takes as it is comes out of the union unchanged exactly when
      every earlier branch that takes it changed stands behind one that takes it as it is. */
  lemma {:induction false} SurvivesUnionExactlyWhen(v: Json, subs: seq<Schema>, i: nat, env: Env)
    requires Encodable(v) && i < |subs| && Keeps(v, subs[i], env)
    ensures CoerceUnion(v, subs, env) == v
        <==> forall k | 0 <= k < i && Rewrites(v, subs[k], env) :: exists j :: 0 <= j < k && Keeps(v, subs[j], env)
  {
    var first := FirstTaken(v, subs, i, env);
    if Rewrites(v, subs[first], env) {
      assert first < i && !exists j :: 0 <= j < first && Keeps(v, subs[j], env);
    } else {
      forall k | 0 <= k < i && Rewrites(v, subs[k], env) ensures exists j :: 0 <= j < k && Keeps(v, subs[j], env) {
        assert first < k;
      }
    }
  }

  /** The first branch that takes the value decides. */
  lemma {:induction false} FirstTaken(v: Json, subs: seq<Schema>, i: nat, env: Env) returns (first: nat)
    requires Encodable(v) && i < |subs| && env.validates(subs[i], Coerce(v, subs[i], env))
    ensures first <= i && CoerceUnion(v, subs, env) == Coerce(v, subs[first], env)
    ensures env.validates(subs[first], Coerce(v, subs[first], env))
    ensures forall k | 0 <= k < first :: !Keeps(v, subs[k], env) && !Rewrites(v, subs[k], env)
  {
    if env.validates(subs[0], Coerce(v, subs[0], env)) {
      first := 0;
    } else {
      var rest := FirstTaken(v, subs[1..], i - 1, env);
      first := rest + 1;
      forall k | 0 <= k < first ensures !Keeps(v, subs[k], env) && !Rewrites(v, subs[k], env) {
        if k > 0 { assert subs[k] == subs[1..][k - 1]; }
      }
    }
  }

  /** A union takes its first branch that validates, even for a value that a later branch
      accepts as it is. */
  lemma UnionMayChangeValidValue(n: real, text: Schema, number: Schema, s: Schema, env: Env)
    requires s.types == [] && s.allOf == s.oneOf == [] && s.anyOf == [text, number]
    requires Simple(text) && text.types == ["string"] && Simple(number) && number.types == ["number"]
    requires env.validates(text, Str(env.show(n))) && env.validates(number, Num(n))
    ensures Keeps(Num(n), number, env) && Coerce(Num(n), s, env) == Str(env.show(n))
  {
    assert MatchesType(Num(n), number.types[0]);
    assert !MatchesType(Num(n), text.types[0]);
    SimpleCoerce(Num(n), text, env);
    assert Coerce(Num(n), text, env) == Str(env.show(n));
    assert CoerceUnion(Num(n), s.anyOf, env) == Str(env.show(n));
  }
}
