/** Coercing tool arguments in place.  Objects and arrays live at addresses of a memory and
    may be shared; coercion overwrites them, and it is a copy that keeps the caller's own
    arguments as they are. */
module ToolArguments {
  import opened Messages
  import opened Coercion

  datatype Value = Scalar(json: Json) | Ref(at: nat)

  datatype Cell = MapCell(fields: map<string, Value>) | SliceCell(elements: seq<Value>)

  /** Where a member stands in an object or array. */
  datatype Key = Name(name: string) | Index(index: nat)

  predicate Container(j: Json) {
    j.Obj? || j.Arr?
  }

  predicate HasKey(j: Json, key: Key) {
    match key
    case Name(name) => j.Obj? && name in j.fields
    case Index(k) => j.Arr? && k < |j.elements|
  }

  function Sub(j: Json, key: Key): (r: Json)
    requires HasKey(j, key)
    ensures r < j
  {
    match key
    case Name(name) => j.fields[name]
    case Index(k) => j.elements[k]
  }

  function WithSub(j: Json, key: Key, sub: Json): (r: Json)
    requires HasKey(j, key)
    ensures forall other :: HasKey(r, other) <==> HasKey(j, other)
    ensures forall other | HasKey(j, other) :: Sub(r, other) == if other == key then sub else Sub(j, other)
  {
    match key
    case Name(name) => Obj(j.fields[name := sub])
    case Index(k) => Arr(j.elements[k := sub])
  }

  predicate SameShape(c: Cell, j: Json) {
    || (c.MapCell? && j.Obj? && c.fields.Keys == j.fields.Keys)
    || (c.SliceCell? && j.Arr? && |c.elements| == |j.elements|)
  }

  function Kid(c: Cell, j: Json, key: Key): Value
    requires SameShape(c, j) && HasKey(j, key)
  {
    match key
    case Name(name) => c.fields[name]
    case Index(k) => c.elements[k]
  }

  function WithKid(c: Cell, j: Json, key: Key, v: Value): (r: Cell)
    requires SameShape(c, j) && HasKey(j, key)
    ensures SameShape(r, j)
    ensures forall other | HasKey(j, other) :: Kid(r, j, other) == if other == key then v else Kid(c, j, other)
  {
    match key
    case Name(name) => MapCell(c.fields[name := v])
    case Index(k) => SliceCell(c.elements[k := v])
  }

  // ---- what a value in memory says ---------------------------------------------------------

  ghost predicate Shows(cells: seq<Cell>, v: Value, j: Json)
    decreases j
  {
    if Container(j) then
      && v.Ref? && v.at < |cells| && SameShape(cells[v.at], j)
      && forall key | HasKey(j, key) :: Shows(cells, Kid(cells[v.at], j, key), Sub(j, key))
    else v == Scalar(j)
  }

  /** The addresses a value is spread over. */
  ghost predicate Owns(cells: seq<Cell>, v: Value, j: Json, a: nat)
    requires Shows(cells, v, j)
    decreases j
  {
    && Container(j) && a < |cells|
    && (a == v.at || exists key :: HasKey(j, key) && Owns(cells, Kid(cells[v.at], j, key), Sub(j, key), a))
  }

  ghost predicate Apart(cells: seq<Cell>, v: Value, j: Json, w: Value, k: Json)
    requires Shows(cells, v, j) && Shows(cells, w, k)
  {
    forall a: nat :: !(Owns(cells, v, j, a) && Owns(cells, w, k, a))
  }

  /** No part of the value is shared. */
  ghost predicate Tree(cells: seq<Cell>, v: Value, j: Json)
    decreases j
  {
    && Shows(cells, v, j)
    && (Container(j) ==>
          && (forall key | HasKey(j, key) ::
                var kid := Kid(cells[v.at], j, key);
                Tree(cells, kid, Sub(j, key)) && !Owns(cells, kid, Sub(j, key), v.at))
          && (forall key, other | HasKey(j, key) && HasKey(j, other) && key != other ::
                Apart(cells, Kid(cells[v.at], j, key), Sub(j, key), Kid(cells[v.at], j, other), Sub(j, other))))
  }

  ghost predicate SameWhereOwned(c0: seq<Cell>, v: Value, j: Json, c1: seq<Cell>)
    requires Shows(c0, v, j)
  {
    |c0| <= |c1| && forall a: nat | Owns(c0, v, j, a) :: c1[a] == c0[a]
  }

  /** What a value says depends on the addresses it owns only. */
  lemma {:induction false} ShowsSame(c0: seq<Cell>, v: Value, j: Json, c1: seq<Cell>)
    requires Shows(c0, v, j) && SameWhereOwned(c0, v, j, c1)
    ensures Shows(c1, v, j) && forall a: nat :: Owns(c1, v, j, a) <==> Owns(c0, v, j, a)
    decreases j
  {
    if Container(j) {
      assert Owns(c0, v, j, v.at);
      forall key | HasKey(j, key)
        ensures Shows(c1, Kid(c1[v.at], j, key), Sub(j, key))
        ensures forall a: nat ::
                  Owns(c1, Kid(c1[v.at], j, key), Sub(j, key), a) <==> Owns(c0, Kid(c0[v.at], j, key), Sub(j, key), a)
      {
        KidsAreOwned(c0, v, j, key);
        ShowsSame(c0, Kid(c0[v.at], j, key), Sub(j, key), c1);
      }
    }
  }

  lemma KidsAreOwned(cells: seq<Cell>, v: Value, j: Json, key: Key)
    requires Shows(cells, v, j) && HasKey(j, key)
    ensures forall a: nat | Owns(cells, Kid(cells[v.at], j, key), Sub(j, key), a) :: Owns(cells, v, j, a)
  {
  }

  lemma {:induction false} TreeSame(c0: seq<Cell>, v: Value, j: Json, c1: seq<Cell>)
    requires Tree(c0, v, j) && SameWhereOwned(c0, v, j, c1)
    ensures Tree(c1, v, j) && forall a: nat :: Owns(c1, v, j, a) <==> Owns(c0, v, j, a)
    decreases j
  {
    ShowsSame(c0, v, j, c1);
    if Container(j) {
      assert Owns(c0, v, j, v.at);
      forall key | HasKey(j, key)
        ensures Tree(c1, Kid(c1[v.at], j, key), Sub(j, key))
        ensures forall a: nat ::
                  Owns(c1, Kid(c1[v.at], j, key), Sub(j, key), a) <==> Owns(c0, Kid(c0[v.at], j, key), Sub(j, key), a)
      {
        KidsAreOwned(c0, v, j, key);
        TreeSame(c0, Kid(c0[v.at], j, key), Sub(j, key), c1);
      }
    }
  }

  /** A value in memory says one thing. */
  lemma {:induction false} ShowsOnce(cells: seq<Cell>, v: Value, j: Json, k: Json)
    requires Shows(cells, v, j) && Shows(cells, v, k)
    ensures j == k
    decreases j
  {
    if Container(j) {
      assert Container(k) && (j.Obj? <==> k.Obj?);
      forall key | HasKey(j, key) ensures HasKey(k, key) && Sub(j, key) == Sub(k, key) {
        ShowsOnce(cells, Kid(cells[v.at], j, key), Sub(j, key), Sub(k, key));
      }
      if j.Obj? {
        forall name | name in j.fields ensures j.fields[name] == k.fields[name] { assert HasKey(j, Name(name)); }
        assert j.fields == k.fields;
      } else {
        forall i | 0 <= i < |j.elements| ensures j.elements[i] == k.elements[i] { assert HasKey(j, Index(i)); }
        assert j.elements == k.elements;
      }
    }
  }

  // ---- changes of memory ---------------------------------------------------------------------

  /** A value became another: nothing it did not own was written, and what the other owns it
      owned itself or is new. */
  ghost predicate Became(c0: seq<Cell>, v: Value, j: Json, c1: seq<Cell>, w: Value, k: Json) {
    && Tree(c0, v, j) && Tree(c1, w, k) && |c0| <= |c1|
    && (forall a: nat | a < |c0| && !Owns(c0, v, j, a) :: c1[a] == c0[a])
    && (forall a: nat | a < |c0| && Owns(c1, w, k, a) :: Owns(c0, v, j, a))
  }

  lemma BecameAgain(c0: seq<Cell>, v: Value, j: Json, c1: seq<Cell>, w: Value, k: Json, c2: seq<Cell>, x: Value,
                    l: Json)
    requires Became(c0, v, j, c1, w, k) && Became(c1, w, k, c2, x, l)
    ensures Became(c0, v, j, c2, x, l)
  {
  }

  /** Something new takes the place of a value that is not touched. */
  lemma BecameNew(c0: seq<Cell>, v: Value, j: Json, c1: seq<Cell>, w: Value, k: Json)
    requires Tree(c0, v, j) && Tree(c1, w, k) && c0 <= c1 && forall a: nat | Owns(c1, w, k, a) :: |c0| <= a
    ensures Became(c0, v, j, c1, w, k) && Became(c0, v, j, c1, v, j)
  {
    TreeSame(c0, v, j, c1);
  }

  /** What a new value became leaves everything older alone. */
  lemma NewBecame(c0: seq<Cell>, c1: seq<Cell>, w: Value, k: Json, c2: seq<Cell>, x: Value, l: Json)
    requires c0 <= c1 && Became(c1, w, k, c2, x, l) && forall a: nat | Owns(c1, w, k, a) :: |c0| <= a
    ensures c0 <= c2 && Tree(c2, x, l) && forall a: nat | Owns(c2, x, l, a) :: |c0| <= a
  {
    forall a: nat | a < |c0| ensures c2[a] == c0[a] { assert !Owns(c1, w, k, a); }
  }

  /** The value is where it was. */
  ghost predicate Stays(c0: seq<Cell>, v: Value, j: Json, c1: seq<Cell>)
    requires Shows(c0, v, j)
  {
    Tree(c1, v, j) && forall a: nat :: Owns(c1, v, j, a) <==> Owns(c0, v, j, a)
  }

  /** A member became another value and is written back. */
  lemma MemberBecame(c0: seq<Cell>, v: Value, j: Json, key: Key, c1: seq<Cell>, w: Value, k: Json, c2: seq<Cell>)
    requires Tree(c0, v, j) && HasKey(j, key) && Became(c0, Kid(c0[v.at], j, key), Sub(j, key), c1, w, k)
    requires c2 == c1[v.at := WithKid(c0[v.at], j, key, w)]
    ensures c1[v.at] == c0[v.at] && Became(c0, v, j, c2, v, WithSub(j, key, k))
  {
    var kid := Kid(c0[v.at], j, key);
    assert !Owns(c0, kid, Sub(j, key), v.at);
    TreeSame(c1, w, k, c2);
    KidsAreOwned(c0, v, j, key);
    forall other | HasKey(j, other) && other != key ensures Stays(c0, Kid(c0[v.at], j, other), Sub(j, other), c2) {
      assert Apart(c0, kid, Sub(j, key), Kid(c0[v.at], j, other), Sub(j, other));
      TreeSame(c0, Kid(c0[v.at], j, other), Sub(j, other), c2);
    }
    MembersMakeTree(c0, v, j, key, w, k, c2);
    MembersOwn(c0, v, j, key, w, k, c2);
  }

  ghost predicate Replaced(c0: seq<Cell>, v: Value, j: Json, key: Key, w: Value, k: Json, c2: seq<Cell>) {
    && Tree(c0, v, j) && HasKey(j, key) && |c0| <= |c2|
    && c2[v.at] == WithKid(c0[v.at], j, key, w) && Tree(c2, w, k)
    && (forall a: nat | a < |c0| && Owns(c2, w, k, a) :: Owns(c0, Kid(c0[v.at], j, key), Sub(j, key), a))
    && (forall other | HasKey(j, other) && other != key :: Stays(c0, Kid(c0[v.at], j, other), Sub(j, other), c2))
  }

  lemma MembersShow(c0: seq<Cell>, v: Value, j: Json, key: Key, w: Value, k: Json, c2: seq<Cell>)
    requires Replaced(c0, v, j, key, w, k, c2)
    ensures Shows(c2, v, WithSub(j, key, k))
    ensures forall other | HasKey(j, other) ::
              Kid(c2[v.at], WithSub(j, key, k), other) == if other == key then w else Kid(c0[v.at], j, other)
  {
  }

  lemma MembersMakeTree(c0: seq<Cell>, v: Value, j: Json, key: Key, w: Value, k: Json, c2: seq<Cell>)
    requires Replaced(c0, v, j, key, w, k, c2)
    ensures Tree(c2, v, WithSub(j, key, k))
  {
    hide WithSub;
    hide WithKid;
    var next := WithSub(j, key, k);
    MembersShow(c0, v, j, key, w, k, c2);
    forall one, other | HasKey(next, one) && HasKey(next, other) && one != other
      ensures Apart(c2, Kid(c2[v.at], next, one), Sub(next, one), Kid(c2[v.at], next, other), Sub(next, other))
    {
      assert Apart(c0, Kid(c0[v.at], j, one), Sub(j, one), Kid(c0[v.at], j, other), Sub(j, other));
      MemberOwnsBefore(c0, v, j, key, w, k, c2, one);
      MemberOwnsBefore(c0, v, j, key, w, k, c2, other);
    }
    forall other | HasKey(next, other)
      ensures Tree(c2, Kid(c2[v.at], next, other), Sub(next, other))
           && !Owns(c2, Kid(c2[v.at], next, other), Sub(next, other), v.at)
    {
      MemberOwnsBefore(c0, v, j, key, w, k, c2, other);
    }
  }

  /** What a member owns of the old memory it owned before; new addresses belong to the
      replaced one only. */
  lemma MemberOwnsBefore(c0: seq<Cell>, v: Value, j: Json, key: Key, w: Value, k: Json, c2: seq<Cell>, other: Key)
    requires Replaced(c0, v, j, key, w, k, c2) && HasKey(j, other)
    requires Shows(c2, v, WithSub(j, key, k))
    ensures var next := WithSub(j, key, k);
            var kid := Kid(c2[v.at], next, other);
            && Tree(c2, kid, Sub(next, other))
            && (forall a: nat | a < |c0| && Owns(c2, kid, Sub(next, other), a) ::
                  Owns(c0, Kid(c0[v.at], j, other), Sub(j, other), a))
            && (other != key ==> forall a: nat | Owns(c2, kid, Sub(next, other), a) :: a < |c0|)
  {
    MembersShow(c0, v, j, key, w, k, c2);
    if other != key { assert Stays(c0, Kid(c0[v.at], j, other), Sub(j, other), c2); }
  }

  lemma MembersOwn(c0: seq<Cell>, v: Value, j: Json, key: Key, w: Value, k: Json, c2: seq<Cell>)
    requires Replaced(c0, v, j, key, w, k, c2) && Shows(c2, v, WithSub(j, key, k))
    ensures forall a: nat | a < |c0| && Owns(c2, v, WithSub(j, key, k), a) :: Owns(c0, v, j, a)
  {
    var next := WithSub(j, key, k);
    forall a: nat | a < |c0| && Owns(c2, v, next, a) ensures Owns(c0, v, j, a) {
      if a != v.at {
        var other :| HasKey(next, other) && Owns(c2, Kid(c2[v.at], next, other), Sub(next, other), a);
        MemberOwnsBefore(c0, v, j, key, w, k, c2, other);
        KidsAreOwned(c0, v, j, other);
      }
    }
  }

  // ---- new values ----------------------------------------------------------------------------

  /** Members that share nothing with each other or with what is older than `base`. */
  ghost predicate Forest(cells: seq<Cell>, base: nat, values: map<Key, Value>, says: map<Key, Json>) {
    && values.Keys == says.Keys
    && (forall key | key in values ::
          && Tree(cells, values[key], says[key])
          && forall a: nat | Owns(cells, values[key], says[key], a) :: base <= a)
    && (forall key, other | key in values && other in values && key != other ::
          Apart(cells, values[key], says[key], values[other], says[other]))
  }

  /** A new value joins the others. */
  lemma ForestGrows(c0: seq<Cell>, base: nat, values: map<Key, Value>, says: map<Key, Json>, c1: seq<Cell>,
                    key: Key, w: Value, k: Json)
    requires base <= |c0| && Forest(c0, base, values, says) && key !in values && c0 <= c1
    requires Tree(c1, w, k) && forall a: nat | Owns(c1, w, k, a) :: |c0| <= a
    ensures Forest(c1, base, values[key := w], says[key := k])
  {
    forall other | other in values
      ensures Tree(c1, values[other], says[other])
      ensures forall a: nat :: Owns(c1, values[other], says[other], a) <==> Owns(c0, values[other], says[other], a)
    {
      TreeSame(c0, values[other], says[other], c1);
    }
  }

  /** The members make a new object or array. */
  lemma ForestMakesTree(cells: seq<Cell>, base: nat, values: map<Key, Value>, says: map<Key, Json>, c: Cell, j: Json)
    requires base <= |cells| && Forest(cells, base, values, says) && Container(j) && SameShape(c, j)
    requires forall key | HasKey(j, key) :: key in values && values[key] == Kid(c, j, key) && says[key] == Sub(j, key)
    ensures Tree(cells + [c], Ref(|cells|), j)
    ensures forall a: nat | Owns(cells + [c], Ref(|cells|), j, a) :: base <= a
  {
    var next := cells + [c];
    forall key | key in values
      ensures Tree(next, values[key], says[key])
      ensures forall a: nat :: Owns(next, values[key], says[key], a) <==> Owns(cells, values[key], says[key], a)
    {
      TreeSame(cells, values[key], says[key], next);
    }
  }

  lemma ScalarBecame(cells: seq<Cell>, j: Json, k: Json)
    requires !Container(j) && !Container(k)
    ensures Became(cells, Scalar(j), j, cells, Scalar(k), k)
  {
  }

  lemma ObjectCell(c0: seq<Cell>, v: Value, j: Json, c1: seq<Cell>, w: Value, k: Json)
    requires Became(c0, v, j, c1, w, k) && k.Obj?
    ensures Tree(c1, w, k) && w.Ref? && w.at < |c1|
    ensures c1[w.at].MapCell? && c1[w.at].fields.Keys == k.fields.Keys
  {
  }

  /** Some fields of an object are coerced. */
  ghost predicate Partly(now: Json, j: Json, done: set<string>, s: Schema, env: Env) {
    && now.Obj? && j.Obj? && now.fields.Keys == j.fields.Keys
    && forall k | k in j.fields ::
        now.fields[k] == if k in done then CoerceField(j.fields[k], k, s, env) else j.fields[k]
  }

  lemma OneMoreField(now: Json, j: Json, done: set<string>, name: string, s: Schema, env: Env, sub: Option<Schema>)
    requires Partly(now, j, done, s, env) && name !in done && FieldSchema(s, name) == sub
    ensures now.Obj?
    ensures Partly(if sub.Some? then WithCoerced(now, name, sub.value, env) else now, j, done + {name}, s, env)
  {
  }

  /** The object with one of its fields coerced, if it has it. */
  function WithCoerced(now: Json, name: string, sub: Schema, env: Env): (r: Json)
    requires now.Obj?
    ensures r.Obj?
  {
    if name in now.fields then Obj(now.fields[name := Coerce(now.fields[name], sub, env)]) else now
  }

  lemma AllFieldsCoerced(now: Json, j: Json, done: set<string>, s: Schema, env: Env)
    requires Partly(now, j, done, s, env) && "object" in s.types
    requires (done == Names(s.properties, |s.properties|) && s.additional.None?) || j.fields.Keys <= done
    ensures now == CoerceInside(j, s, env)
  {
    forall k | k in j.fields ensures now.fields[k] == CoerceField(j.fields[k], k, s, env) {
      if k !in done { OthersAreAdditional(j.fields[k], s, k, env); }
    }
    assert now.fields == CoerceInside(j, s, env).fields;
  }

  lemma NamesFind(s: Schema, i: nat)
    requires DistinctNames(s) && i < |s.properties|
    ensures FieldSchema(s, s.properties[i].name) == s.properties[i].sub
    ensures s.properties[i].sub.Some? ==> DistinctNames(s.properties[i].sub.value)
    ensures s.properties[i].name !in Names(s.properties, i)
    ensures Names(s.properties, i + 1) == Names(s.properties, i) + {s.properties[i].name}
  {
    FindIs(s.properties, i);
    NamesAre(s.properties, i, s.properties[i].name);
  }

  /** The names of the first `n` members. */
  function Names(members: seq<Member>, n: nat): set<string>
    requires n <= |members|
  {
    if n == 0 then {} else Names(members, n - 1) + {members[n - 1].name}
  }

  lemma {:induction false} NamesAre(members: seq<Member>, n: nat, name: string)
    requires n <= |members|
    ensures name in Names(members, n) <==> exists k :: 0 <= k < n && members[k].name == name
  {
    if n > 0 { NamesAre(members, n - 1, name); }
  }

  lemma OthersAreAdditional(v: Json, s: Schema, name: string, env: Env)
    requires name !in Names(s.properties, |s.properties|)
    ensures FieldSchema(s, name) == s.additional
    ensures CoerceField(v, name, s, env) == if s.additional.Some? then Coerce(v, s.additional.value, env) else v
  {
    NamesAre(s.properties, |s.properties|, name);
    FindNone(s.properties, name);
  }

  lemma AdditionalIsDistinct(s: Schema)
    requires DistinctNames(s)
    ensures s.additional.Some? ==> DistinctNames(s.additional.value)
  {
  }

  lemma StartsAs(c: seq<Cell>, v: Value, j: Json)
    requires Tree(c, v, j)
    ensures Became(c, v, j, c, v, j)
  {
  }

  // ---- coercion in place -----------------------------------------------------------------------

  datatype Answer = Accept(arguments: Value) | RejectKind | RejectInvalid

  class Memory {
    var cells: seq<Cell>

    constructor (cells: seq<Cell>)
      ensures this.cells == cells
    {
      this.cells := cells;
    }

    /** The walk over a value that an encoder or a validator makes. */
    method Read(v: Value, ghost j: Json) returns (r: Json)
      requires Shows(cells, v, j)
      ensures r == j
      decreases j
    {
      if v.Scalar? { return v.json; }
      match cells[v.at] {
        case MapCell(fields) =>
          var todo, read: map<string, Json> := fields.Keys, map[];
          while todo != {}
            invariant todo <= fields.Keys && read.Keys == fields.Keys - todo
            invariant forall key | key in read :: read[key] == j.fields[key]
            decreases |todo|
          {
            var key: string :| key in todo;
            assert HasKey(j, Name(key));
            var member := Read(fields[key], j.fields[key]);
            read, todo := read[key := member], todo - {key};
          }
          assert read == j.fields;
          return Obj(read);
        case SliceCell(elements) =>
          var read: seq<Json> := [];
          for i := 0 to |elements|
            invariant |read| == i && forall k | 0 <= k < i :: read[k] == j.elements[k]
          {
            assert HasKey(j, Index(i));
            var member := Read(elements[i], j.elements[i]);
            read := read + [member];
          }
          assert read == j.elements;
          return Arr(read);
      }
    }

    /** Decoding builds a value of new objects and arrays. */
    method Unmarshal(j: Json) returns (v: Value)
      modifies this
      ensures old(cells) <= cells && Tree(cells, v, j)
      ensures forall a: nat | Owns(cells, v, j, a) :: |old(cells)| <= a
      decreases j, 1
    {
      if j.Obj? {
        v := UnmarshalObject(j);
      } else if j.Arr? {
        v := UnmarshalArray(j);
      } else {
        v := Scalar(j);
      }
    }

    method UnmarshalObject(j: Json) returns (v: Value)
      requires j.Obj?
      modifies this
      ensures old(cells) <= cells && Tree(cells, v, j)
      ensures forall a: nat | Owns(cells, v, j, a) :: |old(cells)| <= a
      decreases j, 0
    {
      ghost var base, values: map<Key, Value>, says: map<Key, Json> := |cells|, map[], map[];
      assert Forest(cells, base, values, says);
      hide Forest;
      hide Tree;
      hide Owns;
      hide Shows;
      var todo, fields: map<string, Value> := j.fields.Keys, map[];
      while todo != {}
        invariant old(cells) <= cells && Forest(cells, base, values, says)
        invariant todo <= j.fields.Keys && fields.Keys == j.fields.Keys - todo
        invariant forall key :: key in values <==> key.Name? && key.name in fields
        invariant forall name | name in fields ::
                    values[Name(name)] == fields[name] && says[Name(name)] == j.fields[name]
        decreases |todo|
      {
        var name: string :| name in todo;
        ghost var before := cells;
        var member := Unmarshal(j.fields[name]);
        ForestGrows(before, base, values, says, cells, Name(name), member, j.fields[name]);
        values, says := values[Name(name) := member], says[Name(name) := j.fields[name]];
        fields, todo := fields[name := member], todo - {name};
      }
      ForestMakesTree(cells, base, values, says, MapCell(fields), j);
      v := Ref(|cells|);
      cells := cells + [MapCell(fields)];
    }

    method UnmarshalArray(j: Json) returns (v: Value)
      requires j.Arr?
      modifies this
      ensures old(cells) <= cells && Tree(cells, v, j)
      ensures forall a: nat | Owns(cells, v, j, a) :: |old(cells)| <= a
      decreases j, 0
    {
      ghost var base, values: map<Key, Value>, says: map<Key, Json> := |cells|, map[], map[];
      var elements: seq<Value> := [];
      for i := 0 to |j.elements|
        invariant old(cells) <= cells && Forest(cells, base, values, says) && |elements| == i
        invariant forall key :: key in values <==> key.Index? && key.index < i
        invariant forall k: nat | k < i :: values[Index(k)] == elements[k] && says[Index(k)] == j.elements[k]
      {
        ghost var before := cells;
        var member := Unmarshal(j.elements[i]);
        ForestGrows(before, base, values, says, cells, Index(i), member, j.elements[i]);
        values, says := values[Index(i) := member], says[Index(i) := j.elements[i]];
        elements := elements + [member];
      }
      ForestMakesTree(cells, base, values, says, SliceCell(elements), j);
      v := Ref(|cells|);
      cells := cells + [SliceCell(elements)];
    }

    /** A copy by encoding and decoding; the value itself when it cannot be encoded. */
    method DeepCloneValue(v: Value, ghost j: Json) returns (w: Value)
      requires Shows(cells, v, j)
      modifies this
      ensures old(cells) <= cells
      ensures Encodable(j) ==> Tree(cells, w, j) && forall a: nat | Owns(cells, w, j, a) :: |old(cells)| <= a
      ensures !Encodable(j) ==> w == v && cells == old(cells)
    {
      var text := Read(v, j);
      if !Encodable(text) { return v; }
      w := Unmarshal(text);
    }

    method CoerceWithSchema(value: Value, s: Schema, env: Env, ghost j: Json) returns (next: Value)
      requires DistinctNames(s) && Tree(cells, value, j)
      modifies this
      ensures Became(old(cells), value, j, cells, next, Coerce(j, s, env))
      ensures !Encodable(j) ==> next == value
      decreases s, 4
    {
      ghost var c0 := cells;
      if value == Scalar(Null) {
        var default := CoerceNull(s.types, env);
        FromNullSettles(s.types, env);
        ScalarBecame(cells, j, default);
        return Scalar(default);
      }
      next := value;
      ghost var now := j;
      for i := 0 to |s.allOf|
        invariant CoerceAll(now, s.allOf[i..], env) == CoerceAll(j, s.allOf, env)
        invariant Became(c0, value, j, cells, next, now)
        invariant !Encodable(j) ==> next == value && !Encodable(now)
      {
        ghost var c1, was, said := cells, next, now;
        next := CoerceWithSchema(next, s.allOf[i], env, now);
        now := Coerce(now, s.allOf[i], env);
        BecameAgain(c0, value, j, c1, was, said, cells, next, now);
        if !Encodable(j) { CoercionKeepsOpaque(said, s.allOf[i], env); }
      }
      ghost var c1, was := cells, next;
      next := CoerceWithUnionSchema(next, s, s.anyOf, env, now);
      ghost var any := CoerceUnion(now, s.anyOf, env);
      BecameAgain(c0, value, j, c1, was, now, cells, next, any);
      ghost var c2, mid := cells, next;
      next := CoerceWithUnionSchema(next, s, s.oneOf, env, any);
      ghost var one := CoerceUnion(any, s.oneOf, env);
      BecameAgain(c0, value, j, c2, mid, any, cells, next, one);
      if !Encodable(j) {
        UnionKeepsOpaque(now, s.anyOf, env);
        UnionKeepsOpaque(any, s.oneOf, env);
      }
      ghost var c3, last := cells, next;
      next := CoerceOwn(next, s, env, one);
      BecameAgain(c0, value, j, c3, last, one, cells, next, Coerce(j, s, env));
    }

    /** The schema's own types, and then the members. */
    method CoerceOwn(value: Value, s: Schema, env: Env, ghost j: Json) returns (next: Value)
      requires DistinctNames(s) && Tree(cells, value, j)
      modifies this
      ensures Became(old(cells), value, j, cells, next, CoerceInside(ToDeclared(j, s.types, env), s, env))
      ensures !Encodable(j) ==> next == value
      decreases s, 3
    {
      ghost var c0, declared := cells, ToDeclared(j, s.types, env);
      next := CoerceToType(value, s.types, env, j);
      ghost var typed := next;
      if "object" in s.types && next.Ref? && cells[next.at].MapCell? {
        ApplyObjectCoercion(next, s, env, declared);
        BecameAgain(c0, value, j, c0, typed, declared, cells, next, CoerceInside(declared, s, env));
      } else if "array" in s.types && next.Ref? && cells[next.at].SliceCell? {
        ApplyArrayCoercion(next, s, env, declared);
        BecameAgain(c0, value, j, c0, typed, declared, cells, next, CoerceInside(declared, s, env));
      }
    }

    method CoerceToType(value: Value, types: seq<string>, env: Env, ghost j: Json) returns (next: Value)
      requires Tree(cells, value, j)
      ensures Became(cells, value, j, cells, next, ToDeclared(j, types, env))
      ensures !Encodable(j) ==> next == value
    {
      FirstMatchSettles(j, types, env);
      if value.Ref? { return value; }
      var json := CoerceToDeclared(value.json, types, env);
      ScalarBecame(cells, j, json);
      return Scalar(json);
    }

    method CoerceWithUnionSchema(value: Value, s: Schema, subs: seq<Schema>, env: Env, ghost j: Json)
      returns (next: Value)
      requires DistinctNames(s) && (subs == s.anyOf || subs == s.oneOf) && Tree(cells, value, j)
      modifies this
      ensures Became(old(cells), value, j, cells, next, CoerceUnion(j, subs, env))
      ensures !Encodable(j) ==> next == value
      decreases s, 2
    {
      ghost var c0, now := cells, j;
      for i := 0 to |subs|
        invariant CoerceUnion(now, subs[i..], env) == CoerceUnion(j, subs, env)
        invariant Became(c0, value, j, cells, value, now) && (Encodable(now) <==> Encodable(j))
      {
        ghost var c1, k := cells, Coerce(now, subs[i], env);
        var cloned := DeepCloneValue(value, now);
        ghost var c2 := cells;
        var coerced := CoerceWithSchema(cloned, subs[i], env, now);
        if Encodable(now) {
          NewBecame(c1, c2, cloned, now, cells, coerced, k);
          BecameNew(c1, value, now, cells, coerced, k);
          BecameAgain(c0, value, j, c1, value, now, cells, value, now);
        }
        BecameAgain(c0, value, j, c1, value, now, cells, coerced, k);
        var read := Read(coerced, k);
        if env.validates(subs[i], read) { return coerced; }
        if !Encodable(now) {
          CoercionKeepsOpaque(now, subs[i], env);
          now := k;
        }
      }
      return value;
    }

    /** A member is coerced and written back. */
    method CoerceMember(v: Value, key: Key, sub: Schema, env: Env, ghost j: Json)
      requires DistinctNames(sub) && Tree(cells, v, j) && HasKey(j, key)
      modifies this
      ensures Became(old(cells), v, j, cells, v, WithSub(j, key, Coerce(Sub(j, key), sub, env)))
      decreases sub, 5
    {
      ghost var c0 := cells;
      match key {
        case Name(name) =>
          var w := CoerceWithSchema(cells[v.at].fields[name], sub, env, Sub(j, key));
          ghost var c1 := cells;
          cells := cells[v.at := MapCell(cells[v.at].fields[name := w])];
          MemberBecame(c0, v, j, key, c1, w, Coerce(Sub(j, key), sub, env), c1[v.at := WithKid(c0[v.at], j, key, w)]);
        case Index(k) =>
          var w := CoerceWithSchema(cells[v.at].elements[k], sub, env, Sub(j, key));
          ghost var c1 := cells;
          cells := cells[v.at := SliceCell(cells[v.at].elements[k := w])];
          MemberBecame(c0, v, j, key, c1, w, Coerce(Sub(j, key), sub, env), c1[v.at := WithKid(c0[v.at], j, key, w)]);
      }
    }

    /** The declared properties first and then the additional ones, in whatever order the
        fields are walked. */
    method ApplyObjectCoercion(v: Value, s: Schema, env: Env, ghost j: Json)
      requires DistinctNames(s) && Tree(cells, v, j) && j.Obj? && "object" in s.types
      modifies this
      ensures Became(old(cells), v, j, cells, v, CoerceInside(j, s, env))
      decreases s, 2
    {
      hide *;
      ghost var c0 := cells;
      ghost var now;
      var definedKeys;
      definedKeys, now := CoerceDefined(v, s, env, j);
      if s.additional.Some? {
        ghost var c1 := cells;
        ObjectCell(c0, v, j, cells, v, now);
        CoerceAdditional(v, definedKeys, s, env, j, now);
        BecameAgain(c0, v, j, c1, v, now, cells, v, CoerceInside(j, s, env));
      } else {
        AllFieldsCoerced(now, j, definedKeys, s, env);
      }
    }

    method CoerceDefined(v: Value, s: Schema, env: Env, ghost j: Json)
      returns (definedKeys: set<string>, ghost now: Json)
      requires DistinctNames(s) && Tree(cells, v, j) && j.Obj?
      modifies this
      ensures Became(old(cells), v, j, cells, v, now) && now.Obj?
      ensures definedKeys == Names(s.properties, |s.properties|) && Partly(now, j, definedKeys, s, env)
      decreases s, 1
    {
      ghost var c0 := cells;
      now := j;
      StartsAs(cells, v, j);
      assert Names(s.properties, 0) == {} && Partly(j, j, {}, s, env);
      hide *;
      definedKeys := {};
      for i := 0 to |s.properties|
        invariant Became(c0, v, j, cells, v, now) && now.Obj?
        invariant definedKeys == Names(s.properties, i) && Partly(now, j, definedKeys, s, env)
      {
        var member := s.properties[i];
        NamesFind(s, i);
        OneMoreField(now, j, definedKeys, member.name, s, env, member.sub);
        if member.sub.Some? {
          now := CoerceIfThere(v, member.name, member.sub.value, env, c0, j, now);
        }
        definedKeys := definedKeys + {member.name};
      }
    }

    method CoerceIfThere(v: Value, name: string, sub: Schema, env: Env, ghost c0: seq<Cell>, ghost j: Json,
                         ghost now: Json)
      returns (ghost next: Json)
      requires DistinctNames(sub) && Became(c0, v, j, cells, v, now) && now.Obj?
      modifies this
      ensures next == WithCoerced(now, name, sub, env) && Became(c0, v, j, cells, v, next)
      decreases sub, 6
    {
      hide DistinctNames;
      hide Became;
      hide Coerce;
      ObjectCell(c0, v, j, cells, v, now);
      next := WithCoerced(now, name, sub, env);
      if name in cells[v.at].fields {
        ghost var c1 := cells;
        CoerceMember(v, Name(name), sub, env, now);
        BecameAgain(c0, v, j, c1, v, now, cells, v, next);
      }
    }

    method CoerceAdditional(v: Value, definedKeys: set<string>, s: Schema, env: Env, ghost j: Json, ghost before: Json)
      requires DistinctNames(s) && s.additional.Some? && "object" in s.types
      requires definedKeys == Names(s.properties, |s.properties|)
      requires Tree(cells, v, before) && Partly(before, j, definedKeys, s, env)
      modifies this
      ensures Became(old(cells), v, before, cells, v, CoerceInside(j, s, env))
      decreases s, 0
    {
      ghost var c0, now := cells, before;
      AdditionalIsDistinct(s);
      StartsAs(cells, v, before);
      ObjectCell(c0, v, before, cells, v, now);
      var todo := cells[v.at].fields.Keys;
      ghost var done := definedKeys;
      hide *;
      while todo != {}
        invariant Became(c0, v, before, cells, v, now) && now.Obj? && Partly(now, j, done, s, env)
        invariant definedKeys <= done && todo * done <= definedKeys && j.fields.Keys <= todo + done
        decreases |todo|
      {
        var key: string :| key in todo;
        todo := todo - {key};
        if key !in definedKeys {
          OthersAreAdditional(Null, s, key, env);
          OneMoreField(now, j, done, key, s, env, s.additional);
          now := CoerceIfThere(v, key, s.additional.value, env, c0, before, now);
          done := done + {key};
        }
      }
      AllFieldsCoerced(now, j, done, s, env);
    }

    method ApplyArrayCoercion(v: Value, s: Schema, env: Env, ghost j: Json)
      requires DistinctNames(s) && Tree(cells, v, j) && j.Arr? && "array" in s.types
      modifies this
      ensures Became(old(cells), v, j, cells, v, CoerceInside(j, s, env))
      decreases s, 1
    {
      ghost var c0, now := cells, j;
      var n := match s.items
               case NoItems => 0
               case Tuple(members) => |members|
               case Uniform(_) => |cells[v.at].elements|;
      if |cells[v.at].elements| < n { n := |cells[v.at].elements|; }
      for i := 0 to n
        invariant Became(c0, v, j, cells, v, now) && now.Arr? && |now.elements| == |j.elements|
        invariant forall k | 0 <= k < |j.elements| ::
                    now.elements[k] == if k < i then CoerceElement(j.elements[k], k, s, env) else j.elements[k]
      {
        var sub := match s.items
                   case NoItems => None
                   case Tuple(members) => members[i].sub
                   case Uniform(schema) => Some(schema);
        if sub.Some? {
          ghost var c1, was := cells, now;
          CoerceMember(v, Index(i), sub.value, env, now);
          now := WithSub(now, Index(i), Coerce(now.elements[i], sub.value, env));
          BecameAgain(c0, v, j, c1, v, was, cells, v, now);
        }
      }
      assert now.elements == CoerceInside(j, s, env).elements;
    }

    /** The verdict on a tool's arguments.  The caller's own are written only when they cannot
        be encoded; then they are what the coercion makes of them. */
    method ValidateToolArguments(params: Option<Schema>, args: Value, env: Env, ghost j: Json) returns (answer: Answer)
      requires (params.Some? ==> DistinctNames(params.value)) && Shows(cells, args, j)
      requires params.Some? && !Encodable(j) ==> Tree(cells, args, j)
      modifies this
      ensures Answers(cells, answer, Judge(params, j, env))
      ensures params.None? ==> cells == old(cells) && answer == Accept(args)
      ensures Encodable(j) ==> old(cells) <= cells
      ensures Encodable(j) && params.Some? && answer.Accept? ==>
                forall a: nat | Owns(cells, answer.arguments, Judge(params, j, env).arguments, a) :: |old(cells)| <= a
      ensures params.Some? && !Encodable(j) ==>
                Became(old(cells), args, j, cells, args, Coerce(j, params.value, env))
      ensures params.Some? && !Encodable(j) && answer.Accept? ==> answer.arguments == args
      ensures Shows(cells, args, j) <==> params.None? || Encodable(j) || Coerce(j, params.value, env) == j
    {
      if params.None? { return Accept(args); }
      ghost var c0, coerced := cells, Coerce(j, params.value, env);
      var copy := DeepCloneValue(args, j);
      ghost var c1 := cells;
      var next := CoerceWithSchema(copy, params.value, env, j);
      if Encodable(j) {
        NewBecame(c0, c1, copy, j, cells, next, coerced);
        ShowsSame(c0, args, j, cells);
      } else if Shows(cells, args, j) {
        ShowsOnce(cells, args, j, coerced);
      }
      if next.Scalar? || !cells[next.at].MapCell? { return RejectKind; }
      var read := Read(next, coerced);
      if !env.validates(params.value, read) { return RejectInvalid; }
      return Accept(next);
    }
  }

  /** The answer in memory says what the verdict is. */
  ghost predicate Answers(cells: seq<Cell>, answer: Answer, verdict: Verdict) {
    match verdict
    case Accepted(arguments) => answer.Accept? && Shows(cells, answer.arguments, arguments)
    case NotAnObject => answer.RejectKind?
    case Invalid => answer.RejectInvalid?
  }

  /** So under a simple schema, the caller still has what it had exactly when JSON can encode it
      or nothing in it needs coercing. */
  lemma CallerKeepsExactlyWhen(j: Json, s: Schema, env: Env)
    requires Simple(s)
    ensures Encodable(j) || Coerce(j, s, env) == j <==> Encodable(j) || Stable(j, s, env)
  {
    UnchangedExactlyWhen(j, s, env);
  }

  /** Arguments beside a value that cannot be encoded are coerced under the caller's hands. */
  lemma UnencodableIsChanged(s: Schema, number: Schema, env: Env)
    requires s.types == ["object"] && s.allOf == s.anyOf == s.oneOf == [] && s.additional.None?
    requires s.properties == [Member("a", Some(number))]
    requires number.types == ["number"] && number.allOf == number.anyOf == number.oneOf == []
    requires env.read("1") == Some(1.0)
    ensures var j := Obj(map["a" := Str("1"), "b" := Opaque(0)]);
            && !Encodable(j) && Coerce(j, s, env).Obj?
            && Coerce(j, s, env).fields == map["a" := Num(1.0), "b" := Opaque(0)]
  {
    var j := Obj(map["a" := Str("1"), "b" := Opaque(0)]);
    assert "b" in j.fields && !Encodable(j.fields["b"]);
    assert s.types[0] == "object" && MatchesType(j, s.types[0]);
    assert "object" in s.types;
    assert !MatchesType(Str("1"), number.types[0]);
    assert !MatchesAny(Str("1"), number.types);
    assert CoercePrimitive(Str("1"), number.types[0], env) == Num(1.0);
    assert FirstMatch(Str("1"), number.types, env) == Num(1.0);
    assert Coerce(Str("1"), number, env) == Num(1.0);
    assert Find(s.properties, "a") == Some(s.properties[0]);
    assert Find(s.properties, "b").None? by { assert s.properties[1..] == []; }
    assert CoerceField(Str("1"), "a", s, env) == Num(1.0) && CoerceField(Opaque(0), "b", s, env) == Opaque(0);
  }
}
