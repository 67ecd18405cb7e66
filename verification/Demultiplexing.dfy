/** What the accumulator of a chat-completions stream builds: every block is the
    concatenation of exactly its own fragments, in the order of first appearance. */
module Demultiplexing {
  import opened Messages
  import opened Completions

  // ---- the fragments grouped by what they name ------------------------------------------------

  /** What a fragment belongs to.  A call without index and id belongs to nothing else. */
  datatype Key = TextKey | ThinkingKey | IndexKey(index: int) | IDKey(id: string) | LoneKey(position: nat)

  /** The first id that came with the index. */
  function IndexID(fs: seq<Fragment>, index: int): string {
    if fs == [] then ""
    else
      var earlier, last := IndexID(fs[..|fs| - 1], index), fs[|fs| - 1];
      if earlier == "" && last.CallPart? && last.call.hasIndex && last.call.index == index then last.call.id
      else earlier
  }

  /** What introduced the id: an index that it is the first id of, or itself. */
  function Introducer(fs: seq<Fragment>, id: string): (k: Option<Key>)
    ensures k.Some? ==> k.value.IndexKey? || k == Some(IDKey(id))
  {
    if fs == [] then None
    else
      var before, last := fs[..|fs| - 1], fs[|fs| - 1];
      if Introducer(before, id).Some? then Introducer(before, id)
      else if !last.CallPart? || last.call.id != id then None
      else if !last.call.hasIndex then Some(IDKey(id))
      else if IndexID(before, last.call.index) == "" then Some(IndexKey(last.call.index))
      else None
  }

  function KeyOf(before: seq<Fragment>, f: Fragment): Option<Key> {
    match f
    case TextPart(_) => Some(TextKey)
    case ReasoningPart(_, _) => Some(ThinkingKey)
    case CallPart(d) => Some(CallKey(before, d))
    case Detail(_, _) => None
  }

  /** A delta with an id alone belongs to what introduced the id. */
  function CallKey(before: seq<Fragment>, d: CallDelta): (k: Key)
    ensures IsCallKey(k)
  {
    if d.hasIndex then IndexKey(d.index)
    else if d.id == "" then LoneKey(|before|)
    else
      var k := Introducer(before, d.id);
      if k.Some? then k.value else IDKey(d.id)
  }

  predicate IsCallKey(k: Key) {
    !k.TextKey? && !k.ThinkingKey?
  }

  /** The keys in the order of their first fragments. */
  function Keys(fs: seq<Fragment>): seq<Key> {
    if fs == [] then []
    else
      var before, key := Keys(fs[..|fs| - 1]), KeyOf(fs[..|fs| - 1], fs[|fs| - 1]);
      if key.None? || key.value in before then before else before + [key.value]
  }

  /** The fragments of a key, in order. */
  function Own(fs: seq<Fragment>, k: Key): seq<Fragment> {
    if fs == [] then []
    else
      var before := Own(fs[..|fs| - 1], k);
      if KeyOf(fs[..|fs| - 1], fs[|fs| - 1]) == Some(k) then before + [fs[|fs| - 1]] else before
  }

  function Payload(f: Fragment): string {
    match f
    case TextPart(text) => text
    case ReasoningPart(text, _) => text
    case CallPart(d) => d.args
    case Detail(_, _) => ""
  }

  function Joined(own: seq<Fragment>): string {
    if own == [] then "" else Joined(own[..|own| - 1]) + Payload(own[|own| - 1])
  }

  function FirstID(own: seq<Fragment>): string {
    if own == [] then ""
    else
      var before, last := FirstID(own[..|own| - 1]), own[|own| - 1];
      if before == "" && last.CallPart? then last.call.id else before
  }

  function FirstName(own: seq<Fragment>): string {
    if own == [] then ""
    else
      var before, last := FirstName(own[..|own| - 1]), own[|own| - 1];
      if before == "" && last.CallPart? then last.call.name else before
  }

  function FirstField(own: seq<Fragment>): string {
    if own != [] && own[0].ReasoningPart? then own[0].field else ""
  }

  /** The last encrypted detail that came for a call once its id was known. */
  function LastDetail(fs: seq<Fragment>, k: Key): string {
    if fs == [] then ""
    else
      var before, last := fs[..|fs| - 1], fs[|fs| - 1];
      if last.Detail? && Own(before, k) != [] && FirstID(Own(before, k)) == last.id then last.raw
      else LastDetail(before, k)
  }

  /** The block that the fragments of a key make. */
  function BlockOf(k: Key, own: seq<Fragment>, detail: string, env: Env): (b: Block)
    ensures b.ToolCall? <==> IsCallKey(k)
  {
    match k
    case TextKey => Text(Joined(own), "")
    case ThinkingKey => Thinking(Joined(own), Signature(FirstField(own), env), false)
    case _ => ToolCall(FirstID(own), FirstName(own), Decoded(Joined(own), env), detail)
  }

  function Grouped(fs: seq<Fragment>, env: Env): seq<Block> {
    var keys := Keys(fs);
    seq(|keys|, p requires 0 <= p < |keys| => BlockOf(keys[p], Own(fs, keys[p]), LastDetail(fs, keys[p]), env))
  }

  /** The key whose block was the last to be given the id. */
  function Holder(fs: seq<Fragment>, id: string): Option<Key> {
    if fs == [] then None
    else
      var before, last := fs[..|fs| - 1], fs[|fs| - 1];
      if Names(before, last, id) then KeyOf(before, last) else Holder(before, id)
  }

  /** The fragment gives its block the id. */
  predicate Names(before: seq<Fragment>, f: Fragment, id: string) {
    f.CallPart? && f.call.id == id != "" && FirstID(Own(before, CallKey(before, f.call))) == ""
  }

  /** An indexed delta finds its block when its index is known, and a new one when it has no
      id or no block bears it; one with an id alone when no block bears the id or it was
      last given to the block of what introduced it. */
  predicate Clear(fs: seq<Fragment>, d: CallDelta) {
    || d.id == "" || Holder(fs, d.id).None?
    || (if d.hasIndex then IndexKey(d.index) in Keys(fs) else Holder(fs, d.id) == Some(CallKey(fs, d)))
  }

  ghost predicate AllClear(fs: seq<Fragment>) {
    forall n | 0 <= n < |fs| && fs[n].CallPart? :: Clear(fs[..n], fs[n].call)
  }

  /** The block a call delta goes to. */
  function Goes(s: State, d: CallDelta): nat
    requires WellFormed(s)
  {
    if Lookup(s, d).Some? then Lookup(s, d).value else |s.content|
  }

  /** The block at `p` is that of the key, counted in the order of first fragments. */
  ghost predicate IsPlace(fs: seq<Fragment>, k: Key, p: nat) {
    p < |Keys(fs)| && Keys(fs)[p] == k
  }

  /** The `n`th fragment, if it is a call delta, goes to the block of its key. */
  ghost predicate Arrives(fs: seq<Fragment>, n: nat, env: Env)
    requires n < |fs|
  {
    fs[n].CallPart? ==>
      IsPlace(fs[..n + 1], CallKey(fs[..n], fs[n].call), Goes(StepAll(EMPTY, fs[..n], env), fs[n].call))
  }

  /** A call id is only ever used for one key. */
  ghost predicate DistinctIDs(fs: seq<Fragment>) {
    forall i, j | 0 <= i < j < |fs| && fs[i].CallPart? && fs[j].CallPart? && fs[i].call.id == fs[j].call.id != "" ::
      KeyOf(fs[..i], fs[i]) == KeyOf(fs[..j], fs[j])
  }

  // ---- one row for each key -----------------------------------------------------------------------

  datatype Row = Row(key: Key, own: seq<Fragment>, detail: string)

  function Find(rows: seq<Row>, k: Key): (p: Option<nat>)
    ensures p.Some? ==> p.value < |rows| && rows[p.value].key == k
    ensures p.None? ==> forall q | 0 <= q < |rows| :: rows[q].key != k
  {
    if rows == [] then None
    else if rows[|rows| - 1].key == k then Some(|rows| - 1)
    else Find(rows[..|rows| - 1], k)
  }

  function Add(rows: seq<Row>, f: Fragment, before: seq<Fragment>): seq<Row> {
    var key := KeyOf(before, f);
    if key.None? then Noted(rows, f)
    else
      var p := Find(rows, key.value);
      if p.Some? then rows[p.value := rows[p.value].(own := rows[p.value].own + [f])]
      else rows + [Row(key.value, [f], "")]
  }

  function NotedRow(r: Row, f: Fragment): Row {
    if f.Detail? && IsCallKey(r.key) && FirstID(r.own) == f.id then r.(detail := f.raw) else r
  }

  function Noted(rows: seq<Row>, f: Fragment): (noted: seq<Row>)
    ensures |noted| == |rows| && forall p | 0 <= p < |rows| :: noted[p] == NotedRow(rows[p], f)
  {
    seq(|rows|, p requires 0 <= p < |rows| => NotedRow(rows[p], f))
  }

  function Table(fs: seq<Fragment>): seq<Row> {
    if fs == [] then [] else Add(Table(fs[..|fs| - 1]), fs[|fs| - 1], fs[..|fs| - 1])
  }

  ghost predicate Unique(rows: seq<Row>) {
    forall p, q | 0 <= p < q < |rows| :: rows[p].key != rows[q].key
  }

  predicate Suits(f: Fragment, k: Key) {
    match k
    case TextKey => f.TextPart?
    case ThinkingKey => f.ReasoningPart?
    case IDKey(id) => f.CallPart? && f.call.id == id != ""
    case _ => f.CallPart?
  }

  ghost predicate Proper(r: Row) {
    r.own != [] && forall j | 0 <= j < |r.own| :: Suits(r.own[j], r.key)
  }

  lemma AddKeepsProper(rows: seq<Row>, f: Fragment, before: seq<Fragment>)
    requires Unique(rows) && forall p | 0 <= p < |rows| :: Proper(rows[p])
    ensures Unique(Add(rows, f, before))
    ensures forall p | 0 <= p < |Add(rows, f, before)| :: Proper(Add(rows, f, before)[p])
  {
  }

  lemma JoinedGrows(own: seq<Fragment>, f: Fragment)
    ensures Joined(own + [f]) == Joined(own) + Payload(f)
    ensures FirstID(own + [f]) == if FirstID(own) == "" && f.CallPart? then f.call.id else FirstID(own)
    ensures FirstName(own + [f]) == if FirstName(own) == "" && f.CallPart? then f.call.name else FirstName(own)
    ensures own != [] ==> FirstField(own + [f]) == FirstField(own)
  {
    assert (own + [f])[..|own|] == own;
  }

  lemma SoleFragment(f: Fragment)
    ensures Joined([f]) == Payload(f) && FirstField([f]) == if f.ReasoningPart? then f.field else ""
    ensures FirstID([f]) == (if f.CallPart? then f.call.id else "")
    ensures FirstName([f]) == (if f.CallPart? then f.call.name else "")
  {
    JoinedGrows([], f);
    assert [] + [f] == [f];
    assert "" + Payload(f) == Payload(f);
  }

  lemma {:induction false} IDKeyHasItsID(own: seq<Fragment>, id: string)
    requires own != [] && forall j | 0 <= j < |own| :: Suits(own[j], IDKey(id))
    ensures FirstID(own) == id
  {
    if |own| > 1 { IDKeyHasItsID(own[..|own| - 1], id); }
  }

  // ---- the accumulator mirrors the rows --------------------------------------------------------------

  ghost predicate PointersMirror(s: State, rows: seq<Row>) {
    && (if s.text.Some? then s.text.value < |rows| && rows[s.text.value].key == TextKey
        else forall p | 0 <= p < |rows| :: rows[p].key != TextKey)
    && (if s.thinking.Some? then s.thinking.value < |rows| && rows[s.thinking.value].key == ThinkingKey
        else forall p | 0 <= p < |rows| :: rows[p].key != ThinkingKey)
    && (forall i: int | i in s.byIndex :: s.byIndex[i] < |rows| && rows[s.byIndex[i]].key == IndexKey(i))
    && (forall p | 0 <= p < |rows| && rows[p].key.IndexKey? :: rows[p].key.index in s.byIndex)
    && (forall id: string | id in s.byID ::
          id != "" && s.byID[id] < |rows| && IsCallKey(rows[s.byID[id]].key) && FirstID(rows[s.byID[id]].own) == id)
    && (forall p | 0 <= p < |rows| && IsCallKey(rows[p].key) && FirstID(rows[p].own) != "" ::
        FirstID(rows[p].own) in s.byID)
  }

  ghost predicate BlocksMirror(s: State, rows: seq<Row>, env: Env) {
    && |s.content| == |s.partials| == |rows|
    && (forall p | 0 <= p < |rows| :: s.content[p] == BlockOf(rows[p].key, rows[p].own, rows[p].detail, env))
    && (forall p | 0 <= p < |rows| && IsCallKey(rows[p].key) :: s.partials[p] == Joined(rows[p].own))
  }

  ghost predicate Mirrors(s: State, rows: seq<Row>, env: Env) {
    && Unique(rows) && (forall p | 0 <= p < |rows| :: Proper(rows[p]))
    && BlocksMirror(s, rows, env) && PointersMirror(s, rows)
  }

  lemma BlocksReplaced(s: State, t: State, rows: seq<Row>, p: nat, r: Row, env: Env)
    requires BlocksMirror(s, rows, env) && p < |rows| && r.key == rows[p].key
    requires t.content == s.content[p := BlockOf(r.key, r.own, r.detail, env)]
    requires if IsCallKey(r.key) then t.partials == s.partials[p := Joined(r.own)] else t.partials == s.partials
    ensures BlocksMirror(t, rows[p := r], env)
  {
  }

  lemma BlocksAppended(s: State, t: State, rows: seq<Row>, r: Row, env: Env)
    requires BlocksMirror(s, rows, env)
    requires t.content == s.content + [BlockOf(r.key, r.own, r.detail, env)]
    requires t.partials == s.partials + [if IsCallKey(r.key) then Joined(r.own) else ""]
    ensures BlocksMirror(t, rows + [r], env)
  {
  }

  ghost predicate SamePointers(s: State, t: State) {
    t.text == s.text && t.thinking == s.thinking && t.byIndex == s.byIndex && t.byID == s.byID
  }

  lemma PointersKept(s: State, t: State, rows: seq<Row>, p: nat, r: Row)
    requires PointersMirror(s, rows) && SamePointers(s, t) && p < |rows| && r.key == rows[p].key
    requires IsCallKey(r.key) ==> FirstID(r.own) == FirstID(rows[p].own)
    ensures PointersMirror(t, rows[p := r])
  {
  }

  lemma PointersNamed(s: State, t: State, rows: seq<Row>, p: nat, r: Row)
    requires PointersMirror(s, rows) && p < |rows| && r.key == rows[p].key && IsCallKey(r.key)
    requires FirstID(rows[p].own) == "" != FirstID(r.own)
    requires t.text == s.text && t.thinking == s.thinking && t.byIndex == s.byIndex
      && t.byID == s.byID[FirstID(r.own) := p]
    ensures PointersMirror(t, rows[p := r])
  {
  }

  lemma PointersAppended(s: State, t: State, rows: seq<Row>, r: Row)
    requires PointersMirror(s, rows) && forall p | 0 <= p < |rows| :: rows[p].key != r.key
    requires t.text == if r.key == TextKey then Some(|rows|) else s.text
    requires t.thinking == if r.key == ThinkingKey then Some(|rows|) else s.thinking
    requires t.byIndex == if r.key.IndexKey? then s.byIndex[r.key.index := |rows|] else s.byIndex
    requires t.byID == if IsCallKey(r.key) && FirstID(r.own) != "" then s.byID[FirstID(r.own) := |rows|] else s.byID
    ensures PointersMirror(t, rows + [r])
  {
  }

  lemma SetLast<T>(content: seq<T>, b: T, c: T)
    ensures (content + [b])[|content| := c] == content + [c]
  {
  }

  lemma TextMirrors(s: State, rows: seq<Row>, text: string, before: seq<Fragment>, env: Env)
    requires WellFormed(s) && Mirrors(s, rows, env)
    ensures Mirrors(TextStep(s, text), Add(rows, TextPart(text), before), env)
  {
    var f, t, found := TextPart(text), TextStep(s, text), Find(rows, TextKey);
    AddKeepsProper(rows, f, before);
    if s.text.Some? {
      var p := s.text.value;
      var r := rows[p].(own := rows[p].own + [f]);
      assert found == s.text;
      JoinedGrows(rows[p].own, f);
      BlocksReplaced(s, t, rows, p, r, env);
      PointersKept(s, t, rows, p, r);
    } else {
      SoleFragment(f);
      SetLast(s.content, Text("", ""), Text("" + text, ""));
      assert "" + text == text;
      BlocksAppended(s, t, rows, Row(TextKey, [f], ""), env);
      PointersAppended(s, t, rows, Row(TextKey, [f], ""));
    }
  }

  lemma ReasoningMirrors(s: State, rows: seq<Row>, text: string, field: string, before: seq<Fragment>, env: Env)
    requires WellFormed(s) && Mirrors(s, rows, env)
    ensures Mirrors(ReasoningStep(s, text, field, env), Add(rows, ReasoningPart(text, field), before), env)
  {
    var f, t, found := ReasoningPart(text, field), ReasoningStep(s, text, field, env), Find(rows, ThinkingKey);
    AddKeepsProper(rows, f, before);
    if s.thinking.Some? {
      var p := s.thinking.value;
      var r := rows[p].(own := rows[p].own + [f]);
      assert found == s.thinking;
      JoinedGrows(rows[p].own, f);
      BlocksReplaced(s, t, rows, p, r, env);
      PointersKept(s, t, rows, p, r);
    } else {
      var signature := Signature(field, env);
      SoleFragment(f);
      SetLast(s.content, Thinking("", signature, false), Thinking("" + text, signature, false));
      assert "" + text == text;
      BlocksAppended(s, t, rows, Row(ThinkingKey, [f], ""), env);
      PointersAppended(s, t, rows, Row(ThinkingKey, [f], ""));
    }
  }

  /** The id table leads to the block that was given the id last. */
  ghost predicate HoldersMirror(s: State, rows: seq<Row>, fs: seq<Fragment>) {
    && (forall id: string :: id in s.byID <==> Holder(fs, id).Some?)
    && (forall id: string | id in s.byID :: s.byID[id] < |rows| && rows[s.byID[id]].key == Holder(fs, id).value)
  }

  lemma FoundIsUnique(rows: seq<Row>, k: Key, p: nat)
    requires Unique(rows) && p < |rows|
    ensures rows[p].key == k <==> Find(rows, k) == Some(p)
  {
  }

  lemma LookupCases(s: State, rows: seq<Row>, d: CallDelta, before: seq<Fragment>, holder: Option<Key>)
    requires WellFormed(s) && PointersMirror(s, rows) && Unique(rows) && forall p | 0 <= p < |rows| :: Proper(rows[p])
    requires d.id != "" ==> (d.id in s.byID <==> holder.Some?)
    requires d.id in s.byID ==> rows[s.byID[d.id]].key == holder.value
    requires forall p | 0 <= p < |rows| :: rows[p].key != LoneKey(|before|)
    requires !d.hasIndex && d.id != "" && Introducer(before, d.id).Some? && Introducer(before, d.id).value.IndexKey? ==>
               holder.Some?
    ensures Lookup(s, d) == Find(rows, CallKey(before, d)) <==>
            || d.id == "" || holder.None?
            || (if d.hasIndex then Find(rows, IndexKey(d.index)).Some? else holder == Some(CallKey(before, d)))
  {
    var key := CallKey(before, d);
    if Lookup(s, d).Some? { FoundIsUnique(rows, key, Lookup(s, d).value); }
    if key.IDKey? && Find(rows, key).Some? { IDKeyHasItsID(rows[Find(rows, key).value].own, d.id); }
  }

  /** A key is listed exactly when it has a row, and no row has a position to come. */
  lemma KeysHaveRows(fs: seq<Fragment>)
    ensures forall k: Key :: k in Keys(fs) <==> Find(Table(fs), k).Some?
    ensures forall p | 0 <= p < |Table(fs)| :: Table(fs)[p].key != LoneKey(|fs|)
    ensures Unique(Table(fs)) && |Keys(fs)| == |Table(fs)|
    ensures forall p | 0 <= p < |Table(fs)| :: Table(fs)[p].key == Keys(fs)[p]
  {
    TableIsGrouping(fs);
    forall p | 0 <= p < |Table(fs)| ensures Table(fs)[p].key != LoneKey(|fs|) { assert RowOf(Table(fs)[p], fs); }
    forall k: Key ensures k in Keys(fs) <==> Find(Table(fs), k).Some? {
      if k in Keys(fs) {
        var p :| 0 <= p < |Keys(fs)| && Keys(fs)[p] == k;
        assert Table(fs)[p].key == k;
      }
    }
  }

  /** Index and id lead to the block of the delta's key, or to none if there is none, exactly
      when the delta is clear. */
  lemma LookupFindsKeyExactlyWhen(s: State, fs: seq<Fragment>, d: CallDelta, env: Env)
    requires WellFormed(s) && Mirrors(s, Table(fs), env) && HoldersMirror(s, Table(fs), fs)
    ensures Lookup(s, d) == Find(Table(fs), CallKey(fs, d)) <==> Clear(fs, d)
  {
    KeysHaveRows(fs);
    hide BlocksMirror;
    hide Table;
    hide Keys;
    hide Holder;
    hide Lookup;
    hide Introducer;
    if d.id != "" && Introducer(fs, d.id).Some? && Introducer(fs, d.id).value.IndexKey? { IntroducedIsHeld(fs, d.id); }
    LookupCases(s, Table(fs), d, fs, Holder(fs, d.id));
  }

  /** What a call delta does to a block that is there. */
  lemma CallExtends(s: State, d: CallDelta, env: Env)
    requires WellFormed(s) && Lookup(s, d).Some?
    requires var p := Lookup(s, d).value; s.content[p].arguments == Decoded(s.partials[p], env)
    ensures var p, t := Lookup(s, d).value, CallStep(s, d, env);
            var b, grown := s.content[p], s.partials[p] + d.args;
            && t.content
                == s.content[p := ToolCall(if b.id == "" then d.id else b.id, if b.name == "" then d.name else b.name,
                                                    Decoded(grown, env), b.thoughtSignature)]
            && t.partials == s.partials[p := grown]
  {
    assert s.partials[Lookup(s, d).value] + "" == s.partials[Lookup(s, d).value];
  }

  lemma CallExtendsPointers(s: State, d: CallDelta, env: Env)
    requires WellFormed(s) && Lookup(s, d).Some?
    ensures var p, t := Lookup(s, d).value, CallStep(s, d, env);
            && t.text == s.text && t.thinking == s.thinking && t.byIndex == s.byIndex
            && t.byID == if s.content[p].id == "" && d.id != "" then s.byID[d.id := p] else s.byID
  {
  }

  /** What a call delta does when there is no block for it. */
  lemma CallStarts(s: State, d: CallDelta, env: Env)
    requires WellFormed(s) && Lookup(s, d).None?
    ensures var t := CallStep(s, d, env);
            && t.content == s.content + [ToolCall(d.id, d.name, Decoded(d.args, env), "")]
            && t.partials == s.partials + [d.args]
            && t.text == s.text && t.thinking == s.thinking
            && t.byIndex == (if d.hasIndex then s.byIndex[d.index := |s.content|] else s.byIndex)
            && t.byID == (if d.id != "" then s.byID[d.id := |s.content|] else s.byID)
  {
    var b := ToolCall(d.id, d.name, "{}", "");
    SetLast(s.content, b, b);
    SetLast(s.content, b, ToolCall(d.id, d.name, Decoded(d.args, env), ""));
    SetLast(s.partials, "", d.args);
    assert "" + d.args == d.args;
  }

  lemma ExtendMirrors(s: State, rows: seq<Row>, d: CallDelta, before: seq<Fragment>, env: Env)
    requires WellFormed(s) && Mirrors(s, rows, env)
    requires Lookup(s, d).Some? && Lookup(s, d) == Find(rows, CallKey(before, d))
    ensures Mirrors(CallStep(s, d, env), Add(rows, CallPart(d), before), env)
  {
    var p, f, t := Lookup(s, d).value, CallPart(d), CallStep(s, d, env);
    var r := rows[p].(own := rows[p].own + [f]);
    AddKeepsProper(rows, f, before);
    JoinedGrows(rows[p].own, f);
    CallExtends(s, d, env);
    CallExtendsPointers(s, d, env);
    BlocksReplaced(s, t, rows, p, r, env);
    if FirstID(r.own) == FirstID(rows[p].own) {
      PointersKept(s, t, rows, p, r);
    } else {
      PointersNamed(s, t, rows, p, r);
    }
  }

  lemma StartMirrors(s: State, rows: seq<Row>, d: CallDelta, before: seq<Fragment>, env: Env)
    requires WellFormed(s) && Mirrors(s, rows, env)
    requires Lookup(s, d).None? && Find(rows, CallKey(before, d)).None?
    requires CallKey(before, d).IndexKey? ==> d.hasIndex
    ensures Mirrors(CallStep(s, d, env), Add(rows, CallPart(d), before), env)
  {
    var f, t := CallPart(d), CallStep(s, d, env);
    var r := Row(CallKey(before, d), [f], "");
    hide Introducer;
    AddKeepsProper(rows, f, before);
    SoleFragment(f);
    CallStarts(s, d, env);
    BlocksAppended(s, t, rows, r, env);
    PointersAppended(s, t, rows, r);
  }

  lemma NotedBlocks(s: State, rows: seq<Row>, id: string, raw: string, env: Env)
    requires WellFormed(s) && BlocksMirror(s, rows, env)
    ensures BlocksMirror(DetailStep(s, id, raw), Noted(rows, Detail(id, raw)), env)
  {
    var t, noted := DetailStep(s, id, raw), Noted(rows, Detail(id, raw));
    forall p | 0 <= p < |rows|
      ensures t.content[p] == BlockOf(noted[p].key, noted[p].own, noted[p].detail, env)
    {
      assert t.content[p] == Signed(s.content[p], id, raw) && noted[p] == NotedRow(rows[p], Detail(id, raw));
    }
  }

  lemma NotedPointers(s: State, t: State, rows: seq<Row>, noted: seq<Row>)
    requires PointersMirror(s, rows) && SamePointers(s, t) && |noted| == |rows|
    requires forall p | 0 <= p < |rows| :: noted[p].key == rows[p].key && noted[p].own == rows[p].own
    ensures PointersMirror(t, noted)
  {
  }

  lemma DetailMirrors(s: State, rows: seq<Row>, id: string, raw: string, before: seq<Fragment>, env: Env)
    requires WellFormed(s) && Mirrors(s, rows, env)
    ensures Mirrors(DetailStep(s, id, raw), Add(rows, Detail(id, raw), before), env)
  {
    AddKeepsProper(rows, Detail(id, raw), before);
    NotedBlocks(s, rows, id, raw, env);
    NotedPointers(s, DetailStep(s, id, raw), rows, Noted(rows, Detail(id, raw)));
  }

  // ---- the rows are the grouping ---------------------------------------------------------------------

  ghost predicate RowOf(r: Row, fs: seq<Fragment>) {
    && Proper(r) && r.own == Own(fs, r.key) && (r.key.LoneKey? ==> r.key.position < |fs|)
    && (IsCallKey(r.key) ==> r.detail == LastDetail(fs, r.key))
  }

  lemma OwnGrows(fs: seq<Fragment>, f: Fragment, k: Key)
    ensures Own(fs + [f], k) == if KeyOf(fs, f) == Some(k) then Own(fs, k) + [f] else Own(fs, k)
    ensures LastDetail(fs + [f], k)
         == if f.Detail? && Own(fs, k) != [] && FirstID(Own(fs, k)) == f.id then f.raw else LastDetail(fs, k)
  {
    assert (fs + [f])[..|fs|] == fs;
  }

  lemma {:induction false} NothingOwnedNoDetail(fs: seq<Fragment>, k: Key)
    requires Own(fs, k) == []
    ensures LastDetail(fs, k) == ""
  {
    if fs != [] { NothingOwnedNoDetail(fs[..|fs| - 1], k); }
  }

  /** Where a fragment goes: to the row of its key, or to a new one. */
  lemma AddPlaces(rows: seq<Row>, f: Fragment, before: seq<Fragment>, p: nat)
    requires Unique(rows) && !f.Detail? && p < |Add(rows, f, before)|
    ensures var k, r := KeyOf(before, f).value, Add(rows, f, before)[p];
            if p == |rows| then r == Row(k, [f], "") && Find(rows, k).None?
            else if rows[p].key == k then r == rows[p].(own := rows[p].own + [f])
            else r == rows[p]
  {
  }

  lemma AddGives(rows: seq<Row>, fs: seq<Fragment>, f: Fragment, p: nat)
    requires Unique(rows) && forall q | 0 <= q < |rows| :: RowOf(rows[q], fs)
    requires !f.Detail? && Find(rows, KeyOf(fs, f).value).None? ==> Own(fs, KeyOf(fs, f).value) == []
    requires p < |Add(rows, f, fs)| && Proper(Add(rows, f, fs)[p])
    ensures RowOf(Add(rows, f, fs)[p], fs + [f])
  {
    var r := Add(rows, f, fs)[p];
    OwnGrows(fs, f, r.key);
    if f.Detail? {
      assert r == NotedRow(rows[p], f) && RowOf(rows[p], fs);
    } else {
      AddPlaces(rows, f, fs, p);
      if p < |rows| { assert RowOf(rows[p], fs); } else { NothingOwnedNoDetail(fs, r.key); }
    }
  }

  lemma {:induction false} TableIsGrouping(fs: seq<Fragment>)
    ensures var rows := Table(fs);
            && Unique(rows) && |rows| == |Keys(fs)| && (forall p | 0 <= p < |rows| :: rows[p].key == Keys(fs)[p])
            && (forall p | 0 <= p < |rows| :: RowOf(rows[p], fs))
            && (forall k: Key :: Find(rows, k).None? ==> Own(fs, k) == [])
  {
    if fs != [] {
      var before, f := fs[..|fs| - 1], fs[|fs| - 1];
      var rows, more := Table(before), Table(fs);
      TableIsGrouping(before);
      AddKeepsProper(rows, f, before);
      assert fs == before + [f];
      forall p | 0 <= p < |more| ensures RowOf(more[p], fs) { AddGives(rows, before, f, p); }
      forall k: Key | Find(more, k).None? ensures Own(fs, k) == [] {
        KeysKept(rows, f, before, k);
        OwnGrows(before, f, k);
      }
      KeysMatch(rows, Keys(before), f, before);
    }
  }

  lemma KeysKept(rows: seq<Row>, f: Fragment, before: seq<Fragment>, k: Key)
    requires Find(Add(rows, f, before), k).None?
    ensures Find(rows, k).None? && KeyOf(before, f) != Some(k)
  {
    assert forall p | 0 <= p < |rows| :: Add(rows, f, before)[p].key == rows[p].key;
  }

  lemma KeysMatch(rows: seq<Row>, keys: seq<Key>, f: Fragment, before: seq<Fragment>)
    requires |rows| == |keys| && forall p | 0 <= p < |rows| :: rows[p].key == keys[p]
    ensures var key, more := KeyOf(before, f), Add(rows, f, before);
            var after := if key.None? || key.value in keys then keys else keys + [key.value];
            |more| == |after| && forall p | 0 <= p < |more| :: more[p].key == after[p]
  {
    var key := KeyOf(before, f);
    if key.Some? {
      var p := Find(rows, key.value);
      if p.Some? { assert keys[p.value] == key.value; } else { assert key.value !in keys; }
    }
  }

  /** The id of a block was given by one of its own fragments. */
  lemma {:induction false} FirstIDIsOwn(fs: seq<Fragment>, k: Key) returns (i: nat)
    requires FirstID(Own(fs, k)) != ""
    ensures i < |fs| && fs[i].CallPart? && fs[i].call.id == FirstID(Own(fs, k)) && KeyOf(fs[..i], fs[i]) == Some(k)
  {
    var before, last := fs[..|fs| - 1], |fs| - 1;
    assert fs == before + [fs[last]];
    OwnGrows(before, fs[last], k);
    JoinedGrows(Own(before, k), fs[last]);
    if FirstID(Own(before, k)) != "" {
      i := FirstIDIsOwn(before, k);
      assert before[..i] == fs[..i];
    } else {
      i := last;
    }
  }

  lemma HolderGrows(fs: seq<Fragment>, f: Fragment, id: string)
    ensures Holder(fs + [f], id) == if Names(fs, f, id) then KeyOf(fs, f) else Holder(fs, id)
  {
    assert (fs + [f])[..|fs|] == fs;
  }

  /** An id has a holder exactly when some call block bears it. */
  lemma {:induction false} HolderMeans(fs: seq<Fragment>, id: string)
    requires id != ""
    ensures Holder(fs, id).Some? <==> exists k: Key :: IsCallKey(k) && FirstID(Own(fs, k)) == id
    ensures Holder(fs, id).Some? ==> IsCallKey(Holder(fs, id).value) && FirstID(Own(fs, Holder(fs, id).value)) == id
  {
    if fs == [] {
      forall k: Key ensures FirstID(Own(fs, k)) == "" {}
    } else {
      var before, f := fs[..|fs| - 1], fs[|fs| - 1];
      assert fs == before + [f];
      HolderMeans(before, id);
      HolderGrows(before, f, id);
      forall k: Key
        ensures FirstID(Own(fs, k)) == (if KeyOf(before, f) == Some(k) && FirstID(Own(before, k)) == "" && f.CallPart?
                                        then f.call.id else FirstID(Own(before, k)))
      {
        OwnGrows(before, f, k);
        JoinedGrows(Own(before, k), f);
      }
      if Names(before, f, id) { assert FirstID(Own(fs, CallKey(before, f.call))) == id; }
      if k: Key :| IsCallKey(k) && FirstID(Own(fs, k)) == id {
        assert Names(before, f, id) || FirstID(Own(before, k)) == id;
      }
      if k: Key :| IsCallKey(k) && FirstID(Own(before, k)) == id { assert FirstID(Own(fs, k)) == id; }
    }
  }

  /** The block of an index bears the first id that came with the index. */
  lemma {:induction false} IndexBearsID(fs: seq<Fragment>, index: int)
    ensures FirstID(Own(fs, IndexKey(index))) == IndexID(fs, index)
  {
    if fs != [] {
      var before, f := fs[..|fs| - 1], fs[|fs| - 1];
      assert fs == before + [f];
      OwnGrows(before, f, IndexKey(index));
      JoinedGrows(Own(before, IndexKey(index)), f);
      IndexBearsID(before, index);
      if f.CallPart? && f.call.id != "" { IntroducedIsFirst(before, f.call.id); }
    }
  }

  lemma {:induction false} IntroducedIsFirst(fs: seq<Fragment>, id: string)
    requires id != ""
    ensures var k := Introducer(fs, id); k.Some? && k.value.IndexKey? ==> IndexID(fs, k.value.index) == id
  {
    if fs != [] { IntroducedIsFirst(fs[..|fs| - 1], id); }
  }

  /** An id that an index introduced has a holder. */
  lemma IntroducedIsHeld(fs: seq<Fragment>, id: string)
    requires id != "" && Introducer(fs, id).Some? && Introducer(fs, id).value.IndexKey?
    ensures Holder(fs, id).Some?
  {
    IntroducedIsFirst(fs, id);
    IndexBearsID(fs, Introducer(fs, id).value.index);
    HolderMeans(fs, id);
  }

  // ---- the main results -------------------------------------------------------------------------------

  /** A step that names no block leaves the holders as they are. */
  lemma HoldersKept(s: State, t: State, fs: seq<Fragment>, f: Fragment)
    requires HoldersMirror(s, Table(fs), fs) && t.byID == s.byID && forall id: string :: !Names(fs, f, id)
    requires |Table(fs)| <= |Table(fs + [f])|
    requires forall p | 0 <= p < |Table(fs)| :: Table(fs + [f])[p].key == Table(fs)[p].key
    ensures HoldersMirror(t, Table(fs + [f]), fs + [f])
  {
    forall id: string ensures Holder(fs + [f], id) == Holder(fs, id) { HolderGrows(fs, f, id); }
  }

  /** A call delta that gives its block an id makes it the holder. */
  lemma HolderNamed(s: State, t: State, fs: seq<Fragment>, d: CallDelta, p: nat)
    requires HoldersMirror(s, Table(fs), fs) && t.byID == s.byID[d.id := p] && Names(fs, CallPart(d), d.id)
    requires |Table(fs)| <= |Table(fs + [CallPart(d)])| && p < |Table(fs + [CallPart(d)])|
    requires Table(fs + [CallPart(d)])[p].key == CallKey(fs, d)
    requires forall q | 0 <= q < |Table(fs)| :: Table(fs + [CallPart(d)])[q].key == Table(fs)[q].key
    ensures HoldersMirror(t, Table(fs + [CallPart(d)]), fs + [CallPart(d)])
  {
    forall id: string
      ensures Holder(fs + [CallPart(d)], id) == if id == d.id then Some(CallKey(fs, d)) else Holder(fs, id)
    {
      HolderGrows(fs, CallPart(d), id);
    }
  }

  lemma TableGrows(fs: seq<Fragment>, f: Fragment)
    ensures Table(fs + [f]) == Add(Table(fs), f, fs) && |Table(fs)| <= |Table(fs + [f])|
    ensures forall p | 0 <= p < |Table(fs)| :: Table(fs + [f])[p].key == Table(fs)[p].key
  {
    assert (fs + [f])[..|fs|] == fs;
  }

  ghost predicate OnCourse(s: State, fs: seq<Fragment>, env: Env) {
    Mirrors(s, Table(fs), env) && HoldersMirror(s, Table(fs), fs)
  }

  lemma CallHolders(s: State, fs: seq<Fragment>, d: CallDelta, env: Env)
    requires WellFormed(s) && OnCourse(s, fs, env) && Clear(fs, d)
    ensures HoldersMirror(CallStep(s, d, env), Table(fs + [CallPart(d)]), fs + [CallPart(d)])
  {
    var f, t, key := CallPart(d), CallStep(s, d, env), CallKey(fs, d);
    LookupFindsKeyExactlyWhen(s, fs, d, env);
    TableGrows(fs, f);
    CallGivesID(s, fs, d, env);
    assert Table(fs + [f])[Goes(s, d)].key == key by { GoesToKey(s, fs, d, env); }
    hide Table;
    hide CallStep;
    hide HoldersMirror;
    hide Mirrors;
    hide Clear;
    hide Own;
    hide FirstID;
    if d.id != "" && FirstID(Own(fs, key)) == "" {
      HolderNamed(s, t, fs, d, Goes(s, d));
    } else {
      HoldersKept(s, t, fs, f);
    }
  }

  /** A call delta enters its id for its block exactly when its key had none. */
  lemma CallGivesID(s: State, fs: seq<Fragment>, d: CallDelta, env: Env)
    requires WellFormed(s) && Mirrors(s, Table(fs), env) && Lookup(s, d) == Find(Table(fs), CallKey(fs, d))
    ensures CallStep(s, d, env).byID
         == if d.id != "" && FirstID(Own(fs, CallKey(fs, d))) == "" then s.byID[d.id := Goes(s, d)] else s.byID
  {
    var key := CallKey(fs, d);
    var found := Find(Table(fs), key);
    TableIsGrouping(fs);
    if found.Some? {
      CallExtendsPointers(s, d, env);
      assert RowOf(Table(fs)[found.value], fs);
      hide Table;
      hide CallStep;
      assert s.content[found.value].id == FirstID(Own(fs, key));
    } else {
      CallStarts(s, d, env);
      assert Own(fs, key) == [];
      hide Table;
      hide CallStep;
    }
  }

  lemma GoesToKey(s: State, fs: seq<Fragment>, d: CallDelta, env: Env)
    requires WellFormed(s) && Mirrors(s, Table(fs), env) && Lookup(s, d) == Find(Table(fs), CallKey(fs, d))
    ensures Goes(s, d) < |Table(fs + [CallPart(d)])| && Table(fs + [CallPart(d)])[Goes(s, d)].key == CallKey(fs, d)
  {
    TableGrows(fs, CallPart(d));
  }

  lemma OthersKeepIDs(s: State, f: Fragment, env: Env)
    requires WellFormed(s) && !f.CallPart?
    ensures Step(s, f, env).byID == s.byID
  {
  }

  /** Texts and details give no block an id. */
  lemma OtherHolders(s: State, fs: seq<Fragment>, f: Fragment, env: Env)
    requires WellFormed(s) && HoldersMirror(s, Table(fs), fs) && !f.CallPart?
    ensures HoldersMirror(Step(s, f, env), Table(fs + [f]), fs + [f])
  {
    hide Step, Table, HoldersMirror, WellFormed;
    TableGrows(fs, f);
    OthersKeepIDs(s, f, env);
    HoldersKept(s, Step(s, f, env), fs, f);
  }

  /** A delta that finds no block for its id alone has an id that no index introduced. */
  lemma UnheldStarts(s: State, fs: seq<Fragment>, d: CallDelta)
    requires WellFormed(s) && HoldersMirror(s, Table(fs), fs) && Lookup(s, d).None?
    ensures CallKey(fs, d).IndexKey? ==> d.hasIndex
  {
    if !d.hasIndex && CallKey(fs, d).IndexKey? { IntroducedIsHeld(fs, d.id); }
  }

  lemma CallMirrors(s: State, fs: seq<Fragment>, d: CallDelta, env: Env)
    requires WellFormed(s) && OnCourse(s, fs, env) && Clear(fs, d)
    ensures Mirrors(CallStep(s, d, env), Table(fs + [CallPart(d)]), env)
  {
    TableGrows(fs, CallPart(d));
    hide Table;
    hide Mirrors;
    hide CallStep;
    hide Lookup;
    LookupFindsKeyExactlyWhen(s, fs, d, env);
    if Lookup(s, d).Some? {
      ExtendMirrors(s, Table(fs), d, fs, env);
    } else {
      UnheldStarts(s, fs, d);
      StartMirrors(s, Table(fs), d, fs, env);
    }
  }

  lemma StepMirrors(s: State, fs: seq<Fragment>, f: Fragment, env: Env)
    requires WellFormed(s) && OnCourse(s, fs, env) && (f.CallPart? ==> Clear(fs, f.call))
    ensures OnCourse(Step(s, f, env), fs + [f], env)
  {
    TableGrows(fs, f);
    hide Table;
    hide Mirrors;
    hide HoldersMirror;
    hide CallStep;
    hide TextStep;
    hide ReasoningStep;
    hide DetailStep;
    if !f.CallPart? { OtherHolders(s, fs, f, env); }
    match f {
      case TextPart(text) => TextMirrors(s, Table(fs), text, fs, env);
      case ReasoningPart(text, field) => ReasoningMirrors(s, Table(fs), text, field, fs, env);
      case CallPart(d) =>
        CallMirrors(s, fs, d, env);
        CallHolders(s, fs, d, env);
      case Detail(id, raw) => DetailMirrors(s, Table(fs), id, raw, fs, env);
    }
  }

  lemma ClearPrefix(fs: seq<Fragment>, n: nat)
    requires n <= |fs|
    ensures AllClear(fs) ==> AllClear(fs[..n])
    ensures forall i | 0 <= i < n :: fs[..n][..i] == fs[..i]
  {
    forall i | 0 <= i < n ensures fs[..n][..i] == fs[..i] {}
  }

  /** As long as the deltas are clear the accumulator mirrors the table. */
  lemma {:induction false} StaysOnCourse(fs: seq<Fragment>, env: Env)
    requires AllClear(fs)
    ensures OnCourse(StepAll(EMPTY, fs, env), fs, env)
  {
    if fs != [] {
      var init, last := fs[..|fs| - 1], fs[|fs| - 1];
      assert fs == init + [last];
      ClearPrefix(fs, |init|);
      StaysOnCourse(init, env);
      StepMirrors(StepAll(EMPTY, init, env), init, last, env);
    }
  }

  /** In a mirrored state a delta goes to the block of its key exactly when it is clear. */
  lemma ArrivesExactlyWhenClear(s: State, fs: seq<Fragment>, d: CallDelta, env: Env)
    requires WellFormed(s) && OnCourse(s, fs, env)
    ensures IsPlace(fs + [CallPart(d)], CallKey(fs, d), Goes(s, d)) <==> Clear(fs, d)
  {
    LookupFindsKeyExactlyWhen(s, fs, d, env);
    KeysHaveRows(fs);
    KeysGrow(fs, CallPart(d));
    assert |s.content| == |Table(fs)|;
    hide Table;
    hide Keys;
    hide Clear;
    hide Mirrors;
    hide Lookup;
    PlaceIsFound(Table(fs), Keys(fs), CallKey(fs, d), Lookup(s, d), |s.content|);
  }

  lemma PlaceIsFound(rows: seq<Row>, keys: seq<Key>, k: Key, found: Option<nat>, n: nat)
    requires Unique(rows) && |keys| == |rows| == n && forall p | 0 <= p < n :: rows[p].key == keys[p]
    requires (k in keys <==> Find(rows, k).Some?) && (found.Some? ==> found.value < n)
    ensures var all := if k in keys then keys else keys + [k];
            var p := if found.Some? then found.value else n;
            found == Find(rows, k) <==> p < |all| && all[p] == k
  {
    if found.Some? { FoundIsUnique(rows, k, found.value); }
  }

  lemma {:induction false} ClearWhileArriving(fs: seq<Fragment>, n: nat, env: Env)
    requires n <= |fs| && forall k | 0 <= k < n :: Arrives(fs, k, env)
    ensures AllClear(fs[..n])
  {
    if n > 0 {
      ClearWhileArriving(fs, n - 1, env);
      if fs[n - 1].CallPart? { ClearIfArriving(fs, n - 1, env); }
      ClearPrefix(fs, n);
      ClearPrefix(fs, n - 1);
      hide Clear;
      forall k | 0 <= k < n && fs[..n][k].CallPart? ensures Clear(fs[..n][..k], fs[..n][k].call) {
        if k < n - 1 { assert fs[..n - 1][k] == fs[k] && Clear(fs[..n - 1][..k], fs[k].call); }
      }
    }
  }

  lemma ClearIfArriving(fs: seq<Fragment>, n: nat, env: Env)
    requires n < |fs| && AllClear(fs[..n]) && fs[n].CallPart?
    ensures Arrives(fs, n, env) <==> Clear(fs[..n], fs[n].call)
  {
    StaysOnCourse(fs[..n], env);
    assert fs[..n + 1] == fs[..n] + [fs[n]];
    hide OnCourse;
    hide Clear;
    hide IsPlace;
    ArrivesExactlyWhenClear(StepAll(EMPTY, fs[..n], env), fs[..n], fs[n].call, env);
  }

  /** Every delta of a stream goes to the block of its key exactly when every delta is clear. */
  lemma AllArriveExactlyWhenClear(fs: seq<Fragment>, env: Env)
    ensures (forall n | 0 <= n < |fs| :: Arrives(fs, n, env)) <==> AllClear(fs)
  {
    assert fs[..|fs|] == fs;
    hide Arrives;
    if forall n | 0 <= n < |fs| :: Arrives(fs, n, env) {
      ClearWhileArriving(fs, |fs|, env);
    }
    if AllClear(fs) {
      forall n | 0 <= n < |fs| ensures Arrives(fs, n, env) {
        if fs[n].CallPart? {
          ClearPrefix(fs, n);
          ClearIfArriving(fs, n, env);
        }
      }
    }
  }

  /** Where every id belongs to one key, as providers promise, every delta is clear. */
  lemma DistinctIDsAreClear(fs: seq<Fragment>)
    requires DistinctIDs(fs)
    ensures AllClear(fs)
  {
    forall n | 0 <= n < |fs| && fs[n].CallPart? ensures Clear(fs[..n], fs[n].call) {
      var before, d := fs[..n], fs[n].call;
      if d.id != "" && Holder(before, d.id).Some? {
        var k := Holder(before, d.id).value;
        HolderMeans(before, d.id);
        var i := FirstIDIsOwn(before, k);
        assert before[i] == fs[i] && before[..i] == fs[..i];
        OwnedIsKey(before, k);
      }
    }
  }

  /** A call that an index and an id begin may go on by its id alone. */
  lemma IDAloneContinues(f: CallDelta, g: CallDelta)
    requires f.hasIndex && !g.hasIndex && f.id == g.id != ""
    ensures CallKey([CallPart(f)], g) == IndexKey(f.index) && AllClear([CallPart(f), CallPart(g)])
  {
    var fs := [CallPart(f), CallPart(g)];
    assert [CallPart(f)][..0] == [] && fs[..0] == [] && fs[..1] == [CallPart(f)];
    assert IndexID([], f.index) == "" && Introducer([], f.id) == None;
    assert Introducer([CallPart(f)], f.id) == Some(IndexKey(f.index));
    DistinctIDsAreClear(fs);
  }

  lemma OwnedIsKey(fs: seq<Fragment>, k: Key)
    requires Own(fs, k) != []
    ensures k in Keys(fs)
  {
    TableIsGrouping(fs);
    if Find(Table(fs), k).Some? { assert Keys(fs)[Find(Table(fs), k).value] == k; }
  }

  lemma MirrorsShowGrouping(s: State, fs: seq<Fragment>, env: Env)
    requires Mirrors(s, Table(fs), env)
    ensures s.content == Grouped(fs, env)
  {
    var rows := Table(fs);
    TableIsGrouping(fs);
    forall p | 0 <= p < |rows| ensures s.content[p] == Grouped(fs, env)[p] { assert RowOf(rows[p], fs); }
  }

  /** Whatever the interleaving, when every delta goes to the block of its key the blocks are
      the groups of fragments with the same key, in the order of first appearance, each the
      concatenation of its own. */
  lemma Demultiplexes(fs: seq<Fragment>, env: Env)
    requires AllClear(fs)
    ensures StepAll(EMPTY, fs, env).content == Grouped(fs, env)
  {
    StaysOnCourse(fs, env);
    MirrorsShowGrouping(StepAll(EMPTY, fs, env), fs, env);
  }

  /** The finish reason is kept beside the blocks. */
  lemma {:induction false} MetadataCommutes(s: State, finish: Option<string>, fs: seq<Fragment>, env: Env)
    requires WellFormed(s)
    ensures WellFormed(Metadata(s, finish))
    ensures StepAll(Metadata(s, finish), fs, env) == Metadata(StepAll(s, fs, env), finish)
    decreases |fs|
  {
    if fs != [] {
      MetadataCommutes(s, finish, fs[..|fs| - 1], env);
      StepCommutes(StepAll(s, fs[..|fs| - 1], env), finish, fs[|fs| - 1], env);
      hide Step;
      hide Metadata;
      hide WellFormed;
      assert StepAll(Metadata(s, finish), fs, env)
          == Step(StepAll(Metadata(s, finish), fs[..|fs| - 1], env), fs[|fs| - 1], env);
    }
  }

  lemma StartCommutes(s: State, finish: Option<string>, d: CallDelta)
    requires WellFormed(s)
    ensures WellFormed(Metadata(s, finish)) && Lookup(Metadata(s, finish), d) == Lookup(s, d)
    ensures StartCall(Metadata(s, finish), d) == Metadata(StartCall(s, d), finish)
  {
    hide MapStopReason;
  }

  lemma IdentifyCommutes(s: State, finish: Option<string>, d: CallDelta, p: nat)
    requires WellFormed(s) && IsCall(s.content, p)
    ensures WellFormed(Metadata(s, finish))
    ensures Identify(Metadata(s, finish), p, d) == Metadata(Identify(s, p, d), finish)
  {
    hide MapStopReason;
  }

  lemma ExtendCommutes(s: State, finish: Option<string>, args: string, p: nat, env: Env)
    requires WellFormed(s) && IsCall(s.content, p)
    ensures WellFormed(Metadata(s, finish))
    ensures ExtendCall(Metadata(s, finish), p, args, env) == Metadata(ExtendCall(s, p, args, env), finish)
  {
    hide MapStopReason;
    hide Decoded;
  }

  lemma CallCommutes(s: State, finish: Option<string>, d: CallDelta, env: Env)
    requires WellFormed(s)
    ensures WellFormed(Metadata(s, finish))
      && CallStep(Metadata(s, finish), d, env) == Metadata(CallStep(s, d, env), finish)
  {
    var found := Lookup(s, d);
    var p := if found.Some? then found.value else |s.content|;
    var t := if found.Some? then s else StartCall(s, d);
    assert IsCall(t.content, p);
    StartCommutes(s, finish, d);
    IdentifyCommutes(t, finish, d, p);
    ExtendCommutes(Identify(t, p, d), finish, d.args, p, env);
    hide Metadata;
    hide StartCall;
    hide Identify;
    hide ExtendCall;
    hide Lookup;
  }

  lemma StepCommutes(s: State, finish: Option<string>, f: Fragment, env: Env)
    requires WellFormed(s)
    ensures WellFormed(Metadata(s, finish)) && Step(Metadata(s, finish), f, env) == Metadata(Step(s, f, env), finish)
  {
    if f.CallPart? {
      hide CallStep;
      CallCommutes(s, finish, f.call, env);
    }
  }

  /** The blocks of a stream are those of its fragments. */
  lemma {:induction false} StreamIsFragments(s: State, inputs: seq<Input>, env: Env, reason: string)
    requires WellFormed(s) && Clean(inputs)
    ensures Stream(s, inputs, env, reason).content == StepAll(s, AllFragments(inputs), env).content
    decreases |inputs|
  {
    if inputs != [] {
      var c, rest := inputs[0].chunk, AllFragments(inputs[1..]);
      var t := StepAll(s, Fragments(c), env);
      MetadataCommutes(s, c.finish, Fragments(c), env);
      StreamIsFragments(ApplyChunk(s, c, env), inputs[1..], env, reason);
      MetadataCommutes(t, c.finish, rest, env);
      StepAllConcat(s, Fragments(c), rest, env);
    }
  }

  /** The reply of a whole stream. */
  lemma StreamDemultiplexes(inputs: seq<Input>, env: Env, reason: string)
    requires Clean(inputs) && AllClear(AllFragments(inputs))
    ensures Stream(EMPTY, inputs, env, reason).content == Grouped(AllFragments(inputs), env)
  {
    StreamIsFragments(EMPTY, inputs, env, reason);
    Demultiplexes(AllFragments(inputs), env);
  }

  lemma FoundAddsNoBlock(s: State, d: CallDelta, env: Env)
    requires WellFormed(s) && d.id != "" && d.id in s.byID
    ensures |CallStep(s, d, env).content| == |s.content|
  {
  }

  lemma OneStep(s: State, f: Fragment, env: Env)
    requires WellFormed(s)
    ensures StepAll(s, [f], env) == Step(s, f, env)
  {
    assert [f][..0] == [];
  }

  lemma TwoKeys(f: CallDelta, g: CallDelta, env: Env)
    requires f.hasIndex && g.hasIndex && f.index != g.index
    ensures |Grouped([CallPart(f), CallPart(g)], env)| == 2
  {
    KeysGrow([], CallPart(f));
    KeysGrow([CallPart(f)], CallPart(g));
    assert [] + [CallPart(f)] == [CallPart(f)] && [CallPart(f)] + [CallPart(g)] == [CallPart(f), CallPart(g)];
  }

  lemma KeysGrow(fs: seq<Fragment>, f: Fragment)
    ensures var key := KeyOf(fs, f);
            Keys(fs + [f]) == if key.None? || key.value in Keys(fs) then Keys(fs) else Keys(fs) + [key.value]
  {
    assert (fs + [f])[..|fs|] == fs;
  }

  /** Without distinct ids the grouping is missed: two indices that share an id end up
      in one block. */
  lemma SharedIDMerges(f: CallDelta, g: CallDelta, env: Env)
    requires f.hasIndex && g.hasIndex && f.index != g.index && f.id == g.id != ""
    ensures |StepAll(EMPTY, [CallPart(f), CallPart(g)], env).content| == 1
    ensures StepAll(EMPTY, [CallPart(f), CallPart(g)], env).content != Grouped([CallPart(f), CallPart(g)], env)
  {
    var one := CallStep(EMPTY, f, env);
    OneStep(EMPTY, CallPart(f), env);
    CallStarts(EMPTY, f, env);
    StepAllConcat(EMPTY, [CallPart(f)], [CallPart(g)], env);
    OneStep(one, CallPart(g), env);
    FoundAddsNoBlock(one, g, env);
    assert [CallPart(f)] + [CallPart(g)] == [CallPart(f), CallPart(g)];
    TwoKeys(f, g, env);
  }

  lemma NextStep(fs: seq<Fragment>, f: Fragment, env: Env)
    ensures StepAll(EMPTY, fs + [f], env) == Step(StepAll(EMPTY, fs, env), f, env)
  {
    StepAllConcat(EMPTY, fs, [f], env);
    OneStep(StepAll(EMPTY, fs, env), f, env);
  }

  /** What one more call delta without arguments makes of the group it belongs to. */
  lemma GroupNext(fs: seq<Fragment>, d: CallDelta, k: Key, env: Env)
    requires d.args == "" && IsCallKey(k)
    ensures var more := fs + [CallPart(d)];
            var mine := CallKey(fs, d) == k;
            && Joined(Own(more, k)) == Joined(Own(fs, k)) && LastDetail(more, k) == LastDetail(fs, k)
            && FirstID(Own(more, k)) == (if mine && FirstID(Own(fs, k)) == "" then d.id else FirstID(Own(fs, k)))
            && FirstName(Own(more, k))
                == (if mine && FirstName(Own(fs, k)) == "" then d.name else FirstName(Own(fs, k)))
  {
    OwnGrows(fs, CallPart(d), k);
    JoinedGrows(Own(fs, k), CallPart(d));
    assert Joined(Own(fs, k)) + "" == Joined(Own(fs, k));
  }

  /** The deltas of the example below. */
  function Astray(n: nat): seq<Fragment> {
    if n == 0 then []
    else Astray(n - 1) + [CallPart(if n == 1 then CallDelta(true, 0, "a", "n", "")
                                   else if n == 3 then CallDelta(true, 1, "", "m", "")
                                   else CallDelta(true, 1, "a", "", ""))]
  }

  /** A delta may go astray unseen: it brings nothing of its own to the wrong block, and its
      key's block comes to the same id later. */
  lemma AstrayUnseen(env: Env)
    ensures !AllClear(Astray(4)) && StepAll(EMPTY, Astray(4), env).content == Grouped(Astray(4), env)
  {
    hide StepAll;
    hide Grouped;
    hide AllClear;
    AstrayContent(env);
    AstrayGrouped(env);
    AstrayIsUnclear();
  }

  lemma AstrayGrouped(env: Env)
    ensures Grouped(Astray(4), env) == [ToolCall("a", "n", "{}", ""), ToolCall("a", "m", "{}", "")]
  {
    hide Own;
    hide Keys;
    hide Joined;
    hide FirstID;
    hide FirstName;
    hide LastDetail;
    hide Astray;
    AstrayKeys();
    AstrayGroup(IndexKey(0), env);
    AstrayGroup(IndexKey(1), env);
  }

  lemma AstrayIsUnclear()
    ensures !AllClear(Astray(4))
  {
    AstrayKeys();
    AstrayHolder();
    hide Holder;
    hide Keys;
    assert |Astray(1)| == 1 && |Astray(2)| == 2 && |Astray(3)| == 3;
    assert Astray(4)[..1] == Astray(1) && Astray(4)[1] == CallPart(CallDelta(true, 1, "a", "", ""));
  }

  lemma AstrayHolder()
    ensures Holder(Astray(1), "a") == Some(IndexKey(0))
  {
    HolderGrows(Astray(0), CallPart(CallDelta(true, 0, "a", "n", "")), "a");
  }

  lemma AstrayGroup(k: Key, env: Env)
    requires k == IndexKey(0) || k == IndexKey(1)
    ensures Joined(Own(Astray(4), k)) == "" && LastDetail(Astray(4), k) == ""
    ensures FirstID(Own(Astray(4), k)) == "a" && FirstName(Own(Astray(4), k)) == if k == IndexKey(0) then "n" else "m"
  {
    hide Own;
    hide Joined;
    hide LastDetail;
    hide FirstID;
    hide FirstName;
    assert |Astray(0)| == 0 && |Astray(1)| == 1 && |Astray(2)| == 2 && |Astray(3)| == 3;
    NoGroup(k);
    GroupNext(Astray(0), CallDelta(true, 0, "a", "n", ""), k, env);
    GroupNext(Astray(1), CallDelta(true, 1, "a", "", ""), k, env);
    GroupNext(Astray(2), CallDelta(true, 1, "", "m", ""), k, env);
    GroupNext(Astray(3), CallDelta(true, 1, "a", "", ""), k, env);
  }

  lemma NoGroup(k: Key)
    ensures Joined(Own([], k)) == "" && LastDetail([], k) == "" && FirstID(Own([], k)) == ""
      && FirstName(Own([], k)) == ""
  {
  }

  lemma AstrayKeys()
    ensures Keys(Astray(1)) == [IndexKey(0)] && Keys(Astray(4)) == [IndexKey(0), IndexKey(1)]
  {
    assert |Astray(0)| == 0 && |Astray(1)| == 1 && |Astray(2)| == 2 && |Astray(3)| == 3;
    KeysGrow(Astray(0), CallPart(CallDelta(true, 0, "a", "n", "")));
    KeysGrow(Astray(1), CallPart(CallDelta(true, 1, "a", "", "")));
    KeysGrow(Astray(2), CallPart(CallDelta(true, 1, "", "m", "")));
    KeysGrow(Astray(3), CallPart(CallDelta(true, 1, "a", "", "")));
  }

  /** Where the accumulator of the example stands. */
  ghost predicate StandsAt(n: nat, content: seq<Block>, byIndex: map<int, nat>, byID: map<string, nat>, env: Env) {
    var s := StepAll(EMPTY, Astray(n), env);
    s.content == content && s.byIndex == byIndex && s.byID == byID
  }

  lemma AstrayFirst(env: Env)
    ensures StandsAt(1, [ToolCall("a", "n", "{}", "")], map[0 := 0], map["a" := 0], env)
  {
    NextStep(Astray(0), CallPart(CallDelta(true, 0, "a", "n", "")), env);
    CallStarts(EMPTY, CallDelta(true, 0, "a", "n", ""), env);
  }

  lemma AstrayThird(env: Env)
    ensures StandsAt(3, [ToolCall("a", "n", "{}", ""), ToolCall("", "m", "{}", "")], map[0 := 0][1 := 1],
                     map["a" := 0], env)
  {
    var x := ToolCall("a", "n", "{}", "");
    AstrayFirst(env);
    hide StandsAt;
    Extends(1, CallDelta(true, 1, "a", "", ""), 0, [x], map[0 := 0], map["a" := 0], env);
    assert [x][0 := x] == [x];
    Starts(2, CallDelta(true, 1, "", "m", ""), [x], map[0 := 0], map["a" := 0], env);
    assert [x] + [ToolCall("", "m", "{}", "")] == [x, ToolCall("", "m", "{}", "")];
  }

  lemma AstrayContent(env: Env)
    ensures StepAll(EMPTY, Astray(4), env).content == [ToolCall("a", "n", "{}", ""), ToolCall("a", "m", "{}", "")]
  {
    var x, y := ToolCall("a", "n", "{}", ""), ToolCall("", "m", "{}", "");
    AstrayThird(env);
    hide StepAll;
    Extends(3, CallDelta(true, 1, "a", "", ""), 1, [x, y], map[0 := 0][1 := 1], map["a" := 0], env);
  }

  lemma Starts(n: nat, d: CallDelta, content: seq<Block>, byIndex: map<int, nat>, byID: map<string, nat>, env: Env)
    requires StandsAt(n, content, byIndex, byID, env) && Astray(n + 1) == Astray(n) + [CallPart(d)]
    requires d.hasIndex && d.args == d.id == "" && d.index !in byIndex
    ensures StandsAt(n + 1, content + [ToolCall("", d.name, "{}", "")], byIndex[d.index := |content|], byID, env)
  {
    NextStep(Astray(n), CallPart(d), env);
    CallStarts(StepAll(EMPTY, Astray(n), env), d, env);
  }

  lemma Extends(n: nat, d: CallDelta, p: nat, content: seq<Block>, byIndex: map<int, nat>, byID: map<string, nat>,
                env: Env)
    requires StandsAt(n, content, byIndex, byID, env) && Astray(n + 1) == Astray(n) + [CallPart(d)]
    requires d.hasIndex && d.args == d.name == "" && d.id in byID && d.id != "" && p < |content| && content[p].ToolCall?
    requires p == if d.index in byIndex then byIndex[d.index] else byID[d.id]
    ensures StandsAt(n + 1, content[p := content[p].(id := if content[p].id == "" then d.id else content[p].id)],
                     byIndex,
                     if content[p].id == "" then byID[d.id := p] else byID, env)
  {
    NextStep(Astray(n), CallPart(d), env);
    EmptyArgs(StepAll(EMPTY, Astray(n), env), d, env);
  }

  /** What a call delta without arguments does to a block that is there. */
  lemma EmptyArgs(s: State, d: CallDelta, env: Env)
    requires WellFormed(s) && Lookup(s, d).Some? && d.args == ""
    ensures var p, t := Lookup(s, d).value, CallStep(s, d, env);
            var b := s.content[p];
            && t.content == s.content[p := b.(id := if b.id == "" then d.id else b.id,
                                              name := if b.name == "" then d.name else b.name)]
            && t.byIndex == s.byIndex && t.byID == if b.id == "" && d.id != "" then s.byID[d.id := p] else s.byID
  {
  }
}
