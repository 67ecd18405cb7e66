/** Which texts decode as JSON (RFC 8259), and that the stripper leaves them alone. */
module JsonGrammar {
  import opened Messages
  import opened JsonStrip

  // ---- strings, numbers and names ------------------------------------------------------------

  predicate IsHex(c: char) {
    '0' <= c <= '9' || 'a' <= c <= 'f' || 'A' <= c <= 'F'
  }

  /** The rest of a string literal, up to its closing quote. */
  predicate StringBody(s: string) {
    if s == "" then false
    else if s[0] == '"' then |s| == 1
    else if s[0] == '\\' then
      |s| >= 2
      && if s[1] == 'u' then |s| >= 6 && (forall k | 2 <= k < 6 :: IsHex(s[k])) && StringBody(s[6..])
         else s[1] in "\"\\/bfnrt" && StringBody(s[2..])
    else s[0] >= ' ' && StringBody(s[1..])
  }

  predicate IsString(t: Token) {
    t.Literal? && t.text != "" && t.text[0] == '"' && StringBody(t.text[1..])
  }

  predicate IsDigit(c: char) {
    '0' <= c <= '9'
  }

  /** How many digits a text begins with. */
  function Digits(s: string): (n: nat)
    ensures n <= |s|
  {
    if s != "" && IsDigit(s[0]) then 1 + Digits(s[1..]) else 0
  }

  predicate IsExponent(s: string) {
    s == "" || ((s[0] == 'e' || s[0] == 'E')
                && var digits := if |s| > 1 && (s[1] == '+' || s[1] == '-') then s[2..] else s[1..];
                   digits != "" && Digits(digits) == |digits|)
  }

  predicate IsFraction(s: string) {
    if s == "" || s[0] != '.' then IsExponent(s)
    else Digits(s[1..]) > 0 && IsExponent(s[1 + Digits(s[1..])..])
  }

  predicate IsNumber(s: string) {
    var unsigned := if s != "" && s[0] == '-' then s[1..] else s;
    var n := Digits(unsigned);
    n > 0 && (unsigned[0] == '0' ==> n == 1) && IsFraction(unsigned[n..])
  }

  // ---- values over the tokens of a text --------------------------------------------------------

  predicate IsBlankToken(t: Token) {
    t.Byte? && IsSpace(t.c)
  }

  function SkipSpace(ts: seq<Token>): (rest: seq<Token>)
    ensures |rest| <= |ts| && (rest != [] ==> !IsBlankToken(rest[0]))
  {
    if ts != [] && IsBlankToken(ts[0]) then SkipSpace(ts[1..]) else ts
  }

  /** A byte of a number or name. */
  predicate InScalar(t: Token) {
    t.Byte? && (IsDigit(t.c) || 'a' <= t.c <= 'z' || t.c in "E+-.")
  }

  function Scalar(ts: seq<Token>): (text: string)
    ensures |text| <= |ts| && forall k | 0 <= k < |text| :: InScalar(ts[k]) && ts[k] == Byte(text[k])
  {
    if ts != [] && InScalar(ts[0]) then [ts[0].c] + Scalar(ts[1..]) else ""
  }

  predicate IsScalar(text: string) {
    IsNumber(text) || text == "true" || text == "false" || text == "null"
  }

  /** What follows a value at the front of the tokens. */
  function AfterValue(ts: seq<Token>): (rest: Option<seq<Token>>)
    ensures rest.Some? ==> |rest.value| < |ts|
    decreases |ts|, 2
  {
    var s := SkipSpace(ts);
    if s == [] then None
    else if IsString(s[0]) then Some(s[1..])
    else if s[0] == Byte('{') then
      if NextIs(s[1..], '}') then Some(SkipSpace(s[1..])[1..]) else AfterMembers(s[1..])
    else if s[0] == Byte('[') then
      if NextIs(s[1..], ']') then Some(SkipSpace(s[1..])[1..]) else AfterElements(s[1..])
    else if IsScalar(Scalar(s)) && Scalar(s) != "" then Some(s[|Scalar(s)|..])
    else None
  }

  predicate NextIs(ts: seq<Token>, c: char) {
    SkipSpace(ts) != [] && SkipSpace(ts)[0] == Byte(c)
  }

  /** What follows the elements of an array and its closing bracket. */
  function AfterElements(ts: seq<Token>): (rest: Option<seq<Token>>)
    ensures rest.Some? ==> |rest.value| < |ts|
    decreases |ts|, 3
  {
    var one := AfterValue(ts);
    if one.None? then None
    else if NextIs(one.value, ']') then Some(SkipSpace(one.value)[1..])
    else if NextIs(one.value, ',') then AfterElements(SkipSpace(one.value)[1..])
    else None
  }

  /** What follows the members of an object and its closing brace. */
  function AfterMembers(ts: seq<Token>): (rest: Option<seq<Token>>)
    ensures rest.Some? ==> |rest.value| < |ts|
    decreases |ts|, 3
  {
    var name := SkipSpace(ts);
    if name == [] || !IsString(name[0]) || !NextIs(name[1..], ':') then None
    else
      var one := AfterValue(SkipSpace(name[1..])[1..]);
      if one.None? then None
      else if NextIs(one.value, '}') then Some(SkipSpace(one.value)[1..])
      else if NextIs(one.value, ',') then AfterMembers(SkipSpace(one.value)[1..])
      else None
  }

  /** The text is one JSON value and white space; the grammar knows no comments. */
  predicate Decodes(text: string) {
    var rest := AfterValue(Lex(text, false));
    rest.Some? && SkipSpace(rest.value) == []
  }

  // ---- what the grammar rules out ----------------------------------------------------------------

  /** A slash or a comment outside of string literals. */
  predicate HasSlash(ts: seq<Token>) {
    ts != [] && (ts[0].Comment? || ts[0] == Byte('/') || HasSlash(ts[1..]))
  }

  /** The tokens in front of the rest hold no slash, and no comma in front of a closer. */
  ghost predicate Clean(ts: seq<Token>, rest: seq<Token>) {
    (HasSlash(ts) <==> HasSlash(rest)) && (HasTrailing(ts) <==> HasTrailing(rest))
  }

  lemma {:induction false} SpaceIsClean(ts: seq<Token>)
    ensures Clean(ts, SkipSpace(ts)) && (NextIsCloser(ts) <==> NextIsCloser(SkipSpace(ts)))
  {
    if ts != [] && IsBlankToken(ts[0]) { SpaceIsClean(ts[1..]); }
  }

  lemma {:induction false} ScalarIsClean(ts: seq<Token>)
    ensures Clean(ts, ts[|Scalar(ts)|..])
  {
    if ts != [] && InScalar(ts[0]) {
      ScalarIsClean(ts[1..]);
      assert ts[1..][|Scalar(ts[1..])|..] == ts[|Scalar(ts)|..];
    }
  }

  /** A punctuation mark after white space. */
  lemma MarkIsClean(ts: seq<Token>, c: char)
    requires NextIs(ts, c) && c != '/' && c != ','
    ensures Clean(ts, SkipSpace(ts)[1..])
  {
    SpaceIsClean(ts);
  }

  lemma CommaIsClean(ts: seq<Token>)
    requires NextIs(ts, ',') && !NextIsCloser(SkipSpace(ts)[1..])
    ensures Clean(ts, SkipSpace(ts)[1..])
  {
    SpaceIsClean(ts);
  }

  lemma StringIsClean(ts: seq<Token>)
    requires SkipSpace(ts) != [] && IsString(SkipSpace(ts)[0])
    ensures Clean(ts, SkipSpace(ts)[1..]) && !NextIsCloser(ts)
  {
    SpaceIsClean(ts);
  }

  /** A value begins with no closer and is clean. */
  lemma {:induction false} ValueIsClean(ts: seq<Token>)
    requires AfterValue(ts).Some?
    ensures Clean(ts, AfterValue(ts).value) && !NextIsCloser(ts)
    decreases |ts|, 2
  {
    var s := SkipSpace(ts);
    SpaceIsClean(ts);
    if IsString(s[0]) {
    } else if s[0] == Byte('{') {
      if NextIs(s[1..], '}') { MarkIsClean(s[1..], '}'); } else { MembersAreClean(s[1..]); }
    } else if s[0] == Byte('[') {
      if NextIs(s[1..], ']') { MarkIsClean(s[1..], ']'); } else { ElementsAreClean(s[1..]); }
    } else {
      ScalarIsClean(s);
      assert InScalar(s[0]);
    }
  }

  lemma {:induction false} ElementsAreClean(ts: seq<Token>)
    requires AfterElements(ts).Some?
    ensures Clean(ts, AfterElements(ts).value) && !NextIsCloser(ts)
    decreases |ts|, 3
  {
    var one := AfterValue(ts).value;
    ValueIsClean(ts);
    if NextIs(one, ']') {
      MarkIsClean(one, ']');
    } else {
      ElementsAreClean(SkipSpace(one)[1..]);
      CommaIsClean(one);
    }
  }

  lemma {:induction false} MembersAreClean(ts: seq<Token>)
    requires AfterMembers(ts).Some?
    ensures Clean(ts, AfterMembers(ts).value) && !NextIsCloser(ts)
    decreases |ts|, 3
  {
    var name := SkipSpace(ts)[1..];
    var value := SkipSpace(name)[1..];
    var one := AfterValue(value).value;
    StringIsClean(ts);
    MarkIsClean(name, ':');
    ValueIsClean(value);
    if NextIs(one, '}') {
      MarkIsClean(one, '}');
    } else {
      MembersAreClean(SkipSpace(one)[1..]);
      CommaIsClean(one);
    }
  }

  /** Without slashes, a grammar with comments finds the same tokens. */
  lemma {:induction false} SlashlessLexes(s: string)
    requires !HasSlash(Lex(s, false))
    ensures Lex(s, true) == Lex(s, false)
    decreases |s|
  {
    if s != "" {
      var n := FirstLength(s, false);
      assert Lex(s, false)[0] == First(s, false) && Lex(s, false)[1..] == Lex(s[n..], false);
      assert s[0] == '"' || First(s, false) == Byte(s[0]);
      assert s[0] != '/';
      SlashlessLexes(s[n..]);
    }
  }

  lemma {:induction false} SlashlessIsCommentless(ts: seq<Token>)
    requires !HasSlash(ts)
    ensures !HasComment(ts)
  {
    if ts != [] { SlashlessIsCommentless(ts[1..]); }
  }

  /** Text that decodes is left alone by the stripper. */
  lemma DecodedIsLeftAlone(text: string)
    requires Decodes(text)
    ensures Stripped(text) == text
  {
    var ts := Lex(text, false);
    ValueIsClean(ts);
    SpaceIsClean(AfterValue(ts).value);
    SlashlessLexes(text);
    SlashlessIsCommentless(ts);
    StripIsIdentityExactlyWhen(text);
  }

  /** So the strip of the provider's parser leaves alone what the configuration's reader
      stripped and decoded. */
  lemma SecondStripChangesNothing(s: string)
    requires Decodes(Stripped(s))
    ensures Stripped(Stripped(s)) == Stripped(s)
  {
    DecodedIsLeftAlone(Stripped(s));
  }

  lemma EmptyArrayDecodes()
    ensures Decodes("[]")
  {
    var ts := [Byte('['), Byte(']')];
    assert ts[1..] == [Byte(']')] && ts[2..] == [];
    assert Render(ts[1..]) == "]" && Render(ts) == "[]";
    CanonicalLexes(ts, false);
    assert NextIs(ts[1..], ']');
  }
}
