/** The stripper that turns commented JSON with trailing commas into JSON, and what it
    does to the tokens of the text.  Text is a sequence of bytes, written as chars. */
module JsonStrip {

  // ---- tokens -------------------------------------------------------------------------

  /** A string literal or comment with all its bytes, or any other single byte. */
  datatype Token = Literal(text: string) | Comment(text: string) | Byte(c: char)

  function Text(t: Token): string {
    match t
    case Literal(text) => text
    case Comment(text) => text
    case Byte(c) => [c]
  }

  function Render(ts: seq<Token>): string {
    if ts == [] then [] else Text(ts[0]) + Render(ts[1..])
  }

  /** How many bytes the rest of a string literal takes, its closing quote included. */
  function BodyLength(s: string, escaped: bool): (n: nat)
    ensures n <= |s|
  {
    if s == [] then 0
    else if escaped then 1 + BodyLength(s[1..], false)
    else if s[0] == '\\' then 1 + BodyLength(s[1..], true)
    else if s[0] == '"' then 1
    else 1 + BodyLength(s[1..], false)
  }

  function LineLength(s: string): (n: nat)
    ensures n <= |s| && (n < |s| ==> s[n] == '\n')
    ensures forall k | 0 <= k < n :: s[k] != '\n'
  {
    if s == [] || s[0] == '\n' then 0 else 1 + LineLength(s[1..])
  }

  predicate StartsComment(s: string) {
    |s| >= 2 && s[0] == '/' && s[1] == '/'
  }

  /** The length of the first token. */
  function FirstLength(s: string, comments: bool): (n: nat)
    requires s != []
    ensures 1 <= n <= |s|
  {
    if s[0] == '"' then 1 + BodyLength(s[1..], false)
    else if comments && StartsComment(s) then 2 + LineLength(s[2..])
    else 1
  }

  function First(s: string, comments: bool): Token
    requires s != []
  {
    if s[0] == '"' then Literal(s[..FirstLength(s, comments)])
    else if comments && StartsComment(s) then Comment(s[..FirstLength(s, comments)])
    else Byte(s[0])
  }

  /** The tokens of a text, with or without line comments in its grammar. */
  function Lex(s: string, comments: bool): seq<Token> {
    if s == [] then [] else [First(s, comments)] + Lex(s[FirstLength(s, comments)..], comments)
  }

  predicate IsSpace(c: char) {
    c == ' ' || c == '\t' || c == '\n' || c == '\r'
  }

  predicate NextIsCloser(ts: seq<Token>) {
    ts != []
    && if ts[0].Byte? && IsSpace(ts[0].c) then NextIsCloser(ts[1..]) else ts[0] == Byte('}') || ts[0] == Byte(']')
  }

  function WithoutComments(ts: seq<Token>): seq<Token> {
    if ts == [] then []
    else if ts[0].Comment? then WithoutComments(ts[1..])
    else [ts[0]] + WithoutComments(ts[1..])
  }

  /** The tokens without each comma whose next token, after white space, is a closer. */
  function WithoutTrailing(ts: seq<Token>): seq<Token> {
    if ts == [] then []
    else if ts[0] == Byte(',') && NextIsCloser(ts[1..]) then WithoutTrailing(ts[1..])
    else [ts[0]] + WithoutTrailing(ts[1..])
  }

  // ---- the two passes ---------------------------------------------------------------------

  function CommentFree(s: string): string {
    Render(WithoutComments(Lex(s, true)))
  }

  function CommaFree(s: string): string {
    Render(WithoutTrailing(Lex(s, false)))
  }

  /** One byte of a string literal, as the flags of both loops follow it. */
  function Step(c: char, escaped: bool): (bool, bool) {
    if escaped then (true, false) else if c == '\\' then (true, true) else (c != '"', false)
  }

  /** What a loop still has to emit, by its flags. */
  function Rest(s: string, inString: bool, escaped: bool, outside: string -> string): string {
    if inString then s[..BodyLength(s, escaped)] + outside(s[BodyLength(s, escaped)..]) else outside(s)
  }

  lemma RestStep(s: string, escaped: bool, outside: string -> string)
    requires s != []
    ensures Rest(s, true, escaped, outside)
      == [s[0]] + Rest(s[1..], Step(s[0], escaped).0, Step(s[0], escaped).1, outside)
  {
    var n := BodyLength(s, escaped);
    var next := Step(s[0], escaped);
    assert n > 0 && s[..n] == [s[0]] + s[1..n] && s[1..][n - 1..] == s[n..];
    if next.0 {
      assert n == 1 + BodyLength(s[1..], next.1) && s[1..][..n - 1] == s[1..n];
      assert [s[0]] + s[1..n] + outside(s[n..]) == [s[0]] + (s[1..n] + outside(s[n..]));
    } else {
      assert n == 1 && s[1..n] == [];
    }
  }

  lemma LiteralRest(s: string, comments: bool, outside: string -> string)
    requires s != [] && s[0] == '"'
    ensures First(s, comments).text + outside(s[FirstLength(s, comments)..])
      == [s[0]] + Rest(s[1..], true, false, outside)
  {
    var n := BodyLength(s[1..], false);
    assert s[..1 + n] == [s[0]] + s[1..][..n] && s[1..][n..] == s[1 + n..];
    assert [s[0]] + s[1..][..n] + outside(s[1 + n..]) == [s[0]] + (s[1..][..n] + outside(s[1 + n..]));
  }

  lemma Moves(out: string, part: string, rest: string)
    ensures out + (part + rest) == (out + part) + rest
  {
  }

  /** What is emitted from `i` on. */
  ghost function Ahead(input: string, i: nat, inString: bool, escaped: bool, outside: string -> string): string
    requires i <= |input|
  {
    Rest(input[i..], inString, escaped, outside)
  }

  lemma InsideString(input: string, i: nat, escaped: bool, outside: string -> string, out: string)
    requires i < |input|
    ensures out + Ahead(input, i, true, escaped, outside)
         == out + [input[i]] + Ahead(input, i + 1, Step(input[i], escaped).0, Step(input[i], escaped).1, outside)
  {
    RestStep(input[i..], escaped, outside);
    assert input[i..][1..] == input[i + 1..];
    Moves(out, [input[i]], Ahead(input, i + 1, Step(input[i], escaped).0, Step(input[i], escaped).1, outside));
  }

  lemma LiteralCommentFree(s: string)
    requires s != [] && s[0] == '"'
    ensures CommentFree(s) == [s[0]] + Rest(s[1..], true, false, CommentFree)
  {
    var tokens, n := Lex(s, true), FirstLength(s, true);
    assert tokens[1..] == Lex(s[n..], true);
    assert WithoutComments(tokens) == [tokens[0]] + WithoutComments(tokens[1..]);
    assert ([tokens[0]] + WithoutComments(tokens[1..]))[1..] == WithoutComments(tokens[1..]);
    assert CommentFree(s) == First(s, true).text + CommentFree(s[n..]);
    LiteralRest(s, true, CommentFree);
  }

  lemma OtherCommentFree(s: string)
    requires s != [] && s[0] != '"'
    ensures CommentFree(s) == if StartsComment(s) then CommentFree(s[2 + LineLength(s[2..])..])
      else [s[0]] + CommentFree(s[1..])
  {
    var tokens, n := Lex(s, true), FirstLength(s, true);
    assert tokens[1..] == Lex(s[n..], true);
    if StartsComment(s) {
      assert WithoutComments(tokens) == WithoutComments(tokens[1..]);
    } else {
      assert WithoutComments(tokens) == [tokens[0]] + WithoutComments(tokens[1..]);
      assert ([tokens[0]] + WithoutComments(tokens[1..]))[1..] == WithoutComments(tokens[1..]);
    }
  }

  predicate CommentAt(input: string, i: nat) {
    i + 1 < |input| && input[i] == '/' && input[i + 1] == '/'
  }

  lemma OutsideString(input: string, i: nat, out: string)
    requires i < |input| && input[i] != '"' && !CommentAt(input, i)
    ensures out + Ahead(input, i, false, false, CommentFree)
      == out + [input[i]] + Ahead(input, i + 1, false, false, CommentFree)
  {
    assert StartsComment(input[i..]) <==> CommentAt(input, i);
    OtherCommentFree(input[i..]);
    assert input[i..][1..] == input[i + 1..];
    Moves(out, [input[i]], CommentFree(input[i + 1..]));
  }

  lemma OpensString(input: string, i: nat, out: string)
    requires i < |input| && input[i] == '"'
    ensures out + Ahead(input, i, false, false, CommentFree)
      == out + [input[i]] + Ahead(input, i + 1, true, false, CommentFree)
  {
    LiteralCommentFree(input[i..]);
    assert input[i..][1..] == input[i + 1..];
    Moves(out, [input[i]], Ahead(input, i + 1, true, false, CommentFree));
  }

  predicate EndsLine(input: string, from: nat, end: nat) {
    from <= end <= |input| && (end < |input| ==> input[end] == '\n') && '\n' !in input[from..end]
  }

  lemma LineLengthTo(s: string, n: nat)
    requires EndsLine(s, 0, n)
    ensures LineLength(s) == n
  {
    assert forall k | 0 <= k < n :: s[k] == s[..n][k];
  }

  lemma PastComment(input: string, i: nat, end: nat)
    requires i < |input| && CommentAt(input, i) && EndsLine(input, i + 2, end)
    ensures CommentFree(input[i..]) == CommentFree(input[end..])
  {
    var s := input[i..];
    assert StartsComment(s) && s[2..] == input[i + 2..];
    assert EndsLine(s[2..], 0, end - i - 2) by { assert s[2..][..end - i - 2] == input[i + 2..end]; }
    LineLengthTo(s[2..], end - i - 2);
    OtherCommentFree(s);
    assert s[end - i..] == input[end..];
  }

  /** A comment ends before its line break, which stays. */
  lemma SkipsComment(input: string, i: nat, end: nat, out: string)
    requires i < |input| && CommentAt(input, i) && EndsLine(input, i + 2, end)
    ensures out + Ahead(input, i, false, false, CommentFree)
         == if end == |input| then out else out + [input[end]] + Ahead(input, end + 1, false, false, CommentFree)
  {
    PastComment(input, i, end);
    if end == |input| {
      NothingAhead(input, false, false);
    } else {
      OutsideString(input, end, out);
    }
  }

  lemma NothingAhead(input: string, inString: bool, escaped: bool)
    ensures Ahead(input, |input|, inString, escaped, CommentFree) == ""
    ensures Ahead(input, |input|, inString, escaped, CommaFree) == ""
  {
    assert input[|input|..] == "";
  }

  /** The inner loop, from a comment's first slash to the end of its line. */
  method SkipComment(input: string, i: nat) returns (end: nat)
    requires i < |input| && CommentAt(input, i)
    ensures EndsLine(input, i + 2, end)
  {
    end := i + 2;
    while end < |input| && input[end] != '\n'
      invariant i + 2 <= end <= |input| && '\n' !in input[i + 2..end]
    {
      end := end + 1;
    }
  }

  /** How both loops follow the bytes of a string literal. */
  method FollowString(c: char, escaped: bool) returns (inString: bool, escapes: bool)
    ensures (inString, escapes) == Step(c, escaped)
  {
    inString, escapes := true, false;
    if !escaped {
      if c == '\\' {
        escapes := true;
      } else if c == '"' {
        inString := false;
      }
    }
  }

  /** What is emitted so far and what is still to come make the result. */
  ghost predicate OnTrack(input: string, i: nat, inString: bool, escaped: bool, out: string) {
    i <= |input| && out + Ahead(input, i, inString, escaped, CommentFree) == CommentFree(input)
  }

  lemma TrackStarts(input: string)
    ensures OnTrack(input, 0, false, false, "")
  {
    assert input[0..] == input;
  }

  lemma TrackEnds(input: string, inString: bool, escaped: bool, out: string)
    requires OnTrack(input, |input|, inString, escaped, out)
    ensures out == CommentFree(input)
  {
    NothingAhead(input, inString, escaped);
  }

  /** One byte is copied: inside a literal, at its opening quote, or outside of comments. */
  lemma TrackCopies(input: string, i: nat, inString: bool, escaped: bool, out: string)
    requires OnTrack(input, i, inString, escaped, out) && i < |input| && (escaped ==> inString)
    requires !inString ==> !CommentAt(input, i)
    ensures var next := if inString then Step(input[i], escaped) else (input[i] == '"', false);
            OnTrack(input, i + 1, next.0, next.1, out + [input[i]])
  {
    if inString {
      InsideString(input, i, escaped, CommentFree, out);
    } else if input[i] == '"' {
      OpensString(input, i, out);
    } else {
      OutsideString(input, i, out);
    }
  }

  /** A comment is skipped up to its line break, which is copied. */
  lemma TrackSkips(input: string, i: nat, end: nat, out: string)
    requires OnTrack(input, i, false, false, out)
    requires i < |input| && CommentAt(input, i) && EndsLine(input, i + 2, end)
    ensures if end == |input| then out == CommentFree(input)
            else OnTrack(input, end + 1, false, false, out + [input[end]])
  {
    SkipsComment(input, i, end, out);
  }

  method StripLineComments(input: string) returns (out: string)
    ensures out == CommentFree(input)
  {
    TrackStarts(input);
    hide OnTrack;
    hide CommentFree;
    out := "";
    var inString, escaped := false, false;
    var i := 0;
    while i < |input|
      invariant 0 <= i <= |input|
      invariant escaped ==> inString
      invariant OnTrack(input, i, inString, escaped, out)
    {
      var c := input[i];
      if !inString && c == '/' && i + 1 < |input| && input[i + 1] == '/' {
        var end := SkipComment(input, i);
        TrackSkips(input, i, end, out);
        if end == |input| { return; }
        out := out + [input[end]];
        i := end + 1;
      } else {
        TrackCopies(input, i, inString, escaped, out);
        out := out + [c];
        if inString {
          inString, escaped := FollowString(c, escaped);
        } else {
          inString := c == '"';
        }
        i := i + 1;
      }
    }
    TrackEnds(input, inString, escaped, out);
  }

  /** The next byte from `i` that is not white space closes an object or array. */
  ghost predicate ClosesAt(input: string, i: nat)
    requires i <= |input|
  {
    NextIsCloser(Lex(input[i..], false))
  }

  lemma ClosesHere(input: string, i: nat)
    requires i <= |input|
    ensures ClosesAt(input, i) <==>
            i < |input| && if IsSpace(input[i]) then ClosesAt(input, i + 1) else input[i] == '}' || input[i] == ']'
  {
    if i < |input| {
      assert input[i..][1..] == input[i + 1..];
      if input[i] != '"' {
        assert Lex(input[i..], false)[1..] == Lex(input[i + 1..], false);
      }
    }
  }

  method CommaIsTrailing(input: string, index: nat) returns (trailing: bool)
    requires index < |input|
    ensures trailing == ClosesAt(input, index + 1)
  {
    var i := index + 1;
    ClosesHere(input, i);
    while i < |input| && IsSpace(input[i])
      invariant index + 1 <= i <= |input|
      invariant ClosesAt(input, i) == ClosesAt(input, index + 1)
    {
      ClosesHere(input, i);
      i := i + 1;
    }
    ClosesHere(input, i);
    return i < |input| && (input[i] == '}' || input[i] == ']');
  }

  lemma LiteralCommaFree(s: string)
    requires s != [] && s[0] == '"'
    ensures CommaFree(s) == [s[0]] + Rest(s[1..], true, false, CommaFree)
  {
    var tokens, n := Lex(s, false), FirstLength(s, false);
    assert tokens[1..] == Lex(s[n..], false);
    assert WithoutTrailing(tokens) == [tokens[0]] + WithoutTrailing(tokens[1..]);
    assert ([tokens[0]] + WithoutTrailing(tokens[1..]))[1..] == WithoutTrailing(tokens[1..]);
    assert CommaFree(s) == First(s, false).text + CommaFree(s[n..]);
    LiteralRest(s, false, CommaFree);
  }

  lemma OtherCommaFree(s: string)
    requires s != [] && s[0] != '"'
    ensures CommaFree(s) == (if s[0] == ',' && NextIsCloser(Lex(s[1..], false)) then "" else [s[0]]) + CommaFree(s[1..])
  {
    var tokens := Lex(s, false);
    assert tokens[1..] == Lex(s[1..], false);
    if s[0] == ',' && NextIsCloser(tokens[1..]) {
      assert WithoutTrailing(tokens) == WithoutTrailing(tokens[1..]);
    } else {
      assert WithoutTrailing(tokens) == [tokens[0]] + WithoutTrailing(tokens[1..]);
      assert ([tokens[0]] + WithoutTrailing(tokens[1..]))[1..] == WithoutTrailing(tokens[1..]);
    }
  }

  lemma OutsideStringCommas(input: string, i: nat, out: string)
    requires i < |input| && input[i] != '"'
    ensures out + Ahead(input, i, false, false, CommaFree)
         == (if input[i] == ',' && ClosesAt(input, i + 1) then out else out + [input[i]])
            + Ahead(input, i + 1, false, false, CommaFree)
  {
    OtherCommaFree(input[i..]);
    assert input[i..][1..] == input[i + 1..];
    Moves(out, [input[i]], CommaFree(input[i + 1..]));
  }

  lemma OpensStringCommas(input: string, i: nat, out: string)
    requires i < |input| && input[i] == '"'
    ensures out + Ahead(input, i, false, false, CommaFree)
      == out + [input[i]] + Ahead(input, i + 1, true, false, CommaFree)
  {
    LiteralCommaFree(input[i..]);
    assert input[i..][1..] == input[i + 1..];
    Moves(out, [input[i]], Ahead(input, i + 1, true, false, CommaFree));
  }

  method StripTrailingCommas(input: string) returns (out: string)
    ensures out == CommaFree(input)
  {
    out := "";
    var inString, escaped := false, false;
    assert input[0..] == input;
    for i := 0 to |input|
      invariant escaped ==> inString
      invariant out + Ahead(input, i, inString, escaped, CommaFree) == CommaFree(input)
    {
      var c := input[i];
      if inString {
        InsideString(input, i, escaped, CommaFree, out);
        out := out + [c];
        inString, escaped := FollowString(c, escaped);
      } else if c == '"' {
        OpensStringCommas(input, i, out);
        inString := true;
        out := out + [c];
      } else {
        OutsideStringCommas(input, i, out);
        var trailing := false;
        if c == ',' { trailing := CommaIsTrailing(input, i); }
        if !trailing { out := out + [c]; }
      }
    }
    NothingAhead(input, inString, escaped);
  }

  method StripJSONComments(input: string) returns (out: string)
    ensures out == Stripped(input)
  {
    var withoutComments := StripLineComments(input);
    out := StripTrailingCommas(withoutComments);
  }

  function Stripped(s: string): string {
    CommaFree(CommentFree(s))
  }

  // ---- what the text means ------------------------------------------------------------------

  /** Tokens that come out of a text: each ends where the grammar ends it. */
  predicate Canonical(ts: seq<Token>, comments: bool) {
    ts == []
    || (&& Canonical(ts[1..], comments)
        && match ts[0]
           case Literal(t) =>
             t != "" && t[0] == '"' && |t| == 1 + BodyLength(t[1..] + Render(ts[1..]), false)
           case Comment(t) =>
             comments && StartsComment(t) && '\n' !in t && (|ts| == 1 || ts[1] == Byte('\n'))
           case Byte(c) =>
             c != '"' && !(comments && StartsComment([c] + Render(ts[1..]))))
  }

  lemma SplitAtTwo(s: string, n: nat)
    requires 2 <= n <= |s|
    ensures s[..n] == s[..2] + s[2..][..n - 2]
  {
  }

  /** The first token of a text ends where the grammar ends it. */
  lemma FirstEnds(s: string, comments: bool)
    requires s != ""
    ensures var first, n := First(s, comments), FirstLength(s, comments);
            && Text(first) == s[..n]
            && (first.Literal? ==> first.text[1..] + s[n..] == s[1..])
            && (first.Comment? ==> '\n' !in first.text && (n < |s| ==> s[n] == '\n'))
  {
    var first, n := First(s, comments), FirstLength(s, comments);
    assert s == s[..n] + s[n..];
    if first.Comment? {
      SplitAtTwo(s, n);
      if n < |s| { assert s[n] == s[2..][n - 2]; }
    }
  }

  lemma {:induction false} LexIsCanonical(s: string, comments: bool)
    ensures Render(Lex(s, comments)) == s && Canonical(Lex(s, comments), comments)
    decreases |s|
  {
    if s != [] {
      var first, n := First(s, comments), FirstLength(s, comments);
      var rest := Lex(s[n..], comments);
      FirstEnds(s, comments);
      LexIsCanonical(s[n..], comments);
      assert ([first] + rest)[1..] == rest;
      assert s == s[..n] + s[n..];
      if first.Comment? && n < |s| { assert rest[0] == Byte('\n'); }
    }
  }

  lemma {:induction false} BodyThenRest(b: string, r: string, q: string, escaped: bool)
    requires BodyLength(b + r, escaped) == |b| && (r == "" ==> q == "")
    ensures BodyLength(b + q, escaped) == |b|
    decreases |b|
  {
    if b == "" {
      assert b + r == r && b + q == q;
    } else {
      assert (b + r)[1..] == b[1..] + r && (b + q)[1..] == b[1..] + q;
      if escaped {
        BodyThenRest(b[1..], r, q, false);
      } else if b[0] == '\\' {
        BodyThenRest(b[1..], r, q, true);
      } else if b[0] != '"' {
        BodyThenRest(b[1..], r, q, false);
      }
    }
  }

  lemma CommentLexes(t: string, rest: string)
    requires StartsComment(t) && '\n' !in t && (rest != "" ==> rest[0] == '\n')
    ensures First(t + rest, true) == Comment(t) && FirstLength(t + rest, true) == |t|
  {
    var s := t + rest;
    assert s[2..][..|t| - 2] == t[2..] && s[..|t|] == t;
    LineLengthTo(s[2..], |t| - 2);
  }

  lemma LiteralLexes(t: string, rest: string, comments: bool)
    requires t != "" && t[0] == '"' && |t| == 1 + BodyLength(t[1..] + rest, false)
    ensures First(t + rest, comments) == Literal(t) && FirstLength(t + rest, comments) == |t|
  {
    assert (t + rest)[1..] == t[1..] + rest && (t + rest)[..|t|] == t;
  }

  lemma {:induction false} CanonicalLexes(ts: seq<Token>, comments: bool)
    requires Canonical(ts, comments)
    ensures Lex(Render(ts), comments) == ts
    decreases |ts|
  {
    if ts != [] {
      var rest := Render(ts[1..]);
      CanonicalLexes(ts[1..], comments);
      assert (Text(ts[0]) + rest)[|Text(ts[0])|..] == rest;
      match ts[0] {
        case Literal(t) => LiteralLexes(t, rest, comments);
        case Comment(t) => CommentLexes(t, rest);
        case Byte(c) =>
      }
    }
  }

  /** The first byte of canonical tokens is the first byte of the first of them. */
  lemma FirstByte(ts: seq<Token>, comments: bool)
    requires Canonical(ts, comments)
    ensures Render(ts) == "" <==> ts == []
    ensures ts != [] ==> Render(ts)[0] == Text(ts[0])[0]
  {
  }

  lemma {:induction false} CommentsLeaveCanonical(ts: seq<Token>, comments: bool)
    requires Canonical(ts, true)
    ensures Canonical(WithoutComments(ts), comments)
    decreases |ts|
  {
    if ts != [] {
      CommentsLeaveCanonical(ts[1..], comments);
      var kept := WithoutComments(ts[1..]);
      assert ([ts[0]] + kept)[1..] == kept;
      match ts[0] {
        case Literal(t) =>
          FirstByte(ts[1..], true);
          BodyThenRest(t[1..], Render(ts[1..]), Render(kept), false);
        case Comment(t) =>
        case Byte(c) =>
          if c == '/' && |ts| > 1 {
            FirstByte(ts[1..], true);
            FirstByte(kept, comments);
          }
      }
    }
  }

  lemma {:induction false} CommasLeaveCanonical(ts: seq<Token>)
    requires Canonical(ts, true)
    ensures Canonical(WithoutTrailing(ts), true)
    decreases |ts|
  {
    if ts != [] {
      CommasLeaveCanonical(ts[1..]);
      var kept := WithoutTrailing(ts[1..]);
      assert ([ts[0]] + kept)[1..] == kept;
      FirstByte(ts[1..], true);
      FirstByte(kept, true);
      match ts[0] {
        case Literal(t) =>
          BodyThenRest(t[1..], Render(ts[1..]), Render(kept), false);
        case Comment(t) =>
        case Byte(c) =>
          if c == '/' && |ts| > 1 && ts[1] == Byte(',') && NextIsCloser(ts[2..]) {
            assert ts[1..][1..] == ts[2..] && kept == WithoutTrailing(ts[2..]);
            assert kept[0] == ts[2];
          }
      }
    }
  }

  function Meant(s: string): seq<Token> {
    WithoutTrailing(WithoutComments(Lex(s, true)))
  }

  /** The stripped text has exactly the tokens of the original, with all their bytes and
      in order, but for its comments and the commas in front of a closer. */
  lemma StrippedMeans(s: string)
    ensures Lex(Stripped(s), true) == Meant(s) && Stripped(s) == Render(Meant(s))
  {
    LexIsCanonical(s, true);
    CommentsLeaveCanonical(Lex(s, true), false);
    CommentsLeaveCanonical(Lex(s, true), true);
    CanonicalLexes(WithoutComments(Lex(s, true)), false);
    CommasLeaveCanonical(WithoutComments(Lex(s, true)));
    CanonicalLexes(Meant(s), true);
  }

  function Literals(ts: seq<Token>): seq<string> {
    if ts == [] then [] else if ts[0].Literal? then [ts[0].text] + Literals(ts[1..]) else Literals(ts[1..])
  }

  function LineBreaks(s: string): nat {
    if s == "" then 0 else (if s[0] == '\n' then 1 else 0) + LineBreaks(s[1..])
  }

  lemma {:induction false} LineBreaksConcat(a: string, b: string)
    ensures LineBreaks(a + b) == LineBreaks(a) + LineBreaks(b)
  {
    if a == "" {
      assert a + b == b;
    } else {
      assert (a + b)[1..] == a[1..] + b;
      LineBreaksConcat(a[1..], b);
    }
  }

  lemma {:induction false} NoLineBreaks(s: string)
    requires '\n' !in s
    ensures LineBreaks(s) == 0
  {
    if s != "" {
      assert s[0] in s && forall c | c in s[1..] :: c in s;
      NoLineBreaks(s[1..]);
    }
  }

  lemma {:induction false} CommentsKeepLines(ts: seq<Token>)
    requires Canonical(ts, true)
    ensures Literals(WithoutComments(ts)) == Literals(ts)
    ensures LineBreaks(Render(WithoutComments(ts))) == LineBreaks(Render(ts))
  {
    if ts != [] {
      CommentsKeepLines(ts[1..]);
      var kept := WithoutComments(ts[1..]);
      assert ([ts[0]] + kept)[1..] == kept;
      LineBreaksConcat(Text(ts[0]), Render(ts[1..]));
      LineBreaksConcat(Text(ts[0]), Render(kept));
      if ts[0].Comment? { NoLineBreaks(ts[0].text); }
    }
  }

  lemma {:induction false} CommasKeepLines(ts: seq<Token>)
    ensures Literals(WithoutTrailing(ts)) == Literals(ts)
    ensures LineBreaks(Render(WithoutTrailing(ts))) == LineBreaks(Render(ts))
  {
    if ts != [] {
      CommasKeepLines(ts[1..]);
      var kept := WithoutTrailing(ts[1..]);
      assert ([ts[0]] + kept)[1..] == kept;
      LineBreaksConcat(Text(ts[0]), Render(ts[1..]));
      LineBreaksConcat(Text(ts[0]), Render(kept));
    }
  }

  /** String literals survive byte for byte, and errors are reported on the right line. */
  lemma LiteralsAndLinesKept(s: string)
    ensures Literals(Lex(Stripped(s), true)) == Literals(Lex(s, true))
    ensures LineBreaks(Stripped(s)) == LineBreaks(s)
  {
    StrippedMeans(s);
    LexIsCanonical(s, true);
    CommentsKeepLines(Lex(s, true));
    CommasKeepLines(WithoutComments(Lex(s, true)));
  }

  // ---- stripping twice --------------------------------------------------------------------

  predicate HasComment(ts: seq<Token>) {
    ts != [] && (ts[0].Comment? || HasComment(ts[1..]))
  }

  predicate HasTrailing(ts: seq<Token>) {
    ts != [] && ((ts[0] == Byte(',') && NextIsCloser(ts[1..])) || HasTrailing(ts[1..]))
  }

  predicate NextIsTrailing(ts: seq<Token>) {
    ts != []
    && if ts[0].Byte? && IsSpace(ts[0].c) then NextIsTrailing(ts[1..]) else ts[0] == Byte(',') && NextIsCloser(ts[1..])
  }

  /** Two commas in a row in front of a closer. */
  predicate HasDoubled(ts: seq<Token>) {
    ts != [] && ((ts[0] == Byte(',') && NextIsTrailing(ts[1..])) || HasDoubled(ts[1..]))
  }

  lemma {:induction false} CommentsFixed(ts: seq<Token>)
    ensures |WithoutComments(ts)| <= |ts| && !HasComment(WithoutComments(ts))
    ensures HasComment(ts) <==> |WithoutComments(ts)| < |ts|
    ensures !HasComment(ts) ==> WithoutComments(ts) == ts
  {
    if ts != [] {
      CommentsFixed(ts[1..]);
      assert ([ts[0]] + WithoutComments(ts[1..]))[1..] == WithoutComments(ts[1..]);
    }
  }

  lemma {:induction false} TrailingFixed(ts: seq<Token>)
    ensures |WithoutTrailing(ts)| <= |ts| && (!HasComment(ts) ==> !HasComment(WithoutTrailing(ts)))
    ensures HasTrailing(ts) <==> |WithoutTrailing(ts)| < |ts|
    ensures !HasTrailing(ts) ==> WithoutTrailing(ts) == ts
  {
    if ts != [] {
      TrailingFixed(ts[1..]);
      assert ([ts[0]] + WithoutTrailing(ts[1..]))[1..] == WithoutTrailing(ts[1..]);
    }
  }

  lemma {:induction false} CloserAfterRemoval(ts: seq<Token>)
    ensures NextIsCloser(WithoutTrailing(ts)) <==> NextIsCloser(ts) || NextIsTrailing(ts)
    ensures !(NextIsCloser(ts) && NextIsTrailing(ts))
  {
    if ts != [] {
      CloserAfterRemoval(ts[1..]);
      assert ([ts[0]] + WithoutTrailing(ts[1..]))[1..] == WithoutTrailing(ts[1..]);
    }
  }

  lemma {:induction false} TrailingAfterRemoval(ts: seq<Token>)
    ensures HasTrailing(WithoutTrailing(ts)) <==> HasDoubled(ts)
  {
    if ts != [] {
      TrailingAfterRemoval(ts[1..]);
      CloserAfterRemoval(ts[1..]);
      assert ([ts[0]] + WithoutTrailing(ts[1..]))[1..] == WithoutTrailing(ts[1..]);
    }
  }

  /** Text without comments and trailing commas, and only such text, is left alone. */
  lemma StripIsIdentityExactlyWhen(s: string)
    ensures Stripped(s) == s <==> !HasComment(Lex(s, true)) && !HasTrailing(Lex(s, true))
  {
    StrippedMeans(s);
    LexIsCanonical(s, true);
    CommentsFixed(Lex(s, true));
    TrailingFixed(WithoutComments(Lex(s, true)));
  }

  /** A second strip changes nothing exactly when no two commas stand in front of a closer. */
  lemma StripTwiceIsOnceExactlyWhen(s: string)
    ensures Stripped(Stripped(s)) == Stripped(s) <==> !HasDoubled(WithoutComments(Lex(s, true)))
  {
    var ts := WithoutComments(Lex(s, true));
    StrippedMeans(s);
    CommentsFixed(Lex(s, true));
    TrailingFixed(ts);
    TrailingAfterRemoval(ts);
    StripIsIdentityExactlyWhen(Stripped(s));
  }

  lemma StripIsNotIdempotent()
    ensures Stripped(Stripped(",,]")) != Stripped(",,]")
  {
    hide Stripped;
    hide Lex;
    var ts := [Byte(','), Byte(','), Byte(']')];
    assert ts[1..] == [Byte(','), Byte(']')] && ts[2..] == [Byte(']')];
    assert Render(ts[2..]) == "]" && Render(ts[1..]) == ",]" && Render(ts) == ",,]";
    CanonicalLexes(ts, true);
    CommentsFixed(ts);
    assert NextIsTrailing(ts[1..]);
    StripTwiceIsOnceExactlyWhen(",,]");
  }
}
