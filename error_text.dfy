/** The text work of `wrapError` (sentry/sentry.js:31-41): pulling an
    `XxxError` tag off the front of the message with `/^(\w+Error)\:\s/`,
    and the `source_node` display label. */
module ErrorText {
  import opened JsValues

  /** The regular-expression class `\w`: ASCII letters, digits and `_`. */
  predicate IsWordChar(c: char) {
    ('a' <= c <= 'z') || ('A' <= c <= 'Z') || ('0' <= c <= '9') || c == '_'
  }

  /** The regular-expression class `\s`: ECMAScript white space and line
      terminators. */
  predicate IsSpace(c: char) {
    c == '\t' || c == '\n' || c == '\U{0B}' || c == '\U{0C}' || c == '\r' || c == ' '
    || c == '\U{A0}' || c == '\U{1680}' || ('\U{2000}' <= c <= '\U{200A}')
    || c == '\U{2028}' || c == '\U{2029}' || c == '\U{202F}' || c == '\U{205F}'
    || c == '\U{3000}' || c == '\U{FEFF}'
  }

  /** The length of the longest prefix of `s` made of word characters. */
  function WordRunLength(s: string): (n: nat)
    ensures n <= |s|
    ensures forall i :: 0 <= i < n ==> IsWordChar(s[i])
    ensures n < |s| ==> !IsWordChar(s[n])
  {
    if s != [] && IsWordChar(s[0]) then 1 + WordRunLength(s[1..]) else 0
  }

  /** The pattern `(\w+Error)\:\s` matches at the start of `s` with the
      capture group ending at `n`. */
  predicate TagEndsAt(s: string, n: nat) {
    6 <= n && n + 2 <= |s| && s[n - 5..n] == "Error" && s[n] == ':' && IsSpace(s[n + 1])
  }

  /** The pattern read literally: `tag` is one or more word characters
      followed by `Error`, and `s` starts with `tag`, a colon and one white
      space character. */
  ghost predicate RegexMatches(s: string, tag: string) {
    |tag| >= 6
    && (forall i :: 0 <= i < |tag| ==> IsWordChar(tag[i]))
    && tag[|tag| - 5..] == "Error"
    && |s| >= |tag| + 2 && s[..|tag|] == tag && s[|tag|] == ':' && IsSpace(s[|tag| + 1])
  }

  /** When the pattern matches, its capture is the whole leading run of
      word characters: `:` is not a word character. */
  lemma {:induction false} RegexTagIsWordRun(s: string)
    ensures forall tag :: RegexMatches(s, tag) ==> |tag| == WordRunLength(s) && TagEndsAt(s, |tag|)
  {
    forall tag | RegexMatches(s, tag) ensures |tag| == WordRunLength(s) && TagEndsAt(s, |tag|) {
      var k := |tag|;
      assert !IsWordChar(s[k]);
      forall i | 0 <= i < k ensures IsWordChar(s[i]) {
        assert s[i] == s[..k][i] == tag[i];
      }
      assert s[k - 5..k] == s[..k][k - 5..] == "Error";
    }
  }

  /** `message.match(/^(\w+Error)\:\s/)`, reduced to its capture group. A
      match must take the whole leading run of word characters, since `:`
      is not one. */
  function MatchErrorType(message: string): (r: Option<string>)
    ensures r.Some? ==> RegexMatches(message, r.value)
  {
    var n := WordRunLength(message);
    if TagEndsAt(message, n) then Some(message[..n]) else None
  }

  /** `message.replace(/^(\w+Error)\:\s/, '')`: the first (anchored) match
      is removed. */
  function StripErrorPrefix(message: string): (r: string)
    ensures MatchErrorType(message).None? ==> r == message
    ensures MatchErrorType(message).Some? ==> r == message[|MatchErrorType(message).value| + 2..]
  {
    var n := WordRunLength(message);
    if TagEndsAt(message, n) then message[n + 2..] else message
  }

  /** `MatchErrorType` finds exactly the capture of the pattern, and finds
      nothing when the pattern does not match. */
  lemma {:induction false} MatchErrorTypeIsRegex(s: string, tag: string)
    ensures MatchErrorType(s) == Some(tag) <==> RegexMatches(s, tag)
  {
    RegexTagIsWordRun(s);
  }

  /** Round trip: on a match the message is the tag, a colon, one white
      space character and the stripped message; otherwise stripping leaves
      the message as it is. */
  lemma MatchStripRoundTrip(s: string)
    ensures match MatchErrorType(s)
      case Some(tag) =>
        |s| >= |tag| + 2 && IsSpace(s[|tag| + 1])
        && s == tag + ":" + [s[|tag| + 1]] + StripErrorPrefix(s)
      case None => StripErrorPrefix(s) == s
  {
    var n := WordRunLength(s);
    if TagEndsAt(s, n) {
      assert s == s[..n] + ":" + [s[n + 1]] + s[n + 2..];
    }
  }

  /** No word character in front of `Error` means no tag: `"Error: x"`
      keeps its prefix. */
  lemma {:induction false} BareErrorHasNoTag(rest: string)
    ensures MatchErrorType("Error: " + rest) == None
    ensures StripErrorPrefix("Error: " + rest) == "Error: " + rest
  {
    var s := "Error: " + rest;
    var n := WordRunLength(s);
    assert s[5] == ':';
    assert n <= 5;
  }

  /** A message built as tag, colon, white space and text parses back into
      that tag and that text. */
  lemma TaggedMessageParses(tag: string, ws: char, text: string)
    requires |tag| >= 6 && tag[|tag| - 5..] == "Error"
    requires forall i :: 0 <= i < |tag| ==> IsWordChar(tag[i])
    requires IsSpace(ws)
    ensures MatchErrorType(tag + [':', ws] + text) == Some(tag)
    ensures StripErrorPrefix(tag + [':', ws] + text) == text
  {
    var s := tag + [':', ws] + text;
    assert s[..|tag|] == tag && s[|tag|] == ':' && s[|tag| + 1] == ws;
    assert RegexMatches(s, tag);
    MatchErrorTypeIsRegex(s, tag);
    MatchStripRoundTrip(s);
    assert s[|tag| + 2..] == text;
  }

  /** An example: `"TypeError: bad thing happened"` carries the tag
      `TypeError` and the message `bad thing happened`. */
  lemma TypeErrorExample()
    ensures MatchErrorType("TypeError" + ": " + "bad thing happened") == Some("TypeError")
    ensures StripErrorPrefix("TypeError" + ": " + "bad thing happened") == "bad thing happened"
  {
    var tag := "TypeError";
    assert tag[|tag| - 5..] == "Error";
    assert forall i :: 0 <= i < |tag| ==> IsWordChar(tag[i]);
    TaggedMessageParses(tag, ' ', "bad thing happened");
  }

  /** The `source_node` label: `(name)` when `source.name` is truthy,
      otherwise the id followed by one space. */
  function SourceLabel(source: JsValue): (r: string)
    requires !IsNullish(source)
    ensures Truthy(Get(source, "name")) ==> |r| >= 2 && r[0] == '(' && r[|r| - 1] == ')'
    ensures !Truthy(Get(source, "name")) ==> |r| >= 1 && r[|r| - 1] == ' '
  {
    var name := Get(source, "name");
    if Truthy(name) then "(" + ToText(name) + ")" else ToText(Get(source, "id")) + " "
  }

  /** For a string id: a non-empty string name is shown in parentheses;
      any falsy name (missing, undefined, null, false, 0 or empty) falls
      back to the id and a trailing space. */
  lemma SourceLabelOfStrings(source: JsValue, id: string)
    requires source.Obj? && "id" in source.props && source.props["id"] == Str(id)
    ensures "name" in source.props && source.props["name"].Str? && source.props["name"].s != ""
      ==> SourceLabel(source) == "(" + source.props["name"].s + ")"
    ensures !Truthy(Get(source, "name")) ==> SourceLabel(source) == id + " "
  {
  }

  /** The first statements of `wrapError`: the message is read, its
      error-type tag matched and, on a match, removed. */
  method SplitErrorType(original: string) returns (errType: Option<string>, message: string)
    ensures errType == MatchErrorType(original)
    ensures message == StripErrorPrefix(original)
  {
    message := original;
    errType := MatchErrorType(message);
    if errType.Some? {
      message := StripErrorPrefix(message);
    }
  }

  /** `tag_source_node`: first the id and a space, replaced by the name in
      parentheses when the name is truthy. */
  method SourceNodeTag(source: JsValue) returns (tag: string)
    requires !IsNullish(source)
    ensures tag == SourceLabel(source)
  {
    tag := ToText(Get(source, "id")) + " ";
    if Truthy(Get(source, "name")) {
      tag := "(" + ToText(Get(source, "name")) + ")";
    }
  }
}
