/** `wrapError` (sentry/sentry.js:28-58): inside one `withScope` block it
    tags and annotates the scope from a Node-RED error record, then hands a
    native Error built from the record to the callback. */
module Wrapping {
  import opened JsValues
  import opened Validation
  import opened ErrorText
  import opened SentryTrace

  /** The callback `wrapError` is given: the two arrow functions of the
      input handler, or a value that is not a function. */
  datatype Callback = RecordBreadcrumb | Capture | NotAFunction

  /** The Error handed to the callback: the message without its error-type
      prefix, the stack `source node: <label>`, the record as `data`. */
  function WrappedError(err: JsValue): (e: ErrorObject)
    requires IsErrorRecord(err) && !SourceOf(err).Null?
    ensures e.data == err
    ensures MatchErrorType(MessageOf(err)).None? ==> e.message == MessageOf(err)
  {
    ErrorObject(StripErrorPrefix(MessageOf(err)), "source node: " + SourceLabel(SourceOf(err)), err)
  }

  /** The tags: `error_type` only when the message carries one, then the
      label and the constant `handled` = false. */
  function TagCalls(err: JsValue): (r: seq<ScopeCall>)
    requires IsErrorRecord(err) && !SourceOf(err).Null?
    ensures |r| == if MatchErrorType(MessageOf(err)).Some? then 3 else 2
    ensures r[|r| - 1] == ScopeCall.SetTag("handled", Bool(false))
  {
    var typeTag := match MatchErrorType(MessageOf(err))
      case Some(t) => [ScopeCall.SetTag("error_type", Str(t))]
      case None => [];
    typeTag + [ScopeCall.SetTag("source_node", Str(SourceLabel(SourceOf(err)))),
               ScopeCall.SetTag("handled", Bool(false))]
  }

  /** The extras: four fields of the source and its JSON text. */
  function ExtraCalls(err: JsValue): (r: seq<ScopeCall>)
    requires IsErrorRecord(err) && !SourceOf(err).Null?
    ensures |r| == 5
    ensures r[|r| - 1] == ScopeCall.SetExtra("source", JsonOf(SourceOf(err)))
  {
    var source := SourceOf(err);
    [ScopeCall.SetExtra("source.id", Plain(Get(source, "id"))),
     ScopeCall.SetExtra("source.name", Plain(Get(source, "name"))),
     ScopeCall.SetExtra("source.type", Plain(Get(source, "type"))),
     ScopeCall.SetExtra("source.count", Plain(Get(source, "count"))),
     ScopeCall.SetExtra("source", JsonOf(source))]
  }

  /** What the callback does with the Error it receives. */
  function CallbackCalls(callback: Callback, e: ErrorObject): (r: seq<ScopeCall>)
    ensures |r| == if callback.NotAFunction? then 0 else 1
    ensures forall c | c in r :: IsReport(c)
  {
    match callback
    case RecordBreadcrumb => [ScopeCall.AddBreadcrumb(Breadcrumb("previous_error", e, "error", SeverityError))]
    case Capture => [ScopeCall.CaptureException(e)]
    case NotAFunction => []
  }

  /** Everything one successful `wrapError` does on its scope. */
  function ScopeCalls(err: JsValue, callback: Callback): (r: seq<ScopeCall>)
    requires IsErrorRecord(err) && !SourceOf(err).Null?
    ensures |r| >= 7
    ensures IsReport(r[|r| - 1]) <==> !callback.NotAFunction?
  {
    TagCalls(err) + ExtraCalls(err) + CallbackCalls(callback, WrappedError(err))
  }

  /** The last value written for each tag key among `calls`. */
  function Tags(calls: seq<ScopeCall>): map<string, JsValue> {
    if calls == [] then map[]
    else
      var last := calls[|calls| - 1];
      var before := Tags(calls[..|calls| - 1]);
      if last.SetTag? then before[last.key := last.tag] else before
  }

  /** The last value written for each extra key among `calls`. */
  function Extras(calls: seq<ScopeCall>): map<string, Extra> {
    if calls == [] then map[]
    else
      var last := calls[|calls| - 1];
      var before := Extras(calls[..|calls| - 1]);
      if last.SetExtra? then before[last.key := last.extra] else before
  }

  /** `wrapError(err, callback)` on a record that passed
      `isValidErrorObject`. A null `source` throws on reading `source.id`,
      after the scope was pushed and before anything was set on it. */
  method WrapError(hub: Hub, err: JsValue, callback: Callback) returns (thrown: Option<Thrown>)
    requires IsErrorRecord(err)
    modifies hub
    ensures SourceOf(err).Null? ==>
      thrown == Some(TypeError("id")) && hub.trace == old(hub.trace) + [WithScope([])]
    ensures !SourceOf(err).Null? ==>
      thrown == None && hub.trace == old(hub.trace) + [WithScope(ScopeCalls(err, callback))]
  {
    var scope := new Scope();
    var errType, message := SplitErrorType(MessageOf(err));
    var source := Get(err, "source");
    if source.Null? {
      hub.PopScope(scope);
      return Some(TypeError("id"));
    }
    var tagSourceNode := SourceNodeTag(source);
    SetTags(scope, err, errType, tagSourceNode);
    SetExtras(scope, err, source);
    var errObject := ErrorObject(message, "source node: " + tagSourceNode, err);
    assert errObject == WrappedError(err);
    HandOver(scope, callback, errObject);
    assert scope.calls == ScopeCalls(err, callback);
    hub.PopScope(scope);
    thrown := None;
  }

  /** The tags of `wrapError` (sentry/sentry.js:43-45). */
  method SetTags(scope: Scope, err: JsValue, errType: Option<string>, tagSourceNode: string)
    requires IsErrorRecord(err) && !SourceOf(err).Null?
    requires errType == MatchErrorType(MessageOf(err)) && tagSourceNode == SourceLabel(SourceOf(err))
    modifies scope
    ensures scope.calls == old(scope.calls) + TagCalls(err)
  {
    if errType.Some? {
      scope.SetTag("error_type", Str(errType.value));
    }
    scope.SetTag("source_node", Str(tagSourceNode));
    scope.SetTag("handled", Bool(false));
  }

  /** The extras of `wrapError` (sentry/sentry.js:46-50). */
  method SetExtras(scope: Scope, err: JsValue, source: JsValue)
    requires IsErrorRecord(err) && source == SourceOf(err) && !source.Null?
    modifies scope
    ensures scope.calls == old(scope.calls) + ExtraCalls(err)
  {
    scope.SetExtra("source.id", Plain(Get(source, "id")));
    scope.SetExtra("source.name", Plain(Get(source, "name")));
    scope.SetExtra("source.type", Plain(Get(source, "type")));
    scope.SetExtra("source.count", Plain(Get(source, "count")));
    scope.SetExtra("source", JsonOf(source));
  }

  /** The Error handed to the callback, when it is a function
      (sentry/sentry.js:51-56). */
  method HandOver(scope: Scope, callback: Callback, errObject: ErrorObject)
    modifies scope
    ensures scope.calls == old(scope.calls) + CallbackCalls(callback, errObject)
  {
    match callback {
      case RecordBreadcrumb =>
        scope.AddBreadcrumb(Breadcrumb("previous_error", errObject, "error", SeverityError));
      case Capture =>
        scope.CaptureException(errObject);
      case NotAFunction =>
    }
  }

  /** The scope receives exactly the tags `source_node` (the label) and
      `handled` (false), plus `error_type` exactly when the message carries
      an error-type tag; and exactly the five `source` extras. */
  lemma WrapErrorScope(err: JsValue, callback: Callback)
    requires IsErrorRecord(err) && !SourceOf(err).Null?
    ensures var tags := Tags(ScopeCalls(err, callback));
      && ("error_type" in tags <==> MatchErrorType(MessageOf(err)).Some?)
      && (MatchErrorType(MessageOf(err)).Some? ==> tags["error_type"] == Str(MatchErrorType(MessageOf(err)).value))
      && tags.Keys - {"error_type"} == {"source_node", "handled"}
      && tags["source_node"] == Str(SourceLabel(SourceOf(err)))
      && tags["handled"] == Bool(false)
    ensures var extras := Extras(ScopeCalls(err, callback));
      var source := SourceOf(err);
      && extras.Keys == {"source.id", "source.name", "source.type", "source.count", "source"}
      && extras["source.id"] == Plain(Get(source, "id"))
      && extras["source.name"] == Plain(Get(source, "name"))
      && extras["source.type"] == Plain(Get(source, "type"))
      && extras["source.count"] == Plain(Get(source, "count"))
      && extras["source"] == JsonOf(source)
  {
    ScopeTagsAreTagCalls(err, callback);
    TagCallsTags(err);
    ScopeExtrasAreExtraCalls(err, callback);
    ExtraCallsExtras(err);
  }

  lemma TagCallsTags(err: JsValue)
    requires IsErrorRecord(err) && !SourceOf(err).Null?
    ensures var tags := Tags(TagCalls(err));
      && ("error_type" in tags <==> MatchErrorType(MessageOf(err)).Some?)
      && (MatchErrorType(MessageOf(err)).Some? ==> tags["error_type"] == Str(MatchErrorType(MessageOf(err)).value))
      && tags.Keys - {"error_type"} == {"source_node", "handled"}
      && tags["source_node"] == Str(SourceLabel(SourceOf(err)))
      && tags["handled"] == Bool(false)
  {
    TagsOfTagCalls(err);
  }

  lemma ExtraCallsExtras(err: JsValue)
    requires IsErrorRecord(err) && !SourceOf(err).Null?
    ensures var extras := Extras(ExtraCalls(err));
      var source := SourceOf(err);
      && extras.Keys == {"source.id", "source.name", "source.type", "source.count", "source"}
      && extras["source.id"] == Plain(Get(source, "id"))
      && extras["source.name"] == Plain(Get(source, "name"))
      && extras["source.type"] == Plain(Get(source, "type"))
      && extras["source.count"] == Plain(Get(source, "count"))
      && extras["source"] == JsonOf(source)
  {
    ExtrasOfExtraCalls(err);
  }

  /** Only the tag calls of the block set tags. */
  lemma ScopeTagsAreTagCalls(err: JsValue, callback: Callback)
    requires IsErrorRecord(err) && !SourceOf(err).Null?
    ensures Tags(ScopeCalls(err, callback)) == Tags(TagCalls(err))
  {
    var tc, ec, cc := TagCalls(err), ExtraCalls(err), CallbackCalls(callback, WrappedError(err));
    assert ScopeCalls(err, callback) == tc + (ec + cc);
    ExtraCallsSetOnlyExtras(err);
    TagsOfNonTags(tc, ec + cc);
  }

  /** Only the extra calls of the block set extras. */
  lemma ScopeExtrasAreExtraCalls(err: JsValue, callback: Callback)
    requires IsErrorRecord(err) && !SourceOf(err).Null?
    ensures Extras(ScopeCalls(err, callback)) == Extras(ExtraCalls(err))
  {
    var tc, ec, cc := TagCalls(err), ExtraCalls(err), CallbackCalls(callback, WrappedError(err));
    assert ScopeCalls(err, callback) == (tc + ec) + cc;
    ExtrasOfNonExtras(tc + ec, cc);
    TagCallsSetOnlyTags(err);
    ExtrasAppendAfterNone(tc, ec);
  }

  lemma TagsSnoc(a: seq<ScopeCall>, c: ScopeCall)
    ensures Tags(a + [c]) == if c.SetTag? then Tags(a)[c.key := c.tag] else Tags(a)
  {
    assert (a + [c])[..|a|] == a;
  }

  lemma ExtrasSnoc(a: seq<ScopeCall>, c: ScopeCall)
    ensures Extras(a + [c]) == if c.SetExtra? then Extras(a)[c.key := c.extra] else Extras(a)
  {
    assert (a + [c])[..|a|] == a;
  }

  lemma TagsOfTagCalls(err: JsValue)
    requires IsErrorRecord(err) && !SourceOf(err).Null?
    ensures Tags(TagCalls(err)) ==
      (match MatchErrorType(MessageOf(err))
        case Some(t) => map["error_type" := Str(t)]
        case None => map[])["source_node" := Str(SourceLabel(SourceOf(err)))]["handled" := Bool(false)]
  {
    var typeTag := match MatchErrorType(MessageOf(err))
      case Some(t) => [ScopeCall.SetTag("error_type", Str(t))]
      case None => [];
    var t1 := ScopeCall.SetTag("source_node", Str(SourceLabel(SourceOf(err))));
    var t2 := ScopeCall.SetTag("handled", Bool(false));
    assert TagCalls(err) == (typeTag + [t1]) + [t2];
    TagsSnoc(typeTag + [t1], t2);
    TagsSnoc(typeTag, t1);
    if typeTag != [] {
      TagsSnoc([], typeTag[0]);
      assert [] + [typeTag[0]] == typeTag;
    }
  }

  lemma ExtrasOfExtraCalls(err: JsValue)
    requires IsErrorRecord(err) && !SourceOf(err).Null?
    ensures var source := SourceOf(err);
      Extras(ExtraCalls(err)) == map[
        "source.id" := Plain(Get(source, "id")),
        "source.name" := Plain(Get(source, "name")),
        "source.type" := Plain(Get(source, "type")),
        "source.count" := Plain(Get(source, "count")),
        "source" := JsonOf(source)]
  {
    var ec := ExtraCalls(err);
    ExtrasSnoc(ec[..4], ec[4]);
    assert ec[..4] == ec[..3] + [ec[3]];
    ExtrasSnoc(ec[..3], ec[3]);
    assert ec[..3] == ec[..2] + [ec[2]];
    ExtrasSnoc(ec[..2], ec[2]);
    assert ec[..2] == ec[..1] + [ec[1]];
    ExtrasSnoc(ec[..1], ec[1]);
    assert ec[..1] == [] + [ec[0]];
    ExtrasSnoc([], ec[0]);
    assert ec == ec[..4] + [ec[4]];
  }

  /** Appending calls that set no tag leaves the tags as they were. */
  lemma {:induction false} TagsOfNonTags(a: seq<ScopeCall>, b: seq<ScopeCall>)
    requires forall c | c in b :: !c.SetTag?
    ensures Tags(a + b) == Tags(a)
    decreases |b|
  {
    if b == [] {
      assert a + b == a;
    } else {
      var b' := b[..|b| - 1];
      assert (a + b)[..|a + b| - 1] == a + b';
      TagsOfNonTags(a, b');
    }
  }

  /** Appending calls that set no extra leaves the extras as they were. */
  lemma {:induction false} ExtrasOfNonExtras(a: seq<ScopeCall>, b: seq<ScopeCall>)
    requires forall c | c in b :: !c.SetExtra?
    ensures Extras(a + b) == Extras(a)
    decreases |b|
  {
    if b == [] {
      assert a + b == a;
    } else {
      var b' := b[..|b| - 1];
      assert (a + b)[..|a + b| - 1] == a + b';
      ExtrasOfNonExtras(a, b');
    }
  }

  /** Extras written after a prefix that wrote none are those of the suffix. */
  lemma {:induction false} ExtrasAppendAfterNone(a: seq<ScopeCall>, b: seq<ScopeCall>)
    requires forall c | c in a :: !c.SetExtra?
    ensures Extras(a + b) == Extras(b)
    decreases |b|
  {
    if b == [] {
      assert a + b == [] + a;
      ExtrasOfNonExtras([], a);
    } else {
      var b' := b[..|b| - 1];
      assert (a + b)[..|a + b| - 1] == a + b';
      ExtrasAppendAfterNone(a, b');
    }
  }

  /** The Error handed to the callback: its message is the record's message
      without the error-type prefix (tag, colon, white space and message
      give back the original), its stack is `source node: <label>` and its
      data is the record itself. */
  lemma WrappedErrorContents(err: JsValue)
    requires IsErrorRecord(err) && !SourceOf(err).Null?
    ensures var e := WrappedError(err);
      var original := MessageOf(err);
      && e.stack == "source node: " + SourceLabel(SourceOf(err))
      && e.data == err
      && match MatchErrorType(original)
        case Some(t) =>
          |original| >= |t| + 2 && IsSpace(original[|t| + 1])
          && original == t + ":" + [original[|t| + 1]] + e.message
        case None => e.message == original
  {
    MatchStripRoundTrip(MessageOf(err));
  }

  /** A function callback receives exactly one Error: one breadcrumb or one
      capture, at the end of the block; anything else gets none. */
  lemma WrapErrorReports(err: JsValue, callback: Callback)
    requires IsErrorRecord(err) && !SourceOf(err).Null?
    ensures ReportsIn(ScopeCalls(err, callback)) == CallbackCalls(callback, WrappedError(err))
    ensures |CallbackCalls(callback, WrappedError(err))| == if callback.NotAFunction? then 0 else 1
  {
    var tc, ec, cc := TagCalls(err), ExtraCalls(err), CallbackCalls(callback, WrappedError(err));
    ReportsInAppend(tc + ec, cc);
    ReportsInAppend(tc, ec);
    TagCallsSetOnlyTags(err);
    NoReportsIn(tc);
    ExtraCallsSetOnlyExtras(err);
    NoReportsIn(ec);
    OnlyReportsIn(cc);
  }

  lemma TagCallsSetOnlyTags(err: JsValue)
    requires IsErrorRecord(err) && !SourceOf(err).Null?
    ensures forall c | c in TagCalls(err) :: c.SetTag?
  {
  }

  lemma ExtraCallsSetOnlyExtras(err: JsValue)
    requires IsErrorRecord(err) && !SourceOf(err).Null?
    ensures forall c | c in ExtraCalls(err) :: c.SetExtra?
  {
  }

  lemma {:induction false} ReportsInAppend(a: seq<ScopeCall>, b: seq<ScopeCall>)
    ensures ReportsIn(a + b) == ReportsIn(a) + ReportsIn(b)
    decreases |b|
  {
    if b == [] {
      assert a + b == a;
    } else {
      var b' := b[..|b| - 1];
      assert (a + b)[..|a + b| - 1] == a + b';
      ReportsInAppend(a, b');
    }
  }

  lemma {:induction false} NoReportsIn(calls: seq<ScopeCall>)
    requires forall c | c in calls :: !IsReport(c)
    ensures ReportsIn(calls) == []
    decreases |calls|
  {
    if calls != [] {
      NoReportsIn(calls[..|calls| - 1]);
    }
  }

  lemma OnlyReportsIn(calls: seq<ScopeCall>)
    requires |calls| <= 1 && forall c | c in calls :: IsReport(c)
    ensures ReportsIn(calls) == calls
  {
    if calls != [] {
      assert calls[..0] == [];
      assert calls == [] + [calls[0]];
    }
  }
}
