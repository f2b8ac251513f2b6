/** The `input` handler of the sentry node (sentry/sentry.js:72-110): it
    applies a per-message user identity, reports `msg.error` (after a
    breadcrumb when `msg._error` is also an error record), and forwards the
    message with `payload` replaced by `{sent}`. */
module InputHandler {
  import opened JsValues
  import opened Validation
  import opened SentryTrace
  import opened Wrapping

  /** The identity fields of `msg.sentry.user`, in the order they are read. */
  const IdentityFields: seq<string> := ["id", "username", "email", "ip_address"]

  /** The user object handed to `setUser`. Every truthy identity field is
      written to `id`, so the last truthy one in reading order wins and no
      other key is ever set. */
  function MappedUser(u: JsValue): (user: map<string, JsValue>)
    requires IsValidObject(u)
    ensures user.Keys <= {"id"}
    ensures "id" in user ==> Truthy(user["id"])
  {
    if Truthy(Get(u, "ip_address")) then map["id" := Get(u, "ip_address")]
    else if Truthy(Get(u, "email")) then map["id" := Get(u, "email")]
    else if Truthy(Get(u, "username")) then map["id" := Get(u, "username")]
    else if Truthy(Get(u, "id")) then map["id" := Get(u, "id")]
    else map[]
  }

  /** The user has no key but `id`; it has one exactly when some identity
      field is truthy, and then holds the last truthy one. */
  lemma MappedUserIsLastTruthy(u: JsValue)
    requires IsValidObject(u)
    ensures MappedUser(u).Keys <= {"id"}
    ensures "id" in MappedUser(u) <==>
      exists i :: 0 <= i < |IdentityFields| && Truthy(Get(u, IdentityFields[i]))
    ensures "id" in MappedUser(u) ==>
      exists i :: 0 <= i < |IdentityFields| && MappedUser(u)["id"] == Get(u, IdentityFields[i])
        && Truthy(Get(u, IdentityFields[i]))
        && forall j :: i < j < |IdentityFields| ==> !Truthy(Get(u, IdentityFields[j]))
  {
    var f := IdentityFields;
    if Truthy(Get(u, f[3])) {
      assert MappedUser(u)["id"] == Get(u, f[3]);
    } else if Truthy(Get(u, f[2])) {
      assert MappedUser(u)["id"] == Get(u, f[2]);
    } else if Truthy(Get(u, f[1])) {
      assert MappedUser(u)["id"] == Get(u, f[1]);
    } else if Truthy(Get(u, f[0])) {
      assert MappedUser(u)["id"] == Get(u, f[0]);
    } else {
      assert forall i | 0 <= i < |f| :: !Truthy(Get(u, f[i])) by {
        forall i | 0 <= i < |f| ensures !Truthy(Get(u, f[i])) {
          assert i == 0 || i == 1 || i == 2 || i == 3;
        }
      }
    }
  }

  /** The `user` object filled field by field inside `configureScope`. */
  method BuildUser(u: JsValue) returns (user: map<string, JsValue>)
    requires IsValidObject(u)
    ensures user == MappedUser(u)
  {
    user := map[];
    if Truthy(Get(u, "id")) {
      user := user["id" := Get(u, "id")];
    }
    if Truthy(Get(u, "username")) {
      user := user["id" := Get(u, "username")];
    }
    if Truthy(Get(u, "email")) {
      user := user["id" := Get(u, "email")];
    }
    if Truthy(Get(u, "ip_address")) {
      user := user["id" := Get(u, "ip_address")];
    }
  }

  /** `msg.key` on the message object. */
  function Field(msg: map<string, JsValue>, key: string): JsValue {
    if key in msg then msg[key] else Undefined
  }

  /** The calls made for `msg.sentry`: a user is set only when both
      `msg.sentry` and `msg.sentry.user` pass `isValidObject`. */
  function ConfigCalls(config: JsValue): (r: seq<SinkCall>)
    ensures |r| <= 1
    ensures r != [] <==> IsValidObject(config) && IsValidObject(Get(config, "user"))
    ensures r != [] ==> r[0].SetUser? && r[0].user.Keys <= {"id"}
  {
    if IsValidObject(config) && IsValidObject(Get(config, "user"))
    then [SetUser(MappedUser(Get(config, "user")))]
    else []
  }

  /** The try block: the calls it makes and how it ends, normally with the
      new value of `errorSent` or by throwing. */
  datatype TryRun = TryRun(calls: seq<SinkCall>, outcome: Completion<bool>)

  function ReportRun(error: JsValue, previous: JsValue): (r: TryRun)
    ensures r.outcome == Normal(true) <==> IsErrorRecord(error) && !previous.Null? && !SourceOf(error).Null?
    ensures r.outcome == Normal(false) <==> !error.Null? && !IsErrorRecord(error)
    ensures r.outcome.Throw? ==> r.outcome.error in {TypeError("message"), TypeError("id")}
    ensures r.outcome == Normal(true) ==> |r.calls| == if IsErrorRecord(previous) then 2 else 1
    ensures r.outcome != Normal(true) ==> |r.calls| <= 1
  {
    match IsValidErrorObject(error)
    case Throw(e) => TryRun([], Throw(e))
    case Normal(valid) =>
      if !valid then TryRun([], Normal(false))
      else
        match IsValidErrorObject(previous)
        case Throw(e) => TryRun([], Throw(e))
        case Normal(withCrumb) =>
          if SourceOf(error).Null? then TryRun([WithScope([])], Throw(TypeError("id")))
          else
            var crumb := if withCrumb then [WithScope(ScopeCalls(error, RecordBreadcrumb))] else [];
            TryRun(crumb + [WithScope(ScopeCalls(error, Capture))], Normal(true))
  }

  /** One run of the handler on a message: the SDK calls, the `sent` flag
      and the exception caught and passed to `node.error`, if any. */
  datatype Run = Run(trace: seq<SinkCall>, sent: bool, caught: Option<Thrown>)

  function Handle(msg: map<string, JsValue>): (run: Run)
    ensures run.sent ==> run.caught.None?
    ensures run.caught.Some? ==> run.caught.value in {TypeError("message"), TypeError("id")}
    ensures |run.trace| <= 3
  {
    var r := ReportRun(Field(msg, "error"), Field(msg, "_error"));
    Run(ConfigCalls(Field(msg, "sentry")) + r.calls,
        r.outcome == Normal(true),
        if r.outcome.Throw? then Some(r.outcome.error) else None)
  }

  /** The value `{sent: errorSent}` written to `msg.payload`. */
  function Payload(sent: bool): (p: JsValue)
    ensures p.Obj? && p.props.Keys == {"sent"} && p.props["sent"] == Bool(sent)
    ensures Truthy(Get(p, "sent")) <==> sent
  {
    Obj(map["sent" := Bool(sent)])
  }

  /** What the node emits: `node.send(msg)` or `node.error(err)`. */
  datatype Output = Sent(msg: map<string, JsValue>) | Logged(error: Thrown)

  /** A Node-RED message: an object whose fields the handler writes. */
  class Message {
    var fields: map<string, JsValue>

    constructor (fields: map<string, JsValue>)
      ensures this.fields == fields
    {
      this.fields := fields;
    }
  }

  class SentryNode {
    const hub: Hub
    var outputs: seq<Output>

    constructor (hub: Hub)
      ensures this.hub == hub && outputs == []
    {
      this.hub := hub;
      outputs := [];
    }

    /** The per-message configuration (sentry/sentry.js:75-88). */
    method ApplyConfig(config: JsValue)
      modifies hub
      ensures hub.trace == old(hub.trace) + ConfigCalls(config)
    {
      if IsValidObject(config) {
        var configUser := Get(config, "user");
        if IsValidObject(configUser) {
          var user := BuildUser(configUser);
          hub.SetUser(user);
        }
      }
    }

    /** The body of the try block (sentry/sentry.js:93-103). */
    method TryReport(error: JsValue, previous: JsValue) returns (outcome: Completion<bool>)
      modifies hub
      ensures hub.trace == old(hub.trace) + ReportRun(error, previous).calls
      ensures outcome == ReportRun(error, previous).outcome
    {
      var errorValid := IsValidErrorObject(error);
      if errorValid.Throw? {
        return Throw(errorValid.error);
      }
      if !errorValid.value {
        return Normal(false);
      }
      var previousValid := IsValidErrorObject(previous);
      if previousValid.Throw? {
        return Throw(previousValid.error);
      }
      if previousValid.value {
        var thrown := WrapError(hub, error, RecordBreadcrumb);
        if thrown.Some? {
          return Throw(thrown.value);
        }
      }
      var thrown := WrapError(hub, error, Capture);
      if thrown.Some? {
        return Throw(thrown.value);
      }
      outcome := Normal(true);
    }

    /** `node.on('input', ...)` for one message. */
    method Input(msg: Message)
      modifies this, hub, msg
      ensures var run := Handle(old(msg.fields));
        && hub.trace == old(hub.trace) + run.trace
        && msg.fields == old(msg.fields)["payload" := Payload(run.sent)]
        && outputs == old(outputs) + (if run.caught.Some? then [Logged(run.caught.value)] else [])
                      + [Sent(msg.fields)]
    {
      ghost var start, run := hub.trace, Handle(msg.fields);
      ApplyConfig(Field(msg.fields, "sentry"));
      var errorSent := false;
      var outcome := TryReport(Field(msg.fields, "error"), Field(msg.fields, "_error"));
      assert hub.trace == start + run.trace;
      match outcome {
        case Normal(sent) =>
          errorSent := sent;
        case Throw(e) =>
          outputs := outputs + [Logged(e)];
      }
      msg.fields := msg.fields["payload" := Payload(errorSent)];
      outputs := outputs + [Sent(msg.fields)];
    }
  }

  /** `sent` holds exactly when `msg.error` is an error record and nothing
      throws; the three reads of null that throw are named. Over the
      values modelled here they are the only exceptions; the throws of
      `JSON.stringify` and of text conversion are not modelled. */
  lemma SentAndCaught(msg: map<string, JsValue>)
    ensures var error, previous, run := Field(msg, "error"), Field(msg, "_error"), Handle(msg);
      && (run.sent <==> IsErrorRecord(error) && !previous.Null? && !SourceOf(error).Null?)
      && (run.caught == Some(TypeError("message")) <==>
            error.Null? || (IsErrorRecord(error) && previous.Null?))
      && (run.caught == Some(TypeError("id")) <==>
            IsErrorRecord(error) && !previous.Null? && SourceOf(error).Null?)
      && (run.caught.Some? ==> !run.sent)
      && (run.caught.Some? ==> run.caught == Some(TypeError("message")) || run.caught == Some(TypeError("id")))
  {
  }

  /** One `withScope` entry of `wrapError` reports exactly what its
      callback does with the wrapped Error, and sets no user. */
  lemma ScopeEntryReports(error: JsValue, callback: Callback)
    requires IsErrorRecord(error) && !SourceOf(error).Null?
    ensures Reports([WithScope(ScopeCalls(error, callback))]) == CallbackCalls(callback, WrappedError(error))
    ensures UsersSet([WithScope(ScopeCalls(error, callback))]) == []
  {
    WrapErrorReports(error, callback);
    ReportsSingle(WithScope(ScopeCalls(error, callback)));
    UsersSetSingle(WithScope(ScopeCalls(error, callback)));
  }

  /** The breadcrumbs and captures of the try block. */
  lemma ReportRunReports(error: JsValue, previous: JsValue)
    ensures var r := ReportRun(error, previous);
      Reports(r.calls) ==
        if r.outcome == Normal(true) then
          (if IsErrorRecord(previous)
           then [AddBreadcrumb(Breadcrumb("previous_error", WrappedError(error), "error", SeverityError))]
           else [])
          + [CaptureException(WrappedError(error))]
        else []
    ensures UsersSet(ReportRun(error, previous).calls) == []
  {
    var r := ReportRun(error, previous);
    if r.calls == [WithScope([])] {
      ReportsSingle(WithScope([]));
      UsersSetSingle(WithScope([]));
    } else if r.outcome == Normal(true) {
      var capture := WithScope(ScopeCalls(error, Capture));
      ScopeEntryReports(error, Capture);
      if IsErrorRecord(previous) {
        var crumb := WithScope(ScopeCalls(error, RecordBreadcrumb));
        ScopeEntryReports(error, RecordBreadcrumb);
        assert r.calls == [crumb] + [capture];
        ReportsAppend([crumb], [capture]);
        UsersSetAppend([crumb], [capture]);
      } else {
        assert r.calls == [capture];
      }
    }
  }

  /** The calls for `msg.sentry` set the user and report nothing. */
  lemma ConfigCallsContents(config: JsValue)
    ensures Reports(ConfigCalls(config)) == []
    ensures UsersSet(ConfigCalls(config)) ==
      if IsValidObject(config) && IsValidObject(Get(config, "user"))
      then [MappedUser(Get(config, "user"))]
      else []
  {
    if ConfigCalls(config) != [] {
      ReportsSingle(ConfigCalls(config)[0]);
      UsersSetSingle(ConfigCalls(config)[0]);
    }
  }

  /** The breadcrumbs and captures of one run: none unless `sent`; when
      `sent`, one capture of `msg.error`, preceded by one `previous_error`
      breadcrumb wrapped from `msg.error` (not `msg._error`) exactly when
      `msg._error` is an error record too. */
  lemma HandleReports(msg: map<string, JsValue>)
    ensures var error, previous, run := Field(msg, "error"), Field(msg, "_error"), Handle(msg);
      Reports(run.trace) ==
        if run.sent then
          (if IsErrorRecord(previous)
           then [AddBreadcrumb(Breadcrumb("previous_error", WrappedError(error), "error", SeverityError))]
           else [])
          + [CaptureException(WrappedError(error))]
        else []
  {
    var config := ConfigCalls(Field(msg, "sentry"));
    var r := ReportRun(Field(msg, "error"), Field(msg, "_error"));
    ReportsAppend(config, r.calls);
    ConfigCallsContents(Field(msg, "sentry"));
    ReportRunReports(Field(msg, "error"), Field(msg, "_error"));
  }

  /** Both `msg.error` and `msg._error` are error records (and the source
      is not null): exactly one breadcrumb, then exactly one capture, both
      of the Error wrapped from `msg.error`, and `sent`. */
  lemma BreadcrumbThenCapture(msg: map<string, JsValue>)
    requires IsErrorRecord(Field(msg, "error")) && IsErrorRecord(Field(msg, "_error"))
    requires !SourceOf(Field(msg, "error")).Null?
    ensures var e := WrappedError(Field(msg, "error"));
      && Handle(msg).sent && Handle(msg).caught == None
      && Reports(Handle(msg).trace) ==
           [AddBreadcrumb(Breadcrumb("previous_error", e, "error", SeverityError)), CaptureException(e)]
      && e.data == Field(msg, "error")
  {
    HandleReports(msg);
  }

  /** A null `msg._error` next to a valid `msg.error` throws before any
      capture: nothing is reported and `sent` stays false. */
  lemma NullPreviousErrorCapturesNothing(msg: map<string, JsValue>)
    requires IsErrorRecord(Field(msg, "error")) && Field(msg, "_error").Null?
    ensures Reports(Handle(msg).trace) == []
    ensures !Handle(msg).sent && Handle(msg).caught == Some(TypeError("message"))
  {
    HandleReports(msg);
  }

  /** The scope user is set at most once per message: exactly when both
      `msg.sentry` and `msg.sentry.user` pass `isValidObject`, and then to
      the mapped user. A malformed `user` leaves the user untouched. */
  lemma UserSetOnlyFromValidConfig(msg: map<string, JsValue>)
    ensures var config := Field(msg, "sentry");
      UsersSet(Handle(msg).trace) ==
        if IsValidObject(config) && IsValidObject(Get(config, "user"))
        then [MappedUser(Get(config, "user"))]
        else []
  {
    var config := ConfigCalls(Field(msg, "sentry"));
    var r := ReportRun(Field(msg, "error"), Field(msg, "_error"));
    UsersSetAppend(config, r.calls);
    ConfigCallsContents(Field(msg, "sentry"));
    ReportRunReports(Field(msg, "error"), Field(msg, "_error"));
  }
}
