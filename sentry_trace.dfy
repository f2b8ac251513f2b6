/** The error sink (the Sentry SDK) as the node drives it: a recorded trace
    of the calls the node makes, in order. A `withScope` block is one entry
    holding the calls made on its temporary scope. */
module SentryTrace {
  import opened JsValues

  /** The native `Error` the node builds: its message, its (overridden)
      stack text and the `data` it carries. */
  datatype ErrorObject = ErrorObject(message: string, stack: string, data: JsValue)

  /** `Sentry.Severity.Error`. */
  const SeverityError := "error"

  /** The argument of `Sentry.addBreadcrumb`; its `message` is the Error
      object itself, as the node passes it. */
  datatype Breadcrumb = Breadcrumb(category: string, message: ErrorObject, kind: string, level: string)

  /** A value handed to `scope.setExtra`. `JSON.stringify(v)` is kept as an
      opaque serialisation of `v`. */
  datatype Extra = Plain(value: JsValue) | JsonOf(serialised: JsValue)

  /** A call made while a scope pushed by `withScope` is current. */
  datatype ScopeCall =
    | SetTag(key: string, tag: JsValue)
    | SetExtra(key: string, extra: Extra)
    | AddBreadcrumb(crumb: Breadcrumb)
    | CaptureException(error: ErrorObject)

  /** A top-level call on the SDK. */
  datatype SinkCall =
    | SetUser(user: map<string, JsValue>)
    | WithScope(calls: seq<ScopeCall>)

  predicate IsReport(c: ScopeCall) {
    c.AddBreadcrumb? || c.CaptureException?
  }

  /** The breadcrumbs and captures among `calls`, in order. */
  function ReportsIn(calls: seq<ScopeCall>): seq<ScopeCall> {
    if calls == [] then []
    else
      var last := calls[|calls| - 1];
      ReportsIn(calls[..|calls| - 1]) + (if IsReport(last) then [last] else [])
  }

  /** The breadcrumbs and captures of a whole trace, in order. */
  function Reports(trace: seq<SinkCall>): seq<ScopeCall> {
    if trace == [] then []
    else
      var last := trace[|trace| - 1];
      Reports(trace[..|trace| - 1]) + (if last.WithScope? then ReportsIn(last.calls) else [])
  }

  lemma {:induction false} ReportsAppend(a: seq<SinkCall>, b: seq<SinkCall>)
    ensures Reports(a + b) == Reports(a) + Reports(b)
    decreases |b|
  {
    if b != [] {
      var b' := b[..|b| - 1];
      assert (a + b)[..|a + b| - 1] == a + b';
      ReportsAppend(a, b');
    } else {
      assert a + b == a;
    }
  }

  /** The users set during a trace, in order. */
  function UsersSet(trace: seq<SinkCall>): seq<map<string, JsValue>> {
    if trace == [] then []
    else
      var last := trace[|trace| - 1];
      UsersSet(trace[..|trace| - 1]) + (if last.SetUser? then [last.user] else [])
  }

  lemma {:induction false} UsersSetAppend(a: seq<SinkCall>, b: seq<SinkCall>)
    ensures UsersSet(a + b) == UsersSet(a) + UsersSet(b)
    decreases |b|
  {
    if b == [] {
      assert a + b == a;
    } else {
      var b' := b[..|b| - 1];
      assert (a + b)[..|a + b| - 1] == a + b';
      UsersSetAppend(a, b');
    }
  }

  /** A trace of one call. */
  lemma ReportsSingle(c: SinkCall)
    ensures Reports([c]) == if c.WithScope? then ReportsIn(c.calls) else []
  {
    assert [c][..0] == [];
  }

  lemma UsersSetSingle(c: SinkCall)
    ensures UsersSet([c]) == if c.SetUser? then [c.user] else []
  {
    assert [c][..0] == [];
  }

  /** The scope current inside one `withScope` callback. */
  class Scope {
    var calls: seq<ScopeCall>

    constructor ()
      ensures calls == []
    {
      calls := [];
    }

    method SetTag(key: string, value: JsValue)
      modifies this
      ensures calls == old(calls) + [ScopeCall.SetTag(key, value)]
    {
      calls := calls + [ScopeCall.SetTag(key, value)];
    }

    method SetExtra(key: string, value: Extra)
      modifies this
      ensures calls == old(calls) + [ScopeCall.SetExtra(key, value)]
    {
      calls := calls + [ScopeCall.SetExtra(key, value)];
    }

    method AddBreadcrumb(crumb: Breadcrumb)
      modifies this
      ensures calls == old(calls) + [ScopeCall.AddBreadcrumb(crumb)]
    {
      calls := calls + [ScopeCall.AddBreadcrumb(crumb)];
    }

    method CaptureException(error: ErrorObject)
      modifies this
      ensures calls == old(calls) + [ScopeCall.CaptureException(error)]
    {
      calls := calls + [ScopeCall.CaptureException(error)];
    }
  }

  /** The SDK as a whole: every call the node has made on it. */
  class Hub {
    var trace: seq<SinkCall>

    constructor ()
      ensures trace == []
    {
      trace := [];
    }

    /** `Sentry.configureScope(scope => scope.setUser(user))`. */
    method SetUser(user: map<string, JsValue>)
      modifies this
      ensures trace == old(trace) + [SinkCall.SetUser(user)]
    {
      trace := trace + [SinkCall.SetUser(user)];
    }

    /** The end of a `withScope` block: the scope is popped, whether its
        callback returned or threw, and what was done on it is recorded. */
    method PopScope(scope: Scope)
      modifies this
      ensures trace == old(trace) + [WithScope(scope.calls)]
    {
      trace := trace + [WithScope(scope.calls)];
    }
  }
}
