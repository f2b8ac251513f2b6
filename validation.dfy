/** The two shape checks of the sentry node (sentry/sentry.js:9-21). */
module Validation {
  import opened JsValues

  /** `isValidObject`: typeof is 'object', the value is not null, and it has
      at least one own key. So a non-empty array passes and `{}` fails. */
  predicate IsValidObject(v: JsValue)
    ensures IsValidObject(v) <==> (v.Arr? && |v.elems| > 0) || (v.Obj? && |v.props| > 0)
  {
    TypeOf(v) == ObjectType && !v.Null? && OwnKeyCount(v) > 0
  }

  /** `isValidErrorObject`: typeof is 'object', `message` is a string and
      `source` has typeof 'object' (which admits null). On `null` the read
      of `message` throws. */
  function IsValidErrorObject(err: JsValue): (r: Completion<bool>)
    ensures r.Throw? <==> err.Null?
    ensures r.Throw? ==> r.error == TypeError("message")
    ensures r == Normal(true) <==>
      err.Obj? && "message" in err.props && err.props["message"].Str? &&
      "source" in err.props && TypeOf(err.props["source"]) == ObjectType
  {
    if TypeOf(err) != ObjectType then Normal(false)
    else if err.Null? then Throw(TypeError("message"))
    else Normal(TypeOf(Get(err, "message")) == StringType && TypeOf(Get(err, "source")) == ObjectType)
  }

  /** An error record that passed `isValidErrorObject`. */
  predicate IsErrorRecord(err: JsValue) {
    IsValidErrorObject(err) == Normal(true)
  }

  /** `err.message` of a valid record; `String(...)` leaves a string alone. */
  function MessageOf(err: JsValue): string
    requires IsErrorRecord(err)
  {
    Get(err, "message").s
  }

  /** `err.source` of a valid record: null, an array or an object. */
  function SourceOf(err: JsValue): (source: JsValue)
    requires IsErrorRecord(err)
    ensures source.Null? || source.Arr? || source.Obj?
  {
    Get(err, "source")
  }
}
