# Sentry node for Node-RED: a Dafny model

This project models `sentry/sentry.js`, a Node-RED node that turns flow
errors into exceptions for the Sentry error sink. The model covers the
whole file apart from its wiring into Node-RED and the SDK set-up:

- **Shape checks.** `isValidObject` and `isValidErrorObject` work over a
  small datatype of JavaScript values (`JsValues.JsValue`). That datatype has
  `typeof`, truthiness, property reads and template-literal text.
  `isValidErrorObject` throws on `null`, and the model keeps that throw.
- **`wrapError`.** The message parser pulls a `\w+Error` tag off the front of
  the message, and the `source_node` label is built from the error's source.
  One `withScope` block then sets the tags and extras and hands the callback
  an Error. That Error carries the rewritten message, the stack
  `source node: <label>`, and the record as `data`. The method is imperative,
  like the source. It builds the scope call by call and is proved against a
  description of the whole block.
- **The `input` handler.** It fills the user object field by field. Then, in
  a try/catch, it records a breadcrumb and a capture. It sets `payload` to
  `{sent}` and sends the message.

The Sentry SDK is modelled as a trace of calls (`SentryTrace.Hub`). Each
`withScope` block is one entry that holds the calls made on its scope.
Node-RED's `node.send` and `node.error` are output events of the node object.

The model keeps the file's quirks:

- every identity field overwrites `user.id`;
- the breadcrumb is wrapped from `msg.error`, not from `msg._error`;
- `handled` is always the boolean `false`;
- a `null` `msg.error`, a `null` `msg._error` or a `null` `source` throws. The
  exception is caught, reported through `node.error`, and `sent` stays false.

## Model

| member | source | states |
|---|---|---|
| `Validation.IsValidObject` | sentry/sentry.js:9-13 | holds iff the value is an array or object (typeof 'object', not null) with at least one own key: a non-empty array passes, `{}`, `null` and primitives fail |
| `Validation.IsValidErrorObject` | sentry/sentry.js:19-21 | throws (reading `message`) exactly on `null`; is true exactly for an object whose `message` is a string and whose `source` has typeof 'object' (null included) |
| `ErrorText.WordRunLength` | sentry/sentry.js:32 | the length of the longest leading run of `\w` characters: every character before it is a word character, the one at it is not |
| `ErrorText.MatchErrorTypeIsRegex` | sentry/sentry.js:32-38 | the extracted error type is `Some(tag)` iff `^(\w+Error):\s` matches with capture `tag` (one or more word characters, then `Error`, then `:` and one white space); it is `None` iff the pattern does not match |
| `ErrorText.MatchStripRoundTrip` | sentry/sentry.js:31-38 | on a match, the original message equals tag + `:` + the white space character + the cleaned message; without a match the message is unchanged |
| `ErrorText.TaggedMessageParses` | sentry/sentry.js:32-35 | for every `\w+Error` tag, white space character and text, parsing tag + `:` + space + text gives back that tag and that text |
| `ErrorText.BareErrorHasNoTag` | sentry/sentry.js:32-37 | a message starting `Error: ` (no word character before `Error`) yields no tag and keeps its text |
| `ErrorText.TypeErrorExample` | sentry/sentry.js:32-35 | `TypeError: bad thing happened` gives the tag `TypeError` and the message `bad thing happened` |
| `ErrorText.MatchErrorType` | sentry/sentry.js:32-34 | `message.match(/^(\w+Error)\:\s/)` reduced to the capture; a returned tag satisfies the literal reading of the pattern: six or more word characters ending in `Error`, a prefix of the message, followed by `:` and one white space character |
| `ErrorText.StripErrorPrefix` | sentry/sentry.js:35 | `message.replace(...)` with the same pattern: without a match the message is unchanged; with a match the result is the message after the matched tag, the colon and the white space character |
| `ErrorText.SplitErrorType` | sentry/sentry.js:31-38 | the statements that read the message, match the tag and strip it on a match leave exactly the matched tag and the stripped message |
| `ErrorText.SourceNodeTag` | sentry/sentry.js:40-41 | writing the id and a space, then overwriting with `(name)` when the name is truthy, leaves exactly the `source_node` label |
| `ErrorText.SourceLabel` | sentry/sentry.js:40-41 | the `source_node` label: `(` + name + `)` when `source.name` is truthy, otherwise the id text followed by one space; the contract pins the brackets and the trailing space |
| `ErrorText.SourceLabelOfStrings` | sentry/sentry.js:40-41 | with a string id, a non-empty string name gives `(name)`; a falsy name (missing, undefined, null, false, 0 or empty) gives the id plus one trailing space |
| `SentryTrace.ReportsAppend` | sentry/sentry.js:95-102 | the breadcrumbs and captures of two consecutive stretches of SDK calls are those of each, in order |
| `SentryTrace.Hub.SetUser` | sentry/sentry.js:78-86 | `configureScope(scope => scope.setUser(user))` appends one user-setting call and nothing else |
| `SentryTrace.Hub.PopScope` | sentry/sentry.js:29-57 | a `withScope` block ends by recording everything done on its scope, whether the callback returned or threw |
| `Wrapping.WrappedError` | sentry/sentry.js:51-54 | the Error handed to the callback: the cleaned message, the stack `source node: <label>`, the record as `data`; its contract says `data` is the record and the message is untouched when no tag was extracted |
| `Wrapping.TagCalls` | sentry/sentry.js:43-45 | the tag calls: `error_type` only when a tag was extracted, then `source_node`, then `handled`; three calls with a tag, two without, the last always `handled` = false |
| `Wrapping.ExtraCalls` | sentry/sentry.js:46-50 | the five extra calls, the four `source` fields then the JSON of the source, which comes last |
| `Wrapping.CallbackCalls` | sentry/sentry.js:95-102 | what the callback does with the Error: the breadcrumb callback adds `{category: 'previous_error', message: err, type: 'error', level: Severity.Error}`, the capture callback captures it; one report call for a function, none for a non-function |
| `Wrapping.ScopeCalls` | sentry/sentry.js:43-56 | everything one successful `wrapError` does on its scope: tags, extras, then the callback's call; at least seven calls, and the last is a breadcrumb or capture iff the callback is a function |
| `Wrapping.WrapError` | sentry/sentry.js:28-58 | with a null source, throws reading `id` after the scope is pushed and before anything is set; otherwise the one recorded scope holds the tags, then the extras, then the callback's call when it is a function |
| `Wrapping.SetTags` | sentry/sentry.js:43-45 | the three tag statements append exactly the tag calls to the scope |
| `Wrapping.SetExtras` | sentry/sentry.js:46-50 | the five extra statements append exactly the extra calls to the scope |
| `Wrapping.HandOver` | sentry/sentry.js:51-56 | a function callback makes its one call with the Error; a non-function makes none |
| `Wrapping.WrapErrorScope` | sentry/sentry.js:43-50 | the scope's tags are exactly `source_node` (the label) and `handled` (false), plus `error_type` iff a tag was extracted, with that tag; its extras are exactly `source.id`, `source.name`, `source.type`, `source.count` and the JSON of the source |
| `Wrapping.WrappedErrorContents` | sentry/sentry.js:31-38 | the Error's message is the cleaned message (tag + `:` + white space + message gives back the original); its stack is exactly `source node: ` + label; its data is the original record |
| `Wrapping.WrapErrorReports` | sentry/sentry.js:51-56 | a function callback receives exactly one Error, the last call of the block: one `previous_error` breadcrumb or one capture; a non-function receives none |
| `InputHandler.MappedUser` | sentry/sentry.js:79-83 | the user object: no key but `id`, and a present `id` holds a truthy value |
| `InputHandler.MappedUserIsLastTruthy` | sentry/sentry.js:79-83 | the user has no key but `id`; it has `id` iff one of `id`, `username`, `email`, `ip_address` is truthy, and then holds the last truthy one in that order |
| `InputHandler.BuildUser` | sentry/sentry.js:79-83 | filling the user field by field, each truthy field overwriting `id`, gives exactly the mapped user |
| `InputHandler.UserSetOnlyFromValidConfig` | sentry/sentry.js:75-87 | the scope user is set once, to the mapped user, iff `msg.sentry` and `msg.sentry.user` both pass `isValidObject`; otherwise it is never set |
| `InputHandler.ConfigCallsContents` | sentry/sentry.js:75-87 | the configuration step reports nothing and sets at most the mapped user |
| `InputHandler.ConfigCalls` | sentry/sentry.js:75-87 | the calls made for `msg.sentry`: at most one, a user-setting call, made iff `msg.sentry` and `msg.sentry.user` both pass `isValidObject` |
| `InputHandler.ReportRun` | sentry/sentry.js:92-104 | the try block as a value: it ends with `errorSent = true` iff `msg.error` is valid, `msg._error` is not null and the source is not null; with `false` iff `msg.error` is neither valid nor null; any throw reads `message` or `id`; one or two scope entries when sent, at most one otherwise |
| `InputHandler.Handle` | sentry/sentry.js:91-109 | one run of the handler: `sent` and a caught exception never go together, a caught exception reads `message` or `id`, and the SDK sees at most three calls |
| `InputHandler.SentryNode.ApplyConfig` | sentry/sentry.js:75-88 | the SDK receives exactly the configuration calls: the mapped user iff `msg.sentry` and `msg.sentry.user` both pass `isValidObject`, otherwise nothing |
| `InputHandler.SentryNode.TryReport` | sentry/sentry.js:92-104 | the try block checks `msg.error`, then `msg._error`, wraps `msg.error` for a breadcrumb when `_error` is valid, then for a capture, and ends with `errorSent = true` or with the first exception thrown |
| `InputHandler.ReportRunReports` | sentry/sentry.js:92-104 | the try block reports nothing unless it completes with `errorSent = true`; then one capture of `msg.error`, preceded by one breadcrumb of `msg.error` iff `msg._error` is valid; it never sets a user |
| `InputHandler.SentAndCaught` | sentry/sentry.js:91-107 | `sent` iff `msg.error` is valid, `msg._error` is not null and the source is not null; the caught exception reads `message` iff `msg.error` is null or a valid `msg.error` meets a null `_error`; it reads `id` iff the source is null; for the values modelled, nothing else is caught |
| `InputHandler.HandleReports` | sentry/sentry.js:91-104 | across the whole handler: no capture unless `sent`; when `sent`, one capture of the Error wrapped from `msg.error`, preceded by one `previous_error` breadcrumb wrapped from `msg.error` (not `msg._error`) iff `msg._error` is valid |
| `InputHandler.BreadcrumbThenCapture` | sentry/sentry.js:94-103 | when `msg.error` and `msg._error` are both valid (and the source is not null): exactly one breadcrumb then exactly one capture, both of `msg.error`, nothing caught, and `sent` |
| `InputHandler.NullPreviousErrorCapturesNothing` | sentry/sentry.js:93-107 | a valid `msg.error` with a null `msg._error` throws reading `message`: nothing is reported and `sent` is false |
| `InputHandler.Payload` | sentry/sentry.js:108 | `{sent: errorSent}`: an object whose only key is `sent`, holding the flag, truthy exactly when the flag is |
| `InputHandler.SentryNode.Input` | sentry/sentry.js:72-110 | the SDK receives exactly the handler's calls; `msg.payload` becomes `{sent}` and no other field of `msg` changes; `node.error` is called once iff an exception was caught, and then the message is sent exactly once |

## Left out

- `Sentry.init` with the DSN and environment (sentry/sentry.js:70) is one-time SDK set-up with no logic of its own.
- Node creation and registration (`RED.nodes.createNode`, `registerType`, the `input` event delivery) are left out. `node.send` and `node.error` are single output events of `SentryNode`. The `send` and `done` arguments of the handler are unused by the file and are not modelled.
- SDK internals are not modelled. This covers scope pushing and popping, whether a breadcrumb added inside a popped scope survives, transport and batching. The SDK is only the recorded trace of calls.
- `JSON.stringify(err.source)` is an opaque serialisation (`JsonOf(source)`). Its text is not modelled.
- Numbers are integers. NaN, fractions, infinities and the exponent form that `String` uses for very large numbers are not modelled. Truthiness of a number is `n != 0`.
- Property reads see only an object's own properties. Getters, inherited properties, array indices and `length` are not modelled. The node never reads any of them. Template text of an object is `[object Object]`, so a custom `toString` is not modelled.
- Function values are not among the JavaScript values. A function-valued field fails both shape checks, just as an `undefined` one does. The callback passed to `wrapError` is its own datatype.
- `node.send(msg)` passes the message object by reference. The model records a snapshot of its fields, so later aliasing is not modelled.
- The stack trace with several frames and the node lookup are not in this file, so they are not modelled.
- Values are finite trees: there are no cyclic objects, Symbols, BigInts or objects whose text conversion fails. So the throws of `JSON.stringify(err.source)` (sentry/sentry.js:50) on a cycle or a BigInt, and of the template text at sentry/sentry.js:40-41 on a Symbol, are not modelled. In the source such a throw would be caught at sentry/sentry.js:105 and leave `sent` false.
- Strings are sequences of Unicode scalar values, whereas JavaScript strings are UTF-16 code units, so a lone surrogate cannot be expressed. The parser only inspects a leading ASCII run and one white space character from the Basic Multilingual Plane, so its behaviour is unaffected.
