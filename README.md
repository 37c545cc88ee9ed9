# recurly-webhook-server, modelled in Dafny

The server receives Recurly webhook callbacks over HTTP. One request goes
through this pipeline in `lib/server.js`:

1. It is refused if the path or the method is wrong.
2. Its body is buffered.
3. Its basic-auth credentials are checked against the configured pair.
4. Its XML body is parsed.
5. The event is republished on the server's event emitter:
   - on `Recurly.*` with the event name and the data;
   - then on `Recurly.<root tag>` with the data.

Every error reply is also announced on `Recurly.error`.

The model is made of these modules, plus `Scenarios` below:

- `Values` holds the values shared by the other modules. The effects of a request are one trace of `Effect`s. An `Emit(key, args)` is an emission on the hook and a `Send(response)` is the reply. The trace keeps them in the order they happen. The functions `Sends` and `EmitsOn` read the replies and the emissions on one channel back out of a trace.
- `Replies` models `reply`. It maps a status to its lower-cased reason phrase and an `ok`/`error` result. It emits on the error channel before the response is written.
- `Parsing` models `parse` and the `'Recurly.' + event` channel name. The XML parser is an oracle: its outcome is an input of the model.
- `Hook` models the `RecurlyHook` constructor and its option defaults.
- `Handler` models `serverHandler`. The class `Request` holds the closure state: `buffer`, `bufferLength`, `failed`, the incoming name and password, and the trace. Its methods are the route check `Route`, the `data` callback `OnData` and the `end` callback `OnEnd`. Each method's contract says exactly what the new state is, including what stays unchanged. The object invariant `Valid` says that `bufferLength` is the total length of `buffer`. It also says that a failed request buffers nothing. The pure function `Handle` gives the whole trace of a request from its inputs. `Serve` runs one request through `Route`, one `OnData` per chunk and `OnEnd`, and is proved to produce exactly `Handle`'s trace.
- `Properties` states what every request gets:
  - exactly one reply, as the last effect;
  - 404 for a foreign path, whatever else the request carries;
  - 405 for a method other than POST;
  - 403 for credentials that are not strictly equal to the configured ones, without parsing;
  - 400 for a body without a usable event;
  - 200 exactly when the event is dispatched, after the wildcard and specific emissions, in that order.

`Scenarios` describes four concrete exchanges through `Serve` (verified, not executed): an accepted notification, a wrong password, a GET and a foreign path.

Two consequences of the code are proved. They are not claimed as defects:

- A server built without a username or a password refuses every request. The unset option becomes `false`, and an incoming name is always a string (`''` without an auth header). `Properties.UnconfiguredServerRejectsAll` proves this.
- The specific channel of a root tag `error` is `Recurly.error`, the error channel. Such a request is answered 200, and the error channel then receives the parsed data alone. For the same reason, a root tag `*` would reach the wildcard channel twice. `Properties.ErrorChannelHearsFailures` and `Properties.WildcardHearsSuccesses` state both.

Some behaviours of the code are easy to misread. The model follows the code:

- The event name is the first key of the parser's result object, not "the root tag" as such.
- An empty first key counts as a missing event, since `''` is falsy.
- The error channel is not reserved for failures, as the previous paragraph shows.
- `Content-Length` is the JavaScript string length of the JSON text, not a byte count. The model leaves this header out.

## Model

| member | source | states |
|---|---|---|
| Replies.LowerChar | lib/server.js:12 | an ASCII upper-case letter is shifted to lower case, every other character is kept, and the result is never upper case |
| Replies.ToLower | lib/server.js:12 | `toLowerCase` keeps the length, lowers each character exactly as `LowerChar` does, and leaves no upper-case letter |
| Replies.StatusMessage | lib/server.js:12 | the reply's `message` is the status's reason phrase, not empty, with each character lowered by `LowerChar` |
| Replies.ResultOf | lib/server.js:13 | the result is `error` exactly for statuses of 400 and above, `ok` exactly below |
| Replies.ReplyEffects | lib/server.js:11-29 | `reply` sends exactly one response carrying the status, the lower-cased phrase and the result, as its last effect; the error channel gets `(Error(message), {message, result})` exactly when the status is 400 or above; no other channel gets anything |
| Replies.StatusMessages | lib/server.js:12 | the five statuses read `ok`, `bad request`, `forbidden`, `not found`, `method not allowed` |
| Parsing.FirstKey | lib/server.js:34 | `Object.keys(result)[0]` is present exactly when the object has a key, and is then its first key |
| Parsing.Parse | lib/server.js:31-37 | a parser error or a null result is a failure; otherwise the callback gets the result object and its first key as the event |
| Parsing.Dispatchable | lib/server.js:88 | a parse result is dispatched exactly when it is not an error and its event is present and not the empty string; the pair is then the event and the data |
| Parsing.EventKey | lib/server.js:97 | the specific channel is `Recurly.` followed by the event name |
| Parsing.EventKeyInjective | lib/server.js:97 | two events share a channel exactly when they are the same event |
| Parsing.EventKeyMeetsFixedChannels | lib/server.js:97 | an event's channel is `Recurly.error` exactly for event `error` and `Recurly.*` exactly for event `*` |
| Hook.StringOr | lib/server.js:127 | `option \|\| default` keeps a non-empty string and otherwise gives the default, so a non-empty default gives a non-empty result |
| Hook.PortOr | lib/server.js:126 | `port \|\| 3420` keeps a non-zero port and otherwise gives the default |
| Hook.CredentialOr | lib/server.js:128-129 | an unset or empty credential becomes `false`, and a set one is kept as a non-empty string |
| Hook.CredentialMatch | lib/server.js:128-129 | an incoming string is strictly equal to the configured credential exactly when that option was set to this string; an unset credential matches nothing |
| Hook.RecurlyHook.constructor | lib/server.js:120-136 | every field is its option or its default (port 3420, host `0.0.0.0`, path `/recurly/callback`, credentials `false`); a missing options object counts as an empty one |
| Values.StrictEquals | lib/server.js:80 | `===` holds exactly for two strings with the same text or two booleans with the same value; a string never equals a boolean |
| Handler.Concat | lib/server.js:54-55 | the concatenated body is as long as the chunks' total length |
| Handler.ConcatSplit | lib/server.js:65-72 | concatenation splits at any point, so earlier chunks' bytes come first |
| Handler.BufferConcat | lib/server.js:72 | `Buffer.concat(list, n)` has length `n`, agrees with the concatenation up to `n` and pads with zero bytes |
| Handler.BufferConcatExact | lib/server.js:72 | with the buffered total as `n`, `Buffer.concat` is exactly the concatenation |
| Handler.LastChunks | lib/server.js:65-68 | a chunk given to `end` adds exactly that chunk, an absent one none |
| Handler.Body | lib/server.js:54-72 | the parsed body is the `data` chunks followed by the `end` chunk, and its length is the sum of theirs |
| Handler.RouteStatus | lib/server.js:105-117 | 404 exactly for a foreign path, 405 exactly for a non-POST on the configured path, no refusal exactly for a POST to it |
| Handler.RouteEffects | lib/server.js:105-117 | the route check's effects are the 404 reply for a foreign path, the 405 reply for a non-POST on the path, and nothing exactly for a POST to it |
| Handler.IncomingCredentials | lib/server.js:47-48 | the incoming name and password are the decoded header's, or two empty strings when there is no header |
| Handler.Authorized | lib/server.js:75-80 | the credentials pass exactly when both configured values are the strings decoded from the header, or both are `''` when there is no header; passing requires both to be strings |
| Handler.Dispatch | lib/server.js:96-97 | a dispatch sends no reply; it emits on `Recurly.*` with the event name and data first, then on `Recurly.<event>` with the data |
| Handler.EndEffects | lib/server.js:58-101 | `end` on a routed request answers exactly once, as its last effect: 403 for bad credentials, else 400 for an unusable parse, else 200 |
| Handler.Handle | lib/server.js:39-118 | a request's trace is the route check's effects, followed by `end`'s effects exactly when the route check passed |
| Handler.Request.constructor | lib/server.js:43-49 | a new request has an empty buffer, length 0, is not failed, has empty incoming credentials and no effects |
| Handler.Request.Reply | lib/server.js:11-29 | a reply appends exactly `reply`'s effects to the trace and changes nothing else |
| Handler.Request.EmitOn | lib/server.js:96-97 | an emission appends one `Emit` to the trace and changes nothing else |
| Handler.Request.Route | lib/server.js:103-117 | after the route check the request is failed exactly when path or method is wrong, and the trace holds exactly the 404 or 405 reply, or nothing |
| Handler.Request.OnData | lib/server.js:51-56 | a failed request keeps buffer and length unchanged; otherwise the chunk is appended and its length added, keeping the length equal to the buffer's total |
| Handler.Request.Push | lib/server.js:54-55 | a pushed chunk is appended to the buffer and its length added, keeping the length equal to the buffer's total |
| Handler.Request.Contents | lib/server.js:72 | `Buffer.concat(buffer, bufferLength)` is exactly the buffered bytes in arrival order |
| Handler.Request.OnEnd | lib/server.js:58-101 | a failed request gets no effect and no buffering at `end`; otherwise the final chunk is buffered, the incoming name and password are the header's or `''`, and the trace grows by exactly the credential, parse and dispatch effects of the whole body |
| Handler.Request.CheckAndDispatch | lib/server.js:74-100 | the incoming name and password become the header's or stay `''`, and the effects after the body is complete are 403 for bad credentials, else 400 for an unusable parse, else the two emissions then 200 |
| Handler.Request.Answer | lib/server.js:80-100 | with the incoming name and password set from the header, the trace grows by exactly the 403 reply for bad credentials, else the 400 reply for an unusable parse, else the two emissions then the 200 reply |
| Handler.Serve | lib/server.js:39-118 | one request driven through route check, each `data` chunk in order and `end` produces exactly `Handle`'s trace |
| Properties.Dispatched | lib/server.js:86-99 | a request dispatches exactly when it is a POST to the configured path with matching credentials whose parsed object has a non-empty first key; the pair is that key and the object |
| Properties.SuccessTrace | lib/server.js:96-99 | a success is exactly: `Recurly.*` with name and data, then `Recurly.<event>` with data, then the 200 `ok` reply |
| Properties.NotificationTrace | lib/server.js:86-99 | an authorised POST whose parsed document has a non-empty first key `T` yields exactly `Recurly.*` with `T` and the document, `Recurly.T` with the document, and the 200 `ok` reply |
| Properties.ExactlyOneReply | lib/server.js:39-118 | every request gets exactly one reply with status 200, 400, 403, 404 or 405, and it is the last effect |
| Properties.ReplyOf | lib/server.js:39-118 | the one reply of a request has one of the reply table's statuses |
| Properties.WrongPathGets404 | lib/server.js:106-110 | a foreign path gets the 404 effects whatever the method, credentials, body or parser; reply `not found`/`error`, error-channel emission, no dispatch |
| Properties.WrongMethodGets405 | lib/server.js:113-117 | a non-POST on the configured path gets the 405 effects whatever the credentials, body or parser; no dispatch |
| Properties.BadCredentialsGet403 | lib/server.js:75-84 | a POST with credentials that are not strictly equal gets the 403 effects whatever the parser says; nothing but the error channel is emitted on |
| Properties.UnconfiguredServerRejectsAll | lib/server.js:128-129 | with no username or no password configured, no request dispatches and every reply is 403, 404 or 405 |
| Properties.BadPayloadGets400 | lib/server.js:86-91 | an authorised POST whose body fails to parse, parses to null, to no keys or to an empty first key gets 400 `bad request`, with the error-channel emission and no dispatch |
| Properties.SuccessIffDispatched | lib/server.js:86-99 | the reply is 200 `ok` exactly when the request dispatches, and the trace is then the wildcard emission, the specific emission and the reply, in that order |
| Properties.WildcardHearsSuccesses | lib/server.js:96-97 | `Recurly.*` hears each dispatched request once with the bare event name and data, plus once more only for event `*`, and never hears a refused request |
| Properties.ErrorChannelHearsFailures | lib/server.js:13-18 | every reply of 400 and above puts `(Error(message), {message, 'error'})` on `Recurly.error`; a 200 reply puts the data alone there when the event is `error` and nothing otherwise |
| Scenarios.ExampleHook | lib/server.js:125-131 | a hook configured with `user`/`pass` and no path serves `/recurly/callback` with those strings as credentials |
| Scenarios.AcceptedNotification | lib/server.js:96-99 | an authenticated `new_account_notification` yields `Recurly.*`, `Recurly.new_account_notification` and a 200 `ok` reply, in that order |
| Scenarios.WrongPassword | lib/server.js:80-83 | the same request with a wrong password gets 403 `forbidden` and no dispatch |
| Scenarios.WrongMethod | lib/server.js:113-116 | a GET to the callback path gets 405 `method not allowed` |
| Scenarios.WrongPath | lib/server.js:106-109 | a POST to `/wrong/path` gets 404 `not found` |

## Left out

- HTTP plumbing is not modelled: `Http.createServer`, `listen`, the `host` and `port` it binds, `writeHead`/`end`, and the headers. The reply is recorded as its status and the two fields of its JSON body. `JSON.stringify` and `Content-Length` are not modelled.
- Replies.ReplyEffects: covers only the five statuses the handler uses. The reason phrases come from Node's `http.STATUS_CODES`. A status absent from that table would make `toLowerCase` throw on `undefined`. The handler only ever passes these five, so the model allows only them.
- The XML parser's internals are not modelled. The parser is an oracle from body bytes to an error or a result, so the text decoding of `Buffer.toString()` is folded into it. A blank document makes the parser yield `null`, and `Object.keys(null)` at line 34 throws; nothing in `lib/server.js` catches it. The model assumes that the parser library reports this exception to the same callback as an error, and so treats a null result as a parse failure answered 400. This is an assumption about code that is not part of this model. If the library instead lets the exception escape, a blank body gets no reply at all, and `Parsing.Parse`, `Properties.BadPayloadGets400` and `Properties.ExactlyOneReply` do not describe that request.
- The `basic-auth` header decoding is not modelled. Its result is given as an optional `(name, pass)` pair.
- `Url.parse` is not modelled. The request's pathname is given directly.
- The remote-address lookup at line 46 is assumed not to throw. `req.socket.socket` does not exist on a plain socket, so when neither `req.ip` nor `req.socket.remoteAddress` is set, as on a socket that is already closed, that line throws before the route check and the request gets no reply. `Properties.ExactlyOneReply` covers only requests that get past this line.
- Logging and `debug` are not modelled. They do not change any outcome. The text "401" in the debug message and the unused implicit global `err` at line 82 have no effect either.
- EventEmitter internals are not modelled: subscribers, their order, and exceptions thrown by a subscriber. The model assumes subscribers return normally. A throwing subscriber on `Recurly.*` would stop the specific emission and the 200 reply.
- Asynchrony is not modelled. The route check runs before any `data` callback. `end` fires once and no `data` follows it. Concurrent requests do not interleave. The hook's fields never change after construction. All requests share the one module-level `parser` (line 9); the model assumes it keeps no state from one request to the next.
- Options of other JavaScript types are not modelled: a non-string credential, a string or `NaN` port, a falsy non-object `options`. Neither are the logger option and the call of the factory without `new`, which only re-invokes the constructor.
- Body chunks are byte buffers. String chunks, after `setEncoding`, are not modelled. `bufferLength` is an unbounded natural number. JavaScript numbers lose precision only beyond 2^53 bytes.
