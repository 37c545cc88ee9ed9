/** The `reply` helper of lib/server.js: it turns a status code into the
    JSON `{message, result}` body, emits on the error channel for error
    statuses, and writes the response. */
module Replies {
  import opened Values
  import opened Hook

  /** The reason phrases of Node's `http.STATUS_CODES` for the five statuses
      the handler answers with. */
  const StatusCodes: map<int, string> :=
    map[200 := "OK", 400 := "Bad Request", 403 := "Forbidden",
        404 := "Not Found", 405 := "Method Not Allowed"]

  function LowerChar(c: char): (d: char)
    ensures 'A' <= c <= 'Z' ==> d as int == c as int + 32
    ensures !('A' <= c <= 'Z') ==> d == c
    ensures !('A' <= d <= 'Z')
  {
    if 'A' <= c <= 'Z' then (c as int + 32) as char else c
  }

  /** `toLowerCase` on ASCII text. */
  function ToLower(s: string): (r: string)
    ensures |r| == |s|
    ensures forall i :: 0 <= i < |s| ==> r[i] == LowerChar(s[i])
    ensures forall i :: 0 <= i < |r| ==> !('A' <= r[i] <= 'Z')
  {
    seq(|s|, i requires 0 <= i < |s| => LowerChar(s[i]))
  }

  /** The `message` field of the reply body: the status's reason phrase,
      letter by letter in lower case. */
  function StatusMessage(status: int): (m: string)
    requires status in StatusCodes
    ensures |m| == |StatusCodes[status]| > 0
    ensures forall i :: 0 <= i < |m| ==> m[i] == LowerChar(StatusCodes[status][i])
    ensures forall i :: 0 <= i < |m| ==> !('A' <= m[i] <= 'Z')
  {
    ToLower(StatusCodes[status])
  }

  /** The `result` field: an error exactly for statuses of 400 and above. */
  function ResultOf(status: int): (r: string)
    ensures r == "error" <==> status >= 400
    ensures r == "ok" <==> status < 400
  {
    if status >= 400 then "error" else "ok"
  }

  /** The effects of `reply(status)`: for an error status, one emission on
      the error channel carrying an `Error` and the message object; then
      the response itself. */
  function ReplyEffects(status: int): (effects: seq<Effect>)
    requires status in StatusCodes
    ensures |effects| > 0 && effects[|effects| - 1]
      == Send(Response(status, StatusMessage(status), ResultOf(status)))
    ensures Sends(effects) == [Response(status, StatusMessage(status), ResultOf(status))]
    ensures EmitsOn(effects, ERROR)
      == if status >= 400
         then [[ErrorArg(StatusMessage(status)), MessageArg(StatusMessage(status), "error")]]
         else []
    ensures forall key :: key != ERROR ==> EmitsOn(effects, key) == []
  {
    var response := Response(status, StatusMessage(status), ResultOf(status));
    var emission :=
      if response.result == "error"
      then [Emit(ERROR, [ErrorArg(response.message), MessageArg(response.message, response.result)])]
      else [];
    SendsAppend(emission, [Send(response)]);
    forall key { EmitsOnAppend(emission, [Send(response)], key); }
    emission + [Send(response)]
  }

  /** The messages the five statuses produce, as the client reads them. */
  lemma StatusMessages()
    ensures StatusMessage(200) == "ok"
    ensures StatusMessage(400) == "bad request"
    ensures StatusMessage(403) == "forbidden"
    ensures StatusMessage(404) == "not found"
    ensures StatusMessage(405) == "method not allowed"
  {
  }
}
