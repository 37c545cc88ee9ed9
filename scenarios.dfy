/** Four concrete exchanges with a server configured for user `user` and
    password `pass`: a notification that is accepted, the same with a wrong
    password, a GET, and a POST to another path. The parser is a fixed
    oracle that reads every body as the same account notification, so the
    body's bytes are left open. */
module Scenarios {
  import opened Values
  import opened Replies
  import opened Parsing
  import opened Hook
  import opened Handler
  import opened Properties

  /** The parsed form of `<new_account_notification><account><account_code>1
      </account_code></account></new_account_notification>`: every child
      element becomes a list of its occurrences. */
  const NEW_ACCOUNT: Document :=
    Document([("new_account_notification",
      XmlObject([("account", XmlArray([
        XmlObject([("account_code", XmlArray([XmlText("1")]))])]))]))])

  /** The server of the four exchanges. */
  method ExampleHook() returns (hook: RecurlyHook)
    ensures hook.path == DEFAULT_PATH
    ensures hook.username == JsString("user") && hook.password == JsString("pass")
  {
    hook := new RecurlyHook(Some(Options(None, None, Some("user"), Some("pass"), None)));
  }

  /** The channel of the account notification. */
  lemma NotificationChannel()
    ensures EventKey("new_account_notification") == "Recurly.new_account_notification"
  {
  }

  /** A correctly authenticated notification is dispatched and accepted. */
  method AcceptedNotification(body: Chunk) returns (effects: seq<Effect>)
    ensures effects ==
      [Emit("Recurly.*", [EventNameArg("new_account_notification"), DataArg(NEW_ACCOUNT)]),
       Emit("Recurly.new_account_notification", [DataArg(NEW_ACCOUNT)]),
       Send(Response(200, "ok", "ok"))]
  {
    var hook := ExampleHook();
    var parser := (body: seq<byte>) => XmlDone(Some(NEW_ACCOUNT));
    var post := RequestInput("POST", DEFAULT_PATH, [body], None, Some(("user", "pass")));
    effects := Serve(hook, post, parser);
    NotificationTrace(hook, post, parser, NEW_ACCOUNT);
    NotificationChannel();
  }

  /** The same notification with a wrong password is refused. */
  method WrongPassword(body: Chunk) returns (effects: seq<Effect>)
    ensures Sends(effects) == [Response(403, "forbidden", "error")]
    ensures EmitsOn(effects, ALL_SUCCESSFUL_REQUESTS) == []
  {
    var hook := ExampleHook();
    var parser := (body: seq<byte>) => XmlDone(Some(NEW_ACCOUNT));
    var forged := RequestInput("POST", DEFAULT_PATH, [body], None, Some(("user", "secret")));
    effects := Serve(hook, forged, parser);
    BadCredentialsGet403(hook, forged, parser, parser);
  }

  /** A GET to the callback path is refused. */
  method WrongMethod() returns (effects: seq<Effect>)
    ensures Sends(effects) == [Response(405, "method not allowed", "error")]
  {
    var hook := ExampleHook();
    var parser := (body: seq<byte>) => XmlDone(Some(NEW_ACCOUNT));
    var get := RequestInput("GET", DEFAULT_PATH, [], None, Some(("user", "pass")));
    effects := Serve(hook, get, parser);
    WrongMethodGets405(hook, get, get, parser, parser);
  }

  /** A POST to another path is not found. */
  method WrongPath(body: Chunk) returns (effects: seq<Effect>)
    ensures Sends(effects) == [Response(404, "not found", "error")]
  {
    var hook := ExampleHook();
    var parser := (body: seq<byte>) => XmlDone(Some(NEW_ACCOUNT));
    var elsewhere := RequestInput("POST", "/wrong/path", [body], None, Some(("user", "pass")));
    assert elsewhere.pathname != hook.path;
    effects := Serve(hook, elsewhere, parser);
    WrongPathGets404(hook, elsewhere, elsewhere, parser, parser);
  }
}
