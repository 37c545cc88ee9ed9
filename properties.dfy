/** What one request to the webhook handler produces, stated over the whole
    trace `Handle` gives (which `Handler.Serve` is proved to produce): one
    reply per request, which failure answers what, and what is dispatched
    on success and in which order. */
module Properties {
  import opened Values
  import opened Replies
  import opened Parsing
  import opened Hook
  import opened Handler

  /** The event and data a request dispatches: present exactly when it is a
      POST to the configured path with matching credentials whose body
      parses to a document with a non-empty first key. */
  function Dispatched(hook: RecurlyHook, input: RequestInput, parser: seq<byte> -> XmlOutcome)
    : (d: Option<(string, Document)>)
    ensures d.Some? ==> input.pathname == hook.path && input.httpMethod == "POST"
    ensures d.Some? ==> Authorized(input.credentials, hook.username, hook.password)
    ensures d.Some? ==> var p := parser(Body(input));
      && p.XmlDone? && p.result.Some? && |p.result.value.entries| > 0
      && d.value == (p.result.value.entries[0].0, p.result.value)
      && d.value.0 != ""
    ensures (&& input.pathname == hook.path && input.httpMethod == "POST"
             && Authorized(input.credentials, hook.username, hook.password)
             && var p := parser(Body(input));
                && p.XmlDone? && p.result.Some? && |p.result.value.entries| > 0
                && p.result.value.entries[0].0 != "")
      ==> d.Some?
  {
    if RouteStatus(input.pathname, hook.path, input.httpMethod).None?
       && Authorized(input.credentials, hook.username, hook.password)
    then Dispatchable(Parse(parser(Body(input))))
    else None
  }

  /** The trace of a successful request: the wildcard emission, the
      event's own emission, then the 200 reply. */
  lemma SuccessTrace(event: string, data: Document)
    ensures Dispatch(event, data) + ReplyEffects(200)
      == [Emit(ALL_SUCCESSFUL_REQUESTS, [EventNameArg(event), DataArg(data)]),
          Emit(EventKey(event), [DataArg(data)]),
          Send(Response(200, "ok", "ok"))]
  {
    StatusMessages();
    assert ReplyEffects(200) == [Send(Response(200, "ok", "ok"))];
  }

  /** An authorised POST to the configured path whose body parses to a
      document with a non-empty first key `T` emits on `Recurly.*` with `T`
      and the document, then on `Recurly.T` with the document, and is then
      answered 200. */
  lemma NotificationTrace(hook: RecurlyHook, post: RequestInput, parser: seq<byte> -> XmlOutcome,
                          doc: Document)
    requires post.pathname == hook.path && post.httpMethod == "POST"
    requires Authorized(post.credentials, hook.username, hook.password)
    requires parser(Body(post)) == XmlDone(Some(doc))
    requires |doc.entries| > 0 && doc.entries[0].0 != ""
    ensures Handle(hook, post, parser) ==
      [Emit(ALL_SUCCESSFUL_REQUESTS, [EventNameArg(doc.entries[0].0), DataArg(doc)]),
       Emit(EventKey(doc.entries[0].0), [DataArg(doc)]),
       Send(Response(200, "ok", "ok"))]
  {
    SuccessTrace(doc.entries[0].0, doc);
  }

  /** Every request gets exactly one reply, with one of the five statuses,
      and that reply is the last thing the request does. */
  lemma ExactlyOneReply(hook: RecurlyHook, input: RequestInput, parser: seq<byte> -> XmlOutcome)
    ensures |Sends(Handle(hook, input, parser))| == 1
    ensures Sends(Handle(hook, input, parser))[0].status in {200, 400, 403, 404, 405}
    ensures var effects := Handle(hook, input, parser);
      effects[|effects| - 1] == Send(Sends(effects)[0])
  {
    var d := Dispatched(hook, input, parser);
    if d.Some? {
      SuccessTrace(d.value.0, d.value.1);
    }
  }

  /** The one reply a request gets. */
  function ReplyOf(hook: RecurlyHook, input: RequestInput, parser: seq<byte> -> XmlOutcome): (r: Response)
    ensures Sends(Handle(hook, input, parser)) == [r]
    ensures r.status in StatusCodes
  {
    ExactlyOneReply(hook, input, parser);
    Sends(Handle(hook, input, parser))[0]
  }

  /** A request to any other path is answered 404 and nothing else happens:
      its method, credentials and body are never looked at. */
  lemma WrongPathGets404(hook: RecurlyHook, input: RequestInput, other: RequestInput,
                         parser: seq<byte> -> XmlOutcome, otherParser: seq<byte> -> XmlOutcome)
    requires input.pathname != hook.path && other.pathname == input.pathname
    ensures Handle(hook, input, parser) == ReplyEffects(404) == Handle(hook, other, otherParser)
    ensures Sends(Handle(hook, input, parser)) == [Response(404, "not found", "error")]
    ensures EmitsOn(Handle(hook, input, parser), ERROR)
      == [[ErrorArg("not found"), MessageArg("not found", "error")]]
    ensures EmitsOn(Handle(hook, input, parser), ALL_SUCCESSFUL_REQUESTS) == []
  {
    StatusMessages();
  }

  /** On the configured path, any method other than POST is answered 405;
      credentials and body are never looked at. */
  lemma WrongMethodGets405(hook: RecurlyHook, input: RequestInput, other: RequestInput,
                           parser: seq<byte> -> XmlOutcome, otherParser: seq<byte> -> XmlOutcome)
    requires input.pathname == hook.path && input.httpMethod != "POST"
    requires other.pathname == input.pathname && other.httpMethod == input.httpMethod
    ensures Handle(hook, input, parser) == ReplyEffects(405) == Handle(hook, other, otherParser)
    ensures Sends(Handle(hook, input, parser)) == [Response(405, "method not allowed", "error")]
    ensures EmitsOn(Handle(hook, input, parser), ALL_SUCCESSFUL_REQUESTS) == []
  {
    StatusMessages();
  }

  /** A POST to the configured path whose credentials do not strictly match
      is answered 403 before the body is parsed: the parser's verdict makes
      no difference and no event is dispatched. */
  lemma BadCredentialsGet403(hook: RecurlyHook, input: RequestInput,
                             parser: seq<byte> -> XmlOutcome, otherParser: seq<byte> -> XmlOutcome)
    requires input.pathname == hook.path && input.httpMethod == "POST"
    requires !Authorized(input.credentials, hook.username, hook.password)
    ensures Handle(hook, input, parser) == ReplyEffects(403) == Handle(hook, input, otherParser)
    ensures Sends(Handle(hook, input, parser)) == [Response(403, "forbidden", "error")]
    ensures forall key :: key != ERROR ==> EmitsOn(Handle(hook, input, parser), key) == []
  {
    StatusMessages();
  }

  /** A server constructed without a username or without a password never
      dispatches: every request is answered 403, 404 or 405, including one
      that sends no auth header at all. */
  lemma UnconfiguredServerRejectsAll(hook: RecurlyHook, input: RequestInput, parser: seq<byte> -> XmlOutcome)
    requires hook.username == JsBool(false) || hook.password == JsBool(false)
    ensures Dispatched(hook, input, parser).None?
    ensures Sends(Handle(hook, input, parser))[0].status in {403, 404, 405}
    ensures EmitsOn(Handle(hook, input, parser), ALL_SUCCESSFUL_REQUESTS) == []
  {
    assert !Authorized(input.credentials, hook.username, hook.password);
  }

  /** An authorised request whose body fails to parse, parses to nothing, or
      has no usable first key is answered 400, and the only emission is the
      error channel's "bad request". */
  lemma BadPayloadGets400(hook: RecurlyHook, input: RequestInput, parser: seq<byte> -> XmlOutcome)
    requires input.pathname == hook.path && input.httpMethod == "POST"
    requires Authorized(input.credentials, hook.username, hook.password)
    requires match parser(Body(input))
      case XmlError(_) => true
      case XmlDone(result) =>
        result.None? || |result.value.entries| == 0 || result.value.entries[0].0 == ""
    ensures Handle(hook, input, parser) == ReplyEffects(400)
    ensures Sends(Handle(hook, input, parser)) == [Response(400, "bad request", "error")]
    ensures EmitsOn(Handle(hook, input, parser), ERROR)
      == [[ErrorArg("bad request"), MessageArg("bad request", "error")]]
    ensures EmitsOn(Handle(hook, input, parser), ALL_SUCCESSFUL_REQUESTS) == []
  {
    StatusMessages();
  }

  /** A request is answered 200 exactly when it dispatches; it then emits
      on the wildcard channel with the event name and data, then on
      `Recurly.<event>` with the data, then replies, in that order. */
  lemma SuccessIffDispatched(hook: RecurlyHook, input: RequestInput, parser: seq<byte> -> XmlOutcome)
    ensures Sends(Handle(hook, input, parser)) == [Response(200, "ok", "ok")]
        <==> Dispatched(hook, input, parser).Some?
    ensures Dispatched(hook, input, parser).Some? ==>
      var (event, data) := Dispatched(hook, input, parser).value;
      Handle(hook, input, parser)
        == [Emit(ALL_SUCCESSFUL_REQUESTS, [EventNameArg(event), DataArg(data)]),
            Emit(EventKey(event), [DataArg(data)]),
            Send(Response(200, "ok", "ok"))]
  {
    var d := Dispatched(hook, input, parser);
    if d.Some? {
      SuccessTrace(d.value.0, d.value.1);
    }
  }

  /** The wildcard channel hears exactly the dispatched requests, once each
      with the bare event name, unless the root tag is itself `*`, whose
      own channel is the wildcard channel. */
  lemma WildcardHearsSuccesses(hook: RecurlyHook, input: RequestInput, parser: seq<byte> -> XmlOutcome)
    ensures var d := Dispatched(hook, input, parser);
      EmitsOn(Handle(hook, input, parser), ALL_SUCCESSFUL_REQUESTS)
        == if d.None? then []
           else [[EventNameArg(d.value.0), DataArg(d.value.1)]]
                + (if d.value.0 == "*" then [[DataArg(d.value.1)]] else [])
  {
    var d := Dispatched(hook, input, parser);
    if d.Some? {
      var (event, data) := d.value;
      SuccessTrace(event, data);
      EventKeyMeetsFixedChannels(event);
      var effects := Handle(hook, input, parser);
      assert effects == [effects[0]] + ([effects[1]] + [effects[2]]);
      EmitsOnAppend([effects[0]], [effects[1]] + [effects[2]], ALL_SUCCESSFUL_REQUESTS);
      EmitsOnAppend([effects[1]], [effects[2]], ALL_SUCCESSFUL_REQUESTS);
    } else {
      ExactlyOneReply(hook, input, parser);
    }
  }

  /** The error channel hears every error reply, and hears something on a
      200 reply only when the root tag is `error`: `Recurly.error` is then
      also the event's own channel, and it receives the data alone. */
  lemma ErrorChannelHearsFailures(hook: RecurlyHook, input: RequestInput, parser: seq<byte> -> XmlOutcome)
    ensures var status := ReplyOf(hook, input, parser).status;
      var heard := EmitsOn(Handle(hook, input, parser), ERROR);
      && (status >= 400 ==> heard == [[ErrorArg(StatusMessage(status)), MessageArg(StatusMessage(status), "error")]])
      && (status < 400 ==> var d := Dispatched(hook, input, parser);
            d.Some? && heard == if d.value.0 == "error" then [[DataArg(d.value.1)]] else [])
  {
    ExactlyOneReply(hook, input, parser);
    SuccessIffDispatched(hook, input, parser);
    var d := Dispatched(hook, input, parser);
    if d.Some? {
      var (event, data) := d.value;
      EventKeyMeetsFixedChannels(event);
      var effects := Handle(hook, input, parser);
      assert effects == [effects[0]] + ([effects[1]] + [effects[2]]);
      EmitsOnAppend([effects[0]], [effects[1]] + [effects[2]], ERROR);
      EmitsOnAppend([effects[1]], [effects[2]], ERROR);
    }
  }
}
