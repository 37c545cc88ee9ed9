/** `serverHandler` of lib/server.js: the life of one webhook request. The
    route is checked first, then body chunks are buffered as `data` events
    arrive, and at `end` the credentials are checked, the body is parsed and
    the event is dispatched. Every effect the request has on the outside
    (an emission on the hook, the one reply) is recorded, in order, in a
    trace of `Effect`s.

    The pure functions below (`RouteEffects`, `EndEffects`, `Handle`) say
    what a request produces from its inputs; the class `Request` is the
    handler's closure state updated callback by callback, and `Serve` drives
    one request through it and is proved to produce `Handle`'s trace. */
module Handler {
  import opened Values
  import opened Replies
  import opened Parsing
  import opened Hook

  /* ---------------- Body buffering ---------------- */

  /** The sum of the chunks' lengths. */
  function TotalLength(chunks: seq<Chunk>): nat {
    if chunks == [] then 0
    else TotalLength(chunks[..|chunks| - 1]) + |chunks[|chunks| - 1]|
  }

  /** The chunks' bytes in arrival order. */
  function Concat(chunks: seq<Chunk>): (body: seq<byte>)
    ensures |body| == TotalLength(chunks)
  {
    if chunks == [] then []
    else Concat(chunks[..|chunks| - 1]) + chunks[|chunks| - 1]
  }

  /** Concatenation splits at any point: the bytes of earlier chunks come
      first. */
  lemma {:induction false} ConcatSplit(a: seq<Chunk>, b: seq<Chunk>)
    ensures Concat(a + b) == Concat(a) + Concat(b)
    decreases |b|
  {
    if b == [] {
      assert a + b == a;
    } else {
      var init := b[..|b| - 1];
      assert (a + b)[..|a + b| - 1] == a + init;
      assert (a + b)[|a + b| - 1] == b[|b| - 1];
      ConcatSplit(a, init);
    }
  }

  /** `Buffer.concat(list, totalLength)`: the chunks' bytes, cut off after
      `totalLength` bytes, or padded with zero bytes up to it. */
  function BufferConcat(list: seq<Chunk>, totalLength: nat): (b: seq<byte>)
    ensures |b| == totalLength
    ensures forall i :: 0 <= i < totalLength && i < |Concat(list)| ==> b[i] == Concat(list)[i]
    ensures forall i :: |Concat(list)| <= i < totalLength ==> b[i] == 0
  {
    var all := Concat(list);
    if totalLength <= |all| then all[..totalLength]
    else all + seq(totalLength - |all|, _ => 0 as byte)
  }

  /** With the length the handler keeps, `Buffer.concat` is exactly the
      concatenation: nothing is cut off and nothing is padded. */
  lemma BufferConcatExact(list: seq<Chunk>)
    ensures BufferConcat(list, TotalLength(list)) == Concat(list)
  {
  }

  /** The chunk `end` may carry, as a list of zero or one chunks. A chunk
      that is present is a Buffer object, which is truthy even when empty. */
  function LastChunks(last: Option<Chunk>): (chunks: seq<Chunk>)
    ensures last.None? ==> chunks == []
    ensures last.Some? ==> chunks == [last.value]
  {
    if last.Some? then [last.value] else []
  }

  /* ---------------- The pure specification ---------------- */

  /** What arrives for one request: its method, the URL's pathname, the
      body chunks of the `data` events, the chunk given to `end` if any,
      and what the `basic-auth` module decodes from the header (`None` when
      the header is missing or malformed). */
  datatype RequestInput = RequestInput(
    httpMethod: string,
    pathname: string,
    chunks: seq<Chunk>,
    last: Option<Chunk>,
    credentials: Option<(string, string)>)

  /** The decoded body the handler hands to the parser: the `data` chunks
      followed by the chunk given to `end`, byte for byte in arrival order. */
  function Body(input: RequestInput): (body: seq<byte>)
    ensures body == Concat(input.chunks) + (if input.last.Some? then input.last.value else [])
    ensures |body| == TotalLength(input.chunks) + (if input.last.Some? then |input.last.value| else 0)
  {
    ConcatSplit(input.chunks, LastChunks(input.last));
    assert input.last.Some? ==> [input.last.value][..0] == [];
    Concat(input.chunks + LastChunks(input.last))
  }

  /** The route check: 404 for a foreign path, whatever the method; 405 for
      any method but POST on the configured path; nothing for a POST to the
      configured path. */
  function RouteStatus(pathname: string, path: string, httpMethod: string): (status: Option<int>)
    ensures status == Some(404) <==> pathname != path
    ensures status == Some(405) <==> pathname == path && httpMethod != "POST"
    ensures status.None? <==> pathname == path && httpMethod == "POST"
  {
    if pathname != path then Some(404)
    else if httpMethod != "POST" then Some(405)
    else None
  }

  /** The effects of the route check: the 404 or the 405 reply, or nothing
      for a POST to the configured path. */
  function RouteEffects(pathname: string, path: string, httpMethod: string): (effects: seq<Effect>)
    ensures pathname != path ==> effects == ReplyEffects(404)
    ensures pathname == path && httpMethod != "POST" ==> effects == ReplyEffects(405)
    ensures effects == [] <==> pathname == path && httpMethod == "POST"
  {
    match RouteStatus(pathname, path, httpMethod)
    case None => []
    case Some(status) => ReplyEffects(status)
  }

  /** The incoming name and password: those of the decoded header, or two
      empty strings when there is none. */
  function IncomingCredentials(credentials: Option<(string, string)>): (incoming: (string, string))
    ensures credentials.Some? ==> incoming == credentials.value
    ensures credentials.None? ==> incoming == ("", "")
  {
    if credentials.Some? then credentials.value else ("", "")
  }

  /** The credential check: both incoming strings strictly equal to the
      configured values. */
  function Authorized(credentials: Option<(string, string)>, username: JsValue, password: JsValue): (ok: bool)
    ensures ok ==> username.JsString? && password.JsString?
    ensures ok <==>
      if credentials.Some?
      then username == JsString(credentials.value.0) && password == JsString(credentials.value.1)
      else username == JsString("") && password == JsString("")
  {
    var (name, pass) := IncomingCredentials(credentials);
    StrictEquals(JsString(name), username) && StrictEquals(JsString(pass), password)
  }

  /** The two emissions of a successful request: the wildcard channel with
      the bare event name and the data, then the event's own channel with the
      data. */
  function Dispatch(event: string, data: Document): (effects: seq<Effect>)
    ensures Sends(effects) == [] && |effects| == 2
    ensures EmitsOn(effects[..1], ALL_SUCCESSFUL_REQUESTS) == [[EventNameArg(event), DataArg(data)]]
    ensures effects[1..] == [Emit(EventKey(event), [DataArg(data)])]
  {
    [Emit(ALL_SUCCESSFUL_REQUESTS, [EventNameArg(event), DataArg(data)]),
     Emit(EventKey(event), [DataArg(data)])]
  }

  /** The effects of `end` on a request that passed the route check. */
  function EndEffects(hook: RecurlyHook, body: seq<byte>, credentials: Option<(string, string)>,
                      parser: seq<byte> -> XmlOutcome): (effects: seq<Effect>)
    ensures |Sends(effects)| == 1 && effects[|effects| - 1] == Send(Sends(effects)[0])
    ensures Sends(effects)[0].status ==
      if !Authorized(credentials, hook.username, hook.password) then 403
      else if Dispatchable(Parse(parser(body))).None? then 400
      else 200
  {
    if !Authorized(credentials, hook.username, hook.password) then ReplyEffects(403)
    else match Dispatchable(Parse(parser(body)))
      case None => ReplyEffects(400)
      case Some((event, data)) =>
        SendsAppend(Dispatch(event, data), ReplyEffects(200));
        Dispatch(event, data) + ReplyEffects(200)
  }

  /** Everything one request to `hook` produces, in order: the route
      check's effects, followed by those of `end` exactly when the route
      check let the request through. */
  function Handle(hook: RecurlyHook, input: RequestInput, parser: seq<byte> -> XmlOutcome): (effects: seq<Effect>)
    ensures effects == RouteEffects(input.pathname, hook.path, input.httpMethod)
      + (if input.pathname == hook.path && input.httpMethod == "POST"
         then EndEffects(hook, Body(input), input.credentials, parser) else [])
  {
    match RouteStatus(input.pathname, hook.path, input.httpMethod)
    case Some(status) => ReplyEffects(status)
    case None => EndEffects(hook, Body(input), input.credentials, parser)
  }

  /* ---------------- The handler's state ---------------- */

  /** The closure state of one `serverHandler` call. `routed` and `ended`
      record how far the request has got: the route check runs when the
      request arrives, before any `data` callback, and `end` fires once. */
  class Request {
    const hook: RecurlyHook
    const httpMethod: string
    const pathname: string

    var buffer: seq<Chunk>
    var bufferLength: nat
    var failed: bool
    var incomingUsername: string
    var incomingPassword: string

    /** What this request has emitted on the hook and replied, in order. */
    var effects: seq<Effect>

    ghost var routed: bool
    ghost var ended: bool

    ghost predicate Valid()
      reads this
    {
      && bufferLength == TotalLength(buffer)
      && (!routed ==> !failed && !ended && buffer == [] && effects == [])
      && (routed ==> failed == RouteStatus(pathname, hook.path, httpMethod).Some?)
      && (failed ==> buffer == [])
      && (routed && !ended ==> effects == RouteEffects(pathname, hook.path, httpMethod))
      && (!ended ==> incomingUsername == "" && incomingPassword == "")
    }

    constructor (hook: RecurlyHook, httpMethod: string, pathname: string)
      ensures this.hook == hook && this.httpMethod == httpMethod && this.pathname == pathname
      ensures Valid() && !routed
    {
      this.hook := hook;
      this.httpMethod := httpMethod;
      this.pathname := pathname;
      buffer := [];
      bufferLength := 0;
      failed := false;
      incomingUsername := "";
      incomingPassword := "";
      effects := [];
      routed := false;
      ended := false;
    }

    /** `reply.call(self, status, res)`. */
    method Reply(status: int)
      requires status in StatusCodes
      modifies this`effects
      ensures effects == old(effects) + ReplyEffects(status)
    {
      effects := effects + ReplyEffects(status);
    }

    /** `self.emit(key, ...args)`. */
    method EmitOn(key: string, args: seq<Arg>)
      modifies this`effects
      ensures effects == old(effects) + [Emit(key, args)]
    {
      effects := effects + [Emit(key, args)];
    }

    /** The route check at the end of `serverHandler`: a foreign path is
        answered 404 and a method other than POST 405; either marks the
        request failed. */
    method Route()
      requires Valid() && !routed
      modifies this`failed, this`effects, this`routed
      ensures Valid() && routed && !ended
      ensures failed <==> pathname != hook.path || httpMethod != "POST"
      ensures effects == RouteEffects(pathname, hook.path, httpMethod)
    {
      routed := true;
      if pathname != hook.path {
        failed := true;
        Reply(404);
        return;
      }
      if httpMethod != "POST" {
        failed := true;
        Reply(405);
        return;
      }
    }

    /** The `data` callback: a failed request drops the chunk; otherwise it
        is appended and its length added. */
    method OnData(chunk: Chunk)
      requires Valid() && routed && !ended
      modifies this`buffer, this`bufferLength
      ensures Valid()
      ensures failed ==> buffer == old(buffer) && bufferLength == old(bufferLength)
      ensures !failed ==> buffer == old(buffer) + [chunk]
      ensures !failed ==> bufferLength == old(bufferLength) + |chunk|
    {
      if failed {
        return;
      }
      Push(chunk);
    }

    /** `buffer.push(chunk); bufferLength += chunk.length`, as both
        callbacks do it. */
    method Push(chunk: Chunk)
      requires bufferLength == TotalLength(buffer)
      modifies this`buffer, this`bufferLength
      ensures buffer == old(buffer) + [chunk] && bufferLength == old(bufferLength) + |chunk|
      ensures bufferLength == TotalLength(buffer)
    {
      assert (buffer + [chunk])[..|buffer|] == buffer;
      buffer := buffer + [chunk];
      bufferLength := bufferLength + |chunk|;
    }

    /** The `end` callback: nothing at all for a failed request. Otherwise
        the final chunk is buffered, the credentials checked (403), the body
        parsed (400 when it yields no event), and the event dispatched on
        the wildcard channel and its own channel before the 200 reply. */
    method OnEnd(last: Option<Chunk>, credentials: Option<(string, string)>,
                 parser: seq<byte> -> XmlOutcome)
      requires Valid() && routed && !ended
      modifies this`buffer, this`bufferLength, this`incomingUsername, this`incomingPassword,
               this`effects, this`ended
      ensures Valid() && ended
      ensures failed ==> buffer == old(buffer) && effects == old(effects)
      ensures failed ==> incomingUsername == old(incomingUsername) && incomingPassword == old(incomingPassword)
      ensures !failed ==> buffer == old(buffer) + LastChunks(last)
      ensures !failed ==> effects == old(effects) + EndEffects(hook, Concat(buffer), credentials, parser)
      ensures !failed ==> (incomingUsername, incomingPassword) == IncomingCredentials(credentials)
    {
      ended := true;
      if failed {
        return;
      }
      if last.Some? {
        Push(last.value);
      }
      var data := Contents();
      CheckAndDispatch(data, credentials, parser);
    }

    /** `Buffer.concat(buffer, bufferLength)`: with the length kept equal to
        the buffer's total, exactly the buffered bytes in order. */
    method Contents() returns (data: seq<byte>)
      requires bufferLength == TotalLength(buffer)
      ensures data == Concat(buffer)
    {
      data := BufferConcat(buffer, bufferLength);
      BufferConcatExact(buffer);
    }

    /** The rest of the `end` callback once the body is complete: the
        credential check, the parse and the dispatch. */
    method CheckAndDispatch(data: seq<byte>, credentials: Option<(string, string)>,
                            parser: seq<byte> -> XmlOutcome)
      requires incomingUsername == "" && incomingPassword == ""
      modifies this`incomingUsername, this`incomingPassword, this`effects
      ensures effects == old(effects) + EndEffects(hook, data, credentials, parser)
      ensures (incomingUsername, incomingPassword) == IncomingCredentials(credentials)
    {
      if credentials.Some? {
        incomingUsername := credentials.value.0;
        incomingPassword := credentials.value.1;
      }
      Answer(data, credentials, parser);
    }

    /** The credential check on the incoming name and password, then the
        parse and the dispatch. */
    method Answer(data: seq<byte>, credentials: Option<(string, string)>,
                  parser: seq<byte> -> XmlOutcome)
      requires (incomingUsername, incomingPassword) == IncomingCredentials(credentials)
      modifies this`effects
      ensures effects == old(effects) + EndEffects(hook, data, credentials, parser)
    {
      if !StrictEquals(JsString(incomingUsername), hook.username)
        || !StrictEquals(JsString(incomingPassword), hook.password)
      {
        Reply(403);
        return;
      }
      match Dispatchable(Parse(parser(data))) {
        case None =>
          Reply(400);
        case Some((event, doc)) =>
          EmitOn(ALL_SUCCESSFUL_REQUESTS, [EventNameArg(event), DataArg(doc)]);
          EmitOn(EventKey(event), [DataArg(doc)]);
          Reply(200);
      }
    }
  }

  /** One request from arrival to `end`: the route check, one `data`
      callback per chunk in arrival order, then `end`. What it produces is
      exactly `Handle`'s trace. */
  method Serve(hook: RecurlyHook, input: RequestInput, parser: seq<byte> -> XmlOutcome)
    returns (effects: seq<Effect>)
    ensures effects == Handle(hook, input, parser)
  {
    var request := new Request(hook, input.httpMethod, input.pathname);
    request.Route();
    var i := 0;
    while i < |input.chunks|
      invariant 0 <= i <= |input.chunks|
      invariant request.Valid() && request.routed && !request.ended
      invariant request.buffer == if request.failed then [] else input.chunks[..i]
    {
      assert input.chunks[..i + 1] == input.chunks[..i] + [input.chunks[i]];
      request.OnData(input.chunks[i]);
      i := i + 1;
    }
    assert input.chunks[..i] == input.chunks;
    request.OnEnd(input.last, input.credentials, parser);
    effects := request.effects;
  }
}
