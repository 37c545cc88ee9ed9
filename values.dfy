/** Values shared by the webhook handler model: body bytes, the JavaScript
    values the configuration can hold, the parser's result, and the effects
    (event emissions and the HTTP reply) one request produces. */
module Values {

  datatype Option<+T> = None | Some(value: T)

  /** A byte of the request body. */
  newtype byte = x: int | 0 <= x < 256

  /** One body chunk as a `data` event delivers it (a Node Buffer). */
  type Chunk = seq<byte>

  /** The JavaScript values a configured credential can hold: a string, or
      the boolean `false` that an unset option defaults to. */
  datatype JsValue = JsString(s: string) | JsBool(b: bool)

  /** JavaScript `===` on strings and booleans: same type and same value. */
  predicate StrictEquals(a: JsValue, b: JsValue)
    ensures StrictEquals(a, b) <==>
      || (a.JsString? && b.JsString? && a.s == b.s)
      || (a.JsBool? && b.JsBool? && a.b == b.b)
    ensures a.JsString? != b.JsString? ==> !StrictEquals(a, b)
  {
    a == b
  }

  /** A node of the tree the XML parser builds: text, a list of repeated
      elements, or an object whose keys are element and attribute names. */
  datatype XmlValue =
    | XmlText(text: string)
    | XmlArray(items: seq<XmlValue>)
    | XmlObject(entries: seq<(string, XmlValue)>)

  /** The parser's result object: its own keys, in insertion order, with
      their values. For a well-formed document the one key is the root tag.
      No key is integer-like (an XML name does not start with a digit), so
      `Object.keys` lists them in insertion order. */
  datatype Document = Document(entries: seq<(string, XmlValue)>)

  /** What the XML parser hands its callback: an error, or a result that is
      either an object or `null` (the result for a blank document). */
  datatype XmlOutcome = XmlError(reason: string) | XmlDone(result: Option<Document>)

  /** An argument passed to an emitted event. */
  datatype Arg =
    | ErrorArg(message: string)                  // `new Error(message)`
    | MessageArg(message: string, result: string) // the reply's `{message, result}` object
    | EventNameArg(name: string)                 // the bare event name given to `Recurly.*`
    | DataArg(doc: Document)                     // the parsed document

  /** The reply written to the client: its status and the two fields of its
      JSON body. */
  datatype Response = Response(status: int, message: string, result: string)

  /** One observable effect of handling a request, in the order it happens. */
  datatype Effect = Emit(key: string, args: seq<Arg>) | Send(response: Response)

  /** The replies in a trace of effects, in order. */
  function Sends(effects: seq<Effect>): (r: seq<Response>)
    ensures |r| <= |effects|
  {
    if effects == [] then []
    else (if effects[0].Send? then [effects[0].response] else []) + Sends(effects[1..])
  }

  /** The argument lists of the emissions on `key` in a trace, in order. */
  function EmitsOn(effects: seq<Effect>, key: string): (r: seq<seq<Arg>>)
    ensures |r| <= |effects|
  {
    if effects == [] then []
    else (if effects[0].Emit? && effects[0].key == key then [effects[0].args] else [])
         + EmitsOn(effects[1..], key)
  }

  lemma {:induction false} SendsAppend(a: seq<Effect>, b: seq<Effect>)
    ensures Sends(a + b) == Sends(a) + Sends(b)
  {
    if a == [] {
      assert a + b == b;
    } else {
      var head := if a[0].Send? then [a[0].response] else [];
      assert (a + b)[0] == a[0];
      assert (a + b)[1..] == a[1..] + b;
      SendsAppend(a[1..], b);
      calc {
        Sends(a + b);
        head + Sends(a[1..] + b);
        head + (Sends(a[1..]) + Sends(b));
        (head + Sends(a[1..])) + Sends(b);
      }
    }
  }

  lemma {:induction false} EmitsOnAppend(a: seq<Effect>, b: seq<Effect>, key: string)
    ensures EmitsOn(a + b, key) == EmitsOn(a, key) + EmitsOn(b, key)
  {
    if a == [] {
      assert a + b == b;
    } else {
      assert (a + b)[1..] == a[1..] + b;
      EmitsOnAppend(a[1..], b, key);
    }
  }
}
