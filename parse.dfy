/** The `parse` helper of lib/server.js and the derivation of an event's
    channel name. The XML parser itself is an oracle: its outcome is an
    input here. */
module Parsing {
  import opened Values
  import opened Hook

  /** The prefix of every per-event channel. */
  const NAMESPACE: string := "Recurly."

  /** What `parse` hands its callback: an error, or the event name (the
      first key of the result object, `undefined` when it has none) and the
      result object itself. */
  datatype ParseResult = ParseFailed | Parsed(event: Option<string>, data: Document)

  /** `Object.keys(doc)[0]`. `Object.keys` would list integer-like keys
      first, but an XML element name never starts with a digit, so for a
      parsed document this is the first key in insertion order. */
  function FirstKey(doc: Document): (key: Option<string>)
    ensures key.Some? <==> |doc.entries| > 0
    ensures key.Some? ==> key.value == doc.entries[0].0
  {
    if |doc.entries| == 0 then None else Some(doc.entries[0].0)
  }

  /** `parse(data, cb)` given the parser's outcome. A parser error is passed
      on. A `null` result (a blank document) makes `Object.keys` throw.
      The model assumes the parser reports that exception to the same
      callback as an error, so it is a failure as well. */
  function Parse(outcome: XmlOutcome): (p: ParseResult)
    ensures p.ParseFailed? <==> outcome.XmlError? || outcome.result.None?
    ensures p.Parsed? ==> p.data == outcome.result.value
    ensures p.Parsed? ==> (p.event.Some? <==> |p.data.entries| > 0)
    ensures p.Parsed? && p.event.Some? ==> p.event.value == p.data.entries[0].0
  {
    match outcome
    case XmlError(_) => ParseFailed
    case XmlDone(None) => ParseFailed
    case XmlDone(Some(doc)) => Parsed(FirstKey(doc), doc)
  }

  /** The handler's test `err || !event || !data`, inverted: the event name
      and data to dispatch when both are truthy. The empty string is falsy,
      and a result object is always truthy. */
  function Dispatchable(p: ParseResult): (d: Option<(string, Document)>)
    ensures d.Some? <==> p.Parsed? && p.event.Some? && p.event.value != ""
    ensures d.Some? ==> d.value == (p.event.value, p.data)
  {
    match p
    case ParseFailed => None
    case Parsed(None, _) => None
    case Parsed(Some(event), data) => if event == "" then None else Some((event, data))
  }

  /** `'Recurly.' + event`: the channel a specific event is emitted on. */
  function EventKey(event: string): (key: string)
    ensures |key| == |NAMESPACE| + |event|
    ensures key[..|NAMESPACE|] == NAMESPACE && key[|NAMESPACE|..] == event
  {
    NAMESPACE + event
  }

  /** Distinct events go to distinct channels. */
  lemma EventKeyInjective(e1: string, e2: string)
    ensures EventKey(e1) == EventKey(e2) <==> e1 == e2
  {
    if EventKey(e1) == EventKey(e2) {
      assert e1 == EventKey(e1)[|NAMESPACE|..];
    }
  }

  /** A specific event's channel is one of the two fixed channels exactly
      when the root tag is `error` or `*`. */
  lemma EventKeyMeetsFixedChannels(event: string)
    ensures EventKey(event) == ERROR <==> event == "error"
    ensures EventKey(event) == ALL_SUCCESSFUL_REQUESTS <==> event == "*"
  {
    assert ERROR == NAMESPACE + "error";
    assert ALL_SUCCESSFUL_REQUESTS == NAMESPACE + "*";
    EventKeyInjective(event, "error");
    EventKeyInjective(event, "*");
  }
}
