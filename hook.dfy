/** The `RecurlyHook` constructor of lib/server.js: it fills in every option
    the caller leaves falsy with a default. */
module Hook {
  import opened Values

  /** The options object given to the factory. `None` stands for a property
      that is absent (`undefined`). */
  datatype Options = Options(
    port: Option<int>,
    host: Option<string>,
    username: Option<string>,
    password: Option<string>,
    path: Option<string>)

  const DEFAULT_PORT: int := 3420
  const DEFAULT_HOST: string := "0.0.0.0"
  const DEFAULT_PATH: string := "/recurly/callback"

  /** The two fixed channel names of the hook's `EVENTS` table. */
  const ERROR: string := "Recurly.error"
  const ALL_SUCCESSFUL_REQUESTS: string := "Recurly.*"

  /** An options object with nothing set: what `options || {}` gives for a
      missing options argument. */
  const NO_OPTIONS: Options := Options(None, None, None, None, None)

  /** A string option is truthy when present and not empty. */
  predicate TruthyString(o: Option<string>) {
    o.Some? && o.value != ""
  }

  /** `option || default` for a string option. */
  function StringOr(o: Option<string>, default: string): (r: string)
    ensures TruthyString(o) ==> r == o.value
    ensures !TruthyString(o) ==> r == default
    ensures default != "" ==> r != ""
  {
    if TruthyString(o) then o.value else default
  }

  /** `option || default` for a numeric option: 0 is falsy. */
  function PortOr(o: Option<int>, default: int): (r: int)
    ensures o.Some? && o.value != 0 ==> r == o.value
    ensures o.None? || o.value == 0 ==> r == default
    ensures default != 0 ==> r != 0
  {
    if o.Some? && o.value != 0 then o.value else default
  }

  /** `option || false` for a credential: an unset or empty option becomes
      the boolean `false`. */
  function CredentialOr(o: Option<string>): (r: JsValue)
    ensures r == JsBool(false) <==> !TruthyString(o)
    ensures TruthyString(o) ==> r == JsString(o.value)
    ensures r.JsString? ==> r.s != ""
  {
    if TruthyString(o) then JsString(o.value) else JsBool(false)
  }

  /** An incoming credential, always a string, is strictly equal to the
      configured one exactly when that option was set to this very string;
      an unset credential matches nothing at all, not even the empty string
      sent by a request without an auth header. */
  lemma CredentialMatch(o: Option<string>, incoming: string)
    ensures StrictEquals(JsString(incoming), CredentialOr(o))
        <==> TruthyString(o) && incoming == o.value
    ensures !TruthyString(o) ==> !StrictEquals(JsString(incoming), CredentialOr(o))
  {
  }

  /** The server instance. The handler only reads these fields after
      construction. */
  class RecurlyHook {
    const port: int
    const host: string
    const username: JsValue
    const password: JsValue
    const path: string

    constructor (options: Option<Options>)
      ensures var o := if options.Some? then options.value else NO_OPTIONS;
        && port == PortOr(o.port, DEFAULT_PORT)
        && host == StringOr(o.host, DEFAULT_HOST)
        && username == CredentialOr(o.username)
        && password == CredentialOr(o.password)
        && path == StringOr(o.path, DEFAULT_PATH)
      ensures port != 0 && host != "" && path != ""
    {
      var o := if options.Some? then options.value else NO_OPTIONS;
      port := PortOr(o.port, DEFAULT_PORT);
      host := StringOr(o.host, DEFAULT_HOST);
      username := CredentialOr(o.username);
      password := CredentialOr(o.password);
      path := StringOr(o.path, DEFAULT_PATH);
    }
  }
}
