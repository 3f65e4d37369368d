/**
 * `webroot/sources/app.js`: the client script that makes htmx send the CSRF
 * token. The page's `csrf-token` meta tag is an input; the listener it
 * installs is the header update `OnConfigRequest` applies to each request.
 * The console messages are modelled by which of them is chosen.
 */
module HtmxCsrf {
  import opened Wrappers
  import opened Text

  /** The `csrf-token` meta tag: missing, or present with a `content` attribute that may be missing (`null`). */
  datatype MetaTag = NoMeta | Meta(content: Option<string>)

  /** The markers the server puts in the meta tag instead of a token. */
  const Disabled: string := "csrf-disabled"
  const ApiExcluded: string := "csrf-api-excluded"

  const HeaderName: string := "X-CSRF-Token"

  /** The token the script reads: the attribute's value, or `null`. */
  function TokenOf(meta: MetaTag): Option<string> {
    if meta.Meta? then meta.content else None
  }

  /** `token` is truthy and is neither marker. */
  predicate Accepts(token: Option<string>) {
    token.Some? && token.value != "" && token.value != Disabled && token.value != ApiExcluded
  }

  /** Why no listener was installed, in the order the script tests. */
  datatype Diagnostic = ExplicitlyDisabled | ExcludedApi | MissingOrEmpty

  /** What `configureHtmxCsrf` leaves behind. */
  datatype Outcome = Listening(token: string) | NotConfigured(why: Diagnostic)

  function ConfigureHtmxCsrf(meta: MetaTag): (r: Outcome)
    ensures r.Listening? <==> Accepts(TokenOf(meta))
    ensures r.Listening? ==> Some(r.token) == TokenOf(meta)
    ensures r == NotConfigured(ExplicitlyDisabled) <==> TokenOf(meta) == Some(Disabled)
    ensures r == NotConfigured(ExcludedApi) <==> TokenOf(meta) == Some(ApiExcluded)
    ensures r == NotConfigured(MissingOrEmpty) <==> TokenOf(meta) == None || TokenOf(meta) == Some("")
  {
    match TokenOf(meta)
    case None => NotConfigured(MissingOrEmpty)
    case Some(token) =>
      if token == "" then NotConfigured(MissingOrEmpty)
      else if token == Disabled then NotConfigured(ExplicitlyDisabled)
      else if token == ApiExcluded then NotConfigured(ExcludedApi)
      else Listening(token)
  }

  /** The methods that change state, after upper-casing the verb. */
  predicate ChangesState(verb: string) {
    var m := Upper(verb);
    m == "POST" || m == "PUT" || m == "DELETE" || m == "PATCH"
  }

  /** The request headers after the `htmx:configRequest` event has been handled. */
  function OnConfigRequest(outcome: Outcome, verb: string, headers: map<string, string>): (r: map<string, string>)
    ensures outcome.Listening? && ChangesState(verb) ==> HeaderName in r && r[HeaderName] == outcome.token
    ensures !(outcome.Listening? && ChangesState(verb)) ==> r == headers
    ensures r.Keys == headers.Keys || r.Keys == headers.Keys + {HeaderName}
    ensures forall h :: h in headers && h != HeaderName ==> h in r && r[h] == headers[h]
  {
    if outcome.Listening? && ChangesState(verb) then headers[HeaderName := outcome.token] else headers
  }

  /** The verb is compared without regard to case; reads never carry the token. */
  lemma VerbCaseIsIgnored()
    ensures ChangesState("post") && ChangesState("Patch") && ChangesState("DELETE")
    ensures !ChangesState("get") && !ChangesState("GET")
  {
    assert Upper("post") == "POST";
    assert Upper("Patch") == "PATCH";
    assert Upper("DELETE") == "DELETE";
    assert Upper("get") == "GET";
    assert Upper("GET") == "GET";
  }

  /** A state-changing request carries the header exactly when the page offered a real token, and then it carries that token. */
  lemma TokenSentIffOffered(meta: MetaTag, verb: string, headers: map<string, string>)
    requires ChangesState(verb)
    ensures var r := OnConfigRequest(ConfigureHtmxCsrf(meta), verb, headers);
      (Accepts(TokenOf(meta)) ==> HeaderName in r && Some(r[HeaderName]) == TokenOf(meta))
      && (!Accepts(TokenOf(meta)) ==> r == headers)
  {
  }

  /** Handling the event twice sets the same header as handling it once. */
  lemma OnConfigRequestIsIdempotent(outcome: Outcome, verb: string, headers: map<string, string>)
    ensures var once := OnConfigRequest(outcome, verb, headers);
      OnConfigRequest(outcome, verb, once) == once
  {
  }
}
