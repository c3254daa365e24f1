/**
 * Composition of the two variable maps upserted on the api and frontend services
 * (scripts/railway-setup.mjs, the URL ternaries and the `apiVars`/`frontendVars`
 * literals). A URL is absent (None) when no domain was generated; the script's
 * `url || placeholder` and `url ? ... : ...` treat an absent or empty URL alike.
 */
module Variables {
  import opened Wrappers

  const SCHEME := "https://"
  const API_PLACEHOLDER := "https://api-placeholder.railway.app"
  const FRONTEND_PLACEHOLDER := "https://frontend-placeholder.railway.app"
  const EDITOR_PATH := "/bal/<id>/<token>"
  const API_VERSION_PATH := "/v2"
  /** The fallbacks for the two composed URLs, spelled out in full by the script. */
  const EDITOR_PLACEHOLDER := FRONTEND_PLACEHOLDER + EDITOR_PATH
  const API_VERSION_PLACEHOLDER := API_PLACEHOLDER + API_VERSION_PATH
  /** Deferred references the platform resolves against the sibling Postgres and Redis services. */
  const POSTGRES_REF := "${{Postgres.DATABASE_URL}}"
  const REDIS_REF := "${{Redis.REDIS_URL}}"

  const POSTGRES_URL := "POSTGRES_URL"
  const REDIS_URL := "REDIS_URL"
  const API_URL := "API_URL"
  const EDITOR_URL_PATTERN := "EDITOR_URL_PATTERN"
  const NEXT_PUBLIC_EDITEUR_URL := "NEXT_PUBLIC_EDITEUR_URL"
  const NEXT_PUBLIC_BAL_API_URL := "NEXT_PUBLIC_BAL_API_URL"

  type Vars = map<string, string>

  /** The public URL of a generated hostname: the https scheme in front of it, absent for no hostname. */
  function Url(domain: string): (u: Option<string>)
    ensures u.Some? <==> domain != ""
    ensures u.Some? ==> |u.value| > |SCHEME| && u.value[..|SCHEME|] == SCHEME && u.value[|SCHEME|..] == domain
  {
    if domain != "" then Some(SCHEME + domain) else None
  }

  /**
   * The variables one upsert sends, named by the service they are for and by the two
   * generated hostnames ("" for none) their URLs are composed from.
   */
  datatype Assignment =
    | ApiAssignment(apiDomain: string, frontendDomain: string)
    | FrontendAssignment(apiDomain: string, frontendDomain: string)

  /** The map an assignment sends, built from the URLs of both hostnames. */
  function Values(a: Assignment): Vars {
    match a
    case ApiAssignment(apiDomain, frontendDomain) => ApiVars(Url(apiDomain), Url(frontendDomain))
    case FrontendAssignment(apiDomain, frontendDomain) => FrontendVars(Url(apiDomain), Url(frontendDomain))
  }

  /** JavaScript truthiness of an optional string. */
  predicate Present(u: Option<string>) {
    u.Some? && u.value != ""
  }

  /** `u || fallback`. */
  function OrElse(u: Option<string>, fallback: string): string {
    if Present(u) then u.value else fallback
  }

  /** The variables of the api service. */
  function ApiVars(apiUrl: Option<string>, frontendUrl: Option<string>): Vars
  {
    map[
      POSTGRES_URL := POSTGRES_REF,
      REDIS_URL := REDIS_REF,
      API_URL := OrElse(apiUrl, API_PLACEHOLDER),
      EDITOR_URL_PATTERN :=
        if Present(frontendUrl) then frontendUrl.value + EDITOR_PATH
        else EDITOR_PLACEHOLDER
    ]
  }

  /** The variables of the frontend service. */
  function FrontendVars(apiUrl: Option<string>, frontendUrl: Option<string>): Vars
  {
    map[
      NEXT_PUBLIC_EDITEUR_URL := OrElse(frontendUrl, FRONTEND_PLACEHOLDER),
      NEXT_PUBLIC_BAL_API_URL :=
        if Present(apiUrl) then apiUrl.value + API_VERSION_PATH
        else API_VERSION_PLACEHOLDER
    ]
  }

  /**
   * The api map holds the two deferred database and cache references, its own URL and
   * the editor URL pattern under the frontend's URL, each falling back to its
   * placeholder when the URL is absent.
   */
  lemma {:induction false} ApiVarsValues(apiUrl: Option<string>, frontendUrl: Option<string>)
    ensures ApiVars(apiUrl, frontendUrl).Keys == {POSTGRES_URL, REDIS_URL, API_URL, EDITOR_URL_PATTERN}
    ensures ApiVars(apiUrl, frontendUrl)[POSTGRES_URL] == POSTGRES_REF && ApiVars(apiUrl, frontendUrl)[REDIS_URL] == REDIS_REF
    ensures Present(apiUrl) ==> ApiVars(apiUrl, frontendUrl)[API_URL] == apiUrl.value
    ensures !Present(apiUrl) ==> ApiVars(apiUrl, frontendUrl)[API_URL] == API_PLACEHOLDER
    ensures Present(frontendUrl) ==> ApiVars(apiUrl, frontendUrl)[EDITOR_URL_PATTERN] == frontendUrl.value + EDITOR_PATH
    ensures !Present(frontendUrl) ==> ApiVars(apiUrl, frontendUrl)[EDITOR_URL_PATTERN] == EDITOR_PLACEHOLDER
  {
  }

  /** The frontend map holds its own URL and the versioned api URL, or their placeholders. */
  lemma {:induction false} FrontendVarsValues(apiUrl: Option<string>, frontendUrl: Option<string>)
    ensures FrontendVars(apiUrl, frontendUrl).Keys == {NEXT_PUBLIC_EDITEUR_URL, NEXT_PUBLIC_BAL_API_URL}
    ensures Present(frontendUrl) ==> FrontendVars(apiUrl, frontendUrl)[NEXT_PUBLIC_EDITEUR_URL] == frontendUrl.value
    ensures !Present(frontendUrl) ==> FrontendVars(apiUrl, frontendUrl)[NEXT_PUBLIC_EDITEUR_URL] == FRONTEND_PLACEHOLDER
    ensures Present(apiUrl) ==> FrontendVars(apiUrl, frontendUrl)[NEXT_PUBLIC_BAL_API_URL] == apiUrl.value + API_VERSION_PATH
    ensures !Present(apiUrl) ==> FrontendVars(apiUrl, frontendUrl)[NEXT_PUBLIC_BAL_API_URL] == API_VERSION_PLACEHOLDER
  {
  }

  /**
   * The two maps agree about both URLs, placeholders included: the api's editor pattern
   * is the frontend's own URL followed by the editor path, and the frontend's api URL is
   * the api's own URL followed by the version segment.
   */
  lemma {:induction false} MapsAgree(apiUrl: Option<string>, frontendUrl: Option<string>)
    ensures ApiVars(apiUrl, frontendUrl)[EDITOR_URL_PATTERN]
            == FrontendVars(apiUrl, frontendUrl)[NEXT_PUBLIC_EDITEUR_URL] + EDITOR_PATH
    ensures FrontendVars(apiUrl, frontendUrl)[NEXT_PUBLIC_BAL_API_URL]
            == ApiVars(apiUrl, frontendUrl)[API_URL] + API_VERSION_PATH
  {
  }

  /** No variable an upsert sends is empty, with or without generated domains. */
  lemma {:induction false} NoEmptyValue(a: Assignment)
    ensures forall k :: k in Values(a) ==> Values(a)[k] != ""
  {
  }

  /**
   * What the upserts send for two hostnames: a generated hostname gives its https URL
   * (with the editor path or the version segment where the other service refers to
   * it), and an absent one its placeholder.
   */
  lemma {:induction false} DomainValues(apiDomain: string, frontendDomain: string)
    ensures var api, frontend := Values(ApiAssignment(apiDomain, frontendDomain)), Values(FrontendAssignment(apiDomain, frontendDomain));
      && (apiDomain != "" ==> api[API_URL] == SCHEME + apiDomain
                              && frontend[NEXT_PUBLIC_BAL_API_URL] == SCHEME + apiDomain + API_VERSION_PATH)
      && (apiDomain == "" ==> api[API_URL] == API_PLACEHOLDER && frontend[NEXT_PUBLIC_BAL_API_URL] == API_VERSION_PLACEHOLDER)
      && (frontendDomain != "" ==> api[EDITOR_URL_PATTERN] == SCHEME + frontendDomain + EDITOR_PATH
                                   && frontend[NEXT_PUBLIC_EDITEUR_URL] == SCHEME + frontendDomain)
      && (frontendDomain == "" ==> api[EDITOR_URL_PATTERN] == EDITOR_PLACEHOLDER
                                   && frontend[NEXT_PUBLIC_EDITEUR_URL] == FRONTEND_PLACEHOLDER)
  {
  }

  /** The composed fallbacks are the literals the script writes. */
  lemma {:induction false} PlaceholdersSpelled()
    ensures EDITOR_PLACEHOLDER == "https://frontend-placeholder.railway.app/bal/<id>/<token>"
    ensures API_VERSION_PLACEHOLDER == "https://api-placeholder.railway.app/v2"
  {
  }

  lemma {:induction false} ExampleUrls()
    ensures ApiVars(Some("https://a.example"), Some("https://f.example"))[EDITOR_URL_PATTERN]
            == "https://f.example/bal/<id>/<token>"
    ensures FrontendVars(Some("https://a.example"), Some("https://f.example"))[NEXT_PUBLIC_BAL_API_URL]
            == "https://a.example/v2"
  {
  }
}
