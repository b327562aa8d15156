/** The backend's one configuration record: its fields, the default the
    request boundary fills in, the checks an update must pass and the choice
    of authentication it leads to. */
module Configuration {
  import opened Wrappers
  import opened Errors

  /** The base URL an update uses when it omits api_url. */
  const DefaultApiUrl: string := "https://api.tailscale.com"

  /** The stored record: the six fields an update supplies and a read returns. */
  datatype Config = Config(
    tailnet: string,
    apiKey: string,
    apiUrl: string,
    oauthClientId: string,
    oauthClientSecret: string,
    oauthScopes: seq<string>)

  /** The fields of a configuration update as the caller sent them. Only
      api_url has a non-empty default, so only its absence is recorded; an
      omitted string or list is already the empty one. */
  datatype ConfigFields = ConfigFields(
    tailnet: string,
    apiKey: string,
    apiUrl: Option<string>,
    oauthClientId: string,
    oauthClientSecret: string,
    oauthScopes: seq<string>)

  /** The request boundary: every field as supplied, api_url defaulted. A
      supplied api_url is kept, even an empty one; an omitted one becomes
      the default, which is never empty. */
  function WithDefaults(f: ConfigFields): (c: Config)
    ensures Supplying(c) == f <==> f.apiUrl.Some?
    ensures f.apiUrl.None? ==> Supplying(c) == f.(apiUrl := Some(DefaultApiUrl))
    ensures c.apiUrl == "" <==> f.apiUrl == Some("")
  {
    Config(
      f.tailnet,
      f.apiKey,
      match f.apiUrl { case Some(url) => url case None => DefaultApiUrl },
      f.oauthClientId,
      f.oauthClientSecret,
      f.oauthScopes)
  }

  /** The update that supplies every field of `c` explicitly. */
  function Supplying(c: Config): ConfigFields {
    ConfigFields(c.tailnet, c.apiKey, Some(c.apiUrl), c.oauthClientId, c.oauthClientSecret, c.oauthScopes)
  }

  /** Supplying a field leaves it as given, so every record can be written
      exactly, and leaving api_url out is the same as supplying the default. */
  lemma DefaultsOnlyFillApiUrl(c: Config, f: ConfigFields)
    ensures WithDefaults(Supplying(c)) == c
    ensures f.apiUrl.None? ==> WithDefaults(f) == WithDefaults(f.(apiUrl := Some(DefaultApiUrl)))
    ensures f.apiUrl.None? ==> WithDefaults(f).apiUrl == DefaultApiUrl
  {
  }

  /** The shape every stored record must have: a tailnet, some credential
      and an API URL. */
  predicate Complete(c: Config) {
    && c.tailnet != ""
    && (c.apiKey != "" || c.oauthClientId != "")
    && c.apiUrl != ""
  }

  /** Every rule `c` breaks, in the order an update checks them, each as the
      error it reports. */
  function Broken(c: Config): seq<Error> {
    (if c.tailnet == "" then [EmptyTailnet] else [])
    + (if c.apiKey == "" && c.oauthClientId == "" then [MissingCredential] else [])
    + (if c.apiUrl == "" then [EmptyApiUrl] else [])
  }

  /** The validation an update runs before it writes anything: it passes
      exactly the complete records and otherwise reports the first rule broken. */
  function Check(c: Config): (r: Option<Error>)
    ensures r.None? <==> Complete(c)
    ensures r.Some? ==> |Broken(c)| > 0 && r.value == Broken(c)[0]
  {
    if c.tailnet == "" then Some(EmptyTailnet)
    else if c.apiKey == "" && c.oauthClientId == "" then Some(MissingCredential)
    else if c.apiUrl == "" then Some(EmptyApiUrl)
    else None
  }

  /** The tailnet is checked first: an empty one is what is reported,
      whatever the credential and URL fields hold. */
  lemma EmptyTailnetReportedFirst(c: Config)
    requires c.tailnet == ""
    ensures Check(c) == Some(EmptyTailnet)
  {
  }

  /** With a tailnet, a missing credential is reported before the URL. */
  lemma MissingCredentialReportedSecond(c: Config)
    requires c.tailnet != "" && c.apiKey == "" && c.oauthClientId == ""
    ensures Check(c) == Some(MissingCredential)
  {
  }

  /** An omitted api_url is defaulted, so only an explicitly empty one fails. */
  lemma EmptyApiUrlOnlyWhenSupplied(f: ConfigFields)
    ensures Check(WithDefaults(f)) == Some(EmptyApiUrl)
            <==> f.tailnet != "" && (f.apiKey != "" || f.oauthClientId != "") && f.apiUrl == Some("")
  {
  }

  /** How the upstream client authenticates. */
  datatype Auth =
    | ApiKeyAuth(apiKey: string)
    | OAuthAuth(clientId: string, clientSecret: string, scopes: seq<string>)

  /** Everything the upstream client is built from. */
  datatype ClientSettings = ClientSettings(auth: Auth, tailnet: string, baseUrl: string)

  /** The client a record leads to: API-key authentication whenever an API
      key is present, the OAuth client-credential triple otherwise; the
      tailnet and base URL are passed on in both cases. */
  function Client(c: Config): (s: ClientSettings)
    ensures s.tailnet == c.tailnet && s.baseUrl == c.apiUrl
    ensures s.auth.ApiKeyAuth? <==> c.apiKey != ""
    ensures s.auth.ApiKeyAuth? ==> s.auth.apiKey == c.apiKey
    ensures s.auth.OAuthAuth? ==> s.auth == OAuthAuth(c.oauthClientId, c.oauthClientSecret, c.oauthScopes)
  {
    if c.apiKey != "" then
      ClientSettings(ApiKeyAuth(c.apiKey), c.tailnet, c.apiUrl)
    else
      ClientSettings(OAuthAuth(c.oauthClientId, c.oauthClientSecret, c.oauthScopes), c.tailnet, c.apiUrl)
  }

  /** With an API key present the OAuth fields play no part in the client. */
  lemma ApiKeyIgnoresOAuthFields(c: Config, id: string, secret: string, scopes: seq<string>)
    requires c.apiKey != ""
    ensures Client(c.(oauthClientId := id, oauthClientSecret := secret, oauthScopes := scopes)) == Client(c)
  {
  }

  /** A record that passes the update checks always selects a credential
      that is present: a non-empty API key or a non-empty OAuth client ID. */
  lemma CompleteSelectsPresentCredential(c: Config)
    requires Complete(c)
    ensures match Client(c).auth
            case ApiKeyAuth(key) => key != ""
            case OAuthAuth(id, _, _) => id != ""
  {
  }
}
