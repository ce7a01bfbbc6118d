/**
 * The admin console's server-configuration composable (`useConfigHandler`),
 * without its Vue reactivity, GraphQL client and toasts.  It converts between
 * the backend's flat list of `name -> value` infra configs and the nested
 * `Config` record the settings screens edit:
 *   - `Decode` (run when the component mounts) builds a `Config` from the
 *     fetched infra configs and the list of allowed auth providers;
 *   - `UpdatedInfraConfigs` flattens the enabled sections back into pairs;
 *   - `AreAnyConfigFieldsEmpty` looks for blank fields in enabled sections;
 *   - `UpdatedAllowedAuthProviders` and `DataSharingStatus` give the
 *     ENABLE/DISABLE statuses sent with the provider and data-sharing mutations.
 */
module ConfigHandler {
  import opened Options
  import opened ConfigTables

  /** One row of the backend's flat infra-config list (also the shape of an update). */
  datatype InfraConfig = InfraConfig(name: string, value: string)

  /** The fields shared by the Google and GitHub sections. */
  datatype OAuthFields = OAuthFields(clientId: string, clientSecret: string, callbackUrl: string, scope: string)

  datatype MicrosoftFields =
    MicrosoftFields(clientId: string, clientSecret: string, callbackUrl: string, scope: string, tenant: string)

  datatype OpenidFields = OpenidFields(
    issuerUrl: string, issuerName: string, issuerIconUrl: string,
    authorizationEndpoint: string, tokenEndpoint: string, userinfoEndpoint: string,
    jwksUri: string, scopes: string, endSessionEndpoint: string,
    clientId: string, clientSecret: string)

  datatype MailFields = MailFields(mailerSmtpUrl: string, mailerFromAddress: string)

  /** A section of the settings screen: its name, its toggle, and its fields. */
  datatype Section<F> = Section(name: string, enabled: bool, fields: F)

  datatype DataSharing = DataSharing(name: string, enabled: bool)

  datatype Providers = Providers(
    google: Section<OAuthFields>,
    github: Section<OAuthFields>,
    microsoft: Section<MicrosoftFields>,
    openid: Section<OpenidFields>)

  /** The nested configuration the console edits. */
  datatype Config = Config(providers: Providers, mailConfigs: Section<MailFields>, dataSharingConfigs: DataSharing)

  /** One entry of the provider-status list sent to the backend. */
  datatype ProviderStatus = ProviderStatus(provider: string, status: string)

  // The names the composable asks the backend for, in the order it asks, section by section.
  const FETCHED_GOOGLE: seq<string> := ["GOOGLE_CLIENT_ID", "GOOGLE_CLIENT_SECRET", "GOOGLE_CALLBACK_URL", "GOOGLE_SCOPE"]
  const FETCHED_MICROSOFT: seq<string> := [
    "MICROSOFT_CLIENT_ID", "MICROSOFT_CLIENT_SECRET", "MICROSOFT_CALLBACK_URL", "MICROSOFT_SCOPE", "MICROSOFT_TENANT"
  ]
  const FETCHED_GITHUB: seq<string> := ["GITHUB_CLIENT_ID", "GITHUB_CLIENT_SECRET", "GITHUB_CALLBACK_URL", "GITHUB_SCOPE"]
  const FETCHED_MAIL: seq<string> := ["MAILER_SMTP_URL", "MAILER_ADDRESS_FROM"]
  const FETCHED_OPENID: seq<string> := [
    "OPENID_ISSUER_URL", "OPENID_ISSUER_NAME", "OPENID_ISSUER_ICON_URL", "OPENID_AUTHORIZATION_ENDPOINT",
    "OPENID_TOKEN_ENDPOINT", "OPENID_USERINFO_ENDPOINT", "OPENID_JWKS_URI", "OPENID_SCOPE",
    "OPENID_END_SESSION_ENDPOINT", "OPENID_CLIENT_ID", "OPENID_CLIENT_SECRET"
  ]
  const FETCHED_CONFIG_NAMES: seq<string> :=
    FETCHED_GOOGLE + FETCHED_MICROSOFT + FETCHED_GITHUB + FETCHED_MAIL + FETCHED_OPENID + ["ALLOW_ANALYTICS_COLLECTION"]

  // The names each disabled section filters out of the update list.
  const GOOGLE_NAMES: set<string> := {"GOOGLE_CLIENT_ID", "GOOGLE_CLIENT_SECRET", "GOOGLE_CALLBACK_URL", "GOOGLE_SCOPE"}
  const MICROSOFT_NAMES: set<string> := {
    "MICROSOFT_CLIENT_ID", "MICROSOFT_CLIENT_SECRET", "MICROSOFT_CALLBACK_URL", "MICROSOFT_SCOPE", "MICROSOFT_TENANT"
  }
  const GITHUB_NAMES: set<string> := {"GITHUB_CLIENT_ID", "GITHUB_CLIENT_SECRET", "GITHUB_CALLBACK_URL", "GITHUB_SCOPE"}
  const MAIL_NAMES: set<string> := {"MAILER_SMTP_URL", "MAILER_ADDRESS_FROM"}

  // ---------------------------------------------------------------------------
  // Array helpers: `find`, `some` and `filter`

  /** The index of the first element satisfying `p` (JavaScript's `find`, as a position). */
  function Find<T>(s: seq<T>, p: T -> bool): (r: Option<nat>)
    ensures r.Some? ==> r.value < |s|
  {
    if s == [] then None
    else if p(s[0]) then Some(0)
    else match Find(s[1..], p)
      case None => None
      case Some(i) => Some(i + 1)
  }

  /** `Find` answers with the first position whose element satisfies `p`, and with `None` when there is none. */
  lemma {:induction false} FindIsFirst<T>(s: seq<T>, p: T -> bool)
    ensures Find(s, p).Some? ==>
              && Find(s, p).value < |s| && p(s[Find(s, p).value])
              && forall j | 0 <= j < Find(s, p).value :: !p(s[j])
    ensures Find(s, p).None? ==> forall j | 0 <= j < |s| :: !p(s[j])
  {
    if s != [] && !p(s[0]) {
      FindIsFirst(s[1..], p);
    }
  }

  /** JavaScript's `some`, and `!!find(...)`. */
  function AnyMatch<T>(s: seq<T>, p: T -> bool): (b: bool)
    ensures b <==> exists i | 0 <= i < |s| :: p(s[i])
  {
    FindIsFirst(s, p);
    Find(s, p).Some?
  }

  /** JavaScript's `filter`: the elements satisfying `keep`, in their order. */
  function Filter<T>(s: seq<T>, keep: T -> bool): (r: seq<T>)
    ensures |r| <= |s|
    ensures forall x | x in r :: x in s && keep(x)
    ensures forall i | 0 <= i < |s| && keep(s[i]) :: s[i] in r
  {
    if s == [] then [] else (if keep(s[0]) then [s[0]] else []) + Filter(s[1..], keep)
  }

  /**
   * `filter` works element by element: a single element is kept or dropped, and
   * filtering a concatenation concatenates the filtered parts, so order and
   * repetitions are those of the input.
   */
  lemma {:induction false} FilterConcat<T>(a: seq<T>, b: seq<T>, keep: T -> bool)
    ensures Filter(a + b, keep) == Filter(a, keep) + Filter(b, keep)
  {
    if a != [] {
      assert (a + b)[1..] == a[1..] + b;
      FilterConcat(a[1..], b, keep);
    } else {
      assert a + b == b;
    }
  }

  /** Filtering one element keeps it exactly when it passes. */
  lemma FilterSingle<T>(x: T, keep: T -> bool)
    ensures Filter([x], keep) == if keep(x) then [x] else []
  {
    assert [x][1..] == [];
  }

  /** A filter that every element passes changes nothing, order included. */
  lemma {:induction false} FilterKeepsAll<T>(s: seq<T>, keep: T -> bool)
    requires forall i | 0 <= i < |s| :: keep(s[i])
    ensures Filter(s, keep) == s
  {
    if s != [] {
      FilterKeepsAll(s[1..], keep);
    }
  }

  // ---------------------------------------------------------------------------
  // Decoding the fetched list

  /** `getFieldValue`: the value of the first infra config called `name`, or "" when there is none. */
  function GetFieldValue(infraConfigs: seq<InfraConfig>, name: string): string {
    match Find(infraConfigs, (x: InfraConfig) => x.name == name)
    case Some(i) => infraConfigs[i].value
    case None => ""
  }

  /** The field lookup returns the value of the first entry with that name, and "" when no entry has it. */
  lemma GetFieldValueIsFirstMatch(infraConfigs: seq<InfraConfig>, name: string)
    ensures (forall i | 0 <= i < |infraConfigs| :: infraConfigs[i].name != name) ==>
              GetFieldValue(infraConfigs, name) == ""
    ensures forall i | 0 <= i < |infraConfigs| && infraConfigs[i].name == name ::
              (forall j | 0 <= j < i :: infraConfigs[j].name != name) ==>
                GetFieldValue(infraConfigs, name) == infraConfigs[i].value
    ensures (exists i | 0 <= i < |infraConfigs| :: infraConfigs[i].name == name) ==>
              exists i | 0 <= i < |infraConfigs| ::
                infraConfigs[i].name == name && infraConfigs[i].value == GetFieldValue(infraConfigs, name)
  {
    FindIsFirst(infraConfigs, (x: InfraConfig) => x.name == name);
  }

  /** One step of the lookup: the head answers if it carries the name, the tail otherwise. */
  lemma GetFieldValueStep(s: seq<InfraConfig>, name: string)
    requires s != []
    ensures GetFieldValue(s, name) == if s[0].name == name then s[0].value else GetFieldValue(s[1..], name)
  {
    var p := (x: InfraConfig) => x.name == name;
    if s[0].name != name {
      match Find(s[1..], p)
      case Some(i) => assert Find(s, p) == Some(i + 1);
      case None =>
    }
  }

  /** JavaScript's `find`: the first element satisfying `p`, if there is one. */
  function FindElement<T>(s: seq<T>, p: T -> bool): (r: Option<T>)
    ensures r.Some? ==> r.value in s && p(r.value)
    ensures r.Some? ==> exists i | 0 <= i < |s| :: s[i] == r.value && p(s[i]) && forall j | 0 <= j < i :: !p(s[j])
    ensures r.None? ==> forall i | 0 <= i < |s| :: !p(s[i])
  {
    if s == [] then None
    else if p(s[0]) then Some(s[0])
    else
      var rest := FindElement(s[1..], p);
      if rest.Some? then FirstMatchShift(s, p, rest.value); rest else rest
  }

  /** A first match in the tail of `s` is a first match in `s` when the head fails the test. */
  lemma FirstMatchShift<T>(s: seq<T>, p: T -> bool, x: T)
    requires s != [] && !p(s[0])
    requires exists i | 0 <= i < |s| - 1 :: s[1..][i] == x && p(s[1..][i]) && forall j | 0 <= j < i :: !p(s[1..][j])
    ensures exists i | 0 <= i < |s| :: s[i] == x && p(s[i]) && forall j | 0 <= j < i :: !p(s[j])
  {
    var i :| 0 <= i < |s| - 1 && s[1..][i] == x && p(s[1..][i]) && forall j | 0 <= j < i :: !p(s[1..][j]);
    assert s[i + 1] == x && forall j | 0 <= j < i + 1 :: !p(s[j]);
  }

  /** The test `(x) => x.name === name` the decoder passes to `find`. */
  function NameIs(name: string): InfraConfig -> bool {
    (x: InfraConfig) => x.name == name
  }

  /** `?.value ?? ''` applied to what `find` returned. */
  function ValueOrEmpty(found: Option<InfraConfig>): string {
    match found
    case Some(x) => x.value
    case None => ""
  }

  /**
   * The OpenID fields are read with `find(...)?.value ?? ''` written out inline;
   * that expression gives the same value as the `getFieldValue` helper.
   */
  lemma {:induction false} InlineLookupIsFieldValue(infraConfigs: seq<InfraConfig>, name: string)
    ensures ValueOrEmpty(FindElement(infraConfigs, NameIs(name))) == GetFieldValue(infraConfigs, name)
  {
    if infraConfigs != [] {
      GetFieldValueStep(infraConfigs, name);
      if infraConfigs[0].name != name {
        InlineLookupIsFieldValue(infraConfigs[1..], name);
      }
    }
  }

  /**
   * The field of `c` that holds the infra config `n`: one for each of the 26
   * names the decoder reads into a field, `None` for the OpenID callback URL
   * (which the composable has no field for) and for the analytics switch.
   */
  function FieldFor(c: Config, n: InfraConfigName): Option<string> {
    var google, github, microsoft := c.providers.google.fields, c.providers.github.fields, c.providers.microsoft.fields;
    var openid, mail := c.providers.openid.fields, c.mailConfigs.fields;
    match n
    case GoogleClientId => Some(google.clientId)
    case GoogleClientSecret => Some(google.clientSecret)
    case GoogleCallbackUrl => Some(google.callbackUrl)
    case GoogleScope => Some(google.scope)
    case MicrosoftClientId => Some(microsoft.clientId)
    case MicrosoftClientSecret => Some(microsoft.clientSecret)
    case MicrosoftCallbackUrl => Some(microsoft.callbackUrl)
    case MicrosoftScope => Some(microsoft.scope)
    case MicrosoftTenant => Some(microsoft.tenant)
    case GithubClientId => Some(github.clientId)
    case GithubClientSecret => Some(github.clientSecret)
    case GithubCallbackUrl => Some(github.callbackUrl)
    case GithubScope => Some(github.scope)
    case MailerSmtpUrl => Some(mail.mailerSmtpUrl)
    case MailerAddressFrom => Some(mail.mailerFromAddress)
    case OpenidIssuerName => Some(openid.issuerName)
    case OpenidIssuerUrl => Some(openid.issuerUrl)
    case OpenidIssuerIconUrl => Some(openid.issuerIconUrl)
    case OpenidAuthorizationEndpoint => Some(openid.authorizationEndpoint)
    case OpenidTokenEndpoint => Some(openid.tokenEndpoint)
    case OpenidUserInfoEndpoint => Some(openid.userinfoEndpoint)
    case OpenidJwksUri => Some(openid.jwksUri)
    case OpenidEndSessionEndpoint => Some(openid.endSessionEndpoint)
    case OpenidScopes => Some(openid.scopes)
    case OpenidCallbackUrl => None
    case OpenidClientId => Some(openid.clientId)
    case OpenidClientSecret => Some(openid.clientSecret)
    case AllowAnalyticsCollection => None
  }

  /** Reading a section's field by its key, as `fields[key]` does on the TypeScript record. */
  function OAuthFieldByKey(f: OAuthFields, key: string): Option<string> {
    if key == "client_id" then Some(f.clientId)
    else if key == "client_secret" then Some(f.clientSecret)
    else if key == "callback_url" then Some(f.callbackUrl)
    else if key == "scope" then Some(f.scope)
    else None
  }

  function MicrosoftFieldByKey(f: MicrosoftFields, key: string): Option<string> {
    if key == "client_id" then Some(f.clientId)
    else if key == "client_secret" then Some(f.clientSecret)
    else if key == "callback_url" then Some(f.callbackUrl)
    else if key == "scope" then Some(f.scope)
    else if key == "tenant" then Some(f.tenant)
    else None
  }

  function MailFieldByKey(f: MailFields, key: string): Option<string> {
    if key == "mailer_smtp_url" then Some(f.mailerSmtpUrl)
    else if key == "mailer_from_address" then Some(f.mailerFromAddress)
    else None
  }

  function OpenidFieldByKey(f: OpenidFields, key: string): Option<string> {
    if key == "issuer_url" then Some(f.issuerUrl)
    else if key == "issuer_name" then Some(f.issuerName)
    else if key == "issuer_icon_url" then Some(f.issuerIconUrl)
    else if key == "authorization_endpoint" then Some(f.authorizationEndpoint)
    else if key == "token_endpoint" then Some(f.tokenEndpoint)
    else if key == "userinfo_endpoint" then Some(f.userinfoEndpoint)
    else if key == "jwks_uri" then Some(f.jwksUri)
    else if key == "scopes" then Some(f.scopes)
    else if key == "end_session_endpoint" then Some(f.endSessionEndpoint)
    else if key == "client_id" then Some(f.clientId)
    else if key == "client_secret" then Some(f.clientSecret)
    else None
  }

  /** The `Config` built when the component mounts, from the fetched infra configs and allowed providers. */
  function Decode(infraConfigs: seq<InfraConfig>, allowedAuthProviders: seq<string>): (c: Config)
    ensures c.providers.google.enabled <==> exists k | 0 <= k < |allowedAuthProviders| :: allowedAuthProviders[k] == "GOOGLE"
    ensures c.providers.github.enabled <==> exists k | 0 <= k < |allowedAuthProviders| :: allowedAuthProviders[k] == "GITHUB"
    ensures c.providers.microsoft.enabled <==>
              exists k | 0 <= k < |allowedAuthProviders| :: allowedAuthProviders[k] == "MICROSOFT"
    ensures c.providers.openid.enabled <==> exists k | 0 <= k < |allowedAuthProviders| :: allowedAuthProviders[k] == "OPENID"
    ensures c.mailConfigs.enabled <==> exists k | 0 <= k < |allowedAuthProviders| :: allowedAuthProviders[k] == "EMAIL"
    ensures c.dataSharingConfigs.enabled <==>
              exists i | 0 <= i < |infraConfigs| ::
                infraConfigs[i].name == "ALLOW_ANALYTICS_COLLECTION" && infraConfigs[i].value == "true"
  {
    var list := infraConfigs;
    Config(
      Providers(
        Section("google", "GOOGLE" in allowedAuthProviders,
          OAuthFields(GetFieldValue(list, "GOOGLE_CLIENT_ID"), GetFieldValue(list, "GOOGLE_CLIENT_SECRET"),
                      GetFieldValue(list, "GOOGLE_CALLBACK_URL"), GetFieldValue(list, "GOOGLE_SCOPE"))),
        Section("github", "GITHUB" in allowedAuthProviders,
          OAuthFields(GetFieldValue(list, "GITHUB_CLIENT_ID"), GetFieldValue(list, "GITHUB_CLIENT_SECRET"),
                      GetFieldValue(list, "GITHUB_CALLBACK_URL"), GetFieldValue(list, "GITHUB_SCOPE"))),
        Section("microsoft", "MICROSOFT" in allowedAuthProviders,
          MicrosoftFields(GetFieldValue(list, "MICROSOFT_CLIENT_ID"), GetFieldValue(list, "MICROSOFT_CLIENT_SECRET"),
                          GetFieldValue(list, "MICROSOFT_CALLBACK_URL"), GetFieldValue(list, "MICROSOFT_SCOPE"), GetFieldValue(list, "MICROSOFT_TENANT"))),
        Section("openid", "OPENID" in allowedAuthProviders,
          OpenidFields(
            ValueOrEmpty(FindElement(list, NameIs("OPENID_ISSUER_URL"))),
            ValueOrEmpty(FindElement(list, NameIs("OPENID_ISSUER_NAME"))),
            ValueOrEmpty(FindElement(list, NameIs("OPENID_ISSUER_ICON_URL"))),
            ValueOrEmpty(FindElement(list, NameIs("OPENID_AUTHORIZATION_ENDPOINT"))),
            ValueOrEmpty(FindElement(list, NameIs("OPENID_TOKEN_ENDPOINT"))),
            ValueOrEmpty(FindElement(list, NameIs("OPENID_USERINFO_ENDPOINT"))),
            ValueOrEmpty(FindElement(list, NameIs("OPENID_JWKS_URI"))),
            ValueOrEmpty(FindElement(list, NameIs("OPENID_SCOPE"))),
            ValueOrEmpty(FindElement(list, NameIs("OPENID_END_SESSION_ENDPOINT"))),
            ValueOrEmpty(FindElement(list, NameIs("OPENID_CLIENT_ID"))),
            ValueOrEmpty(FindElement(list, NameIs("OPENID_CLIENT_SECRET")))))),
      Section("email", "EMAIL" in allowedAuthProviders,
        MailFields(GetFieldValue(list, "MAILER_SMTP_URL"), GetFieldValue(list, "MAILER_ADDRESS_FROM"))),
      DataSharing("data_sharing",
        AnyMatch(infraConfigs, (x: InfraConfig) => x.name == "ALLOW_ANALYTICS_COLLECTION" && x.value == "true")))
  }

  // What the decoder puts in the four sections the update list reads, written out field by field.
  predicate FilledFrom(c: Config, infraConfigs: seq<InfraConfig>) {
    var google, github := c.providers.google.fields, c.providers.github.fields;
    var microsoft, mail := c.providers.microsoft.fields, c.mailConfigs.fields;
    && google == OAuthFields(GetFieldValue(infraConfigs, "GOOGLE_CLIENT_ID"), GetFieldValue(infraConfigs, "GOOGLE_CLIENT_SECRET"),
                             GetFieldValue(infraConfigs, "GOOGLE_CALLBACK_URL"), GetFieldValue(infraConfigs, "GOOGLE_SCOPE"))
    && microsoft == MicrosoftFields(GetFieldValue(infraConfigs, "MICROSOFT_CLIENT_ID"), GetFieldValue(infraConfigs, "MICROSOFT_CLIENT_SECRET"),
                                    GetFieldValue(infraConfigs, "MICROSOFT_CALLBACK_URL"), GetFieldValue(infraConfigs, "MICROSOFT_SCOPE"),
                                    GetFieldValue(infraConfigs, "MICROSOFT_TENANT"))
    && github == OAuthFields(GetFieldValue(infraConfigs, "GITHUB_CLIENT_ID"), GetFieldValue(infraConfigs, "GITHUB_CLIENT_SECRET"),
                             GetFieldValue(infraConfigs, "GITHUB_CALLBACK_URL"), GetFieldValue(infraConfigs, "GITHUB_SCOPE"))
    && mail == MailFields(GetFieldValue(infraConfigs, "MAILER_SMTP_URL"), GetFieldValue(infraConfigs, "MAILER_ADDRESS_FROM"))
  }

  lemma DecodedFields(infraConfigs: seq<InfraConfig>, allowedAuthProviders: seq<string>)
    ensures FilledFrom(Decode(infraConfigs, allowedAuthProviders), infraConfigs)
  {
  }

  /** The OpenID section's inline lookups agree with `getFieldValue` on every one of its names. */
  lemma DecodedOpenidFields(infraConfigs: seq<InfraConfig>, allowedAuthProviders: seq<string>)
    ensures Decode(infraConfigs, allowedAuthProviders).providers.openid.fields == OpenidFields(
      GetFieldValue(infraConfigs, "OPENID_ISSUER_URL"),
      GetFieldValue(infraConfigs, "OPENID_ISSUER_NAME"),
      GetFieldValue(infraConfigs, "OPENID_ISSUER_ICON_URL"),
      GetFieldValue(infraConfigs, "OPENID_AUTHORIZATION_ENDPOINT"),
      GetFieldValue(infraConfigs, "OPENID_TOKEN_ENDPOINT"),
      GetFieldValue(infraConfigs, "OPENID_USERINFO_ENDPOINT"),
      GetFieldValue(infraConfigs, "OPENID_JWKS_URI"),
      GetFieldValue(infraConfigs, "OPENID_SCOPE"),
      GetFieldValue(infraConfigs, "OPENID_END_SESSION_ENDPOINT"),
      GetFieldValue(infraConfigs, "OPENID_CLIENT_ID"),
      GetFieldValue(infraConfigs, "OPENID_CLIENT_SECRET"))
  {
    InlineLookupIsFieldValue(infraConfigs, "OPENID_ISSUER_URL");
    InlineLookupIsFieldValue(infraConfigs, "OPENID_ISSUER_NAME");
    InlineLookupIsFieldValue(infraConfigs, "OPENID_ISSUER_ICON_URL");
    InlineLookupIsFieldValue(infraConfigs, "OPENID_AUTHORIZATION_ENDPOINT");
    InlineLookupIsFieldValue(infraConfigs, "OPENID_TOKEN_ENDPOINT");
    InlineLookupIsFieldValue(infraConfigs, "OPENID_USERINFO_ENDPOINT");
    InlineLookupIsFieldValue(infraConfigs, "OPENID_JWKS_URI");
    InlineLookupIsFieldValue(infraConfigs, "OPENID_SCOPE");
    InlineLookupIsFieldValue(infraConfigs, "OPENID_END_SESSION_ENDPOINT");
    InlineLookupIsFieldValue(infraConfigs, "OPENID_CLIENT_ID");
    InlineLookupIsFieldValue(infraConfigs, "OPENID_CLIENT_SECRET");
  }

  /** Each field the decoder fills holds the lookup of its own infra-config name. */
  lemma DecodeReadsFields(infraConfigs: seq<InfraConfig>, allowedAuthProviders: seq<string>, n: InfraConfigName)
    ensures FieldFor(Decode(infraConfigs, allowedAuthProviders), n).Some? ==>
      FieldFor(Decode(infraConfigs, allowedAuthProviders), n).value == GetFieldValue(infraConfigs, WireName(n))
  {
    var c := Decode(infraConfigs, allowedAuthProviders);
    DecodedFields(infraConfigs, allowedAuthProviders);
    DecodedOpenidFields(infraConfigs, allowedAuthProviders);
    if IsOpenid(n) {
      OpenidFieldFilled(c, infraConfigs, n);
    } else {
      SectionFieldFilled(c, infraConfigs, n);
    }
  }

  lemma SectionFieldFilled(c: Config, infraConfigs: seq<InfraConfig>, n: InfraConfigName)
    requires FilledFrom(c, infraConfigs) && !IsOpenid(n)
    ensures FieldFor(c, n).Some? ==> FieldFor(c, n).value == GetFieldValue(infraConfigs, WireName(n))
  {
  }

  lemma OpenidFieldFilled(c: Config, infraConfigs: seq<InfraConfig>, n: InfraConfigName)
    requires IsOpenid(n)
    requires c.providers.openid.fields == OpenidFields(
      GetFieldValue(infraConfigs, "OPENID_ISSUER_URL"),
      GetFieldValue(infraConfigs, "OPENID_ISSUER_NAME"),
      GetFieldValue(infraConfigs, "OPENID_ISSUER_ICON_URL"),
      GetFieldValue(infraConfigs, "OPENID_AUTHORIZATION_ENDPOINT"),
      GetFieldValue(infraConfigs, "OPENID_TOKEN_ENDPOINT"),
      GetFieldValue(infraConfigs, "OPENID_USERINFO_ENDPOINT"),
      GetFieldValue(infraConfigs, "OPENID_JWKS_URI"),
      GetFieldValue(infraConfigs, "OPENID_SCOPE"),
      GetFieldValue(infraConfigs, "OPENID_END_SESSION_ENDPOINT"),
      GetFieldValue(infraConfigs, "OPENID_CLIENT_ID"),
      GetFieldValue(infraConfigs, "OPENID_CLIENT_SECRET"))
    ensures FieldFor(c, n).Some? ==> FieldFor(c, n).value == GetFieldValue(infraConfigs, WireName(n))
  {
  }

  /** The enum members the composable has a field for: all but the OpenID callback URL and the analytics switch. */
  predicate HasField(n: InfraConfigName) {
    !n.OpenidCallbackUrl? && !n.AllowAnalyticsCollection?
  }

  /** Every configuration has a field for exactly the members `HasField` admits. */
  lemma FieldForHasField(c: Config, n: InfraConfigName)
    ensures FieldFor(c, n).Some? <==> HasField(n)
  {
  }

  /**
   * The decoder reads only names the composable fetched: every member with a field
   * is in the fetched list, and the analytics switch is fetched too.
   */
  lemma DecoderReadsFetchedNames(n: InfraConfigName)
    ensures HasField(n) ==> WireName(n) in FETCHED_CONFIG_NAMES
    ensures WireName(AllowAnalyticsCollection) in FETCHED_CONFIG_NAMES
  {
    var sections := FETCHED_GOOGLE + FETCHED_MICROSOFT + FETCHED_GITHUB + FETCHED_MAIL;
    if n.OpenidIssuerUrl? || n.OpenidIssuerName? || n.OpenidIssuerIconUrl? || n.OpenidAuthorizationEndpoint?
       || n.OpenidTokenEndpoint? || n.OpenidUserInfoEndpoint? || n.OpenidJwksUri? || n.OpenidScopes?
       || n.OpenidEndSessionEndpoint? || n.OpenidClientId? || n.OpenidClientSecret?
    {
      OpenidNameFetched(n);
      assert FETCHED_CONFIG_NAMES == sections + FETCHED_OPENID + ["ALLOW_ANALYTICS_COLLECTION"];
    } else if HasField(n) {
      SectionNameFetched(n);
    }
  }

  lemma OpenidNameFetched(n: InfraConfigName)
    requires n.OpenidIssuerUrl? || n.OpenidIssuerName? || n.OpenidIssuerIconUrl? || n.OpenidAuthorizationEndpoint?
             || n.OpenidTokenEndpoint? || n.OpenidUserInfoEndpoint? || n.OpenidJwksUri? || n.OpenidScopes?
             || n.OpenidEndSessionEndpoint? || n.OpenidClientId? || n.OpenidClientSecret?
    ensures WireName(n) in FETCHED_OPENID
  {
  }

  lemma SectionNameFetched(n: InfraConfigName)
    requires !n.OpenidIssuerUrl? && !n.OpenidIssuerName? && !n.OpenidIssuerIconUrl? && !n.OpenidAuthorizationEndpoint?
             && !n.OpenidTokenEndpoint? && !n.OpenidUserInfoEndpoint? && !n.OpenidJwksUri? && !n.OpenidScopes?
             && !n.OpenidEndSessionEndpoint? && !n.OpenidClientId? && !n.OpenidClientSecret?
             && !n.OpenidCallbackUrl? && !n.AllowAnalyticsCollection?
    ensures WireName(n) in FETCHED_GOOGLE + FETCHED_MICROSOFT + FETCHED_GITHUB + FETCHED_MAIL
  {
  }

  /** The OpenID callback URL is neither fetched nor read into a field. */
  lemma CallbackUrlNotFetched()
    ensures WireName(OpenidCallbackUrl) !in FETCHED_CONFIG_NAMES
    ensures !HasField(OpenidCallbackUrl)
  {
  }

  /**
   * The composable's state: the configuration as fetched, and the working copy
   * the settings screens edit.  Both are unset until the component mounts.
   */
  class ConfigHandler {
    var currentConfigs: Option<Config>
    var workingConfigs: Option<Config>

    constructor ()
      ensures currentConfigs == None && workingConfigs == None
    {
      currentConfigs := None;
      workingConfigs := None;
    }

    /** The mount hook: decode the fetched data, then copy it into the working configuration. */
    method Mount(infraConfigs: seq<InfraConfig>, allowedAuthProviders: seq<string>)
      modifies this
      ensures currentConfigs == Some(Decode(infraConfigs, allowedAuthProviders))
      ensures workingConfigs == currentConfigs
    {
      currentConfigs := Some(Decode(infraConfigs, allowedAuthProviders));
      workingConfigs := currentConfigs;
    }
  }

  // ---------------------------------------------------------------------------
  // Encoding the edited configuration

  // The pairs each enabled section pushes, in the order it pushes them.
  function GooglePairs(f: OAuthFields): seq<InfraConfig> {
    [ InfraConfig("GOOGLE_CLIENT_ID", f.clientId), InfraConfig("GOOGLE_CLIENT_SECRET", f.clientSecret),
      InfraConfig("GOOGLE_CALLBACK_URL", f.callbackUrl), InfraConfig("GOOGLE_SCOPE", f.scope) ]
  }

  function MicrosoftPairs(f: MicrosoftFields): seq<InfraConfig> {
    [ InfraConfig("MICROSOFT_CLIENT_ID", f.clientId), InfraConfig("MICROSOFT_CLIENT_SECRET", f.clientSecret),
      InfraConfig("MICROSOFT_CALLBACK_URL", f.callbackUrl), InfraConfig("MICROSOFT_SCOPE", f.scope),
      InfraConfig("MICROSOFT_TENANT", f.tenant) ]
  }

  function GithubPairs(f: OAuthFields): seq<InfraConfig> {
    [ InfraConfig("GITHUB_CLIENT_ID", f.clientId), InfraConfig("GITHUB_CLIENT_SECRET", f.clientSecret),
      InfraConfig("GITHUB_CALLBACK_URL", f.callbackUrl), InfraConfig("GITHUB_SCOPE", f.scope) ]
  }

  function MailPairs(f: MailFields): seq<InfraConfig> {
    [ InfraConfig("MAILER_SMTP_URL", f.mailerSmtpUrl), InfraConfig("MAILER_ADDRESS_FROM", f.mailerFromAddress) ]
  }

  /** The filter a disabled section applies: keep the items whose name is none of `names`. */
  function Outside(names: set<string>): InfraConfig -> bool {
    (item: InfraConfig) => item.name !in names
  }

  /** Every item of `s` is named by one of `owned`. */
  ghost predicate NamesIn(s: seq<InfraConfig>, owned: set<string>) {
    forall i | 0 <= i < |s| :: s[i].name in owned
  }

  lemma NamesInConcat(a: seq<InfraConfig>, b: seq<InfraConfig>, ownedA: set<string>, ownedB: set<string>)
    requires NamesIn(a, ownedA) && NamesIn(b, ownedB)
    ensures NamesIn(a + b, ownedA + ownedB)
  {
    forall i | 0 <= i < |a + b|
      ensures (a + b)[i].name in ownedA + ownedB
    {
      if i >= |a| {
        assert (a + b)[i] == b[i - |a|];
      }
    }
  }

  /** No item of `s` carries one of `names`. */
  ghost predicate Avoids(s: seq<InfraConfig>, names: set<string>) {
    forall i | 0 <= i < |s| :: s[i].name !in names
  }

  /** The pair the update list starts from, with an empty name. */
  const PLACEHOLDER := InfraConfig("", "")

  /**
   * The filter a disabled section applies. Its pairs were never pushed, so when no
   * item carries one of its names the list is left exactly as it was.
   */
  method FilterOutSection(config: seq<InfraConfig>, names: set<string>) returns (next: seq<InfraConfig>)
    requires Avoids(config, names)
    ensures next == config
  {
    FilterKeepsAll(config, Outside(names));
    next := Filter(config, Outside(names));
  }

  /** The final filter drops the placeholder in front and keeps every named pair. */
  method DropPlaceholder(config: seq<InfraConfig>) returns (next: seq<InfraConfig>)
    requires |config| > 0 && config[0] == PLACEHOLDER && Avoids(config[1..], {""})
    ensures next == config[1..]
  {
    FilterKeepsAll(config[1..], Outside({""}));
    assert config == [config[0]] + config[1..];
    next := Filter(config, Outside({""}));
  }

  /** The four sections own disjoint sets of names, none of them empty. */
  lemma SectionNamesDisjoint()
    ensures GOOGLE_NAMES !! MICROSOFT_NAMES && GOOGLE_NAMES !! GITHUB_NAMES && GOOGLE_NAMES !! MAIL_NAMES
    ensures MICROSOFT_NAMES !! GITHUB_NAMES && MICROSOFT_NAMES !! MAIL_NAMES && GITHUB_NAMES !! MAIL_NAMES
    ensures "" !in GOOGLE_NAMES && "" !in MICROSOFT_NAMES && "" !in GITHUB_NAMES && "" !in MAIL_NAMES
  {
  }

  // The pairs a section contributes to the update list: its pairs when it is enabled, none otherwise.
  function GoogleSegment(updatedConfigs: Option<Config>): seq<InfraConfig> {
    if updatedConfigs.Some? && updatedConfigs.value.providers.google.enabled
    then GooglePairs(updatedConfigs.value.providers.google.fields) else []
  }

  function MicrosoftSegment(updatedConfigs: Option<Config>): seq<InfraConfig> {
    if updatedConfigs.Some? && updatedConfigs.value.providers.microsoft.enabled
    then MicrosoftPairs(updatedConfigs.value.providers.microsoft.fields) else []
  }

  function GithubSegment(updatedConfigs: Option<Config>): seq<InfraConfig> {
    if updatedConfigs.Some? && updatedConfigs.value.providers.github.enabled
    then GithubPairs(updatedConfigs.value.providers.github.fields) else []
  }

  function MailSegment(updatedConfigs: Option<Config>): seq<InfraConfig> {
    if updatedConfigs.Some? && updatedConfigs.value.mailConfigs.enabled
    then MailPairs(updatedConfigs.value.mailConfigs.fields) else []
  }

  /** Each segment uses only its own section's names. */
  lemma SegmentNamesOwned(updatedConfigs: Option<Config>)
    ensures NamesIn(GoogleSegment(updatedConfigs), GOOGLE_NAMES)
    ensures NamesIn(MicrosoftSegment(updatedConfigs), MICROSOFT_NAMES)
    ensures NamesIn(GithubSegment(updatedConfigs), GITHUB_NAMES)
    ensures NamesIn(MailSegment(updatedConfigs), MAIL_NAMES)
  {
  }

  /**
   * Before each section's step the list built so far carries none of that
   * section's names, and no pushed pair has an empty name.
   */
  lemma PrefixesAvoidSections(u: Option<Config>)
    ensures Avoids([PLACEHOLDER], GOOGLE_NAMES)
    ensures Avoids([PLACEHOLDER] + GoogleSegment(u), MICROSOFT_NAMES)
    ensures Avoids([PLACEHOLDER] + GoogleSegment(u) + MicrosoftSegment(u), GITHUB_NAMES)
    ensures Avoids([PLACEHOLDER] + GoogleSegment(u) + MicrosoftSegment(u) + GithubSegment(u), MAIL_NAMES)
    ensures Avoids(GoogleSegment(u) + MicrosoftSegment(u) + GithubSegment(u) + MailSegment(u), {""})
  {
    var g, m, h, e := GoogleSegment(u), MicrosoftSegment(u), GithubSegment(u), MailSegment(u);
    SectionNamesDisjoint();
    SegmentNamesOwned(u);
    NamesInConcat([PLACEHOLDER], g, {""}, GOOGLE_NAMES);
    NamesInConcat([PLACEHOLDER] + g, m, {""} + GOOGLE_NAMES, MICROSOFT_NAMES);
    NamesInConcat([PLACEHOLDER] + g + m, h, {""} + GOOGLE_NAMES + MICROSOFT_NAMES, GITHUB_NAMES);
    NamesInConcat(g, m, GOOGLE_NAMES, MICROSOFT_NAMES);
    NamesInConcat(g + m, h, GOOGLE_NAMES + MICROSOFT_NAMES, GITHUB_NAMES);
    NamesInConcat(g + m + h, e, GOOGLE_NAMES + MICROSOFT_NAMES + GITHUB_NAMES, MAIL_NAMES);
  }

  /**
   * What the update list should be: the Google, Microsoft, GitHub and mail pairs,
   * in that order, each only when its section is enabled; nothing without a configuration.
   */
  function InfraConfigsOf(updatedConfigs: Option<Config>): seq<InfraConfig> {
    GoogleSegment(updatedConfigs) + MicrosoftSegment(updatedConfigs)
    + GithubSegment(updatedConfigs) + MailSegment(updatedConfigs)
  }

  /**
   * `updatedInfraConfigs`: start from a placeholder pair with an empty name, push
   * the pairs of each enabled section or filter out the names of a disabled one,
   * and finally drop the placeholder.
   */
  method UpdatedInfraConfigs(updatedConfigs: Option<Config>) returns (config: seq<InfraConfig>)
    ensures config == InfraConfigsOf(updatedConfigs)
  {
    ghost var g, m, h, e :=
      GoogleSegment(updatedConfigs), MicrosoftSegment(updatedConfigs),
      GithubSegment(updatedConfigs), MailSegment(updatedConfigs);
    PrefixesAvoidSections(updatedConfigs);

    config := [PLACEHOLDER];
    if updatedConfigs.Some? && updatedConfigs.value.providers.google.enabled {
      config := config + GooglePairs(updatedConfigs.value.providers.google.fields);
    } else {
      config := FilterOutSection(config, GOOGLE_NAMES);
    }
    assert config == [PLACEHOLDER] + g;

    if updatedConfigs.Some? && updatedConfigs.value.providers.microsoft.enabled {
      config := config + MicrosoftPairs(updatedConfigs.value.providers.microsoft.fields);
    } else {
      config := FilterOutSection(config, MICROSOFT_NAMES);
    }
    assert config == [PLACEHOLDER] + g + m;

    if updatedConfigs.Some? && updatedConfigs.value.providers.github.enabled {
      config := config + GithubPairs(updatedConfigs.value.providers.github.fields);
    } else {
      config := FilterOutSection(config, GITHUB_NAMES);
    }
    assert config == [PLACEHOLDER] + g + m + h;

    if updatedConfigs.Some? && updatedConfigs.value.mailConfigs.enabled {
      config := config + MailPairs(updatedConfigs.value.mailConfigs.fields);
    } else {
      config := FilterOutSection(config, MAIL_NAMES);
    }
    assert config == [PLACEHOLDER] + (g + m + h + e);
    assert config[1..] == g + m + h + e;

    config := DropPlaceholder(config);
  }

  // ---------------------------------------------------------------------------
  // Blank-field check

  /** The characters JavaScript's `trim` removes: WhiteSpace and LineTerminator code points. */
  predicate IsJsWhitespace(ch: char) {
    var n := ch as int;
    || n == 0x09 || n == 0x0A || n == 0x0B || n == 0x0C || n == 0x0D || n == 0x20
    || n == 0xA0 || n == 0x1680 || (0x2000 <= n <= 0x200A) || n == 0x2028 || n == 0x2029
    || n == 0x202F || n == 0x205F || n == 0x3000 || n == 0xFEFF
  }

  /** The string without its leading whitespace. */
  function TrimStart(s: string): (r: string)
    ensures |r| <= |s| && r == s[|s| - |r|..]
    ensures forall i | 0 <= i < |s| - |r| :: IsJsWhitespace(s[i])
    ensures r != [] ==> !IsJsWhitespace(r[0])
  {
    if s != [] && IsJsWhitespace(s[0]) then TrimStart(s[1..]) else s
  }

  /** The string without its trailing whitespace. */
  function TrimEnd(s: string): (r: string)
    ensures |r| <= |s| && r == s[..|r|]
    ensures forall i | |r| <= i < |s| :: IsJsWhitespace(s[i])
    ensures r != [] ==> !IsJsWhitespace(r[|r| - 1])
  {
    if s != [] && IsJsWhitespace(s[|s| - 1]) then TrimEnd(s[..|s| - 1]) else s
  }

  /** JavaScript's `trim`. */
  function Trim(s: string): string {
    TrimEnd(TrimStart(s))
  }

  /** The string holds whitespace only (the empty string included). */
  predicate IsBlank(s: string) {
    forall i | 0 <= i < |s| :: IsJsWhitespace(s[i])
  }

  /** `isFieldEmpty`: the field is empty once trimmed, that is, it holds only whitespace. */
  function IsFieldEmpty(field: string): (empty: bool)
    ensures empty <==> IsBlank(field)
  {
    var t := TrimStart(field);
    assert forall i | |field| - |t| <= i < |field| :: field[i] == t[i - (|field| - |t|)];
    Trim(field) == ""
  }

  /** Some value consists of whitespace only. */
  ghost predicate HasBlankValue(values: seq<string>) {
    exists i | 0 <= i < |values| :: IsBlank(values[i])
  }

  // A section's field values, as `Object.values` lists them.
  function OAuthValues(f: OAuthFields): seq<string> {
    [f.clientId, f.clientSecret, f.callbackUrl, f.scope]
  }

  function MicrosoftValues(f: MicrosoftFields): seq<string> {
    [f.clientId, f.clientSecret, f.callbackUrl, f.scope, f.tenant]
  }

  function MailValues(f: MailFields): seq<string> {
    [f.mailerSmtpUrl, f.mailerFromAddress]
  }

  /** A section as the blank-field check sees it. */
  datatype ConfigSection = ConfigSection(enabled: bool, fields: seq<string>)

  /** An enabled section with some blank field. */
  predicate SectionHasBlankField(section: ConfigSection) {
    section.enabled && AnyMatch(section.fields, IsFieldEmpty)
  }

  /** The sections the blank-field check looks at, in its order. */
  function CheckedSections(config: Config): seq<ConfigSection> {
    var p := config.providers;
    [ ConfigSection(p.github.enabled, OAuthValues(p.github.fields)),
      ConfigSection(p.google.enabled, OAuthValues(p.google.fields)),
      ConfigSection(p.microsoft.enabled, MicrosoftValues(p.microsoft.fields)),
      ConfigSection(config.mailConfigs.enabled, MailValues(config.mailConfigs.fields)) ]
  }

  /** `AreAnyConfigFieldsEmpty`: some checked section is enabled and has a blank field. */
  function AreAnyConfigFieldsEmpty(config: Config): bool {
    AnyMatch(CheckedSections(config), SectionHasBlankField)
  }

  /**
   * The check answers true exactly when one of the GitHub, Google, Microsoft and
   * mail sections is enabled and has a value made of whitespace only. The OpenID
   * and data-sharing sections are not looked at.
   */
  lemma AreAnyConfigFieldsEmptyIff(config: Config)
    ensures AreAnyConfigFieldsEmpty(config) <==>
      || (config.providers.github.enabled && HasBlankValue(OAuthValues(config.providers.github.fields)))
      || (config.providers.google.enabled && HasBlankValue(OAuthValues(config.providers.google.fields)))
      || (config.providers.microsoft.enabled && HasBlankValue(MicrosoftValues(config.providers.microsoft.fields)))
      || (config.mailConfigs.enabled && HasBlankValue(MailValues(config.mailConfigs.fields)))
  {
    var sections := CheckedSections(config);
    BlankFieldIff(sections[0].fields);
    BlankFieldIff(sections[1].fields);
    BlankFieldIff(sections[2].fields);
    BlankFieldIff(sections[3].fields);
    AnyMatchOfFour(sections, SectionHasBlankField);
  }

  /** `some` over four items is the disjunction of the predicate on each. */
  lemma AnyMatchOfFour<T>(s: seq<T>, p: T -> bool)
    requires |s| == 4
    ensures AnyMatch(s, p) <==> p(s[0]) || p(s[1]) || p(s[2]) || p(s[3])
  {
    if AnyMatch(s, p) {
      var i :| 0 <= i < |s| && p(s[i]);
      assert i == 0 || i == 1 || i == 2 || i == 3;
    }
  }

  /** `some(isFieldEmpty)` over a section's values finds a blank value exactly when there is one. */
  lemma BlankFieldIff(values: seq<string>)
    ensures AnyMatch(values, IsFieldEmpty) <==> HasBlankValue(values)
  {
    if HasBlankValue(values) {
      var i :| 0 <= i < |values| && IsBlank(values[i]);
      assert IsFieldEmpty(values[i]);
    }
  }

  // ---------------------------------------------------------------------------
  // Provider and data-sharing statuses

  function Status(enabled: bool): string {
    if enabled then "ENABLE" else "DISABLE"
  }

  /** `updatedAllowedAuthProviders`: the ENABLE/DISABLE status of each of the four togglable providers. */
  function UpdatedAllowedAuthProviders(updatedConfigs: Option<Config>): (r: seq<ProviderStatus>)
    ensures |r| == 4
    ensures r[0].provider == "GOOGLE" && r[1].provider == "MICROSOFT"
    ensures r[2].provider == "GITHUB" && r[3].provider == "EMAIL"
    ensures forall i | 0 <= i < |r| :: r[i].status == "ENABLE" || r[i].status == "DISABLE"
    ensures r[0].status == "ENABLE" <==> updatedConfigs.Some? && updatedConfigs.value.providers.google.enabled
    ensures r[1].status == "ENABLE" <==> updatedConfigs.Some? && updatedConfigs.value.providers.microsoft.enabled
    ensures r[2].status == "ENABLE" <==> updatedConfigs.Some? && updatedConfigs.value.providers.github.enabled
    ensures r[3].status == "ENABLE" <==> updatedConfigs.Some? && updatedConfigs.value.mailConfigs.enabled
  {
    match updatedConfigs
    case None =>
      [ ProviderStatus("GOOGLE", "DISABLE"), ProviderStatus("MICROSOFT", "DISABLE"),
        ProviderStatus("GITHUB", "DISABLE"), ProviderStatus("EMAIL", "DISABLE") ]
    case Some(c) =>
      [ ProviderStatus("GOOGLE", Status(c.providers.google.enabled)),
        ProviderStatus("MICROSOFT", Status(c.providers.microsoft.enabled)),
        ProviderStatus("GITHUB", Status(c.providers.github.enabled)),
        ProviderStatus("EMAIL", Status(c.mailConfigs.enabled)) ]
  }

  /** The status sent by the data-sharing mutation. */
  function DataSharingStatus(updatedConfigs: Option<Config>): (status: string)
    ensures status == "ENABLE" || status == "DISABLE"
    ensures status == "ENABLE" <==> updatedConfigs.Some? && updatedConfigs.value.dataSharingConfigs.enabled
  {
    match updatedConfigs
    case None => "DISABLE"
    case Some(c) => Status(c.dataSharingConfigs.enabled)
  }
}
