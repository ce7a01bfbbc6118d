/**
 * The constant tables of the admin console's `helpers/configs.ts`: each one pairs
 * an infra-config enum member with the key of the field that holds its value in
 * a section of the server configuration.
 */
module ConfigTables {

  /** The members of the backend's `InfraConfigEnum` that the tables name. */
  datatype InfraConfigName =
    | GoogleClientId | GoogleClientSecret | GoogleCallbackUrl | GoogleScope
    | MicrosoftClientId | MicrosoftClientSecret | MicrosoftCallbackUrl | MicrosoftScope | MicrosoftTenant
    | GithubClientId | GithubClientSecret | GithubCallbackUrl | GithubScope
    | MailerSmtpUrl | MailerAddressFrom
    | OpenidIssuerName | OpenidIssuerUrl | OpenidIssuerIconUrl | OpenidAuthorizationEndpoint
    | OpenidTokenEndpoint | OpenidUserInfoEndpoint | OpenidJwksUri | OpenidEndSessionEndpoint
    | OpenidScopes | OpenidCallbackUrl | OpenidClientId | OpenidClientSecret
    | AllowAnalyticsCollection

  /**
   * The string an enum member stands for on the wire: the upper-snake name the
   * configuration composable asks the backend for.
   */
  function WireName(n: InfraConfigName): string {
    match n
    case GoogleClientId => "GOOGLE_CLIENT_ID"
    case GoogleClientSecret => "GOOGLE_CLIENT_SECRET"
    case GoogleCallbackUrl => "GOOGLE_CALLBACK_URL"
    case GoogleScope => "GOOGLE_SCOPE"
    case MicrosoftClientId => "MICROSOFT_CLIENT_ID"
    case MicrosoftClientSecret => "MICROSOFT_CLIENT_SECRET"
    case MicrosoftCallbackUrl => "MICROSOFT_CALLBACK_URL"
    case MicrosoftScope => "MICROSOFT_SCOPE"
    case MicrosoftTenant => "MICROSOFT_TENANT"
    case GithubClientId => "GITHUB_CLIENT_ID"
    case GithubClientSecret => "GITHUB_CLIENT_SECRET"
    case GithubCallbackUrl => "GITHUB_CALLBACK_URL"
    case GithubScope => "GITHUB_SCOPE"
    case MailerSmtpUrl => "MAILER_SMTP_URL"
    case MailerAddressFrom => "MAILER_ADDRESS_FROM"
    case OpenidIssuerName => "OPENID_ISSUER_NAME"
    case OpenidIssuerUrl => "OPENID_ISSUER_URL"
    case OpenidIssuerIconUrl => "OPENID_ISSUER_ICON_URL"
    case OpenidAuthorizationEndpoint => "OPENID_AUTHORIZATION_ENDPOINT"
    case OpenidTokenEndpoint => "OPENID_TOKEN_ENDPOINT"
    case OpenidUserInfoEndpoint => "OPENID_USERINFO_ENDPOINT"
    case OpenidJwksUri => "OPENID_JWKS_URI"
    case OpenidEndSessionEndpoint => "OPENID_END_SESSION_ENDPOINT"
    case OpenidScopes => "OPENID_SCOPE"
    case OpenidCallbackUrl => "OPENID_CALLBACK_URL"
    case OpenidClientId => "OPENID_CLIENT_ID"
    case OpenidClientSecret => "OPENID_CLIENT_SECRET"
    case AllowAnalyticsCollection => "ALLOW_ANALYTICS_COLLECTION"
  }

  /** The members that configure the OpenID Connect provider. */
  predicate IsOpenid(n: InfraConfigName) {
    || n.OpenidIssuerName? || n.OpenidIssuerUrl? || n.OpenidIssuerIconUrl? || n.OpenidAuthorizationEndpoint?
    || n.OpenidTokenEndpoint? || n.OpenidUserInfoEndpoint? || n.OpenidJwksUri? || n.OpenidEndSessionEndpoint?
    || n.OpenidScopes? || n.OpenidCallbackUrl? || n.OpenidClientId? || n.OpenidClientSecret?
  }

  /** One row of a table (the `Config` type of `configs.ts`). */
  datatype ConfigEntry = ConfigEntry(name: InfraConfigName, key: string)

  /** An element of `ALL_CONFIGS`: a keyed table, or the data-sharing group whose rows carry no key. */
  datatype ConfigGroup = Keyed(entries: seq<ConfigEntry>) | Unkeyed(names: seq<InfraConfigName>)

  // The field keys of the sections of the `ServerConfigs` shape, in declaration order.
  const GOOGLE_FIELD_KEYS: seq<string> := ["client_id", "client_secret", "callback_url", "scope"]
  const GITHUB_FIELD_KEYS: seq<string> := ["client_id", "client_secret", "callback_url", "scope"]
  const MICROSOFT_FIELD_KEYS: seq<string> := ["client_id", "client_secret", "callback_url", "scope", "tenant"]
  const MAIL_FIELD_KEYS: seq<string> := ["mailer_smtp_url", "mailer_from_address"]

  const GOOGLE_CONFIGS: seq<ConfigEntry> := [
    ConfigEntry(GoogleClientId, "client_id"),
    ConfigEntry(GoogleClientSecret, "client_secret"),
    ConfigEntry(GoogleCallbackUrl, "callback_url"),
    ConfigEntry(GoogleScope, "scope")
  ]

  const MICROSOFT_CONFIGS: seq<ConfigEntry> := [
    ConfigEntry(MicrosoftClientId, "client_id"),
    ConfigEntry(MicrosoftClientSecret, "client_secret"),
    ConfigEntry(MicrosoftCallbackUrl, "callback_url"),
    ConfigEntry(MicrosoftScope, "scope"),
    ConfigEntry(MicrosoftTenant, "tenant")
  ]

  const GITHUB_CONFIGS: seq<ConfigEntry> := [
    ConfigEntry(GithubClientId, "client_id"),
    ConfigEntry(GithubClientSecret, "client_secret"),
    ConfigEntry(GithubCallbackUrl, "callback_url"),
    ConfigEntry(GithubScope, "scope")
  ]

  const MAIL_CONFIGS: seq<ConfigEntry> := [
    ConfigEntry(MailerSmtpUrl, "mailer_smtp_url"),
    ConfigEntry(MailerAddressFrom, "mailer_from_address")
  ]

  const OIDC_CONFIGS: seq<ConfigEntry> := [
    ConfigEntry(OpenidIssuerName, "issuer_name"),
    ConfigEntry(OpenidIssuerUrl, "issuer_url"),
    ConfigEntry(OpenidIssuerIconUrl, "issuer_icon_url"),
    ConfigEntry(OpenidAuthorizationEndpoint, "authorization_endpoint"),
    ConfigEntry(OpenidTokenEndpoint, "token_endpoint"),
    ConfigEntry(OpenidUserInfoEndpoint, "userinfo_endpoint"),
    ConfigEntry(OpenidJwksUri, "jwks_uri"),
    ConfigEntry(OpenidEndSessionEndpoint, "end_session_endpoint"),
    ConfigEntry(OpenidScopes, "scopes"),
    ConfigEntry(OpenidCallbackUrl, "callback_url"),
    ConfigEntry(OpenidClientId, "client_id"),
    ConfigEntry(OpenidClientSecret, "client_secret")
  ]

  const DATA_SHARING_CONFIGS: seq<InfraConfigName> := [AllowAnalyticsCollection]

  const ALL_CONFIGS: seq<ConfigGroup> := [
    Keyed(GOOGLE_CONFIGS),
    Keyed(MICROSOFT_CONFIGS),
    Keyed(GITHUB_CONFIGS),
    Keyed(MAIL_CONFIGS),
    Keyed(OIDC_CONFIGS),
    Unkeyed(DATA_SHARING_CONFIGS)
  ]

  /** No element occurs twice. */
  predicate Distinct<T(==)>(s: seq<T>) {
    forall i, j | 0 <= i < j < |s| :: s[i] != s[j]
  }

  /** The keys of a table, row by row. */
  function Keys(table: seq<ConfigEntry>): seq<string> {
    seq(|table|, i requires 0 <= i < |table| => table[i].key)
  }

  /** The enum members of a table, row by row. */
  function Names(table: seq<ConfigEntry>): seq<InfraConfigName> {
    seq(|table|, i requires 0 <= i < |table| => table[i].name)
  }

  /** The enum members of one group of `ALL_CONFIGS`. */
  function GroupNames(g: ConfigGroup): seq<InfraConfigName> {
    match g
    case Keyed(entries) => Names(entries)
    case Unkeyed(names) => names
  }

  /** The enum members of all groups, group after group. */
  function AllNames(groups: seq<ConfigGroup>): seq<InfraConfigName> {
    if groups == [] then [] else GroupNames(groups[0]) + AllNames(groups[1..])
  }

  lemma GoogleTable()
    ensures |GOOGLE_CONFIGS| == 4
    ensures Keys(GOOGLE_CONFIGS) == GOOGLE_FIELD_KEYS
    ensures Distinct(Keys(GOOGLE_CONFIGS))
  {
  }

  lemma MicrosoftTable()
    ensures |MICROSOFT_CONFIGS| == 5
    ensures Keys(MICROSOFT_CONFIGS) == MICROSOFT_FIELD_KEYS
    ensures Keys(MICROSOFT_CONFIGS) == Keys(GOOGLE_CONFIGS) + ["tenant"]
    ensures Distinct(Keys(MICROSOFT_CONFIGS))
  {
  }

  lemma GithubTable()
    ensures |GITHUB_CONFIGS| == 4
    ensures Keys(GITHUB_CONFIGS) == GITHUB_FIELD_KEYS
    ensures Distinct(Keys(GITHUB_CONFIGS))
  {
  }

  lemma MailTable()
    ensures |MAIL_CONFIGS| == 2
    ensures Keys(MAIL_CONFIGS) == MAIL_FIELD_KEYS
    ensures Distinct(Keys(MAIL_CONFIGS))
  {
  }

  lemma OidcTable()
    ensures |OIDC_CONFIGS| == 12
    ensures Distinct(Keys(OIDC_CONFIGS))
    ensures ConfigEntry(OpenidCallbackUrl, "callback_url") in OIDC_CONFIGS
  {
    OidcKeysListed();
    OidcKeysDistinct();
  }

  // The OIDC keys written out; kept apart from OidcTable so that each proof stays small.
  lemma OidcKeysListed()
    ensures Keys(OIDC_CONFIGS) == [
      "issuer_name", "issuer_url", "issuer_icon_url", "authorization_endpoint", "token_endpoint",
      "userinfo_endpoint", "jwks_uri", "end_session_endpoint", "scopes", "callback_url",
      "client_id", "client_secret"
    ]
  {
  }

  lemma OidcKeysDistinct()
    ensures Distinct([
      "issuer_name", "issuer_url", "issuer_icon_url", "authorization_endpoint", "token_endpoint",
      "userinfo_endpoint", "jwks_uri", "end_session_endpoint", "scopes", "callback_url",
      "client_id", "client_secret"
    ])
  {
  }

  /** Across all six groups no enum member is listed twice, so a member determines its group and key. */
  lemma AllConfigNamesDistinct()
    ensures |AllNames(ALL_CONFIGS)| == 28
    ensures Distinct(AllNames(ALL_CONFIGS))
    ensures forall g | 0 <= g < 5 :: ALL_CONFIGS[g].Keyed?
    ensures ALL_CONFIGS[5] == Unkeyed([AllowAnalyticsCollection])
  {
    AllNamesUnfolded();
    TableGroups();
    OidcGroup();
    var s5 := DATA_SHARING_CONFIGS;
    var s4 := Names(OIDC_CONFIGS) + s5;
    var s3 := Names(MAIL_CONFIGS) + s4;
    var s2 := Names(GITHUB_CONFIGS) + s3;
    var s1 := Names(MICROSOFT_CONFIGS) + s2;
    DistinctAcrossGroups(Names(OIDC_CONFIGS), s5, 4);
    DistinctAcrossGroups(Names(MAIL_CONFIGS), s4, 3);
    DistinctAcrossGroups(Names(GITHUB_CONFIGS), s3, 2);
    DistinctAcrossGroups(Names(MICROSOFT_CONFIGS), s2, 1);
    DistinctAcrossGroups(Names(GOOGLE_CONFIGS), s1, 0);
  }

  /** The position of a member's group in `ALL_CONFIGS`. */
  function GroupOf(n: InfraConfigName): nat {
    match n
    case GoogleClientId | GoogleClientSecret | GoogleCallbackUrl | GoogleScope => 0
    case MicrosoftClientId | MicrosoftClientSecret | MicrosoftCallbackUrl | MicrosoftScope | MicrosoftTenant => 1
    case GithubClientId | GithubClientSecret | GithubCallbackUrl | GithubScope => 2
    case MailerSmtpUrl | MailerAddressFrom => 3
    case AllowAnalyticsCollection => 5
    case _ => 4
  }

  // Each table lists distinct members of its own group.
  lemma TableGroups()
    ensures Distinct(Names(GOOGLE_CONFIGS)) && forall i | 0 <= i < |GOOGLE_CONFIGS| :: GroupOf(Names(GOOGLE_CONFIGS)[i]) == 0
    ensures Distinct(Names(MICROSOFT_CONFIGS)) && forall i | 0 <= i < |MICROSOFT_CONFIGS| :: GroupOf(Names(MICROSOFT_CONFIGS)[i]) == 1
    ensures Distinct(Names(GITHUB_CONFIGS)) && forall i | 0 <= i < |GITHUB_CONFIGS| :: GroupOf(Names(GITHUB_CONFIGS)[i]) == 2
    ensures Distinct(Names(MAIL_CONFIGS)) && forall i | 0 <= i < |MAIL_CONFIGS| :: GroupOf(Names(MAIL_CONFIGS)[i]) == 3
    ensures Distinct(DATA_SHARING_CONFIGS) && forall i | 0 <= i < |DATA_SHARING_CONFIGS| :: GroupOf(DATA_SHARING_CONFIGS[i]) == 5
  {
    SectionTableNamesListed();
  }

  lemma OidcGroup()
    ensures Distinct(Names(OIDC_CONFIGS)) && forall i | 0 <= i < |OIDC_CONFIGS| :: GroupOf(Names(OIDC_CONFIGS)[i]) == 4
  {
    OidcNamesListed();
  }

  /**
   * A group of distinct members followed by distinct members of later groups
   * has no repetition, and all of it lies in this group or later ones.
   */
  lemma DistinctAcrossGroups(a: seq<InfraConfigName>, b: seq<InfraConfigName>, k: nat)
    requires Distinct(a) && Distinct(b)
    requires forall i | 0 <= i < |a| :: GroupOf(a[i]) == k
    requires forall j | 0 <= j < |b| :: GroupOf(b[j]) > k
    ensures Distinct(a + b)
    ensures forall i | 0 <= i < |a + b| :: GroupOf((a + b)[i]) >= k
  {
    forall i, j | 0 <= i < j < |a + b|
      ensures (a + b)[i] != (a + b)[j]
    {
      if j < |a| {
        assert (a + b)[i] == a[i] && (a + b)[j] == a[j];
      } else if i < |a| {
        assert GroupOf((a + b)[i]) == k < GroupOf((a + b)[j]);
      } else {
        assert (a + b)[i] == b[i - |a|] && (a + b)[j] == b[j - |a|];
      }
    }
  }

  /** `AllNames` over the six groups, one group after the other. */
  lemma AllNamesUnfolded()
    ensures AllNames(ALL_CONFIGS) == Names(GOOGLE_CONFIGS) + (Names(MICROSOFT_CONFIGS) + (Names(GITHUB_CONFIGS)
      + (Names(MAIL_CONFIGS) + (Names(OIDC_CONFIGS) + DATA_SHARING_CONFIGS))))
  {
    assert AllNames(ALL_CONFIGS[6..]) == [];
    assert AllNames(ALL_CONFIGS[5..]) == DATA_SHARING_CONFIGS;
    assert AllNames(ALL_CONFIGS[4..]) == Names(OIDC_CONFIGS) + AllNames(ALL_CONFIGS[5..]);
    assert AllNames(ALL_CONFIGS[3..]) == Names(MAIL_CONFIGS) + AllNames(ALL_CONFIGS[4..]);
    assert AllNames(ALL_CONFIGS[2..]) == Names(GITHUB_CONFIGS) + AllNames(ALL_CONFIGS[3..]);
    assert AllNames(ALL_CONFIGS[1..]) == Names(MICROSOFT_CONFIGS) + AllNames(ALL_CONFIGS[2..]);
    assert AllNames(ALL_CONFIGS) == Names(GOOGLE_CONFIGS) + AllNames(ALL_CONFIGS[1..]);
  }

  // The enum members of each table written out; kept apart so that each proof stays small.
  lemma SectionTableNamesListed()
    ensures Names(GOOGLE_CONFIGS) == [GoogleClientId, GoogleClientSecret, GoogleCallbackUrl, GoogleScope]
    ensures Names(MICROSOFT_CONFIGS) ==
      [MicrosoftClientId, MicrosoftClientSecret, MicrosoftCallbackUrl, MicrosoftScope, MicrosoftTenant]
    ensures Names(GITHUB_CONFIGS) == [GithubClientId, GithubClientSecret, GithubCallbackUrl, GithubScope]
    ensures Names(MAIL_CONFIGS) == [MailerSmtpUrl, MailerAddressFrom]
  {
  }

  lemma OidcNamesListed()
    ensures Names(OIDC_CONFIGS) == [
      OpenidIssuerName, OpenidIssuerUrl, OpenidIssuerIconUrl, OpenidAuthorizationEndpoint,
      OpenidTokenEndpoint, OpenidUserInfoEndpoint, OpenidJwksUri, OpenidEndSessionEndpoint,
      OpenidScopes, OpenidCallbackUrl, OpenidClientId, OpenidClientSecret
    ]
  {
  }

  /** Every row of the OpenID table names an OpenID member. */
  lemma OidcTableNamesOpenid()
    ensures forall k | 0 <= k < |OIDC_CONFIGS| :: IsOpenid(OIDC_CONFIGS[k].name)
  {
    OidcNamesListed();
    assert forall k | 0 <= k < |OIDC_CONFIGS| :: OIDC_CONFIGS[k].name == Names(OIDC_CONFIGS)[k];
  }
}
