/**
 * Properties of the configuration composable taken as a whole: the shape of
 * the update list, its agreement with the constant tables, and the two round
 * trips between the flat infra-config list and the nested `Config`.
 */
module RoundTrip {
  import opened Options
  import opened ConfigTables
  import opened ConfigHandler

  /** A toggle counted as 0 or 1. */
  function Count(enabled: bool): nat {
    if enabled then 1 else 0
  }

  // ---------------------------------------------------------------------------
  // Shape of the update list

  /**
   * The update list holds 4 Google, 5 Microsoft, 4 GitHub and 2 mail pairs for
   * each enabled section, and nothing when there is no configuration.
   */
  lemma InfraConfigsLength(c: Config)
    ensures |InfraConfigsOf(Some(c))| ==
      4 * Count(c.providers.google.enabled) + 5 * Count(c.providers.microsoft.enabled)
      + 4 * Count(c.providers.github.enabled) + 2 * Count(c.mailConfigs.enabled)
    ensures InfraConfigsOf(None) == []
  {
  }

  /** The placeholder never survives: no pair of the update list has an empty name. */
  lemma NoEmptyNames(u: Option<Config>)
    ensures forall i | 0 <= i < |InfraConfigsOf(u)| :: InfraConfigsOf(u)[i].name != ""
  {
    PrefixesAvoidSections(u);
  }

  /**
   * A pair of the update list belongs to an enabled section: a Google name only
   * when Google is enabled, and so on.  OpenID and data-sharing names never occur.
   */
  lemma OnlyEnabledSectionsAppear(c: Config)
    ensures forall i | 0 <= i < |InfraConfigsOf(Some(c))| ::
      var name := InfraConfigsOf(Some(c))[i].name;
      || (name in GOOGLE_NAMES && c.providers.google.enabled)
      || (name in MICROSOFT_NAMES && c.providers.microsoft.enabled)
      || (name in GITHUB_NAMES && c.providers.github.enabled)
      || (name in MAIL_NAMES && c.mailConfigs.enabled)
    ensures forall i, k | 0 <= i < |InfraConfigsOf(Some(c))| && 0 <= k < |OIDC_CONFIGS| ::
      InfraConfigsOf(Some(c))[i].name != WireName(OIDC_CONFIGS[k].name)
    ensures forall i | 0 <= i < |InfraConfigsOf(Some(c))| ::
      InfraConfigsOf(Some(c))[i].name != WireName(AllowAnalyticsCollection)
  {
    var u := Some(c);
    var g, m, h, e := GoogleSegment(u), MicrosoftSegment(u), GithubSegment(u), MailSegment(u);
    SegmentNamesOwned(u);
    var r := InfraConfigsOf(u);
    forall i | 0 <= i < |r|
      ensures || (r[i].name in GOOGLE_NAMES && c.providers.google.enabled)
              || (r[i].name in MICROSOFT_NAMES && c.providers.microsoft.enabled)
              || (r[i].name in GITHUB_NAMES && c.providers.github.enabled)
              || (r[i].name in MAIL_NAMES && c.mailConfigs.enabled)
    {
      if i < |g| {
        assert r[i] == g[i];
      } else if i < |g| + |m| {
        assert r[i] == m[i - |g|];
      } else if i < |g| + |m| + |h| {
        assert r[i] == h[i - |g| - |m|];
      } else {
        assert r[i] == e[i - |g| - |m| - |h|];
      }
    }
    OidcNamesOutsideSections();
  }

  /** No OpenID or data-sharing name is the name of a pair some section pushes. */
  lemma OidcNamesOutsideSections()
    ensures forall k | 0 <= k < |OIDC_CONFIGS| ::
      WireName(OIDC_CONFIGS[k].name) !in GOOGLE_NAMES + MICROSOFT_NAMES + GITHUB_NAMES + MAIL_NAMES
    ensures WireName(AllowAnalyticsCollection) !in GOOGLE_NAMES + MICROSOFT_NAMES + GITHUB_NAMES + MAIL_NAMES
  {
    var sections := GOOGLE_NAMES + MICROSOFT_NAMES + GITHUB_NAMES + MAIL_NAMES;
    SectionNamesInitials();
    forall k | 0 <= k < |OIDC_CONFIGS|
      ensures WireName(OIDC_CONFIGS[k].name) !in sections
    {
      OidcNameInitial(k);
      InitialExcludes(sections, WireName(OIDC_CONFIGS[k].name));
    }
    AnalyticsNameInitial();
    InitialExcludes(sections, WireName(AllowAnalyticsCollection));
  }

  /** A string whose initial no member of `names` shares is not one of `names`. */
  lemma InitialExcludes(names: set<string>, x: string)
    requires forall s | s in names :: |s| > 0 && (s[0] == 'G' || s[0] == 'M')
    requires |x| > 0 && x[0] != 'G' && x[0] != 'M'
    ensures x !in names
  {
  }

  // Every OpenID name starts with `O`, while every section name starts with `G` or
  // `M`; comparing initials keeps the disjointness proof small.
  lemma OidcNameInitial(k: nat)
    requires k < |OIDC_CONFIGS|
    ensures |WireName(OIDC_CONFIGS[k].name)| > 0 && WireName(OIDC_CONFIGS[k].name)[0] == 'O'
  {
    OidcTableNamesOpenid();
    OpenidInitial(OIDC_CONFIGS[k].name);
  }

  lemma OpenidInitial(n: InfraConfigName)
    requires IsOpenid(n)
    ensures |WireName(n)| > 0 && WireName(n)[0] == 'O'
  {
  }

  lemma AnalyticsNameInitial()
    ensures |WireName(AllowAnalyticsCollection)| > 0 && WireName(AllowAnalyticsCollection)[0] == 'A'
  {
  }

  lemma SectionNamesInitials()
    ensures forall s | s in GOOGLE_NAMES + MICROSOFT_NAMES + GITHUB_NAMES + MAIL_NAMES ::
      |s| > 0 && (s[0] == 'G' || s[0] == 'M')
  {
  }

  // ---------------------------------------------------------------------------
  // The hard-coded names agree with the constant tables

  /** Google's pushed pairs are the Google table's rows, in order: the row's name, and the field its key selects. */
  lemma GooglePairsFollowTable(f: OAuthFields)
    ensures |GooglePairs(f)| == |GOOGLE_CONFIGS|
    ensures forall k | 0 <= k < |GOOGLE_CONFIGS| ::
      && GooglePairs(f)[k].name == WireName(GOOGLE_CONFIGS[k].name)
      && OAuthFieldByKey(f, GOOGLE_CONFIGS[k].key) == Some(GooglePairs(f)[k].value)
  {
  }

  lemma MicrosoftPairsFollowTable(f: MicrosoftFields)
    ensures |MicrosoftPairs(f)| == |MICROSOFT_CONFIGS|
    ensures forall k | 0 <= k < |MICROSOFT_CONFIGS| ::
      && MicrosoftPairs(f)[k].name == WireName(MICROSOFT_CONFIGS[k].name)
      && MicrosoftFieldByKey(f, MICROSOFT_CONFIGS[k].key) == Some(MicrosoftPairs(f)[k].value)
  {
  }

  lemma GithubPairsFollowTable(f: OAuthFields)
    ensures |GithubPairs(f)| == |GITHUB_CONFIGS|
    ensures forall k | 0 <= k < |GITHUB_CONFIGS| ::
      && GithubPairs(f)[k].name == WireName(GITHUB_CONFIGS[k].name)
      && OAuthFieldByKey(f, GITHUB_CONFIGS[k].key) == Some(GithubPairs(f)[k].value)
  {
  }

  lemma MailPairsFollowTable(f: MailFields)
    ensures |MailPairs(f)| == |MAIL_CONFIGS|
    ensures forall k | 0 <= k < |MAIL_CONFIGS| ::
      && MailPairs(f)[k].name == WireName(MAIL_CONFIGS[k].name)
      && MailFieldByKey(f, MAIL_CONFIGS[k].key) == Some(MailPairs(f)[k].value)
  {
  }

  /**
   * The field the decoder fills for a row of a section's table is the field
   * the row's key selects.
   */
  lemma SectionFieldsFollowTables(c: Config)
    ensures forall k | 0 <= k < |GOOGLE_CONFIGS| ::
      FieldFor(c, GOOGLE_CONFIGS[k].name) == OAuthFieldByKey(c.providers.google.fields, GOOGLE_CONFIGS[k].key)
    ensures forall k | 0 <= k < |MICROSOFT_CONFIGS| ::
      FieldFor(c, MICROSOFT_CONFIGS[k].name) == MicrosoftFieldByKey(c.providers.microsoft.fields, MICROSOFT_CONFIGS[k].key)
    ensures forall k | 0 <= k < |GITHUB_CONFIGS| ::
      FieldFor(c, GITHUB_CONFIGS[k].name) == OAuthFieldByKey(c.providers.github.fields, GITHUB_CONFIGS[k].key)
    ensures forall k | 0 <= k < |MAIL_CONFIGS| ::
      FieldFor(c, MAIL_CONFIGS[k].name) == MailFieldByKey(c.mailConfigs.fields, MAIL_CONFIGS[k].key)
  {
  }

  /**
   * The same for the OpenID table.  For its callback-URL row both sides are
   * absent: the table has the row, but the OpenID section has no such field.
   */
  lemma OidcFieldsFollowTable(c: Config)
    ensures forall k | 0 <= k < |OIDC_CONFIGS| ::
      FieldFor(c, OIDC_CONFIGS[k].name) == OpenidFieldByKey(c.providers.openid.fields, OIDC_CONFIGS[k].key)
    ensures FieldFor(c, OpenidCallbackUrl) == None
    ensures OpenidFieldByKey(c.providers.openid.fields, "callback_url") == None
  {
    forall k | 0 <= k < |OIDC_CONFIGS|
      ensures FieldFor(c, OIDC_CONFIGS[k].name) == OpenidFieldByKey(c.providers.openid.fields, OIDC_CONFIGS[k].key)
    {
      OidcRowField(c, k);
    }
  }

  // Rows of the OpenID table, checked in small groups to keep each proof small.
  lemma OidcRowField(c: Config, k: nat)
    requires k < |OIDC_CONFIGS|
    ensures FieldFor(c, OIDC_CONFIGS[k].name) == OpenidFieldByKey(c.providers.openid.fields, OIDC_CONFIGS[k].key)
  {
    if k < 3 {
      OidcRowFieldA(c, k);
    } else if k < 6 {
      OidcRowFieldB(c, k);
    } else if k < 9 {
      OidcRowFieldC(c, k);
    } else {
      OidcRowFieldD(c, k);
    }
  }

  lemma OidcRowFieldA(c: Config, k: nat)
    requires 0 <= k < 3
    ensures FieldFor(c, OIDC_CONFIGS[k].name) == OpenidFieldByKey(c.providers.openid.fields, OIDC_CONFIGS[k].key)
  {
    var row := OIDC_CONFIGS[k];
    if k == 0 {
      assert row == ConfigEntry(OpenidIssuerName, "issuer_name");
    } else if k == 1 {
      assert row == ConfigEntry(OpenidIssuerUrl, "issuer_url");
    } else {
      assert row == ConfigEntry(OpenidIssuerIconUrl, "issuer_icon_url");
    }
  }

  lemma OidcRowFieldB(c: Config, k: nat)
    requires 3 <= k < 6
    ensures FieldFor(c, OIDC_CONFIGS[k].name) == OpenidFieldByKey(c.providers.openid.fields, OIDC_CONFIGS[k].key)
  {
    var row := OIDC_CONFIGS[k];
    if k == 3 {
      assert row == ConfigEntry(OpenidAuthorizationEndpoint, "authorization_endpoint");
    } else if k == 4 {
      assert row == ConfigEntry(OpenidTokenEndpoint, "token_endpoint");
    } else {
      assert row == ConfigEntry(OpenidUserInfoEndpoint, "userinfo_endpoint");
    }
  }

  lemma OidcRowFieldC(c: Config, k: nat)
    requires 6 <= k < 9
    ensures FieldFor(c, OIDC_CONFIGS[k].name) == OpenidFieldByKey(c.providers.openid.fields, OIDC_CONFIGS[k].key)
  {
    var row := OIDC_CONFIGS[k];
    if k == 6 {
      assert row == ConfigEntry(OpenidJwksUri, "jwks_uri");
    } else if k == 7 {
      assert row == ConfigEntry(OpenidEndSessionEndpoint, "end_session_endpoint");
    } else {
      assert row == ConfigEntry(OpenidScopes, "scopes");
    }
  }

  lemma OidcRowFieldD(c: Config, k: nat)
    requires 9 <= k < 12
    ensures FieldFor(c, OIDC_CONFIGS[k].name) == OpenidFieldByKey(c.providers.openid.fields, OIDC_CONFIGS[k].key)
  {
    var row := OIDC_CONFIGS[k];
    if k == 9 {
      assert row == ConfigEntry(OpenidCallbackUrl, "callback_url");
    } else if k == 10 {
      assert row == ConfigEntry(OpenidClientId, "client_id");
    } else {
      assert row == ConfigEntry(OpenidClientSecret, "client_secret");
    }
  }

  // ---------------------------------------------------------------------------
  // Field lookup over a concatenation

  /** Looking a name up in `a + b` answers from `a` when `a` carries it, from `b` otherwise. */
  lemma {:induction false} GetFieldValueConcat(a: seq<InfraConfig>, b: seq<InfraConfig>, name: string)
    ensures GetFieldValue(a + b, name) ==
      if exists i | 0 <= i < |a| :: a[i].name == name then GetFieldValue(a, name) else GetFieldValue(b, name)
  {
    if a == [] {
      assert a + b == b;
    } else {
      GetFieldValueStep(a + b, name);
      GetFieldValueStep(a, name);
      assert (a + b)[1..] == a[1..] + b;
      GetFieldValueConcat(a[1..], b, name);
      if a[0].name != name {
        if exists i | 0 <= i < |a| :: a[i].name == name {
          var i :| 0 <= i < |a| && a[i].name == name;
          assert a[1..][i - 1].name == name;
        }
        if exists i | 0 <= i < |a[1..]| :: a[1..][i].name == name {
          var i :| 0 <= i < |a[1..]| && a[1..][i].name == name;
          assert a[i + 1].name == name;
        }
      }
    }
  }

  /** A name that no item of a list carries reads as "". */
  lemma GetFieldValueAbsent(s: seq<InfraConfig>, owned: set<string>, name: string)
    requires NamesIn(s, owned) && name !in owned
    ensures GetFieldValue(s, name) == ""
  {
    GetFieldValueIsFirstMatch(s, name);
  }

  /**
   * Looking up a name that none of the items before and after `seg` carries
   * reads it from `seg`.
   */
  lemma ReadFromSegment(pre: seq<InfraConfig>, seg: seq<InfraConfig>, post: seq<InfraConfig>,
                        ownedPre: set<string>, ownedPost: set<string>, name: string)
    requires NamesIn(pre, ownedPre) && name !in ownedPre
    requires NamesIn(post, ownedPost) && name !in ownedPost
    ensures GetFieldValue(pre + seg + post, name) == GetFieldValue(seg, name)
  {
    GetFieldValueConcat(pre + seg, post, name);
    GetFieldValueConcat(pre, seg, name);
    GetFieldValueAbsent(post, ownedPost, name);
    if !exists i | 0 <= i < |pre + seg| :: (pre + seg)[i].name == name {
      assert forall i | 0 <= i < |seg| :: seg[i] == (pre + seg)[|pre| + i];
      GetFieldValueIsFirstMatch(seg, name);
    }
  }

  // ---------------------------------------------------------------------------
  // Decode, then encode

  /** Every pair of `s` carries the value the lookup finds for its name in `infraConfigs`. */
  ghost predicate ReadsBack(s: seq<InfraConfig>, infraConfigs: seq<InfraConfig>) {
    forall i | 0 <= i < |s| :: s[i].value == GetFieldValue(infraConfigs, s[i].name)
  }

  lemma ReadsBackConcat(a: seq<InfraConfig>, b: seq<InfraConfig>, infraConfigs: seq<InfraConfig>)
    requires ReadsBack(a, infraConfigs) && ReadsBack(b, infraConfigs)
    ensures ReadsBack(a + b, infraConfigs)
  {
    forall i | |a| <= i < |a + b|
      ensures (a + b)[i].value == GetFieldValue(infraConfigs, (a + b)[i].name)
    {
      assert (a + b)[i] == b[i - |a|];
    }
  }

  /**
   * Saving a configuration right after it was loaded writes back what was read:
   * each pair `(n, v)` of the update list has `v` equal to the lookup of `n` in
   * the fetched list.
   */
  lemma DecodeThenEncode(infraConfigs: seq<InfraConfig>, allowedAuthProviders: seq<string>)
    ensures ReadsBack(InfraConfigsOf(Some(Decode(infraConfigs, allowedAuthProviders))), infraConfigs)
  {
    var c := Decode(infraConfigs, allowedAuthProviders);
    var u := Some(c);
    var g, m, h, e := GoogleSegment(u), MicrosoftSegment(u), GithubSegment(u), MailSegment(u);
    DecodedFields(infraConfigs, allowedAuthProviders);
    GoogleSegmentReadsBack(u, infraConfigs);
    MicrosoftSegmentReadsBack(u, infraConfigs);
    GithubSegmentReadsBack(u, infraConfigs);
    MailSegmentReadsBack(u, infraConfigs);
    ReadsBackConcat(g, m, infraConfigs);
    ReadsBackConcat(g + m, h, infraConfigs);
    ReadsBackConcat(g + m + h, e, infraConfigs);
  }

  lemma GoogleSegmentReadsBack(u: Option<Config>, infraConfigs: seq<InfraConfig>)
    requires u.Some? ==> FilledFrom(u.value, infraConfigs)
    ensures ReadsBack(GoogleSegment(u), infraConfigs)
  {
    if u.Some? && u.value.providers.google.enabled {
      var s := GoogleSegment(u);
      forall i | 0 <= i < |s|
        ensures s[i].value == GetFieldValue(infraConfigs, s[i].name)
      {
      }
    }
  }

  lemma MicrosoftSegmentReadsBack(u: Option<Config>, infraConfigs: seq<InfraConfig>)
    requires u.Some? ==> FilledFrom(u.value, infraConfigs)
    ensures ReadsBack(MicrosoftSegment(u), infraConfigs)
  {
    if u.Some? && u.value.providers.microsoft.enabled {
      var s := MicrosoftSegment(u);
      forall i | 0 <= i < |s|
        ensures s[i].value == GetFieldValue(infraConfigs, s[i].name)
      {
      }
    }
  }

  lemma GithubSegmentReadsBack(u: Option<Config>, infraConfigs: seq<InfraConfig>)
    requires u.Some? ==> FilledFrom(u.value, infraConfigs)
    ensures ReadsBack(GithubSegment(u), infraConfigs)
  {
    if u.Some? && u.value.providers.github.enabled {
      var s := GithubSegment(u);
      forall i | 0 <= i < |s|
        ensures s[i].value == GetFieldValue(infraConfigs, s[i].name)
      {
      }
    }
  }

  lemma MailSegmentReadsBack(u: Option<Config>, infraConfigs: seq<InfraConfig>)
    requires u.Some? ==> FilledFrom(u.value, infraConfigs)
    ensures ReadsBack(MailSegment(u), infraConfigs)
  {
    if u.Some? && u.value.mailConfigs.enabled {
      var s := MailSegment(u);
      forall i | 0 <= i < |s|
        ensures s[i].value == GetFieldValue(infraConfigs, s[i].name)
      {
      }
    }
  }

  // ---------------------------------------------------------------------------
  // Encode, then decode

  /** The names any section may push. */
  const SECTION_NAMES: set<string> := GOOGLE_NAMES + MICROSOFT_NAMES + GITHUB_NAMES + MAIL_NAMES

  /** Every pair of the update list carries a section's name. */
  lemma EncodedNamesOwned(u: Option<Config>)
    ensures NamesIn(InfraConfigsOf(u), SECTION_NAMES)
  {
    var g, m, h, e := GoogleSegment(u), MicrosoftSegment(u), GithubSegment(u), MailSegment(u);
    SegmentNamesOwned(u);
    NamesInConcat(g, m, GOOGLE_NAMES, MICROSOFT_NAMES);
    NamesInConcat(g + m, h, GOOGLE_NAMES + MICROSOFT_NAMES, GITHUB_NAMES);
    NamesInConcat(g + m + h, e, GOOGLE_NAMES + MICROSOFT_NAMES + GITHUB_NAMES, MAIL_NAMES);
  }

  /** The lookup of the name at position `k`, when no earlier item has it, finds the value at `k`. */
  lemma LookupAt(s: seq<InfraConfig>, k: nat)
    requires k < |s| && forall j | 0 <= j < k :: s[j].name != s[k].name
    ensures GetFieldValue(s, s[k].name) == s[k].value
  {
    GetFieldValueIsFirstMatch(s, s[k].name);
  }

  // Looking up a section's names in its own pushed pairs finds its fields.
  lemma GooglePairsLookup(f: OAuthFields)
    ensures GetFieldValue(GooglePairs(f), "GOOGLE_CLIENT_ID") == f.clientId
    ensures GetFieldValue(GooglePairs(f), "GOOGLE_CLIENT_SECRET") == f.clientSecret
    ensures GetFieldValue(GooglePairs(f), "GOOGLE_CALLBACK_URL") == f.callbackUrl
    ensures GetFieldValue(GooglePairs(f), "GOOGLE_SCOPE") == f.scope
  {
    LookupAt(GooglePairs(f), 0);
    LookupAt(GooglePairs(f), 1);
    LookupAt(GooglePairs(f), 2);
    LookupAt(GooglePairs(f), 3);
  }

  lemma MicrosoftPairsLookup(f: MicrosoftFields)
    ensures GetFieldValue(MicrosoftPairs(f), "MICROSOFT_CLIENT_ID") == f.clientId
    ensures GetFieldValue(MicrosoftPairs(f), "MICROSOFT_CLIENT_SECRET") == f.clientSecret
    ensures GetFieldValue(MicrosoftPairs(f), "MICROSOFT_CALLBACK_URL") == f.callbackUrl
    ensures GetFieldValue(MicrosoftPairs(f), "MICROSOFT_SCOPE") == f.scope
    ensures GetFieldValue(MicrosoftPairs(f), "MICROSOFT_TENANT") == f.tenant
  {
    LookupAt(MicrosoftPairs(f), 0);
    LookupAt(MicrosoftPairs(f), 1);
    LookupAt(MicrosoftPairs(f), 2);
    LookupAt(MicrosoftPairs(f), 3);
    LookupAt(MicrosoftPairs(f), 4);
  }

  lemma GithubPairsLookup(f: OAuthFields)
    ensures GetFieldValue(GithubPairs(f), "GITHUB_CLIENT_ID") == f.clientId
    ensures GetFieldValue(GithubPairs(f), "GITHUB_CLIENT_SECRET") == f.clientSecret
    ensures GetFieldValue(GithubPairs(f), "GITHUB_CALLBACK_URL") == f.callbackUrl
    ensures GetFieldValue(GithubPairs(f), "GITHUB_SCOPE") == f.scope
  {
    LookupAt(GithubPairs(f), 0);
    LookupAt(GithubPairs(f), 1);
    LookupAt(GithubPairs(f), 2);
    LookupAt(GithubPairs(f), 3);
  }

  lemma MailPairsLookup(f: MailFields)
    ensures GetFieldValue(MailPairs(f), "MAILER_SMTP_URL") == f.mailerSmtpUrl
    ensures GetFieldValue(MailPairs(f), "MAILER_ADDRESS_FROM") == f.mailerFromAddress
  {
    LookupAt(MailPairs(f), 0);
    LookupAt(MailPairs(f), 1);
  }

  /**
   * In the update list a section's names read as its fields when it is enabled
   * and as "" when it is not: no other section pushes them.
   */
  lemma GoogleReadsFromList(c: Config)
    ensures GetFieldValue(InfraConfigsOf(Some(c)), "GOOGLE_CLIENT_ID") == (if c.providers.google.enabled then c.providers.google.fields.clientId else "")
    ensures GetFieldValue(InfraConfigsOf(Some(c)), "GOOGLE_CLIENT_SECRET") == (if c.providers.google.enabled then c.providers.google.fields.clientSecret else "")
    ensures GetFieldValue(InfraConfigsOf(Some(c)), "GOOGLE_CALLBACK_URL") == (if c.providers.google.enabled then c.providers.google.fields.callbackUrl else "")
    ensures GetFieldValue(InfraConfigsOf(Some(c)), "GOOGLE_SCOPE") == (if c.providers.google.enabled then c.providers.google.fields.scope else "")
  {
    var u := Some(c);
    var g, m, h, e := GoogleSegment(u), MicrosoftSegment(u), GithubSegment(u), MailSegment(u);
    SectionNamesDisjoint();
    SegmentNamesOwned(u);
    NamesInConcat(m, h, MICROSOFT_NAMES, GITHUB_NAMES);
    NamesInConcat(m + h, e, MICROSOFT_NAMES + GITHUB_NAMES, MAIL_NAMES);
    assert InfraConfigsOf(u) == [] + g + (m + h + e);
    ReadFromSegment([], g, m + h + e, {}, MICROSOFT_NAMES + GITHUB_NAMES + MAIL_NAMES, "GOOGLE_CLIENT_ID");
    ReadFromSegment([], g, m + h + e, {}, MICROSOFT_NAMES + GITHUB_NAMES + MAIL_NAMES, "GOOGLE_CLIENT_SECRET");
    ReadFromSegment([], g, m + h + e, {}, MICROSOFT_NAMES + GITHUB_NAMES + MAIL_NAMES, "GOOGLE_CALLBACK_URL");
    ReadFromSegment([], g, m + h + e, {}, MICROSOFT_NAMES + GITHUB_NAMES + MAIL_NAMES, "GOOGLE_SCOPE");
    if c.providers.google.enabled {
      GooglePairsLookup(c.providers.google.fields);
    }
  }

  lemma MicrosoftReadsFromList(c: Config)
    ensures GetFieldValue(InfraConfigsOf(Some(c)), "MICROSOFT_CLIENT_ID") == (if c.providers.microsoft.enabled then c.providers.microsoft.fields.clientId else "")
    ensures GetFieldValue(InfraConfigsOf(Some(c)), "MICROSOFT_CLIENT_SECRET") == (if c.providers.microsoft.enabled then c.providers.microsoft.fields.clientSecret else "")
    ensures GetFieldValue(InfraConfigsOf(Some(c)), "MICROSOFT_CALLBACK_URL") == (if c.providers.microsoft.enabled then c.providers.microsoft.fields.callbackUrl else "")
    ensures GetFieldValue(InfraConfigsOf(Some(c)), "MICROSOFT_SCOPE") == (if c.providers.microsoft.enabled then c.providers.microsoft.fields.scope else "")
    ensures GetFieldValue(InfraConfigsOf(Some(c)), "MICROSOFT_TENANT") == (if c.providers.microsoft.enabled then c.providers.microsoft.fields.tenant else "")
  {
    var u := Some(c);
    var g, m, h, e := GoogleSegment(u), MicrosoftSegment(u), GithubSegment(u), MailSegment(u);
    SectionNamesDisjoint();
    SegmentNamesOwned(u);
    NamesInConcat(h, e, GITHUB_NAMES, MAIL_NAMES);
    assert InfraConfigsOf(u) == g + m + (h + e);
    ReadFromSegment(g, m, h + e, GOOGLE_NAMES, GITHUB_NAMES + MAIL_NAMES, "MICROSOFT_CLIENT_ID");
    ReadFromSegment(g, m, h + e, GOOGLE_NAMES, GITHUB_NAMES + MAIL_NAMES, "MICROSOFT_CLIENT_SECRET");
    ReadFromSegment(g, m, h + e, GOOGLE_NAMES, GITHUB_NAMES + MAIL_NAMES, "MICROSOFT_CALLBACK_URL");
    ReadFromSegment(g, m, h + e, GOOGLE_NAMES, GITHUB_NAMES + MAIL_NAMES, "MICROSOFT_SCOPE");
    ReadFromSegment(g, m, h + e, GOOGLE_NAMES, GITHUB_NAMES + MAIL_NAMES, "MICROSOFT_TENANT");
    if c.providers.microsoft.enabled {
      MicrosoftPairsLookup(c.providers.microsoft.fields);
    }
  }

  lemma GithubReadsFromList(c: Config)
    ensures GetFieldValue(InfraConfigsOf(Some(c)), "GITHUB_CLIENT_ID") == (if c.providers.github.enabled then c.providers.github.fields.clientId else "")
    ensures GetFieldValue(InfraConfigsOf(Some(c)), "GITHUB_CLIENT_SECRET") == (if c.providers.github.enabled then c.providers.github.fields.clientSecret else "")
    ensures GetFieldValue(InfraConfigsOf(Some(c)), "GITHUB_CALLBACK_URL") == (if c.providers.github.enabled then c.providers.github.fields.callbackUrl else "")
    ensures GetFieldValue(InfraConfigsOf(Some(c)), "GITHUB_SCOPE") == (if c.providers.github.enabled then c.providers.github.fields.scope else "")
  {
    var u := Some(c);
    var g, m, h, e := GoogleSegment(u), MicrosoftSegment(u), GithubSegment(u), MailSegment(u);
    SectionNamesDisjoint();
    SegmentNamesOwned(u);
    NamesInConcat(g, m, GOOGLE_NAMES, MICROSOFT_NAMES);
    assert InfraConfigsOf(u) == g + m + h + (e);
    ReadFromSegment(g + m, h, e, GOOGLE_NAMES + MICROSOFT_NAMES, MAIL_NAMES, "GITHUB_CLIENT_ID");
    ReadFromSegment(g + m, h, e, GOOGLE_NAMES + MICROSOFT_NAMES, MAIL_NAMES, "GITHUB_CLIENT_SECRET");
    ReadFromSegment(g + m, h, e, GOOGLE_NAMES + MICROSOFT_NAMES, MAIL_NAMES, "GITHUB_CALLBACK_URL");
    ReadFromSegment(g + m, h, e, GOOGLE_NAMES + MICROSOFT_NAMES, MAIL_NAMES, "GITHUB_SCOPE");
    if c.providers.github.enabled {
      GithubPairsLookup(c.providers.github.fields);
    }
  }

  lemma MailReadsFromList(c: Config)
    ensures GetFieldValue(InfraConfigsOf(Some(c)), "MAILER_SMTP_URL") == (if c.mailConfigs.enabled then c.mailConfigs.fields.mailerSmtpUrl else "")
    ensures GetFieldValue(InfraConfigsOf(Some(c)), "MAILER_ADDRESS_FROM") == (if c.mailConfigs.enabled then c.mailConfigs.fields.mailerFromAddress else "")
  {
    var u := Some(c);
    var g, m, h, e := GoogleSegment(u), MicrosoftSegment(u), GithubSegment(u), MailSegment(u);
    SectionNamesDisjoint();
    SegmentNamesOwned(u);
    NamesInConcat(g, m, GOOGLE_NAMES, MICROSOFT_NAMES);
    NamesInConcat(g + m, h, GOOGLE_NAMES + MICROSOFT_NAMES, GITHUB_NAMES);
    assert InfraConfigsOf(u) == g + m + h + e + ([]);
    ReadFromSegment(g + m + h, e, [], GOOGLE_NAMES + MICROSOFT_NAMES + GITHUB_NAMES, {}, "MAILER_SMTP_URL");
    ReadFromSegment(g + m + h, e, [], GOOGLE_NAMES + MICROSOFT_NAMES + GITHUB_NAMES, {}, "MAILER_ADDRESS_FROM");
    if c.mailConfigs.enabled {
      MailPairsLookup(c.mailConfigs.fields);
    }
  }

  /** No OpenID field is read from the update list: each OpenID name is absent and reads as "". */
  lemma OpenidReadsFromList(u: Option<Config>)
    ensures GetFieldValue(InfraConfigsOf(u), "OPENID_ISSUER_URL") == ""
    ensures GetFieldValue(InfraConfigsOf(u), "OPENID_ISSUER_NAME") == ""
    ensures GetFieldValue(InfraConfigsOf(u), "OPENID_ISSUER_ICON_URL") == ""
    ensures GetFieldValue(InfraConfigsOf(u), "OPENID_AUTHORIZATION_ENDPOINT") == ""
    ensures GetFieldValue(InfraConfigsOf(u), "OPENID_TOKEN_ENDPOINT") == ""
    ensures GetFieldValue(InfraConfigsOf(u), "OPENID_USERINFO_ENDPOINT") == ""
    ensures GetFieldValue(InfraConfigsOf(u), "OPENID_JWKS_URI") == ""
    ensures GetFieldValue(InfraConfigsOf(u), "OPENID_SCOPE") == ""
    ensures GetFieldValue(InfraConfigsOf(u), "OPENID_END_SESSION_ENDPOINT") == ""
    ensures GetFieldValue(InfraConfigsOf(u), "OPENID_CLIENT_ID") == ""
    ensures GetFieldValue(InfraConfigsOf(u), "OPENID_CLIENT_SECRET") == ""
  {
    EncodedNamesOwned(u);
    SectionNamesInitials();
    InitialExcludes(SECTION_NAMES, "OPENID_ISSUER_URL");
    GetFieldValueAbsent(InfraConfigsOf(u), SECTION_NAMES, "OPENID_ISSUER_URL");
    InitialExcludes(SECTION_NAMES, "OPENID_ISSUER_NAME");
    GetFieldValueAbsent(InfraConfigsOf(u), SECTION_NAMES, "OPENID_ISSUER_NAME");
    InitialExcludes(SECTION_NAMES, "OPENID_ISSUER_ICON_URL");
    GetFieldValueAbsent(InfraConfigsOf(u), SECTION_NAMES, "OPENID_ISSUER_ICON_URL");
    InitialExcludes(SECTION_NAMES, "OPENID_AUTHORIZATION_ENDPOINT");
    GetFieldValueAbsent(InfraConfigsOf(u), SECTION_NAMES, "OPENID_AUTHORIZATION_ENDPOINT");
    InitialExcludes(SECTION_NAMES, "OPENID_TOKEN_ENDPOINT");
    GetFieldValueAbsent(InfraConfigsOf(u), SECTION_NAMES, "OPENID_TOKEN_ENDPOINT");
    InitialExcludes(SECTION_NAMES, "OPENID_USERINFO_ENDPOINT");
    GetFieldValueAbsent(InfraConfigsOf(u), SECTION_NAMES, "OPENID_USERINFO_ENDPOINT");
    InitialExcludes(SECTION_NAMES, "OPENID_JWKS_URI");
    GetFieldValueAbsent(InfraConfigsOf(u), SECTION_NAMES, "OPENID_JWKS_URI");
    InitialExcludes(SECTION_NAMES, "OPENID_SCOPE");
    GetFieldValueAbsent(InfraConfigsOf(u), SECTION_NAMES, "OPENID_SCOPE");
    InitialExcludes(SECTION_NAMES, "OPENID_END_SESSION_ENDPOINT");
    GetFieldValueAbsent(InfraConfigsOf(u), SECTION_NAMES, "OPENID_END_SESSION_ENDPOINT");
    InitialExcludes(SECTION_NAMES, "OPENID_CLIENT_ID");
    GetFieldValueAbsent(InfraConfigsOf(u), SECTION_NAMES, "OPENID_CLIENT_ID");
    InitialExcludes(SECTION_NAMES, "OPENID_CLIENT_SECRET");
    GetFieldValueAbsent(InfraConfigsOf(u), SECTION_NAMES, "OPENID_CLIENT_SECRET");
  }

  // A section's fields as they reload after a save with the section disabled.
  const BLANK_OAUTH := OAuthFields("", "", "", "")
  const BLANK_MICROSOFT := MicrosoftFields("", "", "", "", "")
  const BLANK_MAIL := MailFields("", "")
  const BLANK_OPENID := OpenidFields("", "", "", "", "", "", "", "", "", "", "")

  /**
   * Reloading what was saved: decoding the update list gives back the fields of
   * each enabled section and blank fields for each disabled one.  The OpenID
   * fields come back blank and data sharing off, since the update list never
   * carries them.
   */
  lemma EncodeThenDecode(c: Config, allowedAuthProviders: seq<string>)
    ensures var d := Decode(InfraConfigsOf(Some(c)), allowedAuthProviders);
      && d.providers.google.fields == (if c.providers.google.enabled then c.providers.google.fields else BLANK_OAUTH)
      && d.providers.microsoft.fields ==
           (if c.providers.microsoft.enabled then c.providers.microsoft.fields else BLANK_MICROSOFT)
      && d.providers.github.fields == (if c.providers.github.enabled then c.providers.github.fields else BLANK_OAUTH)
      && d.mailConfigs.fields == (if c.mailConfigs.enabled then c.mailConfigs.fields else BLANK_MAIL)
      && d.providers.openid.fields == BLANK_OPENID
      && !d.dataSharingConfigs.enabled
  {
    var r := InfraConfigsOf(Some(c));
    DecodedFields(r, allowedAuthProviders);
    DecodedOpenidFields(r, allowedAuthProviders);
    GoogleReadsFromList(c);
    MicrosoftReadsFromList(c);
    GithubReadsFromList(c);
    MailReadsFromList(c);
    OpenidReadsFromList(Some(c));
    EncodedNamesOwned(Some(c));
    SectionNamesInitials();
    InitialExcludes(SECTION_NAMES, "ALLOW_ANALYTICS_COLLECTION");
  }

  // ---------------------------------------------------------------------------
  // Validation before saving

  /** No pair of `s` has a value made of whitespace only. */
  ghost predicate NoBlankValues(s: seq<InfraConfig>) {
    forall i | 0 <= i < |s| :: !IsBlank(s[i].value)
  }

  lemma NoBlankValuesConcat(a: seq<InfraConfig>, b: seq<InfraConfig>)
    requires NoBlankValues(a) && NoBlankValues(b)
    ensures NoBlankValues(a + b)
  {
    forall i | |a| <= i < |a + b|
      ensures !IsBlank((a + b)[i].value)
    {
      assert (a + b)[i] == b[i - |a|];
    }
  }

  /**
   * A configuration that passes the blank-field check saves no blank value:
   * every value in its update list has a character other than whitespace.
   */
  lemma CheckedConfigSavesNoBlankValue(c: Config)
    requires !AreAnyConfigFieldsEmpty(c)
    ensures NoBlankValues(InfraConfigsOf(Some(c)))
  {
    var u := Some(c);
    var g, m, h, e := GoogleSegment(u), MicrosoftSegment(u), GithubSegment(u), MailSegment(u);
    AreAnyConfigFieldsEmptyIff(c);
    SegmentsHaveNoBlankValue(c);
    NoBlankValuesConcat(g, m);
    NoBlankValuesConcat(g + m, h);
    NoBlankValuesConcat(g + m + h, e);
  }

  lemma SegmentsHaveNoBlankValue(c: Config)
    requires c.providers.google.enabled ==> !HasBlankValue(OAuthValues(c.providers.google.fields))
    requires c.providers.microsoft.enabled ==> !HasBlankValue(MicrosoftValues(c.providers.microsoft.fields))
    requires c.providers.github.enabled ==> !HasBlankValue(OAuthValues(c.providers.github.fields))
    requires c.mailConfigs.enabled ==> !HasBlankValue(MailValues(c.mailConfigs.fields))
    ensures NoBlankValues(GoogleSegment(Some(c)))
    ensures NoBlankValues(MicrosoftSegment(Some(c)))
    ensures NoBlankValues(GithubSegment(Some(c)))
    ensures NoBlankValues(MailSegment(Some(c)))
  {
    var u := Some(c);
    forall i | 0 <= i < |GoogleSegment(u)|
      ensures !IsBlank(GoogleSegment(u)[i].value)
    {
      assert GoogleSegment(u)[i].value == OAuthValues(c.providers.google.fields)[i];
    }
    forall i | 0 <= i < |MicrosoftSegment(u)|
      ensures !IsBlank(MicrosoftSegment(u)[i].value)
    {
      assert MicrosoftSegment(u)[i].value == MicrosoftValues(c.providers.microsoft.fields)[i];
    }
    forall i | 0 <= i < |GithubSegment(u)|
      ensures !IsBlank(GithubSegment(u)[i].value)
    {
      assert GithubSegment(u)[i].value == OAuthValues(c.providers.github.fields)[i];
    }
    forall i | 0 <= i < |MailSegment(u)|
      ensures !IsBlank(MailSegment(u)[i].value)
    {
      assert MailSegment(u)[i].value == MailValues(c.mailConfigs.fields)[i];
    }
  }
}
