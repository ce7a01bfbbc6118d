# Hoppscotch admin console: server-configuration mapping

This project is a Dafny model of the part of the Hoppscotch self-host admin console that converts between two shapes of the server configuration:

- the backend's flat list of infra configs, each a `name -> value` pair;
- the nested `Config` record that the settings screens edit.

The record has sections for Google, GitHub, Microsoft, OpenID, mail and data sharing. Each section has an enable toggle, and all but data sharing have string fields. The model covers:

- **Decoder.** `ConfigHandler.Decode` is what the composable's mount hook runs. It builds a `Config` from the fetched list and the allowed-providers list.
  - `GetFieldValue` looks a name up, taking the first match, or `""` when there is none.
  - A provider is enabled when its upper-case tag is among the allowed providers.
  - Data sharing is on when some `ALLOW_ANALYTICS_COLLECTION` entry has the value `"true"`.
  - The class `ConfigHandler.ConfigHandler` holds the current and working configurations that the hook assigns.
- **Encoder.** `ConfigHandler.UpdatedInfraConfigs` mirrors the source step by step. It starts from a placeholder pair with an empty name. For each of Google, Microsoft, GitHub and mail, it pushes the section's pairs if the section is enabled, and otherwise filters out that section's names. Finally it drops the placeholder.
  - The method is proved equal to the declarative `InfraConfigsOf`, which is the concatenation of the enabled sections' pairs.
- **Validator.** `AreAnyConfigFieldsEmpty` looks for a field that is blank after JavaScript's `trim`, in an enabled GitHub, Google, Microsoft or mail section.
- **Status builders.** These produce the four `ENABLE`/`DISABLE` provider statuses and the data-sharing status.
- **Constant tables.** `ConfigTables` holds the tables of `helpers/configs.ts`, each pairing an infra-config enum member with the key of its field in a section.

Modules:

- `Options`: the `Option` type.
- `ConfigTables`: `configs.ts`.
- `ConfigHandler`: `useConfigHandler.ts`.
- `RoundTrip`: properties that relate several operations, namely shape, agreement with the tables, both round trips, and validation before saving.

## Model

| member | source | states |
|---|---|---|
| ConfigTables.GoogleTable | packages/hoppscotch-sh-admin/src/helpers/configs.ts:76-93 | The Google table has 4 rows. Its keys, in order, are the Google section's field keys `client_id`, `client_secret`, `callback_url`, `scope`, and they are pairwise distinct. |
| ConfigTables.MicrosoftTable | packages/hoppscotch-sh-admin/src/helpers/configs.ts:95-116 | The Microsoft table has 5 rows. Its keys are the Microsoft section's field keys, which are the Google keys plus `tenant`, and they are distinct. |
| ConfigTables.GithubTable | packages/hoppscotch-sh-admin/src/helpers/configs.ts:118-135 | The GitHub table has 4 rows. Its keys are the GitHub section's field keys and are distinct. |
| ConfigTables.MailTable | packages/hoppscotch-sh-admin/src/helpers/configs.ts:137-146 | The mail table has 2 rows, keyed `mailer_smtp_url` and `mailer_from_address`, which are the mail section's field keys. |
| ConfigTables.OidcTable | packages/hoppscotch-sh-admin/src/helpers/configs.ts:148-197 | The OpenID table has 12 rows with distinct keys, including the row `OpenidCallbackUrl -> callback_url`. |
| ConfigTables.AllConfigNamesDistinct | packages/hoppscotch-sh-admin/src/helpers/configs.ts:199-212 | Across the six groups of `ALL_CONFIGS`, the 28 enum members are pairwise distinct. The data-sharing group is the single unkeyed member. |
| ConfigTables.OidcTableNamesOpenid | packages/hoppscotch-sh-admin/src/helpers/configs.ts:148-197 | Every row of the OpenID table names an OpenID member. |
| ConfigHandler.Find | packages/hoppscotch-sh-admin/src/composables/useConfigHandler.ts:163-164 | `find` as a position: any index it returns is within the list. |
| ConfigHandler.FindIsFirst | packages/hoppscotch-sh-admin/src/composables/useConfigHandler.ts:163-164 | `find` returns the first position that satisfies the predicate, and returns nothing only when no element satisfies it. |
| ConfigHandler.AnyMatch | packages/hoppscotch-sh-admin/src/composables/useConfigHandler.ts:400-403 | `some` (and `!!find`) is true exactly when some element satisfies the predicate. |
| ConfigHandler.Filter | packages/hoppscotch-sh-admin/src/composables/useConfigHandler.ts:290-296 | `filter` keeps every element that passes and only those, and the result is no longer than the input. Order is stated by `FilterConcat`. |
| ConfigHandler.FilterKeepsAll | packages/hoppscotch-sh-admin/src/composables/useConfigHandler.ts:290-296 | A filter that every element passes returns the list unchanged, order included. |
| ConfigHandler.FilterConcat | packages/hoppscotch-sh-admin/src/composables/useConfigHandler.ts:290-296 | Filtering a concatenation is the concatenation of the filtered parts. Together with `FilterSingle`, this fixes the order and repetitions of what `filter` keeps. |
| ConfigHandler.FilterSingle | packages/hoppscotch-sh-admin/src/composables/useConfigHandler.ts:290-296 | A one-element list keeps its element exactly when the element passes. |
| ConfigHandler.GetFieldValueIsFirstMatch | packages/hoppscotch-sh-admin/src/composables/useConfigHandler.ts:163-164 | The lookup returns the value of the first entry with the name, or `""` when no entry has it. When some entry has the name, the result is the value of such an entry. |
| ConfigHandler.Decode | packages/hoppscotch-sh-admin/src/composables/useConfigHandler.ts:167-253 | Google, GitHub, Microsoft, OpenID and email are each enabled iff their tag is in the allowed list. Data sharing is enabled iff some entry named `ALLOW_ANALYTICS_COLLECTION` has the value `"true"`. |
| ConfigHandler.FindElement | packages/hoppscotch-sh-admin/src/composables/useConfigHandler.ts:204-236 | `find` returns the first element that satisfies the test: the element at some position where the test holds and fails at every earlier position. It returns nothing only when no element satisfies it. |
| ConfigHandler.InlineLookupIsFieldValue | packages/hoppscotch-sh-admin/src/composables/useConfigHandler.ts:163-164 | For any name, the inline `find(x => x.name === name)?.value ?? ''` gives the same string as `getFieldValue(name)`. |
| ConfigHandler.DecodedOpenidFields | packages/hoppscotch-sh-admin/src/composables/useConfigHandler.ts:204-236 | Each of the eleven OpenID fields, read inline with `find`, equals the `getFieldValue` lookup of its name. |
| ConfigHandler.DecodeReadsFields | packages/hoppscotch-sh-admin/src/composables/useConfigHandler.ts:167-246 | For every enum member that has a field, the decoded field is the lookup of that member's name. |
| ConfigHandler.FieldForHasField | packages/hoppscotch-sh-admin/src/composables/useConfigHandler.ts:22-87 | The configuration has a field for every enum member except the OpenID callback URL and the analytics switch. |
| ConfigHandler.DecoderReadsFetchedNames | packages/hoppscotch-sh-admin/src/composables/useConfigHandler.ts:110-137 | The name of every member with a field is among the names the composable fetches, and so is the analytics name. |
| ConfigHandler.CallbackUrlNotFetched | packages/hoppscotch-sh-admin/src/composables/useConfigHandler.ts:110-137 | The OpenID callback URL is not fetched, and the configuration has no field for it. |
| ConfigHandler.ConfigHandler.constructor | packages/hoppscotch-sh-admin/src/composables/useConfigHandler.ts:156-157 | Both configuration refs start unset. |
| ConfigHandler.ConfigHandler.Mount | packages/hoppscotch-sh-admin/src/composables/useConfigHandler.ts:159-259 | The current configuration becomes the decoded one, and the working configuration becomes an equal copy. |
| ConfigHandler.FilterOutSection | packages/hoppscotch-sh-admin/src/composables/useConfigHandler.ts:289-297 | A disabled section's filter leaves the list unchanged when no item has one of its names, so pairs pushed for other sections survive in order. |
| ConfigHandler.DropPlaceholder | packages/hoppscotch-sh-admin/src/composables/useConfigHandler.ts:379 | The final filter removes exactly the leading placeholder. |
| ConfigHandler.PrefixesAvoidSections | packages/hoppscotch-sh-admin/src/composables/useConfigHandler.ts:263-377 | Before each section's step, the list built so far carries none of that section's names, and no pushed pair has an empty name. |
| ConfigHandler.UpdatedInfraConfigs | packages/hoppscotch-sh-admin/src/composables/useConfigHandler.ts:262-382 | The push/filter sequence returns the Google, Microsoft, GitHub and mail pairs, in that order and each only when its section is enabled. Without a configuration it returns nothing. |
| ConfigHandler.TrimStart | packages/hoppscotch-sh-admin/src/composables/useConfigHandler.ts:385 | The result is a suffix of the input. Everything removed is whitespace, and the result does not start with whitespace. |
| ConfigHandler.TrimEnd | packages/hoppscotch-sh-admin/src/composables/useConfigHandler.ts:385 | The result is a prefix of the input. Everything removed is whitespace, and the result does not end with whitespace. |
| ConfigHandler.IsFieldEmpty | packages/hoppscotch-sh-admin/src/composables/useConfigHandler.ts:385 | A field is empty after `trim` iff every character is JavaScript whitespace. |
| ConfigHandler.BlankFieldIff | packages/hoppscotch-sh-admin/src/composables/useConfigHandler.ts:402 | `some(isFieldEmpty)` over a section's values is true iff some value is whitespace only. |
| ConfigHandler.AreAnyConfigFieldsEmptyIff | packages/hoppscotch-sh-admin/src/composables/useConfigHandler.ts:392-404 | The check is true iff one of the GitHub, Google, Microsoft or mail sections is enabled and has a whitespace-only field. OpenID and disabled sections never make it true. |
| ConfigHandler.UpdatedAllowedAuthProviders | packages/hoppscotch-sh-admin/src/composables/useConfigHandler.ts:407-428 | Always four entries, `GOOGLE`, `MICROSOFT`, `GITHUB`, `EMAIL` in that order. Each status is `ENABLE` iff that section is enabled, and `DISABLE` otherwise, including when there is no configuration. |
| ConfigHandler.DataSharingStatus | packages/hoppscotch-sh-admin/src/composables/useConfigHandler.ts:488-490 | The status is `ENABLE` iff data sharing is enabled, and `DISABLE` otherwise. |
| RoundTrip.InfraConfigsLength | packages/hoppscotch-sh-admin/src/composables/useConfigHandler.ts:270-377 | The update list's length is 4·google + 5·microsoft + 4·github + 2·mail, with each toggle counted as 0 or 1. Without a configuration the list is empty. |
| RoundTrip.NoEmptyNames | packages/hoppscotch-sh-admin/src/composables/useConfigHandler.ts:263-379 | No pair of the update list has an empty name. |
| RoundTrip.OnlyEnabledSectionsAppear | packages/hoppscotch-sh-admin/src/composables/useConfigHandler.ts:270-377 | Each pair carries a name of an enabled section. No OpenID or analytics name ever occurs. |
| RoundTrip.OidcNamesOutsideSections | packages/hoppscotch-sh-admin/src/helpers/configs.ts:148-203 | No OpenID or data-sharing name is a name that some section pushes. |
| RoundTrip.GooglePairsFollowTable | packages/hoppscotch-sh-admin/src/helpers/configs.ts:76-93 | The Google pairs the encoder pushes are the Google table's rows in order: the row's member name, and the field that the row's key selects. |
| RoundTrip.MicrosoftPairsFollowTable | packages/hoppscotch-sh-admin/src/helpers/configs.ts:95-116 | The same for Microsoft. |
| RoundTrip.GithubPairsFollowTable | packages/hoppscotch-sh-admin/src/helpers/configs.ts:118-135 | The same for GitHub. |
| RoundTrip.MailPairsFollowTable | packages/hoppscotch-sh-admin/src/helpers/configs.ts:137-146 | The same for mail. |
| RoundTrip.SectionFieldsFollowTables | packages/hoppscotch-sh-admin/src/helpers/configs.ts:76-146 | For each row of the four section tables, the field the decoder fills for the row's member is the field that the row's key selects. |
| RoundTrip.OidcFieldsFollowTable | packages/hoppscotch-sh-admin/src/helpers/configs.ts:148-197 | The same for the OpenID table. For the callback-URL row both sides are absent. |
| RoundTrip.GetFieldValueConcat | packages/hoppscotch-sh-admin/src/composables/useConfigHandler.ts:163-164 | A lookup in `a + b` answers from `a` when `a` has the name, and from `b` otherwise. |
| RoundTrip.DecodeThenEncode | packages/hoppscotch-sh-admin/src/composables/useConfigHandler.ts:163-382 | Saving a freshly loaded configuration writes back what was read: every emitted pair `(n, v)` has `v` equal to the lookup of `n` in the fetched list. |
| RoundTrip.EncodeThenDecode | packages/hoppscotch-sh-admin/src/composables/useConfigHandler.ts:163-382 | Decoding the update list gives back the fields of each enabled section and blank fields for each disabled one. The OpenID fields come back blank and data sharing comes back off. |
| RoundTrip.CheckedConfigSavesNoBlankValue | packages/hoppscotch-sh-admin/src/composables/useConfigHandler.ts:392-404 | If a configuration passes the blank-field check, no value in its update list is whitespace only. |

## Left out

- **Vue wiring.** The model leaves out Vue reactivity (`ref`, `computed`, `onMounted`). The computed lists are modelled as functions of the `updatedConfigs` argument. The mount hook is a method on a class that holds the two refs.
- **Deep copy.** lodash `cloneDeep` becomes a copy of an immutable value, so the working copy cannot alias the current one.
- **Network, toasts and i18n.** The model leaves out the urql fetches and mutations: `useClientHandler`, `executeMutation`, `updateAuthProvider`, `updateInfraConfigs`, `resetInfraConfigs` and `updateDataSharingConfigs`. These are remote calls whose results are not visible. The fetched infra configs and the allowed-providers list are parameters of `Decode` and `Mount`. Toasts and i18n messages are left out too.
- **Enum values.** The string value of each `InfraConfigEnum` member comes from generated code that is not part of this model. `ConfigTables.WireName` takes each member's value to be the upper-snake name the composable itself fetches. The backend's OpenID strategy reads the same names, `INFRA.OPENID_SCOPE` and `INFRA.OPENID_USERINFO_ENDPOINT` and `INFRA.OPENID_CALLBACK_URL` (packages/hoppscotch-backend/src/auth/strategies/openid.strategy.ts:31, 44-45). In particular:
  - `OpenidScopes` is `OPENID_SCOPE`;
  - `OpenidUserInfoEndpoint` is `OPENID_USERINFO_ENDPOINT`;
  - `OpenidCallbackUrl`, which the composable never names, is taken to be `OPENID_CALLBACK_URL`.
- **Null values.** A fetched value is always a string. A `null` or missing `value`, which `?? ''` would turn into `""`, is not modelled.
- **Optional fields.** The encoder's `?? ''` on section fields never applies, because fields are always strings.
- **Characters.** Strings are sequences of Unicode characters, not UTF-16 code units. `trim` removes the ECMAScript WhiteSpace and LineTerminator code points, listed explicitly.
- **Section record fields.** The `name` fields of the sections are set as the source sets them, and no property is stated about them.
- **Status builders after decoding.** The two status builders take the edited configuration as their input. No lemma relates them to `Decode`, because composing the two is immediate from their contracts.
- **Other files.** The pre-request sandbox worker and the backend OpenID strategy and guard are not part of this model. Their behaviour depends on dynamically evaluated script text, a message channel, and services whose code is not shown.
