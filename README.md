# Contentstack Terraform provider: state mapping and reconciliation helpers

This project models, in Dafny, the part of the Contentstack Terraform provider
that moves data between Terraform's side and the Contentstack management API.
Each resource (webhook, environment, locale, global field, content type) has
two mappers:

- `NewXData` builds the Terraform state record from the record the API returned.
- `NewXInput` builds the API payload from a planned or stored state record.

Global fields and content types also have a merge (`MergeX`). It keeps the
planned JSON schema text in the state instead of the API's. Locales have
`MergeLocaleResponse`, which warns when the API chose a different fallback
locale than the one requested. The helpers file adds:

- `processResponse`, which fills in a response's empty `Branches` field from the request and warns.
- `copyHttpBasicPasswords`, a webhook helper. It sets the HTTP basic password of each destination to the one of the planned destination with the same target URL and basic auth user. Its tests (internal/provider/helpers_test.go:38-62) exercise it; what it is used for is inferred from its code.
- `processRemoteError`, which turns an SDK error into a Terraform diagnostic, and `IsNotFoundError`, which tells whether an SDK error is the API's "not found" error.

The provider has no retry or rate-limit logic. The only HTTP setup puts the
SDK's debug transport into a plain `http.Client`
(internal/provider/provider.go:74-80).

Modules:

- `Wrappers`, `Framework`, `Text` (framework.dfy): Option and Result; the
  plugin framework's `types.String` and `types.Bool`, with their unknown and
  null flags, and its diagnostics; `strings.Join` and substring and character
  counts.
- `Management` (management.dfy): the SDK records. Each has only the fields the
  provider touches. JSON schemas are opaque strings.
- `ResourceWebhook`, `ResourceEnvironment`, `ResourceLocale`,
  `ResourceGlobalField`, `ResourceContentType`: one module per resource file.
- `Helpers` (helpers.dfy) and `Errors` (errors.dfy).

The Go mappers for webhooks and environments build their slices by appending
inside loops. They are modelled as methods with loops, and each method is
proved equal to a specification function (`WebhookDataOf`, `WebhookInputOf`,
`EnvironmentDataOf`, `EnvironmentInputOf`). The lemmas then state the
properties of those functions: which fields are copied, which are dropped,
and the round trips. The locale mappers are single struct literals, so they
are plain functions. `GlobalFieldData` and `ContentTypeData` are classes,
because `MergeGlobalField` and `MergeContentType` change them in place
through a pointer. `processResponse` changes the response record in place, so
the response is a class (`Helpers.Response`). Its `Branches` field is an
`Option`: `None` means the record type has no such field. This replaces Go
reflection.

The definition of `WebhookDestinationSlice.FindByTargetURLAndHttpBasicAuth`
is not modelled. The lookup is modelled on one assumption: the result is `None`
exactly when no planned destination has the same target URL value and basic
auth value, and otherwise it is one of the planned destinations that does.
The model's body returns the first such destination. The postconditions of
`copyHttpBasicPasswords` would hold for any lookup that meets this contract.

A side observation, not modelled: `internal/provider/provider.go:110-117`
registers the content type, global field, locale and webhook resources, but
not the environment resource. Also, the `Name` field of `EnvironmentData` is
tagged `tfsfk:"name"` rather than `tfsdk:"name"`
(internal/provider/resource_environment.go:18). The framework maps state
records by their `tfsdk` tags, so reading a plan into, or writing a state from,
an `EnvironmentData` would fail as written. The environment mappers are
modelled as the code defines them, apart from this mapping.

Optional webhook flags have the same kind of gap as the optional lists. A
plan that leaves out `concise_payload` (internal/provider/resource_webhook.go:71-74)
has it null, but the state written back holds a known boolean
(`WebhookFlagsComeBackKnown`). A plan that leaves out `disabled` (lines 67-70)
gets the API's value. `WebhookStateMatchesPlan` requires a known
`concise_payload` for this reason.

## Model

| member | source | states |
|---|---|---|
| `Helpers.ProcessResponse` | internal/provider/helpers.go:12-39 | If the response has a `Branches` field and it is empty, the field gets the request's branches and exactly one warning on attribute `branches` is returned. If there is no such field, or it is non-empty, nothing changes and no diagnostic is returned. There is never more than one diagnostic and never an error. The caller must supply a request `Branches` field when a copy is needed, because otherwise reflection panics. |
| `Helpers.BranchesWarning` | internal/provider/helpers.go:30-34 | The back-fill diagnostic is a warning attached to the `branches` attribute. |
| `Helpers.FindByTargetURLAndHttpBasicAuth` | internal/provider/helpers.go:45 | The assumed lookup contract: `None` exactly when no planned destination matches the target URL and basic auth user; otherwise a planned destination that matches both. |
| `Helpers.CopyHttpBasicPasswords` | internal/provider/helpers.go:41-54 | Succeeds exactly when every returned destination has a planned match. On success the result has the same length and order as the input. Each element equals its input counterpart except the HTTP basic password, which is the password of a planned destination with the same key. On failure there is no sequence, and the error names the first destination without a match. |
| `ResourceWebhook.NewWebhookData` | internal/provider/resource_webhook.go:240-283 | The state built by the loops equals `WebhookDataOf` of the remote webhook. |
| `ResourceWebhook.NewWebhookInput` | internal/provider/resource_webhook.go:285-319 | The payload built by the loops equals `WebhookInputOf` of the state. |
| `ResourceWebhook.WebhookDataCopiesFields` | internal/provider/resource_webhook.go:240-283 | The state copies UID, name, retry policy, concise-payload flag and disabled flag as known values. It keeps the length, order and values of branches, channels and destinations. For each destination it keeps the target URL, basic auth user, password, and the order and name/value pairs of its custom headers. |
| `ResourceWebhook.WebhookInputCopiesFields` | internal/provider/resource_webhook.go:285-319 | The payload carries the values of name, retry policy, concise-payload flag, branches, channels and destinations, with their custom headers, in order. |
| `ResourceWebhook.WebhookInputIgnoresUidAndDisabled` | internal/provider/resource_webhook.go:305-310 | Changing a state's UID or disabled flag leaves the payload unchanged: neither is sent. |
| `ResourceWebhook.WebhookRoundTrip` | internal/provider/resource_webhook.go:240-319 | Building the payload from the state of a remote webhook gives that webhook's name, retry policy, concise-payload flag, destinations, channels and branches. |
| `ResourceWebhook.WebhookStateMatchesPlan` | internal/provider/resource_webhook.go:240-319 | If every value of a plan that is sent is known and non-null, and the API stores the payload as sent, then the state written back is the plan. Only the UID and disabled flag differ; those come from the API. The plan's UID and disabled flag may be unknown or null, as in every Create plan. The model has no null lists, so this equality holds only up to a null versus an empty `branches` or `channels` list (see "## Left out"). |
| `ResourceWebhook.WebhookFlagsComeBackKnown` | internal/provider/resource_webhook.go:240-319 | After the API stores a plan's payload as sent, the state's concise-payload and disabled flags are known, and the concise-payload value is the plan's. So a plan that left `concise_payload` null never matches the state written back. |
| `ResourceEnvironment.NewEnvironmentData` | internal/provider/resource_environment.go:192-211 | The state built by the loop equals `EnvironmentDataOf` of the remote environment. |
| `ResourceEnvironment.NewEnvironmentInput` | internal/provider/resource_environment.go:213-231 | The payload built by the loop equals `EnvironmentInputOf` of the state. |
| `ResourceEnvironment.EnvironmentDataCopiesFields` | internal/provider/resource_environment.go:193-209 | The state copies UID and name and keeps the length, order and (locale, URL) pairs of the URL list. |
| `ResourceEnvironment.EnvironmentInputCopiesFields` | internal/provider/resource_environment.go:213-230 | The payload carries the name and keeps the length, order and (locale, URL) values of the URL list. |
| `ResourceEnvironment.EnvironmentInputIgnoresUid` | internal/provider/resource_environment.go:225-228 | The payload does not depend on the UID. |
| `ResourceEnvironment.EnvironmentRoundTrip` | internal/provider/resource_environment.go:192-231 | Building the payload from the state of a remote environment gives that environment's name and URLs. |
| `ResourceEnvironment.EnvironmentStateMatchesPlan` | internal/provider/resource_environment.go:192-231 | If every value of a plan that is sent is known and non-null, and the API stores the payload as sent, then the state written back is the plan with the API's UID. The plan's UID may be unknown, as in every Create plan. |
| `ResourceLocale.FallbackModifiedDetail` | internal/provider/resource_locale.go:213-215 | The warning detail contains both the requested and the actual fallback locale. |
| `ResourceLocale.MergeLocaleResponse` | internal/provider/resource_locale.go:206-218 | Returns at most one diagnostic, and exactly one when the requested and actual fallback locale differ. The comparison covers the whole `types.String`, including its null and unknown flags. The diagnostic is a warning on `fallback_locale`, and its detail names both values. Neither argument is changed, because the arguments are values. |
| `ResourceLocale.NewLocaleData` | internal/provider/resource_locale.go:185-193 | The state holds UID, name, code and fallback locale unchanged, as known values. |
| `ResourceLocale.NewLocaleInput` | internal/provider/resource_locale.go:195-204 | The payload carries the values of name, code and fallback locale, whatever their unknown and null flags. It has no UID. |
| `ResourceLocale.LocaleInputIgnoresUid` | internal/provider/resource_locale.go:195-204 | The payload does not depend on the UID. |
| `ResourceLocale.LocaleRoundTrip` | internal/provider/resource_locale.go:185-204 | Building the payload from the state of a remote locale gives its name, code and fallback locale. |
| `ResourceLocale.LocaleStateMatchesPlan` | internal/provider/resource_locale.go:185-204 | If the plan's name, code and fallback locale are known and the API stores the payload as sent, the state written back is the plan with the API's UID. The plan's UID may be unknown, as in every Create plan. |
| `ResourceLocale.LocaleWarningAfterWrite` | internal/provider/resource_locale.go:84-86 | After Create or Update, a warning appears exactly when the plan's fallback locale is not the known value the API returned. A plan with no fallback locale (null) therefore always gets the warning. |
| `ResourceLocale.LocaleWarningOnKnownValues` | internal/provider/resource_locale.go:209 | When both values are known, the warning appears exactly when the two locale strings differ. |
| `ResourceGlobalField.NewGlobalFieldData` | internal/provider/resource_global_field.go:188-203 | A fresh state record that copies UID, title, description, the revisions flag and the schema text from the remote field. |
| `ResourceGlobalField.MergeGlobalField` | internal/provider/resource_global_field.go:218-220 | `out.Schema` becomes the planned schema. UID, title, description and the revisions flag of `out` stay the same, and the plan is not modified. If the schema was already equal, nothing changes, so merging twice equals merging once. |
| `ResourceGlobalField.WriteState` | internal/provider/resource_global_field.go:91-92 | The state written by Create, and by Update (lines 178-179), has the plan's schema whatever the API returned. Its other fields come from the API. |
| `ResourceGlobalField.NewGlobalFieldInput` | internal/provider/resource_global_field.go:205-216 | The payload carries UID, title, description and the revisions flag unchanged. Its schema text is the state's schema string. |
| `ResourceGlobalField.GlobalFieldRoundTrip` | internal/provider/resource_global_field.go:188-216 | The payload built from the state of a remote global field carries exactly that field's values. |
| `ResourceContentType.NewContentTypeData` | internal/provider/resource_content_type.go:187-201 | A fresh state record that copies UID, title, description and the schema text from the remote content type. |
| `ResourceContentType.MergeContentType` | internal/provider/resource_content_type.go:215-217 | `out.Schema` becomes the planned schema. UID, title and description of `out` stay the same, and the plan is not modified. If the schema was already equal, nothing changes, so the merge is idempotent. |
| `ResourceContentType.WriteState` | internal/provider/resource_content_type.go:90-91 | The state written by Create, and by Update (lines 177-178), has the plan's schema whatever the API returned. Its other fields come from the API. |
| `ResourceContentType.NewContentTypeInput` | internal/provider/resource_content_type.go:203-213 | The payload carries UID, title and description unchanged. Its schema text is the state's schema string. |
| `ResourceContentType.ContentTypeRoundTrip` | internal/provider/resource_content_type.go:187-213 | The payload built from the state of a remote content type carries exactly that content type's values. |
| `Errors.ProcessRemoteError` | internal/provider/errors.go:11-30 | Exactly one diagnostic, and it is an error. For the SDK's structured error, the summary is its message. The detail is the `"\n"`-join of a sequence whose multiset is one `" field - msg"` line per message of every field. For any other error, summary and detail are both the error's text. |
| `Errors.LineCountIsMessageCount` | internal/provider/errors.go:17-23 | The number of detail lines equals the total number of field messages. |
| `Errors.DetailHasOneLinePerMessage` | internal/provider/errors.go:17-23 | When no field name or message contains a line break, the detail has exactly one text line per message, that is, total messages minus one line breaks. |
| `Errors.IsNotFoundError` | internal/provider/errors.go:33-42 | An error is a "not found" error exactly when it is the SDK's structured error with code 404. No error (nil) is not one, and no other kind of error is one. |

## Left out

- Retry, backoff and rate limiting: the code has none to model. The HTTP client only wraps the SDK's debug transport.
- The Create, Read, Update, Delete and ImportState methods of every resource are framework glue around `Plan.Get`, `State.Set` and remote SDK calls. They are left out. Only their "state schema = plan schema" effect is modelled, as `WriteState`, and the locale warning after a write, as `LocaleWarningAfterWrite`.
- The `GetSchema` declarations are static metadata. `Configure`, `providerConfigure` and `main.go` build the client or start the server through calls into the SDK and the framework.
- JSON marshalling in `NewGlobalFieldData` and `NewContentTypeData` is left out, including the panic on a marshalling error. The schema is an opaque string, so the state's schema is the remote schema text.
- Go reflection in `processResponse` is left out. An explicit optional `Branches` field replaces it. Other reflection failures, such as a non-pointer argument or a field of another type, are not modelled.
- ResourceWebhook.WebhookStateMatchesPlan: holds only up to a null versus an empty list. A plan that leaves out the optional `branches` or `channels` list has it null. `NewWebhookInput` then sends no list, and `NewWebhookData` always builds non-nil slices (internal/provider/resource_webhook.go:241, 246), so the state gets an empty list where the plan had null. The model's lists cannot be null, so it does not show this difference.
- Nil and empty Go slices are the same value here. So is a nil and an empty custom-header list, and a nil and an empty channel or branch list. Any difference in how the SDK serialises them is not captured.
- How the framework fills the null and unknown flags of a plan is not modelled. Those flags are free inputs.
- `Append` in the framework drops duplicate diagnostics. No modelled function appends to a list that already has diagnostics, so this has no effect here.
- `NewGlobalFieldInput` and `NewContentTypeInput` store pointers to the state record's UID, title and description strings in the payload. The model copies the values. Aliasing between the payload and the state is not captured; no modelled code changes the state after the payload is built.
- `copyHttpBasicPasswords` cannot modify its input `wd`: sequences are values in Dafny, which matches the Go range copy.
- Helpers.FindByTargetURLAndHttpBasicAuth: its real body is not part of this model. It is modelled by its matching contract, as a first-match search on the values of both keys.
- Errors.ProcessRemoteError: the order of the detail lines is stated only as a multiset, because Go map iteration order is unspecified. The loop picks the fields in an arbitrary order.
