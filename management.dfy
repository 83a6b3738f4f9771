/**
 * The records of the Contentstack management SDK that the provider reads and
 * writes, with only the fields the provider touches. JSON schema blobs are
 * kept as opaque strings.
 */
module Management {

  // Webhooks

  datatype WebhookHeader = WebhookHeader(name: string, value: string)

  datatype WebhookDestination = WebhookDestination(
    targetURL: string,
    httpBasicAuth: string,
    httpBasicPassword: string,
    customHeaders: seq<WebhookHeader>)

  /** The webhook as the remote API returns it. */
  datatype WebHook = WebHook(
    uid: string,
    name: string,
    branches: seq<string>,
    channels: seq<string>,
    retryPolicy: string,
    concisePayload: bool,
    disabled: bool,
    destinations: seq<WebhookDestination>)

  /** The payload sent to create or update a webhook. */
  datatype WebHookInput = WebHookInput(
    name: string,
    retryPolicy: string,
    destinations: seq<WebhookDestination>,
    concisePayload: bool,
    channels: seq<string>,
    branches: seq<string>)

  // Environments

  datatype EnvironmentUrl = EnvironmentUrl(locale: string, url: string)

  datatype Environment = Environment(uid: string, name: string, urls: seq<EnvironmentUrl>)

  datatype EnvironmentInput = EnvironmentInput(name: string, urls: seq<EnvironmentUrl>)

  // Locales

  datatype Locale = Locale(uid: string, name: string, code: string, fallbackLocale: string)

  datatype LocaleInput = LocaleInput(name: string, code: string, fallbackLocale: string)

  // Global fields and content types; `schema` is the JSON text

  datatype GlobalField = GlobalField(
    uid: string,
    title: string,
    description: string,
    maintainRevisions: bool,
    schema: string)

  datatype GlobalFieldInput = GlobalFieldInput(
    uid: string,
    title: string,
    description: string,
    maintainRevisions: bool,
    schema: string)

  datatype ContentType = ContentType(uid: string, title: string, description: string, schema: string)

  datatype ContentTypeInput = ContentTypeInput(uid: string, title: string, description: string, schema: string)

  // Errors

  /**
   * An error returned by an SDK call: the SDK's structured `ErrorMessage`
   * (error code, message and per-field messages) or any other Go `error`,
   * represented by the text its `Error()` method returns.
   */
  datatype RemoteError =
    | ErrorMessage(errorCode: int, errorMessage: string, errors: map<string, seq<string>>)
    | OtherError(text: string)
}
