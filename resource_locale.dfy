/**
 * The locale resource: mapping between Terraform state (LocaleData) and the
 * SDK's locale records, and the warning raised when the API chose another
 * fallback locale than the one requested.
 */
module ResourceLocale {
  import opened Wrappers
  import opened Framework
  import opened Management
  import Text

  /** The Terraform-side state and plan of a locale. */
  datatype LocaleData = LocaleData(uid: TfString, name: TfString, code: TfString, fallbackLocale: TfString)

  /** `NewLocaleData`: the state written from a locale the API returned; every field is a known copy. */
  function NewLocaleData(field: Locale): (d: LocaleData)
    ensures d.uid.value == field.uid && d.name.value == field.name
    ensures d.code.value == field.code && d.fallbackLocale.value == field.fallbackLocale
    ensures IsKnownString(d.uid) && IsKnownString(d.name) && IsKnownString(d.code) && IsKnownString(d.fallbackLocale)
  {
    LocaleData(KnownString(field.uid), KnownString(field.name), KnownString(field.code), KnownString(field.fallbackLocale))
  }

  /**
   * `NewLocaleInput`: the payload sent for a planned or stored locale. It
   * carries the values of name, code and fallback locale, whatever their
   * unknown and null flags; the UID is not part of it.
   */
  function NewLocaleInput(field: LocaleData): (input: LocaleInput)
    ensures input.name == field.name.value && input.code == field.code.value
    ensures input.fallbackLocale == field.fallbackLocale.value
  {
    LocaleInput(field.name.value, field.code.value, field.fallbackLocale.value)
  }

  const FallbackModifiedSummary := "Contentstack modified fallback_locale"

  /** The warning's detail, naming the requested and the actual fallback locale. */
  function FallbackModifiedDetail(requestedValue: string, actualValue: string): (detail: string)
    ensures Text.IsSubstring(requestedValue, detail) && Text.IsSubstring(actualValue, detail)
  {
    var pre := "Contentstack set the fallback_locale to a different value then requested. Requested was ";
    var mid := " but value is ";
    Text.NamesBothValues(pre, requestedValue, mid, actualValue);
    pre + requestedValue + mid + actualValue
  }

  /**
   * `MergeLocaleResponse`: compares the requested fallback locale (`in` in the
   * source, the plan) with the one in the state (`out`) as whole `types.String` values,
   * and warns on the `fallback_locale` attribute when they differ, naming both.
   */
  function MergeLocaleResponse(out: LocaleData, requested: LocaleData): (diags: seq<Diagnostic>)
    ensures |diags| <= 1
    ensures |diags| == 1 <==> requested.fallbackLocale != out.fallbackLocale
    ensures forall i :: 0 <= i < |diags| ==>
      && diags[i].severity == Warning
      && diags[i].attribute == Some("fallback_locale")
      && diags[i].summary == FallbackModifiedSummary
      && Text.IsSubstring(requested.fallbackLocale.value, diags[i].detail)
      && Text.IsSubstring(out.fallbackLocale.value, diags[i].detail)
  {
    if requested.fallbackLocale != out.fallbackLocale then
      var detail := FallbackModifiedDetail(requested.fallbackLocale.value, out.fallbackLocale.value);
      [Diagnostic(Warning, FallbackModifiedSummary, detail, Some("fallback_locale"))]
    else
      []
  }

  // Properties

  /** The payload does not carry the UID. */
  lemma LocaleInputIgnoresUid(d: LocaleData, uid: TfString)
    ensures NewLocaleInput(d.(uid := uid)) == NewLocaleInput(d)
  {
  }

  /** Sending the state of a remote locale back sends its name, code and fallback locale. */
  lemma LocaleRoundTrip(l: Locale)
    ensures NewLocaleInput(NewLocaleData(l)) == LocaleInput(l.name, l.code, l.fallbackLocale)
  {
  }

  /**
   * When the API stores a plan whose sent values are known as sent, the state
   * written back is the plan with the API's UID, whatever the plan's UID was
   * (it is computed, so unknown in a Create plan).
   */
  lemma LocaleStateMatchesPlan(plan: LocaleData, uid: string)
    requires IsKnownString(plan.name)
    requires IsKnownString(plan.code) && IsKnownString(plan.fallbackLocale)
    ensures var input := NewLocaleInput(plan);
      NewLocaleData(Locale(uid, input.name, input.code, input.fallbackLocale)) == plan.(uid := KnownString(uid))
  {
  }

  /**
   * After Create or Update the state comes from the API's locale: a warning
   * is raised exactly when the plan's fallback locale is not the known value
   * the API returned, which includes every plan that left it null.
   */
  lemma LocaleWarningAfterWrite(resource: Locale, plan: LocaleData)
    ensures |MergeLocaleResponse(NewLocaleData(resource), plan)| == 1
        <==> plan.fallbackLocale != KnownString(resource.fallbackLocale)
    ensures plan.fallbackLocale.isNull ==> |MergeLocaleResponse(NewLocaleData(resource), plan)| == 1
  {
  }

  /** Between two known values the warning is raised exactly when the locales differ. */
  lemma LocaleWarningOnKnownValues(out: LocaleData, requested: LocaleData)
    requires IsKnownString(out.fallbackLocale) && IsKnownString(requested.fallbackLocale)
    ensures |MergeLocaleResponse(out, requested)| == 1 <==> requested.fallbackLocale.value != out.fallbackLocale.value
  {
  }
}
