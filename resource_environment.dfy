/**
 * The environment resource's mapping between Terraform state
 * (EnvironmentData) and the SDK's environment records.
 */
module ResourceEnvironment {
  import opened Framework
  import opened Management

  datatype EnvironmentUrlData = EnvironmentUrlData(locale: TfString, url: TfString)

  /** The Terraform-side state and plan of an environment. */
  datatype EnvironmentData = EnvironmentData(uid: TfString, name: TfString, urls: seq<EnvironmentUrlData>)

  function UrlData(s: EnvironmentUrl): EnvironmentUrlData {
    EnvironmentUrlData(KnownString(s.locale), KnownString(s.url))
  }

  function UrlInput(s: EnvironmentUrlData): EnvironmentUrl {
    EnvironmentUrl(s.locale.value, s.url.value)
  }

  function EnvironmentDataOf(e: Environment): EnvironmentData {
    EnvironmentData(KnownString(e.uid), KnownString(e.name),
                    seq(|e.urls|, i requires 0 <= i < |e.urls| => UrlData(e.urls[i])))
  }

  function EnvironmentInputOf(d: EnvironmentData): EnvironmentInput {
    EnvironmentInput(d.name.value, seq(|d.urls|, i requires 0 <= i < |d.urls| => UrlInput(d.urls[i])))
  }

  /** `NewEnvironmentData`: the state written from an environment the API returned. */
  method NewEnvironmentData(environment: Environment) returns (state: EnvironmentData)
    ensures state == EnvironmentDataOf(environment)
  {
    var urls: seq<EnvironmentUrlData> := [];
    for i := 0 to |environment.urls|
      invariant |urls| == i
      invariant forall k :: 0 <= k < i ==> urls[k] == UrlData(environment.urls[k])
    {
      var s := environment.urls[i];
      var url := EnvironmentUrlData(KnownString(s.locale), KnownString(s.url));
      urls := urls + [url];
    }
    state := EnvironmentData(KnownString(environment.uid), KnownString(environment.name), urls);
  }

  /** `NewEnvironmentInput`: the payload sent for a planned or stored environment. */
  method NewEnvironmentInput(environment: EnvironmentData) returns (input: EnvironmentInput)
    ensures input == EnvironmentInputOf(environment)
  {
    var urls: seq<EnvironmentUrl> := [];
    for i := 0 to |environment.urls|
      invariant |urls| == i
      invariant forall k :: 0 <= k < i ==> urls[k] == UrlInput(environment.urls[k])
    {
      var s := environment.urls[i];
      var url := EnvironmentUrl(s.locale.value, s.url.value);
      urls := urls + [url];
    }
    input := EnvironmentInput(environment.name.value, urls);
  }

  // Properties

  /** The state copies UID and name and keeps the length, order and (locale, URL) pairs of the URLs. */
  lemma EnvironmentDataCopiesFields(e: Environment)
    ensures var d := EnvironmentDataOf(e);
      && d.uid == KnownString(e.uid) && d.name == KnownString(e.name)
      && |d.urls| == |e.urls|
      && forall i :: 0 <= i < |e.urls| ==>
           d.urls[i].locale == KnownString(e.urls[i].locale) && d.urls[i].url == KnownString(e.urls[i].url)
  {
  }

  /** The payload carries the name and the (locale, URL) pairs, in order. */
  lemma EnvironmentInputCopiesFields(d: EnvironmentData)
    ensures var input := EnvironmentInputOf(d);
      && input.name == d.name.value
      && |input.urls| == |d.urls|
      && forall i :: 0 <= i < |d.urls| ==> input.urls[i] == EnvironmentUrl(d.urls[i].locale.value, d.urls[i].url.value)
  {
  }

  /** The payload does not carry the UID. */
  lemma EnvironmentInputIgnoresUid(d: EnvironmentData, uid: TfString)
    ensures EnvironmentInputOf(d.(uid := uid)) == EnvironmentInputOf(d)
  {
  }

  /** Sending the state of a remote environment back sends its name and URLs. */
  lemma EnvironmentRoundTrip(e: Environment)
    ensures EnvironmentInputOf(EnvironmentDataOf(e)) == EnvironmentInput(e.name, e.urls)
  {
    assert EnvironmentInputOf(EnvironmentDataOf(e)).urls == e.urls;
  }

  /**
   * Every string of a plan that is sent to the API is known and non-null. The
   * UID is computed, so it may be unknown, as it is in a Create plan.
   */
  predicate AllKnown(d: EnvironmentData) {
    && IsKnownString(d.name)
    && forall i :: 0 <= i < |d.urls| ==> IsKnownString(d.urls[i].locale) && IsKnownString(d.urls[i].url)
  }

  /**
   * When the API stores a plan whose sent values are known as sent, the state
   * written back is the plan with the API's UID, whatever the plan's UID was.
   */
  lemma EnvironmentStateMatchesPlan(plan: EnvironmentData, uid: string)
    requires AllKnown(plan)
    ensures var input := EnvironmentInputOf(plan);
      EnvironmentDataOf(Environment(uid, input.name, input.urls)) == plan.(uid := KnownString(uid))
  {
    var input := EnvironmentInputOf(plan);
    assert EnvironmentDataOf(Environment(uid, input.name, input.urls)).urls == plan.urls;
  }
}
