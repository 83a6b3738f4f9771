/**
 * The webhook resource's mapping between Terraform state (WebhookData) and
 * the SDK's webhook records.
 */
module ResourceWebhook {
  import opened Framework
  import opened Management

  datatype WebhookCustomHeaderData = WebhookCustomHeaderData(name: TfString, value: TfString)

  datatype WebhookDestinationData = WebhookDestinationData(
    targetURL: TfString,
    httpBasicAuth: TfString,
    httpBasicPassword: TfString,
    customHeaders: seq<WebhookCustomHeaderData>)

  /** The Terraform-side state and plan of a webhook. */
  datatype WebhookData = WebhookData(
    uid: TfString,
    name: TfString,
    branches: seq<TfString>,
    channels: seq<TfString>,
    retryPolicy: TfString,
    concisePayload: TfBool,
    disabled: TfBool,
    destinations: seq<WebhookDestinationData>)

  // Specification of the remote-to-state direction

  function KnownStrings(ss: seq<string>): seq<TfString> {
    seq(|ss|, i requires 0 <= i < |ss| => KnownString(ss[i]))
  }

  function HeaderData(h: WebhookHeader): WebhookCustomHeaderData {
    WebhookCustomHeaderData(KnownString(h.name), KnownString(h.value))
  }

  function DestinationData(s: WebhookDestination): WebhookDestinationData {
    WebhookDestinationData(
      KnownString(s.targetURL), KnownString(s.httpBasicAuth), KnownString(s.httpBasicPassword),
      seq(|s.customHeaders|, j requires 0 <= j < |s.customHeaders| => HeaderData(s.customHeaders[j])))
  }

  function WebhookDataOf(w: WebHook): WebhookData {
    WebhookData(
      KnownString(w.uid), KnownString(w.name), KnownStrings(w.branches), KnownStrings(w.channels),
      KnownString(w.retryPolicy), KnownBool(w.concisePayload), KnownBool(w.disabled),
      seq(|w.destinations|, i requires 0 <= i < |w.destinations| => DestinationData(w.destinations[i])))
  }

  // Specification of the state-to-payload direction

  function Values(ts: seq<TfString>): seq<string> {
    seq(|ts|, i requires 0 <= i < |ts| => ts[i].value)
  }

  function HeaderInput(h: WebhookCustomHeaderData): WebhookHeader {
    WebhookHeader(h.name.value, h.value.value)
  }

  function DestinationInput(s: WebhookDestinationData): WebhookDestination {
    WebhookDestination(
      s.targetURL.value, s.httpBasicAuth.value, s.httpBasicPassword.value,
      seq(|s.customHeaders|, j requires 0 <= j < |s.customHeaders| => HeaderInput(s.customHeaders[j])))
  }

  function WebhookInputOf(d: WebhookData): WebHookInput {
    WebHookInput(
      d.name.value, d.retryPolicy.value,
      seq(|d.destinations|, i requires 0 <= i < |d.destinations| => DestinationInput(d.destinations[i])),
      d.concisePayload.value, Values(d.channels), Values(d.branches))
  }

  /** `NewWebhookData`: the state written from a webhook the API returned. */
  method NewWebhookData(webhook: WebHook) returns (state: WebhookData)
    ensures state == WebhookDataOf(webhook)
  {
    var branches: seq<TfString> := [];
    for i := 0 to |webhook.branches|
      invariant |branches| == i
      invariant forall k :: 0 <= k < i ==> branches[k] == KnownString(webhook.branches[k])
    {
      branches := branches + [KnownString(webhook.branches[i])];
    }

    var channels: seq<TfString> := [];
    for i := 0 to |webhook.channels|
      invariant |channels| == i
      invariant forall k :: 0 <= k < i ==> channels[k] == KnownString(webhook.channels[k])
    {
      channels := channels + [KnownString(webhook.channels[i])];
    }

    var destinations: seq<WebhookDestinationData> := [];
    for i := 0 to |webhook.destinations|
      invariant |destinations| == i
      invariant forall k :: 0 <= k < i ==> destinations[k] == DestinationData(webhook.destinations[k])
    {
      var s := webhook.destinations[i];
      var dest := WebhookDestinationData(
        KnownString(s.targetURL), KnownString(s.httpBasicAuth), KnownString(s.httpBasicPassword), []);
      for j := 0 to |s.customHeaders|
        invariant dest.targetURL == KnownString(s.targetURL)
        invariant dest.httpBasicAuth == KnownString(s.httpBasicAuth)
        invariant dest.httpBasicPassword == KnownString(s.httpBasicPassword)
        invariant |dest.customHeaders| == j
        invariant forall k :: 0 <= k < j ==> dest.customHeaders[k] == HeaderData(s.customHeaders[k])
      {
        var header := WebhookCustomHeaderData(
          KnownString(s.customHeaders[j].name), KnownString(s.customHeaders[j].value));
        dest := dest.(customHeaders := dest.customHeaders + [header]);
      }
      destinations := destinations + [dest];
    }

    state := WebhookData(
      KnownString(webhook.uid), KnownString(webhook.name), branches, channels,
      KnownString(webhook.retryPolicy), KnownBool(webhook.concisePayload), KnownBool(webhook.disabled),
      destinations);
  }

  /** `NewWebhookInput`: the payload sent for a planned or stored webhook. */
  method NewWebhookInput(webhook: WebhookData) returns (input: WebHookInput)
    ensures input == WebhookInputOf(webhook)
  {
    var destinations: seq<WebhookDestination> := [];
    for i := 0 to |webhook.destinations|
      invariant |destinations| == i
      invariant forall k :: 0 <= k < i ==> destinations[k] == DestinationInput(webhook.destinations[k])
    {
      var s := webhook.destinations[i];
      var dest := WebhookDestination(s.targetURL.value, s.httpBasicAuth.value, s.httpBasicPassword.value, []);
      for j := 0 to |s.customHeaders|
        invariant dest.targetURL == s.targetURL.value
        invariant dest.httpBasicAuth == s.httpBasicAuth.value
        invariant dest.httpBasicPassword == s.httpBasicPassword.value
        invariant |dest.customHeaders| == j
        invariant forall k :: 0 <= k < j ==> dest.customHeaders[k] == HeaderInput(s.customHeaders[k])
      {
        var header := WebhookHeader(s.customHeaders[j].name.value, s.customHeaders[j].value.value);
        dest := dest.(customHeaders := dest.customHeaders + [header]);
      }
      destinations := destinations + [dest];
    }

    input := WebHookInput(webhook.name.value, webhook.retryPolicy.value, destinations, webhook.concisePayload.value, [], []);
    for i := 0 to |webhook.channels|
      invariant input.name == webhook.name.value && input.retryPolicy == webhook.retryPolicy.value
      invariant input.destinations == destinations && input.concisePayload == webhook.concisePayload.value
      invariant input.branches == []
      invariant |input.channels| == i
      invariant forall k :: 0 <= k < i ==> input.channels[k] == webhook.channels[k].value
    {
      input := input.(channels := input.channels + [webhook.channels[i].value]);
    }
    for i := 0 to |webhook.branches|
      invariant input.name == webhook.name.value && input.retryPolicy == webhook.retryPolicy.value
      invariant input.destinations == destinations && input.concisePayload == webhook.concisePayload.value
      invariant input.channels == Values(webhook.channels)
      invariant |input.branches| == i
      invariant forall k :: 0 <= k < i ==> input.branches[k] == webhook.branches[k].value
    {
      input := input.(branches := input.branches + [webhook.branches[i].value]);
    }
  }

  // Properties

  /**
   * The state copies the remote webhook's scalar fields and keeps the length,
   * order and contents of its branches, channels, destinations and each
   * destination's custom headers.
   */
  lemma WebhookDataCopiesFields(w: WebHook)
    ensures var d := WebhookDataOf(w);
      && d.uid == KnownString(w.uid) && d.name == KnownString(w.name)
      && d.retryPolicy == KnownString(w.retryPolicy)
      && d.concisePayload == KnownBool(w.concisePayload) && d.disabled == KnownBool(w.disabled)
      && |d.branches| == |w.branches| && (forall i :: 0 <= i < |w.branches| ==> d.branches[i] == KnownString(w.branches[i]))
      && |d.channels| == |w.channels| && (forall i :: 0 <= i < |w.channels| ==> d.channels[i] == KnownString(w.channels[i]))
      && |d.destinations| == |w.destinations|
      && forall i :: 0 <= i < |w.destinations| ==>
           && d.destinations[i].targetURL == KnownString(w.destinations[i].targetURL)
           && d.destinations[i].httpBasicAuth == KnownString(w.destinations[i].httpBasicAuth)
           && d.destinations[i].httpBasicPassword == KnownString(w.destinations[i].httpBasicPassword)
           && |d.destinations[i].customHeaders| == |w.destinations[i].customHeaders|
           && forall j :: 0 <= j < |w.destinations[i].customHeaders| ==>
                && d.destinations[i].customHeaders[j].name == KnownString(w.destinations[i].customHeaders[j].name)
                && d.destinations[i].customHeaders[j].value == KnownString(w.destinations[i].customHeaders[j].value)
  {
  }

  /**
   * The payload carries the plan's name, retry policy and concise-payload
   * flag and the values of its channels, branches and destinations, in order.
   */
  lemma WebhookInputCopiesFields(d: WebhookData)
    ensures var input := WebhookInputOf(d);
      && input.name == d.name.value && input.retryPolicy == d.retryPolicy.value
      && input.concisePayload == d.concisePayload.value
      && |input.branches| == |d.branches| && (forall i :: 0 <= i < |d.branches| ==> input.branches[i] == d.branches[i].value)
      && |input.channels| == |d.channels| && (forall i :: 0 <= i < |d.channels| ==> input.channels[i] == d.channels[i].value)
      && |input.destinations| == |d.destinations|
      && forall i :: 0 <= i < |d.destinations| ==>
           && input.destinations[i].targetURL == d.destinations[i].targetURL.value
           && input.destinations[i].httpBasicAuth == d.destinations[i].httpBasicAuth.value
           && input.destinations[i].httpBasicPassword == d.destinations[i].httpBasicPassword.value
           && |input.destinations[i].customHeaders| == |d.destinations[i].customHeaders|
           && forall j :: 0 <= j < |d.destinations[i].customHeaders| ==>
                input.destinations[i].customHeaders[j]
                == WebhookHeader(d.destinations[i].customHeaders[j].name.value, d.destinations[i].customHeaders[j].value.value)
  {
  }

  /** The payload carries neither the UID nor the disabled flag: changing them changes nothing sent. */
  lemma WebhookInputIgnoresUidAndDisabled(d: WebhookData, uid: TfString, disabled: TfBool)
    ensures WebhookInputOf(d.(uid := uid, disabled := disabled)) == WebhookInputOf(d)
  {
  }

  /** Sending the state of a remote webhook back sends exactly that webhook's fields. */
  lemma WebhookRoundTrip(w: WebHook)
    ensures WebhookInputOf(WebhookDataOf(w))
         == WebHookInput(w.name, w.retryPolicy, w.destinations, w.concisePayload, w.channels, w.branches)
  {
    var d := WebhookDataOf(w);
    var input := WebhookInputOf(d);
    assert input.branches == w.branches;
    assert input.channels == w.channels;
    forall i | 0 <= i < |w.destinations|
      ensures input.destinations[i] == w.destinations[i]
    {
      var s := w.destinations[i];
      assert input.destinations[i].customHeaders == s.customHeaders;
    }
  }

  /**
   * Every string and boolean of a plan that is sent to the API is known and
   * non-null. The UID (computed) and the disabled flag (optional) are not
   * sent, so they may be unknown or null, as they are in a Create plan.
   */
  predicate AllKnown(d: WebhookData) {
    && IsKnownString(d.name) && IsKnownString(d.retryPolicy)
    && IsKnownBool(d.concisePayload)
    && (forall i :: 0 <= i < |d.branches| ==> IsKnownString(d.branches[i]))
    && (forall i :: 0 <= i < |d.channels| ==> IsKnownString(d.channels[i]))
    && forall i :: 0 <= i < |d.destinations| ==>
         && IsKnownString(d.destinations[i].targetURL)
         && IsKnownString(d.destinations[i].httpBasicAuth)
         && IsKnownString(d.destinations[i].httpBasicPassword)
         && forall j :: 0 <= j < |d.destinations[i].customHeaders| ==>
              IsKnownString(d.destinations[i].customHeaders[j].name)
              && IsKnownString(d.destinations[i].customHeaders[j].value)
  }

  /**
   * When the API stores a plan whose sent values are known as sent, the state
   * written back is the plan, except for the UID and the disabled flag the
   * API chose, whatever the plan held for those two.
   * Lists here cannot be null, so a plan with a null branches or channels
   * list (written back as an empty list) is outside this statement.
   */
  lemma WebhookStateMatchesPlan(plan: WebhookData, uid: string, disabled: bool)
    requires AllKnown(plan)
    ensures var input := WebhookInputOf(plan);
      WebhookDataOf(WebHook(uid, input.name, input.branches, input.channels, input.retryPolicy,
                            input.concisePayload, disabled, input.destinations))
      == plan.(uid := KnownString(uid), disabled := KnownBool(disabled))
  {
    var input := WebhookInputOf(plan);
    var d := WebhookDataOf(WebHook(uid, input.name, input.branches, input.channels, input.retryPolicy,
                                   input.concisePayload, disabled, input.destinations));
    assert d.branches == plan.branches;
    assert d.channels == plan.channels;
    forall i | 0 <= i < |plan.destinations|
      ensures d.destinations[i] == plan.destinations[i]
    {
      var p := plan.destinations[i];
      assert d.destinations[i].customHeaders == p.customHeaders;
    }
  }

  /**
   * The optional flags come back known: after the API stores a plan as sent,
   * the state's concise-payload flag is the known plan value, so a plan that
   * left it null differs from the state written back.
   */
  lemma WebhookFlagsComeBackKnown(plan: WebhookData, uid: string, disabled: bool)
    ensures var input := WebhookInputOf(plan);
      var d := WebhookDataOf(WebHook(uid, input.name, input.branches, input.channels, input.retryPolicy,
                                     input.concisePayload, disabled, input.destinations));
      && d.concisePayload == KnownBool(plan.concisePayload.value)
      && IsKnownBool(d.disabled)
      && (plan.concisePayload.isNull ==> d.concisePayload != plan.concisePayload)
  {
  }
}
