/**
 * Reconciliation helpers: back-filling the branches of an API response, and
 * copying planned HTTP basic passwords onto webhook destinations.
 */
module Helpers {
  import opened Wrappers
  import opened Framework
  import opened Management
  import opened ResourceWebhook

  /**
   * An API response record as `processResponse` sees it: `branches` is None
   * when the record type has no `Branches` field at all, and otherwise the
   * field's value.
   */
  class Response {
    var branches: Option<seq<string>>

    constructor (branches: Option<seq<string>>)
      ensures this.branches == branches
    {
      this.branches := branches;
    }
  }

  const BranchesAttribute := "branches"
  const BranchesSummary := "Branches are not part of your plan."
  const BranchesDetail := "Branches are not part of your plan. Please contact support@contentstack.com to upgrade your plan."

  /** The warning raised when the API returned no branches. */
  function BranchesWarning(): (d: Diagnostic)
    ensures d.severity == Warning && d.attribute == Some(BranchesAttribute)
  {
    Diagnostic(Warning, BranchesSummary, BranchesDetail, Some(BranchesAttribute))
  }

  /**
   * `processResponse`: when the response record has a `Branches` field and
   * it is empty, the branches of the request record `input` are copied into
   * it and one warning is returned; otherwise nothing changes and nothing is
   * returned. `input` is None when the request record has no `Branches`
   * field; the source then fails (reflection panics) when it needs to copy,
   * so callers must not ask for that.
   */
  method ProcessResponse(resp: Response, input: Option<seq<string>>) returns (diags: seq<Diagnostic>)
    requires resp.branches == Some([]) ==> input.Some?
    modifies resp
    ensures old(resp.branches) == Some([]) ==> resp.branches == input && diags == [BranchesWarning()]
    ensures old(resp.branches) != Some([]) ==> resp.branches == old(resp.branches) && diags == []
    ensures |diags| <= 1 && !HasError(diags)
  {
    diags := [];
    if resp.branches.Some? {
      if |resp.branches.value| == 0 {
        resp.branches := input;
        diags := diags + [BranchesWarning()];
      }
    }
  }

  /** A planned destination matches on the values of its target URL and HTTP basic auth user. */
  predicate Matches(p: WebhookDestinationData, targetURL: string, httpBasicAuth: string) {
    p.targetURL.value == targetURL && p.httpBasicAuth.value == httpBasicAuth
  }

  /**
   * `WebhookDestinationSlice.FindByTargetURLAndHttpBasicAuth`, whose body is
   * not part of this model: the result is None exactly when no planned
   * destination matches, and otherwise one of the planned destinations that
   * matches. The body takes the first match; the postconditions of
   * CopyHttpBasicPasswords hold whichever match a lookup with this contract
   * returns.
   */
  function FindByTargetURLAndHttpBasicAuth(data: seq<WebhookDestinationData>, targetURL: string, httpBasicAuth: string)
    : (r: Option<WebhookDestinationData>)
    ensures r.None? <==> forall i :: 0 <= i < |data| ==> !Matches(data[i], targetURL, httpBasicAuth)
    ensures r.Some? ==> r.value in data && Matches(r.value, targetURL, httpBasicAuth)
    decreases |data|
  {
    if |data| == 0 then None
    else if Matches(data[0], targetURL, httpBasicAuth) then Some(data[0])
    else
      var r := FindByTargetURLAndHttpBasicAuth(data[1..], targetURL, httpBasicAuth);
      assert forall i :: 1 <= i < |data| ==> data[i] == data[1..][i - 1];
      r
  }

  predicate HasPlannedMatch(data: seq<WebhookDestinationData>, d: WebhookDestination) {
    FindByTargetURLAndHttpBasicAuth(data, d.targetURL, d.httpBasicAuth).Some?
  }

  /** `password` is the password of a planned destination with the given key. */
  ghost predicate PasswordFromPlan(data: seq<WebhookDestinationData>, targetURL: string, httpBasicAuth: string, password: string) {
    exists p :: p in data && Matches(p, targetURL, httpBasicAuth) && password == p.httpBasicPassword.value
  }

  /** The error text for a destination without a planned match. */
  function NotFoundInPlan(targetURL: string): string {
    "d " + targetURL + " not found in planned state"
  }

  /**
   * `copyHttpBasicPasswords`: each destination the API returned, in order,
   * with its HTTP basic password replaced by the one of the planned
   * destination with the same target URL and basic auth user. Fails, with no
   * destinations, naming the first destination that has no planned match.
   */
  method CopyHttpBasicPasswords(wd: seq<WebhookDestination>, data: seq<WebhookDestinationData>)
    returns (r: Result<seq<WebhookDestination>, string>)
    ensures r.Success? <==> forall i :: 0 <= i < |wd| ==> HasPlannedMatch(data, wd[i])
    ensures r.Success? ==> |r.value| == |wd| && forall i :: 0 <= i < |wd| ==>
      r.value[i] == wd[i].(httpBasicPassword :=
        FindByTargetURLAndHttpBasicAuth(data, wd[i].targetURL, wd[i].httpBasicAuth).value.httpBasicPassword.value)
    ensures r.Success? ==> forall i :: 0 <= i < |wd| ==>
      PasswordFromPlan(data, wd[i].targetURL, wd[i].httpBasicAuth, r.value[i].httpBasicPassword)
    ensures r.Failure? ==>
      exists k :: && 0 <= k < |wd| && !HasPlannedMatch(data, wd[k])
                  && (forall j :: 0 <= j < k ==> HasPlannedMatch(data, wd[j]))
                  && r.error == NotFoundInPlan(wd[k].targetURL)
  {
    var cd: seq<WebhookDestination> := [];
    for i := 0 to |wd|
      invariant |cd| == i
      invariant forall j :: 0 <= j < i ==> HasPlannedMatch(data, wd[j])
      invariant forall j :: 0 <= j < i ==>
        cd[j] == wd[j].(httpBasicPassword :=
          FindByTargetURLAndHttpBasicAuth(data, wd[j].targetURL, wd[j].httpBasicAuth).value.httpBasicPassword.value)
    {
      var d := wd[i];
      var planned := FindByTargetURLAndHttpBasicAuth(data, d.targetURL, d.httpBasicAuth);
      if planned.None? {
        return Failure(NotFoundInPlan(d.targetURL));
      }
      d := d.(httpBasicPassword := planned.value.httpBasicPassword.value);
      cd := cd + [d];
    }
    r := Success(cd);
    forall i | 0 <= i < |wd|
      ensures PasswordFromPlan(data, wd[i].targetURL, wd[i].httpBasicAuth, r.value[i].httpBasicPassword)
    {
      var p := FindByTargetURLAndHttpBasicAuth(data, wd[i].targetURL, wd[i].httpBasicAuth).value;
      assert p in data && Matches(p, wd[i].targetURL, wd[i].httpBasicAuth);
      assert r.value[i].httpBasicPassword == p.httpBasicPassword.value;
    }
  }
}
