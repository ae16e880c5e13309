/** The status lines the SDK's allowance and intent hooks produce from a
    response `{ status, data }`. */
module Hooks {
  import opened Js

  /** The fields of a response's `data` that the handlers read. */
  datatype HookData = HookData(
    transactionHash: Option<string>, message: Option<string>, intentId: Option<string>)

  datatype HookResponse = HookResponse(status: string, data: HookData)

  predicate StartsWith(s: string, prefix: string) {
    |prefix| <= |s| && s[..|prefix|] == prefix
  }

  /** Two strings that differ at position `i`, so neither starts the other. */
  predicate ClashAt(p: string, q: string, i: nat) {
    i < |p| && i < |q| && p[i] != q[i]
  }

  /** A line built as `p + x` starts with a candidate prefix `q` that is `p`
      or clashes with `p` exactly when `q` is `p`. */
  lemma PrefixDecides(p: string, x: string, q: string, i: nat)
    requires p == q || ClashAt(p, q, i)
    ensures StartsWith(p + x, q) <==> p == q
  {
    if p == q {
      assert (p + x)[..|p|] == p;
    } else {
      if |q| <= |p + x| {
        assert (p + x)[..|q|][i] == p[i];
      }
    }
  }

  const AllowanceSuccessPrefix := "Allowance set successfully: "
  const AllowanceFailurePrefix := "Allowance failed: "
  const AllowanceOtherPrefix := "Allowance status: "

  /** The allowance hook's line opens with one prefix per case. */
  function AllowancePrefix(status: string): (p: string)
    ensures p == AllowanceSuccessPrefix || p == AllowanceFailurePrefix || p == AllowanceOtherPrefix
  {
    if status == "success" then AllowanceSuccessPrefix
    else if status == "error" then AllowanceFailurePrefix
    else AllowanceOtherPrefix
  }

  /** The allowance hook's status line. */
  function AllowanceStatusText(r: HookResponse): (text: string)
    ensures r.status == "success" ==>
      text == AllowanceSuccessPrefix + OrElse(r.data.transactionHash, "Confirmed")
    ensures r.status == "error" ==>
      text == AllowanceFailurePrefix + OrElse(r.data.message, "Unknown error")
    ensures r.status != "success" && r.status != "error" ==>
      text == AllowanceOtherPrefix + r.status
  {
    AllowancePrefix(r.status) +
      if r.status == "success" then OrElse(r.data.transactionHash, "Confirmed")
      else if r.status == "error" then OrElse(r.data.message, "Unknown error")
      else r.status
  }

  /** The allowance line tells the three cases apart by its prefix, shows any
      other status verbatim, and never leaves the success or failure detail
      empty. */
  lemma AllowanceStatusClassified(r: HookResponse)
    ensures StartsWith(AllowanceStatusText(r), AllowanceSuccessPrefix) <==> r.status == "success"
    ensures StartsWith(AllowanceStatusText(r), AllowanceFailurePrefix) <==> r.status == "error"
    ensures StartsWith(AllowanceStatusText(r), AllowanceOtherPrefix) <==>
      r.status != "success" && r.status != "error"
    ensures r.status != "success" && r.status != "error" ==>
      AllowanceStatusText(r)[|AllowanceOtherPrefix|..] == r.status
    ensures r.status == "success" || r.status == "error" ==>
      |AllowanceStatusText(r)| > |AllowancePrefix(r.status)|
  {
    var p := AllowancePrefix(r.status);
    var x := AllowanceStatusText(r)[|p|..];
    assert AllowanceStatusText(r) == p + x;
    PrefixDecides(p, x, AllowanceSuccessPrefix, if p == AllowanceFailurePrefix then 10 else 11);
    PrefixDecides(p, x, AllowanceFailurePrefix, 10);
    PrefixDecides(p, x, AllowanceOtherPrefix, if p == AllowanceFailurePrefix then 10 else 11);
  }

  const IntentCreatedPrefix := "Intent created: "
  const IntentProcessedPrefix := "Intent processed: "
  const IntentCompletedPrefix := "Intent completed: "
  const IntentFailedPrefix := "Intent failed: "
  const IntentOtherPrefix := "Intent status: "

  /** The statuses the intent hook gives a line of their own. */
  predicate KnownIntentStatus(status: string) {
    status == "created" || status == "processed" || status == "completed" || status == "error"
  }

  /** The intent hook's line opens with one prefix per case. */
  function IntentPrefix(status: string): (p: string)
    ensures p == IntentCreatedPrefix || p == IntentProcessedPrefix || p == IntentCompletedPrefix
         || p == IntentFailedPrefix || p == IntentOtherPrefix
  {
    if status == "created" then IntentCreatedPrefix
    else if status == "processed" then IntentProcessedPrefix
    else if status == "completed" then IntentCompletedPrefix
    else if status == "error" then IntentFailedPrefix
    else IntentOtherPrefix
  }

  /** The intent hook's status line. */
  function IntentStatusText(r: HookResponse): (text: string)
    ensures r.status == "created" ==> text == IntentCreatedPrefix + OrElse(r.data.intentId, "Pending")
    ensures r.status == "processed" ==> text == IntentProcessedPrefix + OrElse(r.data.intentId, "In progress")
    ensures r.status == "completed" ==>
      text == IntentCompletedPrefix + OrElse(r.data.transactionHash, "Confirmed")
    ensures r.status == "error" ==> text == IntentFailedPrefix + OrElse(r.data.message, "Unknown error")
    ensures !KnownIntentStatus(r.status) ==> text == IntentOtherPrefix + r.status
  {
    IntentPrefix(r.status) +
      if r.status == "created" then OrElse(r.data.intentId, "Pending")
      else if r.status == "processed" then OrElse(r.data.intentId, "In progress")
      else if r.status == "completed" then OrElse(r.data.transactionHash, "Confirmed")
      else if r.status == "error" then OrElse(r.data.message, "Unknown error")
      else r.status
  }

  /** The position at which two distinct intent prefixes first differ. */
  function IntentClashIndex(p: string, q: string): nat {
    if {p, q} == {IntentCreatedPrefix, IntentCompletedPrefix} then 8 else 7
  }

  /** The intent line tells the five cases apart by its prefix, shows any
      other status verbatim, and never leaves a recognised status's detail
      empty. */
  lemma IntentStatusClassified(r: HookResponse)
    ensures StartsWith(IntentStatusText(r), IntentCreatedPrefix) <==> r.status == "created"
    ensures StartsWith(IntentStatusText(r), IntentProcessedPrefix) <==> r.status == "processed"
    ensures StartsWith(IntentStatusText(r), IntentCompletedPrefix) <==> r.status == "completed"
    ensures StartsWith(IntentStatusText(r), IntentFailedPrefix) <==> r.status == "error"
    ensures StartsWith(IntentStatusText(r), IntentOtherPrefix) <==> !KnownIntentStatus(r.status)
    ensures !KnownIntentStatus(r.status) ==> IntentStatusText(r)[|IntentOtherPrefix|..] == r.status
    ensures KnownIntentStatus(r.status) ==> |IntentStatusText(r)| > |IntentPrefix(r.status)|
  {
    var p := IntentPrefix(r.status);
    var x := IntentStatusText(r)[|p|..];
    assert IntentStatusText(r) == p + x;
    PrefixDecides(p, x, IntentCreatedPrefix, IntentClashIndex(p, IntentCreatedPrefix));
    PrefixDecides(p, x, IntentProcessedPrefix, IntentClashIndex(p, IntentProcessedPrefix));
    PrefixDecides(p, x, IntentCompletedPrefix, IntentClashIndex(p, IntentCompletedPrefix));
    PrefixDecides(p, x, IntentFailedPrefix, IntentClashIndex(p, IntentFailedPrefix));
    PrefixDecides(p, x, IntentOtherPrefix, IntentClashIndex(p, IntentOtherPrefix));
  }
}
