/**
 Ordered validation: a list of checks run front to back, where the first
 check that fails decides the outcome. This is the reference against which
 the registry's hand-written chains of guards are compared.
 */
module Checks {
  import opened Errors

  /** The position of the first failed check in the verdicts `passed`, if any. */
  function FirstFailing(passed: seq<bool>): (r: Option<nat>)
    ensures r.Some? ==> r.value < |passed| && !passed[r.value]
    ensures r.Some? ==> forall j :: 0 <= j < r.value ==> passed[j]
    ensures r.None? <==> forall j :: 0 <= j < |passed| ==> passed[j]
    decreases |passed|
  {
    if |passed| == 0 then None
    else if !passed[0] then Some(0)
    else
      match FirstFailing(passed[1..])
      case None => None
      case Some(k) => Some(k + 1)
  }

  /** A failed check preceded only by passed ones is the first failure. */
  lemma FirstFailingAt(passed: seq<bool>, k: nat)
    requires k < |passed| && !passed[k]
    requires forall j :: 0 <= j < k ==> passed[j]
    ensures FirstFailing(passed) == Some(k)
  {
  }
}
