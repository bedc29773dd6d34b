/** BaseValidator (validator.go) and the first-offender search shared by the
    per-type validators. Validation takes only a description and changes
    nothing, so it is a function. */
module Validator {
  import opened Wrappers
  import opened StateDescriptions
  import opened Errors

  /** `BaseValidator.Validate`: an empty RequiredStates is reported before a
      "waiting" entry; anything else passes. */
  function BaseValidate(d: StateDescription): (r: Option<ValidationError>)
    ensures |d.requiredStates| == 0 ==> r == Some(ErrNoRequiredStates(d))
    ensures |d.requiredStates| > 0 && ResourceWaiting in d.requiredStates ==> r == Some(ErrWaitingStateReserved(d))
    ensures r == None <==> |d.requiredStates| > 0 && ResourceWaiting !in d.requiredStates
  {
    if |d.requiredStates| == 0 then Some(ErrNoRequiredStates(d))
    else if ResourceWaiting in d.requiredStates then Some(ErrWaitingStateReserved(d))
    else None
  }

  /** The base verdict depends on RequiredStates alone: two descriptions that
      differ only in type, namespace or selector fail with the same message,
      each carrying its own description. */
  lemma BaseValidateOnlyReadsRequiredStates(d1: StateDescription, d2: StateDescription)
    requires d1.requiredStates == d2.requiredStates
    ensures BaseValidate(d1).None? <==> BaseValidate(d2).None?
    ensures BaseValidate(d1).Some? ==>
      BaseValidate(d1).value.message == BaseValidate(d2).value.message &&
      BaseValidate(d1).value.description == d1 && BaseValidate(d2).value.description == d2
  {
  }

  /** The loop `for _, s := range states { if !Contains(permitted, s) ...}`:
      the first entry, in list order, that is not permitted. */
  function FirstNotPermitted(states: seq<ResourceState>, permitted: seq<ResourceState>): (r: Option<ResourceState>)
    ensures r == None <==> forall i :: 0 <= i < |states| ==> states[i] in permitted
    ensures r.Some? ==> exists i :: 0 <= i < |states| && states[i] == r.value && FirstOutside(states, permitted, i)
  {
    if states == [] then None
    else if states[0] !in permitted then
      assert FirstOutside(states, permitted, 0);
      Some(states[0])
    else
      var r := FirstNotPermitted(states[1..], permitted);
      if r.Some? then
        var i :| 0 <= i < |states[1..]| && states[1..][i] == r.value && FirstOutside(states[1..], permitted, i);
        assert FirstOutside(states, permitted, i + 1);
        r
      else
        r
  }

  /** `states[i]` is not permitted and every entry before it is. */
  predicate FirstOutside(states: seq<ResourceState>, permitted: seq<ResourceState>, i: int)
    requires 0 <= i < |states|
  {
    states[i] !in permitted && forall j :: 0 <= j < i ==> states[j] in permitted
  }
}
