/** ValidationError and its three constructors (errors.go). */
module Errors {
  import opened StateDescriptions

  /** The description that failed validation and why. */
  datatype ValidationError = ValidationError(description: StateDescription, message: string)

  const NoRequiredStatesMessage: string := "no \"requiredStates\" provded for resource"
  const WaitingStateReservedMessage: string := "\"waiting\" state is reserved for internal use"

  /** `Error()`: the message, ": ", then the `%v` rendering of the description. */
  function ErrorText(e: ValidationError): (s: string)
    ensures |s| == |e.message| + 2 + |Render(e.description)|
    ensures s[..|e.message|] == e.message
    ensures s[|e.message|..|e.message| + 2] == ": "
    ensures s[|e.message| + 2..] == Render(e.description)
  {
    e.message + ": " + Render(e.description)
  }

  function ErrNoRequiredStates(d: StateDescription): (e: ValidationError)
    ensures e.description == d
    ensures e.message == NoRequiredStatesMessage
  {
    ValidationError(d, NoRequiredStatesMessage)
  }

  function ErrWaitingStateReserved(d: StateDescription): (e: ValidationError)
    ensures e.description == d
    ensures e.message == WaitingStateReservedMessage
  {
    ValidationError(d, WaitingStateReservedMessage)
  }

  /** The message quotes the offending state first and the description's
      resource type last. */
  function ErrStateNotValidForResourceType(d: StateDescription, state: ResourceState): (e: ValidationError)
    ensures e.description == d
    ensures |e.message| == |state| + |d.resourceType| + 42
    ensures e.message[1..|state| + 1] == state
    ensures e.message[|e.message| - |d.resourceType| - 1..|e.message| - 1] == d.resourceType
  {
    ValidationError(d, "\"" + state + "\" state is not valid for resource type \"" + d.resourceType + "\"")
  }

  /** The three kinds of validation error can always be told apart by their
      message: the two fixed messages begin differently, and the
      per-type message is the only one ending in a quote. */
  lemma ErrorKindsDistinct(d1: StateDescription, d2: StateDescription, d3: StateDescription, state: ResourceState)
    ensures ErrNoRequiredStates(d1).message != ErrWaitingStateReserved(d2).message
    ensures ErrNoRequiredStates(d1).message != ErrStateNotValidForResourceType(d3, state).message
    ensures ErrWaitingStateReserved(d2).message != ErrStateNotValidForResourceType(d3, state).message
  {
    var m := ErrStateNotValidForResourceType(d3, state).message;
    assert m[|m| - 1] == '"';
    assert NoRequiredStatesMessage[0] != WaitingStateReservedMessage[0];
    assert NoRequiredStatesMessage[|NoRequiredStatesMessage| - 1] != '"';
    assert WaitingStateReservedMessage[|WaitingStateReservedMessage| - 1] != '"';
  }
}
