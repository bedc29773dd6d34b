/** Resource states, resource types, the StateDescription record and the
    match predicate over a tracked state map (state_description.go). */
module StateDescriptions {

  /** A ResourceState is a string in Go, so a description read from JSON may
      name any state at all; the validators reject unknown ones. */
  type ResourceState = string

  /** Likewise a ResourceType is any string; only two are handled. */
  type ResourceType = string

  const PodResource: ResourceType := "Pod"
  const JobResource: ResourceType := "Job"

  const ResourceReady: ResourceState := "Ready"
  const ResourceSucceeded: ResourceState := "Succeeded"
  const ResourceFailed: ResourceState := "Failed"
  /** The only unexported state: "not yet seen in a qualifying state". */
  const ResourceWaiting: ResourceState := "waiting"
  const ResourceComplete: ResourceState := "Complete"
  const ResourceRunning: ResourceState := "Running"

  const AllStates: seq<ResourceState> :=
    [ResourceReady, ResourceSucceeded, ResourceFailed, ResourceWaiting, ResourceComplete, ResourceRunning]

  const ResourceTypes: seq<ResourceType> := [PodResource, JobResource]

  /** A requirement: the selection (type, namespace, label selector) and the
      ordered list of states that satisfy it (duplicates allowed). */
  datatype StateDescription = StateDescription(
    resourceType: ResourceType,
    labelSelector: string,
    requiredStates: seq<ResourceState>,
    namespace: string)

  /** Last observed state of each tracked resource, by name. */
  type StateMap = map<string, ResourceState>

  /** MatchStateMap is called by both matchers but its definition is not part
      of this model's sources. ASSUMPTION: the map matches when it is
      non-empty (an empty selection never matches) and every tracked resource
      is in one of the required states. */
  predicate MatchStateMap(m: StateMap, required: seq<ResourceState>) {
    |m| > 0 && forall name :: name in m ==> m[name] in required
  }

  /** The six state tags are pairwise distinct. */
  lemma StatesDistinct()
    ensures |AllStates| == 6
    ensures forall i, j :: 0 <= i < j < |AllStates| ==> AllStates[i] != AllStates[j]
  {
  }

  /** Exactly two resource types, and they differ. */
  lemma TypesDistinct()
    ensures |ResourceTypes| == 2 && ResourceTypes[0] != ResourceTypes[1]
  {
  }

  /** Nothing present is never a success. */
  lemma EmptyMapNeverMatches(required: seq<ResourceState>)
    ensures !MatchStateMap(map[], required)
  {
  }

  /** One non-conforming resource blocks the match, whatever the others are. */
  lemma OneOutsiderBlocks(m: StateMap, required: seq<ResourceState>, name: string)
    requires name in m && m[name] !in required
    ensures !MatchStateMap(m, required)
  {
  }

  /** Upserting a resource in a non-required state makes the map unmatched;
      upserting one in a required state keeps a matching map matching. */
  lemma UpsertEffect(m: StateMap, required: seq<ResourceState>, name: string, s: ResourceState)
    ensures s !in required ==> !MatchStateMap(m[name := s], required)
    ensures s in required && MatchStateMap(m, required) ==> MatchStateMap(m[name := s], required)
  {
    if s !in required {
      assert name in m[name := s];
    }
  }

  /** Removing the only non-conforming resource from a map that still holds
      another resource makes it match. */
  lemma RemoveOnlyOutsider(m: StateMap, required: seq<ResourceState>, name: string)
    requires name in m
    requires exists other :: other in m && other != name
    requires forall n :: n in m && n != name ==> m[n] in required
    ensures MatchStateMap(m - {name}, required)
  {
    var other :| other in m && other != name;
    assert other in m - {name};
  }

  /** Go's `%v` rendering of a StateDescription: the fields in declaration
      order (Type, LabelSelector, RequiredStates, Namespace), space separated,
      in braces, the slice in brackets. */
  function Render(d: StateDescription): (s: string)
    ensures |s| >= 2 && s[0] == '{' && s[|s| - 1] == '}'
  {
    "{" + d.resourceType + " " + d.labelSelector + " " + RenderStates(d.requiredStates) + " " + d.namespace + "}"
  }

  /** A slice of strings as `%v` prints it: `[a b c]`. */
  function RenderStates(states: seq<ResourceState>): (s: string)
    ensures |s| >= 2 && s[0] == '[' && s[|s| - 1] == ']'
  {
    "[" + JoinSpaced(states) + "]"
  }

  function JoinSpaced(words: seq<string>): string {
    if words == [] then ""
    else if |words| == 1 then words[0]
    else words[0] + " " + JoinSpaced(words[1..])
  }
}
