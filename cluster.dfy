/** What the matchers receive from the cluster: resource snapshots, watch
    events and transport errors. The client calls themselves (List, Watch,
    ResultChan, Stop) are not modelled; their results are inputs. */
module Cluster {
  import opened Wrappers

  /** One status condition: its type and its status ("True", "False", "Unknown"). */
  datatype Condition = Condition(conditionType: string, status: string)

  /** The fields of a Pod or a Job that the state extractors read. `active`
      is the Job's count of running pods; `phase` is the Pod's phase. */
  datatype Snapshot = Snapshot(name: string, active: int, phase: string, conditions: seq<Condition>)

  /** A watch event. An Error event carries a status object, not a resource. */
  datatype Event = Added(resource: Snapshot) | Modified(resource: Snapshot) | Deleted(resource: Snapshot) | Error

  /** An error returned by the List or Watch call. */
  datatype TransportError = TransportError(message: string)

  /** The outcome of a List call and of opening a Watch. */
  type ListResult = Result<seq<Snapshot>, TransportError>
  type WatchResult = Result<seq<Event>, TransportError>

  const ConditionTrue: string := "True"
  const JobComplete: string := "Complete"
  const JobFailed: string := "Failed"
  const PodReady: string := "Ready"
  const PodSucceeded: string := "Succeeded"
  const PodFailed: string := "Failed"
}
