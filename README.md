# kubewait — a Dafny model of the state-tracking and validation core

kubewait blocks until a declared set of Kubernetes Pods or Jobs reaches a
required state. Each requirement is a *state description*: a resource type
(`Pod` or `Job`), a namespace, a label selector and an ordered list of
required states. This project models the part of kubewait that decides
whether that has happened:

- the **state extractors** that map a Pod or Job snapshot to one resource
  state (`Jobs.JobResourceState`, `Pods.PodResourceState`);
- the **validators** (`Validator.BaseValidate`, `Jobs.JobValidate`,
  `Pods.PodValidate`) and the three kinds of `ValidationError` (`Errors`);
- the **matchers** `Jobs.JobMatcher` and `Pods.PodMatcher`, classes that own
  a state map, a watch (opened / stopped) and a done channel (closed or not).
  `Start` loads the initial list into the map, returns if the map already
  matches, else opens the watch and folds its events into the map until the
  first match; `Stop` stops the watch and closes done;
- the **orchestrator** `Wait.Wait`: pick a validator per description,
  validate all of them first, then create and start one matcher per
  description.

The cluster is abstracted away: the List result and the Watch result (an
error, or the finite sequence of events the watch delivers) are inputs
(`Cluster`). Each matcher method is proved against a pure specification in
`Tracking` (`Load`, `Watch`, `StartError`); `Replay` describes the map after
the events the watch loop took (`WatchStopsAtFirst`). The properties of
that specification are proved as lemmas. The Job and the Pod matcher plug
different per-event effects into the same `Watch` loop: a Job keeps a deleted
resource in its map and ignores Error events; a Pod forgets a deleted
resource and stops at the first Error event.

The match predicate `StateDescriptions.MatchStateMap` is called by both
matchers, but its definition is not part of the modelled sources. The only
behaviour they state is that a selection with no resources does not match
(state_description.go:9-10). The model ASSUMES the natural reading: the map is
non-empty and every tracked state is one of the required states. The
matcher contracts mention `MatchStateMap` only by calling it, so they hold
for any definition. The lemmas in `StateDescriptions` depend on it, and so
do the three scenario lemmas `Jobs.JobCompleteScenario`,
`Pods.PendingThenReadyScenario` and `Pods.DeletePendingScenario`, which
evaluate it on concrete maps.

The model keeps these behaviours of the code:

- when the initial snapshot already matches, `Start` returns without
  closing done (job.go:82-84, pod.go:86-89);
- a Job matcher ignores Error events and keeps going (job.go:123-124); a Pod
  matcher returns nil at once, without an error (pod.go:127-129);
- a Job matcher keeps deleted jobs in its map (job.go:115-122);
- a watch that ends without a match makes `Start` return nil, and `wait`
  then returns normally (job.go:136, wait.go:36).

## Model

| member | source | states |
|---|---|---|
| StateDescriptions.StatesDistinct | state_description.go:25-32 | the six state tags Ready, Succeeded, Failed, waiting, Complete, Running are pairwise distinct |
| StateDescriptions.TypesDistinct | state_description.go:18-23 | there are exactly two resource types, Pod and Job, and they differ |
| StateDescriptions.EmptyMapNeverMatches | state_description.go:9-10 | if no resources are found the match does not succeed: the predicate is false on an empty map, for any required states |
| StateDescriptions.OneOutsiderBlocks | state_description.go:9-10 | one tracked resource outside the required states makes the predicate false, whatever the others are |
| StateDescriptions.UpsertEffect | pod.go:102-117 | overwriting an entry with a non-required state makes the map unmatched; with a required state, a matching map stays matching |
| StateDescriptions.RemoveOnlyOutsider | pod.go:118-126 | deleting the only non-conforming resource while another remains makes the map match |
| StateDescriptions.MatchStateMap | state_description.go:9-10 | the assumed match predicate: the map is non-empty and every tracked state is one of the required states |
| StateDescriptions.Render | errors.go:11 | the `%v` rendering of a description: its four fields in declaration order, space-separated, between braces |
| StateDescriptions.RenderStates | errors.go:11 | the `%v` rendering of the required-states slice: the states space-separated between brackets |
| StateDescriptions.JoinSpaced | errors.go:11 | the words of a slice joined by single spaces, as `%v` prints a slice's elements |
| Errors.ErrorText | errors.go:10-12 | `Error()` is the message, then ": ", then the `%v` rendering of the description |
| Errors.ErrNoRequiredStates | errors.go:14-19 | carries exactly the given description and the fixed message, typo "provded" included |
| Errors.ErrWaitingStateReserved | errors.go:21-26 | carries exactly the given description and the fixed "reserved for internal use" message |
| Errors.ErrStateNotValidForResourceType | errors.go:28-33 | carries the given description; the message quotes the offending state first and the description's type last |
| Errors.ErrorKindsDistinct | errors.go:14-33 | the three constructors never produce the same message, whatever the descriptions and the state |
| Validator.BaseValidate | validator.go:16-26 | empty RequiredStates gives NoRequiredStates; otherwise a "waiting" entry gives WaitingStateReserved; it passes exactly when the list is non-empty and has no "waiting" |
| Validator.BaseValidateOnlyReadsRequiredStates | validator.go:16-26 | the verdict and message depend only on RequiredStates, not on type, namespace or selector; the error carries its own description |
| Validator.FirstNotPermitted | job.go:34-38 | finds nothing iff every required state is permitted; otherwise returns the first offender in list order |
| Tracking.Load | job.go:72-80 | the list loop: each listed resource, in order, overwrites its name's entry with its extracted state |
| Tracking.Replay | pod.go:96-141 | every event applied to the map in delivery order, with no early stop |
| Tracking.Watch | job.go:92-136 | the watch loop: it takes no more events than delivered, stops as Exhausted only after taking all of them, reports Matched only when the predicate holds of its map, and reports an Error stop only when Errors end the loop and the last event taken is an Error |
| Tracking.StartError | job.go:67-89 | what Start returns: the List error when the List fails; nil when the loaded snapshot already matches, even if the Watch would fail; the Watch error when the snapshot does not match and the Watch fails; nil when both succeed; never any other error |
| Tracking.LoadDomain | job.go:72-80 | after the list loop the tracked names are the old ones plus every listed name |
| Tracking.LoadKeepsUnlisted | pod.go:75-83 | a tracked name that is not listed keeps its state |
| Tracking.LoadLastWins | job.go:72-80 | a listed name holds the state of its last listing: later duplicates overwrite earlier ones |
| Tracking.WatchStep | job.go:96-134 | proof helper for the two watch-loop methods, one loop turn unrolled: apply the event, stop with that map on a match, else continue with the rest of the stream |
| Tracking.WatchStopsAtFirst | job.go:92-136 | the loop stops at the first event that matches (or, for Pods, is an Error), or at the end of the stream; its map is the in-order replay of the events it took, and a match is reported only when the predicate holds |
| Jobs.JobValidate | job.go:29-40 | base error first; passes iff non-empty and every state is Complete, Failed or Running; otherwise reports the first other state |
| Jobs.JobValidNeverWaiting | job.go:15 | "waiting" is not a permitted Job state, so no Job description that passes asks for it |
| Jobs.ScanJobConditions | job.go:158-170 | finds nothing iff no condition is Complete=True or Failed=True; otherwise the state of the first such condition |
| Jobs.JobResourceState | job.go:157-176 | the first Complete=True or Failed=True condition decides; with neither, Active != 0 (negative included) is Running and Active = 0 is waiting |
| Jobs.JobApplyEvent | job.go:96-125 | Added and Modified overwrite the entry with the extracted state; Deleted and Error leave the map unchanged |
| Jobs.JobWatchKeepsNames | job.go:115-122 | a Job matcher never drops a tracked name during the watch |
| Jobs.JobWatchIgnoresErrors | job.go:123-124 | the Job watch loop never stops because of an Error event |
| Jobs.JobCompleteScenario | jobs_test.go:22-105 | job-1 with Active=1 and Complete/Failed False is Running and does not satisfy {Complete}; re-added then Modified to Complete=True, the watch matches after two events |
| Jobs.JobMatcher.constructor | job.go:46-54 | a new matcher has an empty map, no watch and done open |
| Jobs.JobMatcher.CloseDone | job.go:128-132 | done may be closed only while open, so it is closed at most once |
| Jobs.JobMatcher.Start | job.go:56-137 | returns StartError of the old map; List error: returned, nothing touched; else the snapshot is stored; if it matches, nil with no watch opened and done not closed; Watch error: returned after the snapshot is stored; else the map is the watch loop's map, done is closed iff it matched, and nil is returned |
| Jobs.JobMatcher.StoreSnapshot | job.go:72-80 | the map becomes the old map loaded with the listed jobs |
| Jobs.JobMatcher.ConsumeEvents | job.go:92-135 | the map and done are those of the Job watch loop over the events |
| Jobs.JobMatcher.ApplyEvent | job.go:96-125 | the map after one event is JobApplyEvent of the map before |
| Jobs.JobMatcher.Stop | job.go:143-155 | stops the watch only if one was opened, always leaves done closed, returns nil, and changes nothing else; repeated calls are harmless |
| Pods.PodValidate | pod.go:32-44 | base error first; passes iff non-empty and every state is Ready, Succeeded or Failed; otherwise reports the first other state |
| Pods.PodValidExcludes | pod.go:16 | a Pod description that passes asks for neither "waiting" nor the Job-only Running and Complete |
| Pods.HasReadyCondition | pod.go:165-169 | true iff some condition, wherever it stands, is Ready=True |
| Pods.PodResourceState | pod.go:163-178 | Ready iff some condition is Ready=True; otherwise phase Succeeded or Failed gives that state and every other phase gives waiting |
| Pods.PodApplyEvent | pod.go:101-130 | Added and Modified overwrite the entry; Deleted removes the name (no-op if absent) and keeps the rest; Error leaves the map |
| Pods.PodWatchStopsOnError | pod.go:127-129 | an Error event ends the Pod loop at once: nothing applied, predicate not re-checked, no match |
| Pods.PodReplayKeepsAbsent | pod.go:118-126 | an untracked pod stays untracked while no event adds it |
| Pods.PodReplayForgetsDeleted | pod.go:118-126 | a deleted pod is untracked afterwards unless a later Added or Modified brings it back |
| Pods.PendingThenReadyScenario | pod.go:75-117 | pod-1 not Ready in phase Pending is waiting and does not satisfy {Ready}; a Modified event with Ready=True makes the watch match |
| Pods.DeletePendingScenario | pod.go:118-140 | with one Ready and one waiting pod, deleting the waiting one makes the watch match |
| Pods.PodMatcher.constructor | pod.go:50-57 | a new matcher has an empty map, no watch and done open |
| Pods.PodMatcher.CloseDone | pod.go:134-138 | done may be closed only while open, so it is closed at most once |
| Pods.PodMatcher.Start | pod.go:59-143 | returns StartError of the old map and, branch by branch, the error and state as for Jobs, with the Pod watch loop: Deleted forgets the pod and an Error event returns nil at once without closing done |
| Pods.PodMatcher.StoreSnapshot | pod.go:75-83 | the map becomes the old map loaded with the listed pods |
| Pods.PodMatcher.ConsumeEvents | pod.go:96-141 | the map and done are those of the Pod watch loop over the events |
| Pods.PodMatcher.ApplyEvent | pod.go:101-130 | the map after one event is PodApplyEvent of the map before, and the loop must stop iff the event is an Error |
| Pods.PodMatcher.Stop | pod.go:149-161 | stops the watch only if one was opened, always leaves done closed, returns nil, and changes nothing else |
| Wait.GetValidator | wait.go:39-47 | succeeds exactly for Pod and Job, with the validator of that type |
| Wait.GetMatcher | wait.go:49-57 | succeeds exactly for Pod and Job, with a fresh matcher of that type for the description: empty map, no watch opened or stopped, done open |
| Wait.Validate | wait.go:16 | the validator call: any error carries the description it rejects, and a description that passes names a state and never "waiting" |
| Wait.StartErrorFor | wait.go:30 | what Start returns for a fresh matcher of the description's type: the List error when the List fails, otherwise only the List's or the Watch's error; None for an unknown type, a branch never reached because RunMatchers panics first |
| Wait.ValidationPanicFor | wait.go:12-18 | a description passes the first loop only if its type is known |
| Wait.AcceptedIff | wait.go:11-19 | a description passes the first loop iff its type is known, it names a state, and every state is permitted for its type |
| Wait.ValidationPanicFindsFirst | wait.go:11-19 | for any per-description check, the first loop passes iff the check accepts every description; otherwise it panics with the reason of the first one it rejects |
| Wait.InvalidDescriptionStartsNothing | wait.go:11-22 | if any description is rejected, no matcher is started and the run panics with the first rejected description's reason |
| Wait.RunMatchersReturned | wait.go:22-36 | when the second loop returns normally, every matcher was started, every type was known and no Start failed |
| Wait.RunMatchersPanicked | wait.go:22-36 | with all types known, a panic of the second loop carries the error of the last matcher started, and every earlier Start succeeded |
| Wait.AcceptedRunsEveryMatcher | wait.go:22-36 | with all types known, the second loop returns iff no Start fails, and then it has started one matcher per description |
| Wait.ValidationPanic | wait.go:11-19 | the first loop from a given description on: the reason of the first description the per-description check rejects, or none |
| Wait.RunMatchers | wait.go:22-36 | the second loop from a given description on: it starts at most one matcher per remaining description, and a normal return means it started all of them |
| Wait.WaitSpec | wait.go:10-37 | validate all, then start all: never more matchers than descriptions, and none at all when validation panics |
| Wait.Wait | wait.go:10-37 | the outcome and the number of matchers started are those of validate-all-then-start-all |

## Left out

- Cluster access: the List, Watch, ResultChan and watcher Stop calls (job.go:67,86,92,152; pod.go:71,91,96,158) are replaced by input results and the `watcherOpened`/`watcherStopped` flags. A watch is a finite sequence of events; a stream that never ends is not modelled.
- Concurrency: the goroutines and the WaitGroup of `wait` (wait.go:21-36) are replaced by starting matchers one after another in description order, so "the first Start error" means the first in that order. A race between Stop and an in-flight Start is not modelled.
- Done: the done channel is the `doneClosed` field; `Done()` (job.go:139-141, pod.go:145-147) only hands out the channel and is not a separate member.
- A watch-open failure sets the watcher to the nil the client returns, modelled as `watcherOpened := false`.
- Logging, the unused context parameters, and Go's type assertions on event objects (a wrong object type would panic).
- Watch event kinds other than Added, Modified, Deleted and Error.
- util.go (environment lookup and JSON decoding) and main.go (in-cluster configuration) are I/O and are not part of this model; pod_test.go uses a field the description record does not have and is not part of this model.
- StateDescriptions.MatchStateMap: its definition is an assumption (see above), not modelled from source.
