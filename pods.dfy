/** Pods (pod.go): the permitted states, PodValidator, the Pod state
    extractor, the effect of one watch event, and PodMatcher. */
module Pods {
  import opened Wrappers
  import opened StateDescriptions
  import opened Errors
  import opened Validator
  import opened Cluster
  import opened Tracking

  const PodPermittedStates: seq<ResourceState> := [ResourceReady, ResourceSucceeded, ResourceFailed]

  /** `PodValidator.Validate`: the base error if any; otherwise the first
      required state that a Pod cannot be in; otherwise success. */
  function PodValidate(d: StateDescription): (r: Option<ValidationError>)
    ensures BaseValidate(d).Some? ==> r == BaseValidate(d)
    ensures r == None <==>
      |d.requiredStates| > 0 && forall i :: 0 <= i < |d.requiredStates| ==> d.requiredStates[i] in PodPermittedStates
    ensures BaseValidate(d).None? && r.Some? ==>
      exists i :: 0 <= i < |d.requiredStates| && FirstOutside(d.requiredStates, PodPermittedStates, i) &&
        r.value == ErrStateNotValidForResourceType(d, d.requiredStates[i])
  {
    match BaseValidate(d)
    case Some(e) => Some(e)
    case None =>
      match FirstNotPermitted(d.requiredStates, PodPermittedStates)
      case Some(s) => Some(ErrStateNotValidForResourceType(d, s))
      case None => None
  }

  /** A description that passes PodValidate never asks for "waiting", nor for
      the Job-only states Running and Complete. */
  lemma PodValidExcludes(d: StateDescription)
    requires PodValidate(d) == None
    ensures ResourceWaiting !in d.requiredStates
    ensures ResourceRunning !in d.requiredStates && ResourceComplete !in d.requiredStates
  {
  }

  /** A PodReady condition with status True. */
  predicate ReadyTrue(c: Condition) {
    c.conditionType == PodReady && c.status == ConditionTrue
  }

  /** The condition loop of getPodResourceState: is any condition
      Ready=True, wherever it stands? */
  function HasReadyCondition(cs: seq<Condition>): (r: bool)
    ensures r <==> exists i :: 0 <= i < |cs| && ReadyTrue(cs[i])
  {
    if cs == [] then false
    else if cs[0].conditionType == PodReady && cs[0].status == ConditionTrue then true
    else
      assert forall i :: 1 <= i < |cs| ==> cs[i] == cs[1..][i - 1];
      HasReadyCondition(cs[1..])
  }

  /** getPodResourceState: Ready=True wins before the phase is consulted;
      then phase Succeeded or Failed gives that state, and every other phase
      (Pending, Running, Unknown, ...) gives "waiting". */
  function PodResourceState(s: Snapshot): (r: ResourceState)
    ensures r in [ResourceReady, ResourceSucceeded, ResourceFailed, ResourceWaiting]
    ensures r == ResourceReady <==> exists i :: 0 <= i < |s.conditions| && ReadyTrue(s.conditions[i])
    ensures r == ResourceSucceeded <==> r != ResourceReady && s.phase == PodSucceeded
    ensures r == ResourceFailed <==> r != ResourceReady && s.phase == PodFailed
  {
    if HasReadyCondition(s.conditions) then ResourceReady
    else if s.phase == PodSucceeded then ResourceSucceeded
    else if s.phase == PodFailed then ResourceFailed
    else ResourceWaiting
  }

  /** One watch event on the Pod state map: Added and Modified overwrite the
      entry; Deleted removes it (a no-op for an unknown name); Error leaves
      the map alone (the loop ends on it, see PodMatcher.Start). */
  function PodApplyEvent(m: StateMap, e: Event): (r: StateMap)
    ensures e.Added? || e.Modified? ==> r == m[e.resource.name := PodResourceState(e.resource)]
    ensures e.Deleted? ==> r.Keys == m.Keys - {e.resource.name} && forall n :: n in r ==> r[n] == m[n]
    ensures e.Error? ==> r == m
  {
    match e
    case Added(pod) => m[pod.name := PodResourceState(pod)]
    case Modified(pod) => m[pod.name := PodResourceState(pod)]
    case Deleted(pod) => if pod.name in m then m - {pod.name} else m
    case Error => m
  }

  /** An Error event ends the Pod loop at once: nothing applied, no re-check. */
  lemma PodWatchStopsOnError(m: StateMap, events: seq<Event>, required: seq<ResourceState>)
    requires events != [] && events[0].Error?
    ensures Watch(m, events, required, PodApplyEvent, true) == WatchRun(m, ErrorEvent, 1)
  {
  }

  /** Event `e` puts the resource named `n` (back) into the map. */
  predicate Revives(e: Event, n: string) {
    (e.Added? || e.Modified?) && e.resource.name == n
  }

  /** An untracked pod stays untracked while no event adds it. */
  lemma {:induction false} PodReplayKeepsAbsent(m: StateMap, events: seq<Event>, n: string)
    requires n !in m
    requires forall j :: 0 <= j < |events| ==> !Revives(events[j], n)
    ensures n !in Replay(m, events, PodApplyEvent)
    decreases |events|
  {
    if events != [] {
      assert !Revives(events[0], n);
      PodReplayKeepsAbsent(PodApplyEvent(m, events[0]), events[1..], n);
    }
  }

  /** A deleted pod is no longer tracked, nor counted by the predicate,
      unless a later event adds it again. (A Job matcher keeps it: see
      JobWatchKeepsNames.) */
  lemma {:induction false} PodReplayForgetsDeleted(m: StateMap, events: seq<Event>, i: int)
    requires 0 <= i < |events| && events[i].Deleted?
    requires forall j :: i < j < |events| ==> !Revives(events[j], events[i].resource.name)
    ensures events[i].resource.name !in Replay(m, events, PodApplyEvent)
    decreases |events|
  {
    var n := events[i].resource.name;
    if i == 0 {
      PodReplayKeepsAbsent(PodApplyEvent(m, events[0]), events[1..], n);
    } else {
      PodReplayForgetsDeleted(PodApplyEvent(m, events[0]), events[1..], i - 1);
    }
  }

  /** The scenario "pod-1 not Ready, phase Pending; RequiredStates {Ready}":
      the snapshot does not match, and a Modified event with Ready=True
      matches. */
  lemma PendingThenReadyScenario()
    ensures var pending := Snapshot("pod-1", 0, "Pending", [Condition(PodReady, "False")]);
            var ready := Snapshot("pod-1", 0, "Running", [Condition(PodReady, ConditionTrue)]);
            var loaded := Load(map[], [pending], PodResourceState);
            && loaded == map["pod-1" := ResourceWaiting]
            && !MatchStateMap(loaded, [ResourceReady])
            && Watch(loaded, [Modified(ready)], [ResourceReady], PodApplyEvent, true)
               == WatchRun(map["pod-1" := ResourceReady], Matched, 1)
  {
    var pending := Snapshot("pod-1", 0, "Pending", [Condition(PodReady, "False")]);
    var ready := Snapshot("pod-1", 0, "Running", [Condition(PodReady, ConditionTrue)]);
    assert !ReadyTrue(pending.conditions[0]);
    assert PodResourceState(pending) == ResourceWaiting;
    assert ReadyTrue(ready.conditions[0]);
    assert Load(map[], [pending], PodResourceState) == map["pod-1" := ResourceWaiting] by {
      assert [pending][..0] == [];
    }
    assert map["pod-1" := ResourceWaiting]["pod-1"] !in [ResourceReady];
    assert [Modified(ready)][1..] == [];
    assert "pod-1" in map["pod-1" := ResourceReady];
  }

  /** The scenario "two pods, one Ready and one Pending; RequiredStates
      {Ready}": deleting the Pending pod makes the map match. */
  lemma DeletePendingScenario(readyPod: string, pendingPod: Snapshot)
    requires readyPod != pendingPod.name
    ensures var m := map[readyPod := ResourceReady, pendingPod.name := ResourceWaiting];
            Watch(m, [Deleted(pendingPod)], [ResourceReady], PodApplyEvent, true)
              == WatchRun(map[readyPod := ResourceReady], Matched, 1)
  {
    var m := map[readyPod := ResourceReady, pendingPod.name := ResourceWaiting];
    assert m - {pendingPod.name} == map[readyPod := ResourceReady];
    assert readyPod in map[readyPod := ResourceReady];
  }

  /** A PodMatcher: the state map it owns, whether a watch is open and has
      been stopped, and whether its done channel is closed. */
  class PodMatcher {
    const description: StateDescription
    var podState: StateMap
    var watcherOpened: bool
    var watcherStopped: bool
    var doneClosed: bool

    /** Only an opened watch can have been stopped. */
    ghost predicate Valid()
      reads this
    {
      watcherStopped ==> watcherOpened
    }

    /** NewPodMatcher: no watch, an empty map, done open. */
    constructor (description: StateDescription)
      ensures Valid()
      ensures this.description == description
      ensures podState == map[] && !watcherOpened && !watcherStopped && !doneClosed
    {
      this.description := description;
      podState := map[];
      watcherOpened, watcherStopped, doneClosed := false, false, false;
    }

    /** `close(done)`: closing a closed channel panics, so every caller must
        have checked it is still open. */
    method CloseDone()
      requires !doneClosed
      modifies this`doneClosed
      ensures doneClosed
    {
      doneClosed := true;
    }

    /** Start: list, store each pod's state, return if that already matches
        (without opening a watch or closing done); otherwise open the watch
        and fold its events until the first match, the first Error event or
        the end of the stream. Returns the List or Watch error, else nil. */
    method Start(list: ListResult, watch: WatchResult) returns (err: Option<TransportError>)
      requires Valid()
      modifies this
      ensures Valid()
      ensures err == StartError(old(podState), list, watch, description.requiredStates, PodResourceState)
      ensures list.Failure? ==>
        err == Some(list.error) && podState == old(podState) && watcherOpened == old(watcherOpened) &&
        watcherStopped == old(watcherStopped) && doneClosed == old(doneClosed)
      ensures list.Success? ==>
        var loaded := Load(old(podState), list.value, PodResourceState);
        if MatchStateMap(loaded, description.requiredStates) then
          err == None && podState == loaded && watcherOpened == old(watcherOpened) &&
          watcherStopped == old(watcherStopped) && doneClosed == old(doneClosed)
        else if watch.Failure? then
          err == Some(watch.error) && podState == loaded && !watcherOpened && !watcherStopped && doneClosed == old(doneClosed)
        else
          var run := Watch(loaded, watch.value, description.requiredStates, PodApplyEvent, true);
          err == None && podState == run.state && watcherOpened && !watcherStopped &&
          doneClosed == (old(doneClosed) || run.stop == Matched)
    {
      if list.Failure? {
        return Some(list.error);
      }
      StoreSnapshot(list.value);
      if MatchStateMap(podState, description.requiredStates) {
        return None;
      }
      if watch.Failure? {
        watcherOpened, watcherStopped := false, false;
        return Some(watch.error);
      }
      watcherOpened, watcherStopped := true, false;
      ConsumeEvents(watch.value);
      return None;
    }

    /** The list loop of Start: store each listed pod's state by name. */
    method StoreSnapshot(items: seq<Snapshot>)
      modifies this`podState
      ensures podState == Load(old(podState), items, PodResourceState)
    {
      var i := 0;
      while i < |items|
        invariant 0 <= i <= |items|
        invariant podState == Load(old(podState), items[..i], PodResourceState)
      {
        assert items[..i + 1][..i] == items[..i];
        podState := podState[items[i].name := PodResourceState(items[i])];
        i := i + 1;
      }
      assert items[..i] == items;
    }

    /** The event loop of Start: apply each event in order; an Error event
        returns at once; otherwise re-check the predicate and, on a match,
        close done (once) and stop. */
    method ConsumeEvents(events: seq<Event>)
      modifies this`podState, this`doneClosed
      ensures var run := Watch(old(podState), events, description.requiredStates, PodApplyEvent, true);
        podState == run.state && doneClosed == (old(doneClosed) || run.stop == Matched)
    {
      var required := description.requiredStates;
      ghost var run := Watch(podState, events, required, PodApplyEvent, true);
      assert events[0..] == events;
      var k := 0;
      while k < |events|
        invariant 0 <= k <= |events|
        invariant doneClosed == old(doneClosed)
        invariant run.state == Watch(podState, events[k..], required, PodApplyEvent, true).state
        invariant run.stop == Watch(podState, events[k..], required, PodApplyEvent, true).stop
      {
        ghost var before := podState;
        assert events[k..][0] == events[k] && events[k..][1..] == events[k + 1..];
        var stop := ApplyEvent(events[k]);
        if stop {
          return;
        }
        WatchStep(before, events[k..], required, PodApplyEvent, true);
        if MatchStateMap(podState, required) {
          if !doneClosed {
            CloseDone();
          }
          return;
        }
        k := k + 1;
      }
    }

    /** The `switch event.Type` of the event loop; `stop` is the Error case's
        `return nil`. */
    method ApplyEvent(e: Event) returns (stop: bool)
      modifies this`podState
      ensures stop == e.Error?
      ensures podState == PodApplyEvent(old(podState), e)
    {
      stop := false;
      match e {
        case Added(pod) =>
          podState := podState[pod.name := PodResourceState(pod)];
        case Modified(pod) =>
          podState := podState[pod.name := PodResourceState(pod)];
        case Deleted(pod) =>
          if pod.name in podState {
            podState := podState - {pod.name};
          }
        case Error =>
          stop := true;
      }
    }

    /** Stop: stop the watch if one was opened, then close done unless it is
        already closed. Harmless when repeated or after a match. */
    method Stop() returns (err: Option<TransportError>)
      requires Valid()
      modifies this
      ensures Valid()
      ensures err == None && doneClosed
      ensures watcherStopped == old(watcherOpened)
      ensures podState == old(podState) && watcherOpened == old(watcherOpened)
    {
      if watcherOpened {
        watcherStopped := true;
      }
      if !doneClosed {
        CloseDone();
      }
      return None;
    }
  }
}
