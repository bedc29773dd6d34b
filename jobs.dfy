/** Jobs (job.go): the permitted states, JobValidator, the Job state
    extractor, the effect of one watch event, and JobMatcher. */
module Jobs {
  import opened Wrappers
  import opened StateDescriptions
  import opened Errors
  import opened Validator
  import opened Cluster
  import opened Tracking

  const JobPermittedStates: seq<ResourceState> := [ResourceComplete, ResourceFailed, ResourceRunning]

  /** `JobValidator.Validate`: the base error if any; otherwise the first
      required state that a Job cannot be in; otherwise success. */
  function JobValidate(d: StateDescription): (r: Option<ValidationError>)
    ensures BaseValidate(d).Some? ==> r == BaseValidate(d)
    ensures r == None <==>
      |d.requiredStates| > 0 && forall i :: 0 <= i < |d.requiredStates| ==> d.requiredStates[i] in JobPermittedStates
    ensures BaseValidate(d).None? && r.Some? ==>
      exists i :: 0 <= i < |d.requiredStates| && FirstOutside(d.requiredStates, JobPermittedStates, i) &&
        r.value == ErrStateNotValidForResourceType(d, d.requiredStates[i])
  {
    match BaseValidate(d)
    case Some(e) => Some(e)
    case None =>
      match FirstNotPermitted(d.requiredStates, JobPermittedStates)
      case Some(s) => Some(ErrStateNotValidForResourceType(d, s))
      case None => None
  }

  /** A description that passes JobValidate never asks for "waiting". */
  lemma JobValidNeverWaiting(d: StateDescription)
    requires JobValidate(d) == None
    ensures ResourceWaiting !in d.requiredStates
  {
  }

  /** A condition that ends the scan in getJobResourceState. */
  predicate TerminalTrue(c: Condition) {
    c.status == ConditionTrue && (c.conditionType == JobComplete || c.conditionType == JobFailed)
  }

  /** The state a terminal condition stands for. */
  function TerminalState(c: Condition): ResourceState {
    if c.conditionType == JobComplete then ResourceComplete else ResourceFailed
  }

  /** `cs[i]` is terminal and none before it is. */
  predicate FirstTerminal(cs: seq<Condition>, i: int)
    requires 0 <= i < |cs|
  {
    TerminalTrue(cs[i]) && forall j :: 0 <= j < i ==> !TerminalTrue(cs[j])
  }

  /** The condition loop of getJobResourceState: the state of the first
      terminal condition, skipping other types and non-True statuses. */
  function ScanJobConditions(cs: seq<Condition>): (r: Option<ResourceState>)
    ensures r == None <==> forall i :: 0 <= i < |cs| ==> !TerminalTrue(cs[i])
    ensures r.Some? ==> exists i :: 0 <= i < |cs| && FirstTerminal(cs, i) && r.value == TerminalState(cs[i])
  {
    if cs == [] then None
    else if cs[0].conditionType == JobComplete && cs[0].status == ConditionTrue then
      assert FirstTerminal(cs, 0);
      Some(ResourceComplete)
    else if cs[0].conditionType == JobFailed && cs[0].status == ConditionTrue then
      assert FirstTerminal(cs, 0);
      Some(ResourceFailed)
    else
      var r := ScanJobConditions(cs[1..]);
      if r.Some? then
        var i :| 0 <= i < |cs[1..]| && FirstTerminal(cs[1..], i) && r.value == TerminalState(cs[1..][i]);
        assert FirstTerminal(cs, i + 1);
        r
      else
        assert forall i :: 1 <= i < |cs| ==> cs[i] == cs[1..][i - 1];
        r
  }

  /** getJobResourceState: whichever of Complete=True and Failed=True comes
      first decides; with neither, a non-zero active count (negative
      included) is Running and zero is "waiting". */
  function JobResourceState(s: Snapshot): (r: ResourceState)
    ensures r in [ResourceComplete, ResourceFailed, ResourceRunning, ResourceWaiting]
    ensures forall i :: 0 <= i < |s.conditions| && FirstTerminal(s.conditions, i) ==>
      r == TerminalState(s.conditions[i])
    ensures (forall i :: 0 <= i < |s.conditions| ==> !TerminalTrue(s.conditions[i])) ==>
      r == (if s.active != 0 then ResourceRunning else ResourceWaiting)
  {
    match ScanJobConditions(s.conditions)
    case Some(state) => state
    case None => if s.active != 0 then ResourceRunning else ResourceWaiting
  }

  /** One watch event on the Job state map: Added and Modified overwrite the
      entry; Deleted only looks the name up, so the entry stays; Error is
      ignored. */
  function JobApplyEvent(m: StateMap, e: Event): (r: StateMap)
    ensures e.Added? || e.Modified? ==> r == m[e.resource.name := JobResourceState(e.resource)]
    ensures e.Deleted? || e.Error? ==> r == m
  {
    match e
    case Added(job) => m[job.name := JobResourceState(job)]
    case Modified(job) => m[job.name := JobResourceState(job)]
    case Deleted(_) => m
    case Error => m
  }

  /** A Job matcher never forgets a resource: every name tracked when the
      watch starts is still tracked when it stops. */
  lemma {:induction false} JobWatchKeepsNames(m: StateMap, events: seq<Event>, required: seq<ResourceState>)
    ensures m.Keys <= Watch(m, events, required, JobApplyEvent, false).state.Keys
    decreases |events|
  {
    if events != [] {
      var next := JobApplyEvent(m, events[0]);
      assert m.Keys <= next.Keys;
      if !MatchStateMap(next, required) {
        JobWatchKeepsNames(next, events[1..], required);
      }
    }
  }

  /** The Job matcher's loop never stops on an Error event. */
  lemma JobWatchIgnoresErrors(m: StateMap, events: seq<Event>, required: seq<ResourceState>)
    ensures Watch(m, events, required, JobApplyEvent, false).stop != ErrorEvent
  {
    WatchStopsAtFirst(m, events, required, JobApplyEvent, false);
  }

  /** The scenario of TestJobComplete: job-1 is listed with one active pod
      and Complete/Failed both False, so it is Running and {Complete} does
      not match; the watch re-adds it and then a Modified event with
      Complete=True makes the map match. */
  lemma JobCompleteScenario()
    ensures var running := Snapshot("job-1", 1, "", [Condition(JobComplete, "False"), Condition(JobFailed, "False")]);
            var complete := Snapshot("job-1", 0, "", [Condition(JobComplete, ConditionTrue), Condition(JobFailed, "False")]);
            var loaded := Load(map[], [running], JobResourceState);
            && loaded == map["job-1" := ResourceRunning]
            && !MatchStateMap(loaded, [ResourceComplete])
            && Watch(loaded, [Added(running), Modified(complete)], [ResourceComplete], JobApplyEvent, false)
               == WatchRun(map["job-1" := ResourceComplete], Matched, 2)
  {
    var running := Snapshot("job-1", 1, "", [Condition(JobComplete, "False"), Condition(JobFailed, "False")]);
    var complete := Snapshot("job-1", 0, "", [Condition(JobComplete, ConditionTrue), Condition(JobFailed, "False")]);
    assert FirstTerminal(complete.conditions, 0);
    assert JobResourceState(complete) == ResourceComplete;
    assert !TerminalTrue(running.conditions[0]) && !TerminalTrue(running.conditions[1]);
    assert JobResourceState(running) == ResourceRunning;
    var loaded := map["job-1" := ResourceRunning];
    assert Load(map[], [running], JobResourceState) == loaded by {
      assert [running][..0] == [];
    }
    assert loaded["job-1"] !in [ResourceComplete];
    var events := [Added(running), Modified(complete)];
    assert events[1..] == [Modified(complete)];
    assert events[1..][1..] == [];
    assert "job-1" in map["job-1" := ResourceComplete];
  }

  /** A JobMatcher: the state map it owns, whether a watch is open and has
      been stopped, and whether its done channel is closed. */
  class JobMatcher {
    const description: StateDescription
    var jobState: StateMap
    var watcherOpened: bool
    var watcherStopped: bool
    var doneClosed: bool

    /** Only an opened watch can have been stopped. */
    ghost predicate Valid()
      reads this
    {
      watcherStopped ==> watcherOpened
    }

    /** NewJobMatcher: no watch, an empty map, done open. */
    constructor (description: StateDescription)
      ensures Valid()
      ensures this.description == description
      ensures jobState == map[] && !watcherOpened && !watcherStopped && !doneClosed
    {
      this.description := description;
      jobState := map[];
      watcherOpened, watcherStopped, doneClosed := false, false, false;
    }

    /** `close(done)`: closing a closed channel panics, so every caller must
        have checked it is still open. */
    method CloseDone()
      requires !doneClosed
      modifies this`doneClosed
      ensures doneClosed
    {
      doneClosed := true;
    }

    /** Start: list, store each job's state, return if that already matches
        (without opening a watch or closing done); otherwise open the watch
        and fold its events until the first match or the end of the stream.
        Returns the List or Watch error, else nil. */
    method Start(list: ListResult, watch: WatchResult) returns (err: Option<TransportError>)
      requires Valid()
      modifies this
      ensures Valid()
      ensures err == StartError(old(jobState), list, watch, description.requiredStates, JobResourceState)
      ensures list.Failure? ==>
        err == Some(list.error) && jobState == old(jobState) && watcherOpened == old(watcherOpened) &&
        watcherStopped == old(watcherStopped) && doneClosed == old(doneClosed)
      ensures list.Success? ==>
        var loaded := Load(old(jobState), list.value, JobResourceState);
        if MatchStateMap(loaded, description.requiredStates) then
          err == None && jobState == loaded && watcherOpened == old(watcherOpened) &&
          watcherStopped == old(watcherStopped) && doneClosed == old(doneClosed)
        else if watch.Failure? then
          err == Some(watch.error) && jobState == loaded && !watcherOpened && !watcherStopped && doneClosed == old(doneClosed)
        else
          var run := Watch(loaded, watch.value, description.requiredStates, JobApplyEvent, false);
          err == None && jobState == run.state && watcherOpened && !watcherStopped &&
          doneClosed == (old(doneClosed) || run.stop == Matched)
    {
      if list.Failure? {
        return Some(list.error);
      }
      StoreSnapshot(list.value);
      if MatchStateMap(jobState, description.requiredStates) {
        return None;
      }
      if watch.Failure? {
        watcherOpened, watcherStopped := false, false;
        return Some(watch.error);
      }
      watcherOpened, watcherStopped := true, false;
      ConsumeEvents(watch.value);
      return None;
    }

    /** The list loop of Start: store each listed job's state by name. */
    method StoreSnapshot(items: seq<Snapshot>)
      modifies this`jobState
      ensures jobState == Load(old(jobState), items, JobResourceState)
    {
      var i := 0;
      while i < |items|
        invariant 0 <= i <= |items|
        invariant jobState == Load(old(jobState), items[..i], JobResourceState)
      {
        assert items[..i + 1][..i] == items[..i];
        jobState := jobState[items[i].name := JobResourceState(items[i])];
        i := i + 1;
      }
      assert items[..i] == items;
    }

    /** The event loop of Start: apply each event in order and, after each,
        re-check the predicate; on a match close done (once) and stop. */
    method ConsumeEvents(events: seq<Event>)
      modifies this`jobState, this`doneClosed
      ensures var run := Watch(old(jobState), events, description.requiredStates, JobApplyEvent, false);
        jobState == run.state && doneClosed == (old(doneClosed) || run.stop == Matched)
    {
      var required := description.requiredStates;
      ghost var run := Watch(jobState, events, required, JobApplyEvent, false);
      assert events[0..] == events;
      var k := 0;
      while k < |events|
        invariant 0 <= k <= |events|
        invariant doneClosed == old(doneClosed)
        invariant run.state == Watch(jobState, events[k..], required, JobApplyEvent, false).state
        invariant run.stop == Watch(jobState, events[k..], required, JobApplyEvent, false).stop
      {
        ghost var before := jobState;
        assert events[k..][0] == events[k] && events[k..][1..] == events[k + 1..];
        ApplyEvent(events[k]);
        WatchStep(before, events[k..], required, JobApplyEvent, false);
        if MatchStateMap(jobState, required) {
          if !doneClosed {
            CloseDone();
          }
          return;
        }
        k := k + 1;
      }
    }

    /** The `switch event.Type` of the event loop. */
    method ApplyEvent(e: Event)
      modifies this`jobState
      ensures jobState == JobApplyEvent(old(jobState), e)
    {
      match e {
        case Added(job) =>
          jobState := jobState[job.name := JobResourceState(job)];
        case Modified(job) =>
          jobState := jobState[job.name := JobResourceState(job)];
        case Deleted(job) =>
          // the name is only looked up (for logging); the entry stays
        case Error =>
          // ignored: the loop goes on
      }
    }

    /** Stop: stop the watch if one was opened, then close done unless it is
        already closed. Harmless when repeated or after a match. */
    method Stop() returns (err: Option<TransportError>)
      requires Valid()
      modifies this
      ensures Valid()
      ensures err == None && doneClosed
      ensures watcherStopped == old(watcherOpened)
      ensures jobState == old(jobState) && watcherOpened == old(watcherOpened)
    {
      if watcherOpened {
        watcherStopped := true;
      }
      if !doneClosed {
        CloseDone();
      }
      return None;
    }
  }
}
