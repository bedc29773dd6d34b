/** The orchestrator (wait.go): pick a validator and a matcher per
    description by its type, validate every description first, then start
    one matcher per description. The goroutines and the WaitGroup are
    replaced by starting the matchers one after another, in order. */
module Wait {
  import opened Wrappers
  import opened StateDescriptions
  import opened Errors
  import opened Cluster
  import opened Tracking
  import opened Jobs
  import opened Pods

  /** The two validators; neither has state. */
  datatype ValidatorKind = PodValidator | JobValidator

  /** The two matchers, behind the Start/Done/Stop interface. */
  datatype Matcher = PodMatcherOf(pod: PodMatcher) | JobMatcherOf(job: JobMatcher)

  /** What the cluster answers for one description: the List result and the
      result of opening the Watch (its events, in delivery order). */
  datatype Feed = Feed(list: ListResult, watch: WatchResult)

  /** `wait` either returns or panics with a reason. */
  datatype WaitOutcome = Returned | Panicked(reason: string)

  /** The outcome and how many matchers had been started. */
  datatype WaitResult = WaitResult(outcome: WaitOutcome, started: nat)

  predicate KnownType(t: ResourceType) {
    t == PodResource || t == JobResource
  }

  /** getValidator: a closed switch over the two resource types. */
  function GetValidator(d: StateDescription): (r: Option<ValidatorKind>)
    ensures r.Some? <==> KnownType(d.resourceType)
    ensures r == Some(PodValidator) <==> d.resourceType == PodResource
    ensures r == Some(JobValidator) <==> d.resourceType == JobResource
  {
    if d.resourceType == PodResource then Some(PodValidator)
    else if d.resourceType == JobResource then Some(JobValidator)
    else None
  }

  /** `validator.Validate(ctx, description)`: the error names the description
      it rejects, and a description that passes names at least one state and
      never the reserved "waiting" state. */
  function Validate(v: ValidatorKind, d: StateDescription): (r: Option<ValidationError>)
    ensures r.Some? ==> r.value.description == d
    ensures r == None ==> |d.requiredStates| > 0 && ResourceWaiting !in d.requiredStates
  {
    match v
    case PodValidator => PodValidate(d)
    case JobValidator => JobValidate(d)
  }

  /** getMatcher: a fresh matcher of the description's type, or none for an
      unknown type. */
  method GetMatcher(d: StateDescription) returns (r: Option<Matcher>)
    ensures r.Some? <==> KnownType(d.resourceType)
    ensures d.resourceType == PodResource ==>
      r.Some? && r.value.PodMatcherOf? && fresh(r.value.pod) && r.value.pod.Valid() &&
      r.value.pod.description == d && r.value.pod.podState == map[] && !r.value.pod.doneClosed &&
      !r.value.pod.watcherOpened && !r.value.pod.watcherStopped
    ensures d.resourceType == JobResource ==>
      r.Some? && r.value.JobMatcherOf? && fresh(r.value.job) && r.value.job.Valid() &&
      r.value.job.description == d && r.value.job.jobState == map[] && !r.value.job.doneClosed &&
      !r.value.job.watcherOpened && !r.value.job.watcherStopped
  {
    if d.resourceType == PodResource {
      var p := new PodMatcher(d);
      r := Some(PodMatcherOf(p));
    } else if d.resourceType == JobResource {
      var j := new JobMatcher(d);
      r := Some(JobMatcherOf(j));
    } else {
      r := None;
    }
  }

  /** A description the first loop of `wait` lets through. */
  predicate Accepted(d: StateDescription) {
    KnownType(d.resourceType) && ValidationPanicFor(d) == None
  }

  /** What the first loop of `wait` does with `d`: the panic reason, if any. */
  function ValidationPanicFor(d: StateDescription): (r: Option<string>)
    ensures r == None ==> KnownType(d.resourceType)
  {
    match GetValidator(d)
    case None => Some("could not find validator for resource type " + d.resourceType)
    case Some(v) =>
      match Validate(v, d)
      case Some(e) => Some("description not valid: " + ErrorText(e))
      case None => None
  }

  /** The first loop of `wait` from description `i` on, where `check` is what
      one turn of the loop does with a description: the panic of the first
      description it rejects. */
  function ValidationPanic(ds: seq<StateDescription>, i: nat, check: StateDescription -> Option<string>): Option<string>
    requires i <= |ds|
    decreases |ds| - i
  {
    if i == |ds| then None
    else if check(ds[i]).Some? then check(ds[i])
    else ValidationPanic(ds, i + 1, check)
  }

  /** What a fresh matcher's Start returns for description `d` fed `f`; the
      second loop never starts a matcher for any other type. */
  function StartErrorFor(d: StateDescription, f: Feed): (r: Option<TransportError>)
    ensures !KnownType(d.resourceType) ==> r == None
    ensures f.list.Failure? && KnownType(d.resourceType) ==> r == Some(f.list.error)
    ensures r.Some? ==> (f.list.Failure? && r.value == f.list.error) || (f.watch.Failure? && r.value == f.watch.error)
  {
    if d.resourceType == PodResource then StartError(map[], f.list, f.watch, d.requiredStates, PodResourceState)
    else if d.resourceType == JobResource then StartError(map[], f.list, f.watch, d.requiredStates, JobResourceState)
    else None
  }

  /** The second loop of `wait` from description `i` on, where `start` is what
      Start returns for a fresh matcher of a description's type. */
  function RunMatchers(ds: seq<StateDescription>, feeds: seq<Feed>, i: nat,
                       start: (StateDescription, Feed) -> Option<TransportError>): (r: WaitResult)
    requires |feeds| == |ds| && i <= |ds|
    ensures i <= r.started <= |ds|
    ensures r.outcome == Returned ==> r.started == |ds|
    decreases |ds| - i
  {
    if i == |ds| then WaitResult(Returned, i)
    else if !KnownType(ds[i].resourceType) then
      WaitResult(Panicked("could not find matcher for resource type " + ds[i].resourceType), i)
    else
      match start(ds[i], feeds[i])
      case Some(e) => WaitResult(Panicked(e.message), i + 1)
      case None => RunMatchers(ds, feeds, i + 1, start)
  }

  /** `wait`: validate everything, then start everything. */
  function WaitSpec(ds: seq<StateDescription>, feeds: seq<Feed>): (r: WaitResult)
    requires |feeds| == |ds|
    ensures r.started <= |ds|
    ensures ValidationPanic(ds, 0, ValidationPanicFor).Some? ==> r.started == 0
  {
    match ValidationPanic(ds, 0, ValidationPanicFor)
    case Some(reason) => WaitResult(Panicked(reason), 0)
    case None => RunMatchers(ds, feeds, 0, StartErrorFor)
  }

  /** `wait`, run sequentially. */
  method Wait(descriptions: seq<StateDescription>, feeds: seq<Feed>) returns (outcome: WaitOutcome, started: nat)
    requires |feeds| == |descriptions|
    ensures WaitResult(outcome, started) == WaitSpec(descriptions, feeds)
  {
    var i := 0;
    while i < |descriptions|
      invariant 0 <= i <= |descriptions|
      invariant ValidationPanic(descriptions, 0, ValidationPanicFor) == ValidationPanic(descriptions, i, ValidationPanicFor)
    {
      var d := descriptions[i];
      var validator := GetValidator(d);
      if validator.None? {
        return Panicked("could not find validator for resource type " + d.resourceType), 0;
      }
      var err := Validate(validator.value, d);
      if err.Some? {
        return Panicked("description not valid: " + ErrorText(err.value)), 0;
      }
      i := i + 1;
    }
    started := 0;
    while started < |descriptions|
      invariant 0 <= started <= |descriptions|
      invariant WaitSpec(descriptions, feeds) == RunMatchers(descriptions, feeds, started, StartErrorFor)
    {
      var d := descriptions[started];
      var matcher := GetMatcher(d);
      if matcher.None? {
        return Panicked("could not find matcher for resource type " + d.resourceType), started;
      }
      var err: Option<TransportError>;
      match matcher.value {
        case PodMatcherOf(p) =>
          err := p.Start(feeds[started].list, feeds[started].watch);
        case JobMatcherOf(j) =>
          err := j.Start(feeds[started].list, feeds[started].watch);
      }
      started := started + 1;
      if err.Some? {
        return Panicked(err.value.message), started;
      }
    }
    return Returned, started;
  }

  /** A description passes the first loop iff its type is known, it names at
      least one state, and every state it names is permitted for its type. */
  lemma AcceptedIff(d: StateDescription)
    ensures Accepted(d) <==> ValidationPanicFor(d) == None
    ensures Accepted(d) <==>
      && KnownType(d.resourceType)
      && |d.requiredStates| > 0
      && forall i :: 0 <= i < |d.requiredStates| ==>
           d.requiredStates[i] in (if d.resourceType == PodResource then PodPermittedStates else JobPermittedStates)
  {
  }

  /** The first loop rejects the FIRST description `check` rejects, and
      panics with that description's reason; it passes iff `check` accepts
      every one. */
  lemma {:induction false} ValidationPanicFindsFirst(ds: seq<StateDescription>, i: nat, check: StateDescription -> Option<string>)
    requires i <= |ds|
    ensures ValidationPanic(ds, i, check) == None <==> forall j :: i <= j < |ds| ==> check(ds[j]) == None
    ensures ValidationPanic(ds, i, check).Some? ==>
      exists j :: i <= j < |ds| && check(ds[j]).Some? && (forall k :: i <= k < j ==> check(ds[k]) == None) &&
        ValidationPanic(ds, i, check) == check(ds[j])
    decreases |ds| - i
  {
    if i < |ds| {
      if check(ds[i]).None? {
        ValidationPanicFindsFirst(ds, i + 1, check);
      }
    }
  }

  /** Fail-fast validation: when some description is rejected, no matcher is
      started and the run panics with the first rejected one's reason. */
  lemma InvalidDescriptionStartsNothing(ds: seq<StateDescription>, feeds: seq<Feed>, j: nat)
    requires |feeds| == |ds| && j < |ds|
    requires !Accepted(ds[j]) && forall k :: 0 <= k < j ==> Accepted(ds[k])
    ensures WaitSpec(ds, feeds) == WaitResult(Panicked(ValidationPanicFor(ds[j]).value), 0)
  {
    ValidationPanicFindsFirst(ds, 0, ValidationPanicFor);
    assert ValidationPanicFor(ds[j]).Some?;
    var w :| 0 <= w < |ds| && ValidationPanicFor(ds[w]).Some? && (forall k :: 0 <= k < w ==> ValidationPanicFor(ds[k]) == None) &&
      ValidationPanic(ds, 0, ValidationPanicFor) == ValidationPanicFor(ds[w]);
    assert w == j;
  }

  /** When the second loop returns normally it has started every matcher
      and none of their Starts failed. */
  lemma {:induction false} RunMatchersReturned(ds: seq<StateDescription>, feeds: seq<Feed>, i: nat,
                                               start: (StateDescription, Feed) -> Option<TransportError>)
    requires |feeds| == |ds| && i <= |ds|
    requires RunMatchers(ds, feeds, i, start).outcome == Returned
    ensures RunMatchers(ds, feeds, i, start).started == |ds|
    ensures forall j :: i <= j < |ds| ==> KnownType(ds[j].resourceType) && start(ds[j], feeds[j]) == None
    decreases |ds| - i
  {
    if i < |ds| {
      RunMatchersReturned(ds, feeds, i + 1, start);
    }
  }

  /** When every type is known, the second loop panics only on a Start
      error: the last matcher it started failed with that error, and every
      earlier one started without error. */
  lemma {:induction false} RunMatchersPanicked(ds: seq<StateDescription>, feeds: seq<Feed>, i: nat,
                                               start: (StateDescription, Feed) -> Option<TransportError>)
    requires |feeds| == |ds| && i <= |ds|
    requires forall j :: i <= j < |ds| ==> KnownType(ds[j].resourceType)
    requires RunMatchers(ds, feeds, i, start).outcome.Panicked?
    ensures var r := RunMatchers(ds, feeds, i, start);
      && i < r.started <= |ds|
      && start(ds[r.started - 1], feeds[r.started - 1]) == Some(TransportError(r.outcome.reason))
      && forall j :: i <= j < r.started - 1 ==> start(ds[j], feeds[j]) == None
    decreases |ds| - i
  {
    if start(ds[i], feeds[i]) == None {
      RunMatchersPanicked(ds, feeds, i + 1, start);
    }
  }

  /** Once every description's type is known (as it is when all are
      accepted), the second loop returns normally iff no Start fails, and
      then it has started one matcher per description. */
  lemma AcceptedRunsEveryMatcher(ds: seq<StateDescription>, feeds: seq<Feed>,
                                 start: (StateDescription, Feed) -> Option<TransportError>)
    requires |feeds| == |ds|
    requires forall j :: 0 <= j < |ds| ==> KnownType(ds[j].resourceType)
    ensures RunMatchers(ds, feeds, 0, start).outcome == Returned <==>
      forall j :: 0 <= j < |ds| ==> start(ds[j], feeds[j]) == None
    ensures RunMatchers(ds, feeds, 0, start).outcome == Returned ==> RunMatchers(ds, feeds, 0, start).started == |ds|
  {
    var r := RunMatchers(ds, feeds, 0, start);
    if r.outcome == Returned {
      RunMatchersReturned(ds, feeds, 0, start);
    } else {
      RunMatchersPanicked(ds, feeds, 0, start);
      var last := r.started - 1;
      assert start(ds[last], feeds[last]) != None;
    }
  }
}
