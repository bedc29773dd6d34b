/** The state-map fold shared by both matchers: loading the initial list,
    replaying watch events, and the watch loop that stops at the first match.
    The per-type differences enter as parameters: the extractor, the effect
    of one event, and whether an Error event ends the loop. */
module Tracking {
  import opened Wrappers
  import opened StateDescriptions
  import opened Cluster

  /** Why a watch loop stopped. */
  datatype StopReason = Matched | Exhausted | ErrorEvent

  /** The map a watch loop ends with, why it stopped, and how many events it
      took from the stream. */
  datatype WatchRun = WatchRun(state: StateMap, stop: StopReason, consumed: nat)

  /** `for _, x := range items { m[x.Name] = extract(x) }`. */
  function Load(m: StateMap, items: seq<Snapshot>, extract: Snapshot -> ResourceState): StateMap
    decreases |items|
  {
    if items == [] then m
    else
      var last := items[|items| - 1];
      Load(m, items[..|items| - 1], extract)[last.name := extract(last)]
  }

  /** The names in a listing. */
  function Names(items: seq<Snapshot>): set<string> {
    set i | 0 <= i < |items| :: items[i].name
  }

  /** `items[i]` is the last listed resource with its name. */
  predicate LastWithName(items: seq<Snapshot>, i: int)
    requires 0 <= i < |items|
  {
    forall j :: i < j < |items| ==> items[j].name != items[i].name
  }

  /** After loading, a name is tracked iff it was tracked before or listed. */
  lemma {:induction false} LoadDomain(m: StateMap, items: seq<Snapshot>, extract: Snapshot -> ResourceState)
    ensures Load(m, items, extract).Keys == m.Keys + Names(items)
    decreases |items|
  {
    if items != [] {
      var front := items[..|items| - 1];
      LoadDomain(m, front, extract);
      assert Names(items) == Names(front) + {items[|items| - 1].name} by {
        forall n | n in Names(items) ensures n in Names(front) + {items[|items| - 1].name} {
          var i :| 0 <= i < |items| && items[i].name == n;
          if i < |front| { assert front[i] == items[i]; }
        }
        forall n | n in Names(front) ensures n in Names(items) {
          var i :| 0 <= i < |front| && front[i].name == n;
          assert items[i] == front[i];
        }
      }
    }
  }

  /** A name that is not listed keeps the state it had. */
  lemma {:induction false} LoadKeepsUnlisted(m: StateMap, items: seq<Snapshot>, extract: Snapshot -> ResourceState, name: string)
    requires name in m && name !in Names(items)
    ensures name in Load(m, items, extract) && Load(m, items, extract)[name] == m[name]
    decreases |items|
  {
    if items != [] {
      var front := items[..|items| - 1];
      assert items[|items| - 1].name in Names(items);
      forall j | 0 <= j < |front| ensures front[j].name != name {
        assert front[j] == items[j];
      }
      LoadKeepsUnlisted(m, front, extract, name);
    }
  }

  /** A listed name holds the state of its LAST listing: later duplicates
      overwrite earlier ones. */
  lemma {:induction false} LoadLastWins(m: StateMap, items: seq<Snapshot>, extract: Snapshot -> ResourceState, i: int)
    requires 0 <= i < |items| && LastWithName(items, i)
    ensures items[i].name in Load(m, items, extract)
    ensures Load(m, items, extract)[items[i].name] == extract(items[i])
    decreases |items|
  {
    var front := items[..|items| - 1];
    if i < |items| - 1 {
      assert front[i] == items[i];
      assert LastWithName(front, i);
      LoadLastWins(m, front, extract, i);
    }
  }

  /** Apply every event in order, with no early stop. */
  function Replay(m: StateMap, events: seq<Event>, apply: (StateMap, Event) -> StateMap): StateMap
    decreases |events|
  {
    if events == [] then m else Replay(apply(m, events[0]), events[1..], apply)
  }

  /** The watch loop: take events in delivery order; an Error event ends it at
      once when `stopOnError`; otherwise apply the event and re-check the
      predicate, stopping on the first match. */
  function Watch(m: StateMap, events: seq<Event>, required: seq<ResourceState>,
                 apply: (StateMap, Event) -> StateMap, stopOnError: bool): (r: WatchRun)
    ensures r.consumed <= |events|
    ensures r.stop == Exhausted ==> r.consumed == |events|
    ensures r.stop != Exhausted ==> 0 < r.consumed
    ensures r.stop == Matched ==> MatchStateMap(r.state, required)
    ensures r.stop == ErrorEvent ==> stopOnError && 0 < r.consumed && events[r.consumed - 1].Error?
    decreases |events|
  {
    if events == [] then WatchRun(m, Exhausted, 0)
    else if stopOnError && events[0].Error? then WatchRun(m, ErrorEvent, 1)
    else
      var next := apply(m, events[0]);
      if MatchStateMap(next, required) then WatchRun(next, Matched, 1)
      else
        var r := Watch(next, events[1..], required, apply, stopOnError);
        r.(consumed := r.consumed + 1)
  }

  /** One turn of the watch loop on an event that does not end it by itself. */
  lemma WatchStep(m: StateMap, events: seq<Event>, required: seq<ResourceState>,
                  apply: (StateMap, Event) -> StateMap, stopOnError: bool)
    requires events != [] && !(stopOnError && events[0].Error?)
    ensures var next := apply(m, events[0]);
      var r := Watch(m, events, required, apply, stopOnError);
      if MatchStateMap(next, required) then r.state == next && r.stop == Matched
      else r.state == Watch(next, events[1..], required, apply, stopOnError).state &&
           r.stop == Watch(next, events[1..], required, apply, stopOnError).stop
  {
  }

  /** Event `k` would end the loop: a stopping Error, or the match holds once
      events 0..k are applied. */
  predicate StopsAt(m: StateMap, events: seq<Event>, required: seq<ResourceState>,
                    apply: (StateMap, Event) -> StateMap, stopOnError: bool, k: int)
    requires 0 <= k < |events|
  {
    (stopOnError && events[k].Error?) || MatchStateMap(Replay(m, events[..k + 1], apply), required)
  }

  /** The loop ends at the FIRST event that stops it, or at the end of the
      stream if none does; the map it leaves is the replay of what it took.
      A match is reported only when the predicate holds on the final map,
      and an Error stop only when Error events stop the loop. */
  lemma {:induction false} WatchStopsAtFirst(m: StateMap, events: seq<Event>, required: seq<ResourceState>,
                                             apply: (StateMap, Event) -> StateMap, stopOnError: bool)
    requires forall s :: apply(s, Error) == s
    ensures var r := Watch(m, events, required, apply, stopOnError);
      && r.consumed <= |events|
      && r.state == Replay(m, events[..r.consumed], apply)
      && (forall k :: 0 <= k < r.consumed - 1 ==> !StopsAt(m, events, required, apply, stopOnError, k))
      && (r.stop == Exhausted <==> r.consumed == |events| && (r.consumed == 0 || !StopsAt(m, events, required, apply, stopOnError, r.consumed - 1)))
      && (r.stop == ErrorEvent <==> 0 < r.consumed && stopOnError && events[r.consumed - 1].Error?)
      && (r.stop == Matched ==> 0 < r.consumed && MatchStateMap(r.state, required))
    decreases |events|
  {
    var r := Watch(m, events, required, apply, stopOnError);
    if events != [] {
      var e := events[0];
      assert events[..1] == [e];
      assert Replay(m, [e], apply) == apply(m, e);
      if stopOnError && e.Error? {
        assert StopsAt(m, events, required, apply, stopOnError, 0);
      } else {
        var next := apply(m, e);
        if !MatchStateMap(next, required) {
          var rest := events[1..];
          WatchStopsAtFirst(next, rest, required, apply, stopOnError);
          var r' := Watch(next, rest, required, apply, stopOnError);
          assert r == r'.(consumed := r'.consumed + 1);
          assert events[..r.consumed][1..] == rest[..r'.consumed];
          assert !StopsAt(m, events, required, apply, stopOnError, 0);
          forall k | 0 <= k < |events| - 1
            ensures StopsAt(m, events, required, apply, stopOnError, k + 1) == StopsAt(next, rest, required, apply, stopOnError, k)
          {
            assert events[..k + 2][1..] == rest[..k + 1];
          }
          forall k | 0 < k < r.consumed - 1
            ensures !StopsAt(m, events, required, apply, stopOnError, k)
          {
            assert !StopsAt(next, rest, required, apply, stopOnError, k - 1);
          }
        } else {
          assert StopsAt(m, events, required, apply, stopOnError, 0);
        }
      }
    }
  }

  /** What `Start` returns, given the map it starts from: the List error, or
      nil when the loaded snapshot already matches, or the Watch error, or
      nil once the watch loop has run (whatever ended it). */
  function StartError(m: StateMap, list: ListResult, watch: WatchResult, required: seq<ResourceState>,
                      extract: Snapshot -> ResourceState): (r: Option<TransportError>)
    ensures list.Failure? ==> r == Some(list.error)
    ensures r.Some? ==> (list.Failure? && r.value == list.error) || (list.Success? && watch.Failure? && r.value == watch.error)
    ensures list.Success? && watch.Success? ==> r == None
    ensures list.Success? && MatchStateMap(Load(m, list.value, extract), required) ==> r == None
    ensures list.Success? && !MatchStateMap(Load(m, list.value, extract), required) && watch.Failure? ==>
      r == Some(watch.error)
  {
    match list
    case Failure(e) => Some(e)
    case Success(items) =>
      if MatchStateMap(Load(m, items, extract), required) then None
      else if watch.Failure? then Some(watch.error)
      else None
  }
}
