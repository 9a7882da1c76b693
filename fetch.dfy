/** The paging loops of internal/app/cloudwatchlogs.go. The service is an oracle: each
    loop iteration consumes one `FetchStep` (or `DescribeStep`) that says whether the
    context was done, whether the rate limiter's Wait succeeded and what the call
    answered. */
module Fetch {
  import opened Wrappers
  import opened Errors
  import opened Aggregation
  import opened Report

  datatype Page = Page(events: seq<FilteredLogEvent>, nextToken: Option<string>)

  datatype FilterResponse = FilterOk(page: Page) | FilterFailed

  datatype FetchStep = FetchStep(cancelled: bool, limiterOk: bool, response: FilterResponse)

  /** checkContextAndRateLimit: a done context wins over the limiter, which is only
      consulted when the context is live. */
  function CheckContextAndRateLimit(cancelled: bool, limiterOk: bool): (r: Option<Error>)
    ensures r.None? <==> !cancelled && limiterOk
    ensures r.Some? ==> r.value in {ContextCancelled, RateLimitWaitFailed}
    ensures cancelled ==> r == Some(ContextCancelled)
    ensures !cancelled && !limiterOk ==> r == Some(RateLimitWaitFailed)
  {
    if cancelled then Some(ContextCancelled)
    else if !limiterOk then Some(RateLimitWaitFailed)
    else None
  }

  /** The error an iteration ends the loop with, if any. */
  function StepError(step: FetchStep): Option<Error> {
    var c := CheckContextAndRateLimit(step.cancelled, step.limiterOk);
    if c.Some? then c
    else if step.response.FilterFailed? then Some(FilterLogEventsFailed)
    else None
  }

  /** An iteration after which the loop does not go on. */
  predicate Stops(step: FetchStep) {
    StepError(step).Some? || step.response.page.nextToken.None?
  }

  /** The provider ends every listing: some step stops the loop. */
  predicate EndsListing(steps: seq<FetchStep>) {
    exists i :: 0 <= i < |steps| && Stops(steps[i])
  }

  /** The index of the iteration the loop ends on. */
  function FirstStop(steps: seq<FetchStep>): (k: nat)
    requires EndsListing(steps)
    ensures k < |steps| && Stops(steps[k])
    ensures forall j :: 0 <= j < k ==> !Stops(steps[j])
  {
    if Stops(steps[0]) then 0
    else
      assert EndsListing(steps[1..]) by {
        var i :| 0 <= i < |steps| && Stops(steps[i]);
        assert steps[1..][i - 1] == steps[i];
      }
      1 + FirstStop(steps[1..])
  }

  /** The events of the successful pages among steps. */
  function PageEvents(steps: seq<FetchStep>): seq<FilteredLogEvent> {
    if steps == [] then []
    else
      var s := steps[|steps| - 1];
      PageEvents(steps[..|steps| - 1]) + (if s.response.FilterOk? then s.response.page.events else [])
  }

  /** The events handed to processLogEvent, in order: every page up to the last one,
      that one included unless the loop ended on an error. */
  function ProcessedEvents(steps: seq<FetchStep>): seq<FilteredLogEvent>
    requires EndsListing(steps)
  {
    var k := FirstStop(steps);
    if StepError(steps[k]).None? then PageEvents(steps[..k + 1]) else PageEvents(steps[..k])
  }

  /** processEventsInPage: count every event, malformed ones included, then process it. */
  method ProcessEventsInPage(env: Env, groups: StreamGroups, eventCount: nat, events: seq<FilteredLogEvent>)
    returns (groups': StreamGroups, eventCount': nat)
    requires ValidEnv(env)
    ensures groups' == ObserveAll(env, groups, events)
    ensures eventCount' == eventCount + |events|
  {
    groups', eventCount' := groups, eventCount;
    for i := 0 to |events|
      invariant groups' == ObserveAll(env, groups, events[..i])
      invariant eventCount' == eventCount + i
    {
      assert events[..i + 1][..i] == events[..i];
      eventCount' := eventCount' + 1;
      groups' := ProcessLogEvent(env, groups', events[i]);
    }
    assert events[..|events|] == events;
  }

  lemma PageEventsSnoc(steps: seq<FetchStep>, s: FetchStep)
    ensures PageEvents(steps + [s]) == PageEvents(steps) + (if s.response.FilterOk? then s.response.page.events else [])
  {
    assert (steps + [s])[..|steps|] == steps;
  }

  /** fetchAndProcessAllEvents. On an error the buckets are dropped and the count of
      events processed so far is returned with it; otherwise the buckets are those of
      every processed event. An empty page with a token does not end the loop. */
  method FetchAndProcessAllEvents(env: Env, steps: seq<FetchStep>)
    returns (groups: Option<StreamGroups>, eventCount: nat, err: Option<Error>)
    requires ValidEnv(env)
    requires EndsListing(steps)
    ensures err == StepError(steps[FirstStop(steps)])
    ensures eventCount == |ProcessedEvents(steps)|
    ensures err.Some? ==> groups.None?
    ensures err.None? ==> groups == Some(ObserveAll(env, map[], ProcessedEvents(steps)))
  {
    var acc: StreamGroups := map[];
    eventCount := 0;
    var i := 0;
    while true
      invariant i <= FirstStop(steps)
      invariant acc == ObserveAll(env, map[], PageEvents(steps[..i]))
      invariant eventCount == |PageEvents(steps[..i])|
      decreases FirstStop(steps) - i
    {
      var step := steps[i];
      var stop := CheckContextAndRateLimit(step.cancelled, step.limiterOk);
      if stop.Some? {
        return None, eventCount, stop;
      }
      if step.response.FilterFailed? {
        return None, eventCount, Some(FilterLogEventsFailed);
      }
      var page := step.response.page;
      assert steps[..i + 1] == steps[..i] + [step];
      PageEventsSnoc(steps[..i], step);
      if |page.events| == 0 && page.nextToken.None? {
        assert page.events == [];
        assert PageEvents(steps[..i]) + page.events == PageEvents(steps[..i]);
        assert StepError(step).None?;
        assert i == FirstStop(steps);
        assert acc == ObserveAll(env, map[], ProcessedEvents(steps));
        break;
      }
      ObserveAllAppend(env, map[], PageEvents(steps[..i]), page.events);
      acc, eventCount := ProcessEventsInPage(env, acc, eventCount, page.events);
      if page.nextToken.None? {
        assert i == FirstStop(steps);
        assert acc == ObserveAll(env, map[], ProcessedEvents(steps));
        break;
      }
      i := i + 1;
    }
    groups := Some(acc);
    assert i == FirstStop(steps);
    err := None;
  }

  /** The steps after the last one the loop consumes are never looked at. */
  lemma {:induction false} FirstStopPrefix(steps: seq<FetchStep>, more: seq<FetchStep>)
    requires EndsListing(steps)
    ensures EndsListing(steps + more)
    ensures FirstStop(steps + more) == FirstStop(steps)
    ensures ProcessedEvents(steps + more) == ProcessedEvents(steps)
  {
    var k := FirstStop(steps);
    assert (steps + more)[k] == steps[k];
    assert (steps + more)[..k + 1] == steps[..k + 1];
    assert (steps + more)[..k] == steps[..k];
  }

  /** parseAllEventsWithFilterClient: the report lines and the number of event lines,
      or the fetch error with no line at all. */
  method ParseAllEventsWithFilter(env: Env, fmt: int -> string, steps: seq<FetchStep>)
    returns (lines: seq<string>, count: nat, err: Option<Error>)
    requires ValidEnv(env)
    requires EndsListing(steps)
    ensures err == StepError(steps[FirstStop(steps)])
    ensures err.Some? ==> lines == [] && count == 0
    ensures err.None? ==> lines == ReportLines(fmt, ObserveAll(env, map[], ProcessedEvents(steps)))
    ensures err.None? ==> count == ReportEventCount(ObserveAll(env, map[], ProcessedEvents(steps)))
  {
    var groups, _, e := FetchAndProcessAllEvents(env, steps);
    if e.Some? {
      return [], 0, e;
    }
    lines, count := OutputStreamEvents(fmt, groups.value);
    err := None;
  }

  // ---------------------------------------------------------------------------
  // findLogGroup

  datatype DescribeResponse = DescribeOk(names: seq<string>, nextToken: Option<string>) | DescribeFailed

  datatype DescribeStep = DescribeStep(limiterOk: bool, response: DescribeResponse)

  /** found, not found, or the process ended with os.Exit(1). */
  datatype Lookup = Found | NotFound | Exited

  predicate NameOnPage(groupName: string, step: DescribeStep) {
    step.limiterOk && step.response.DescribeOk? && groupName in step.response.names
  }

  predicate LookupEnds(groupName: string, step: DescribeStep) {
    !step.limiterOk || step.response.DescribeFailed? || groupName in step.response.names || step.response.nextToken.None?
  }

  /** The listing reaches page i: every earlier call went on to the next page. */
  predicate Reached(groupName: string, steps: seq<DescribeStep>, i: int) {
    0 <= i < |steps| && forall j :: 0 <= j < i ==> !LookupEnds(groupName, steps[j])
  }

  predicate LookupTerminates(groupName: string, steps: seq<DescribeStep>) {
    exists i :: 0 <= i < |steps| && LookupEnds(groupName, steps[i])
  }

  /** findLogGroup, one call per page, exact name comparison. A limiter error reads as
      not found; a listing error ends the process. */
  function FindLogGroup(groupName: string, steps: seq<DescribeStep>): Lookup
    requires LookupTerminates(groupName, steps)
  {
    var s := steps[0];
    if !s.limiterOk then NotFound
    else if s.response.DescribeFailed? then Exited
    else if groupName in s.response.names then Found
    else if s.response.nextToken.None? then NotFound
    else
      assert LookupTerminates(groupName, steps[1..]) by {
        var i :| 0 <= i < |steps| && LookupEnds(groupName, steps[i]);
        assert steps[1..][i - 1] == steps[i];
      }
      FindLogGroup(groupName, steps[1..])
  }

  /** Found iff some reached page lists the name; Exited iff some reached call failed
      after the limiter let it through. */
  lemma {:induction false} FindLogGroupCharacterization(groupName: string, steps: seq<DescribeStep>)
    requires LookupTerminates(groupName, steps)
    ensures FindLogGroup(groupName, steps) == Found <==>
              exists i :: Reached(groupName, steps, i) && NameOnPage(groupName, steps[i])
    ensures FindLogGroup(groupName, steps) == Exited <==>
              exists i :: Reached(groupName, steps, i) && steps[i].limiterOk && steps[i].response.DescribeFailed?
  {
    var s := steps[0];
    if LookupEnds(groupName, s) {
      forall i | Reached(groupName, steps, i)
        ensures i == 0
      {
      }
      assert Reached(groupName, steps, 0);
    } else {
      var t := steps[1..];
      assert LookupTerminates(groupName, t) by {
        var i :| 0 <= i < |steps| && LookupEnds(groupName, steps[i]);
        assert t[i - 1] == steps[i];
      }
      FindLogGroupCharacterization(groupName, t);
      forall i | 0 < i
        ensures Reached(groupName, steps, i) <==> Reached(groupName, t, i - 1)
      {
        if Reached(groupName, steps, i) {
          forall j | 0 <= j < i - 1 ensures !LookupEnds(groupName, t[j]) {
            assert t[j] == steps[j + 1];
          }
        }
        if Reached(groupName, t, i - 1) {
          forall j | 0 <= j < i ensures !LookupEnds(groupName, steps[j]) {
            if j > 0 { assert steps[j] == t[j - 1]; }
          }
        }
      }
      if exists i :: Reached(groupName, t, i) && NameOnPage(groupName, t[i]) {
        var i :| Reached(groupName, t, i) && NameOnPage(groupName, t[i]);
        assert Reached(groupName, steps, i + 1) && steps[i + 1] == t[i];
      }
      if exists i :: Reached(groupName, t, i) && t[i].limiterOk && t[i].response.DescribeFailed? {
        var i :| Reached(groupName, t, i) && t[i].limiterOk && t[i].response.DescribeFailed?;
        assert Reached(groupName, steps, i + 1) && steps[i + 1] == t[i];
      }
      if exists i :: Reached(groupName, steps, i) && NameOnPage(groupName, steps[i]) {
        var i :| Reached(groupName, steps, i) && NameOnPage(groupName, steps[i]);
        assert i > 0 && Reached(groupName, t, i - 1) && t[i - 1] == steps[i];
      }
      if exists i :: Reached(groupName, steps, i) && steps[i].limiterOk && steps[i].response.DescribeFailed? {
        var i :| Reached(groupName, steps, i) && steps[i].limiterOk && steps[i].response.DescribeFailed?;
        assert i > 0 && Reached(groupName, t, i - 1) && t[i - 1] == steps[i];
      }
    }
  }

  // ---------------------------------------------------------------------------
  // End to end: what the report says about one stream.

  /** A stream is written iff, among its events that passed the rules, none came from an
      ignored container and at least one was kept; its section is then the one of its
      reference bucket. */
  lemma ReportedStreams(env: Env, evs: seq<FilteredLogEvent>, k: string)
    requires ValidEnv(env)
    ensures var groups := ObserveAll(env, map[], evs);
            AllIn(groups, SortedKeys(groups.Keys)) &&
            (k in EmittedKeys(groups, SortedKeys(groups.Keys)) <==> !Poisoned(env, evs, k) && Accepted(env, evs, k) != [])
    ensures var groups := ObserveAll(env, map[], evs);
            k in groups && Emitted(groups[k]) ==> groups[k] == ReferenceBucket(env, evs, k)
  {
    var groups := ObserveAll(env, map[], evs);
    var ks := SortedKeys(groups.Keys);
    assert AllIn(groups, ks) by {
      forall i | 0 <= i < |ks| ensures ks[i] in groups { ElementAt(ks, i); }
    }
    EmittedKeysCharacterization(groups, ks);
    ObserveAllAt(env, evs, k);
    if Accepted(env, evs, k) != [] && !Seen(env, evs, k) {
      UnseenIsEmpty(env, evs, k);
    }
  }
}
